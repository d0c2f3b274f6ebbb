/**
 * The agent runtime driving one task. Every method is a sequence of atomic
 * segments; between two of them, at each await, other callers may abort the
 * task or replan. `base` is the state a stretch of progress is measured from.
 */
module AgentRuntimes {
  import opened Seqs
  import opened JsMaps
  import opened Graphs
  import opened Kahn
  import opened TaskGraphs
  import E = Events
  import opened EventStream
  import opened TaskProjection
  import opened TaskContents
  import opened ReplayAgreement
  import opened RuntimeModel
  import opened Openings
  import opened RuntimeRuns
  import opened RuntimeProgress
  import opened DriverRounds
  import opened NodeRuns

  const MAX_AUTO_RETRIES: nat := 1

  /** What other callers may do at an await. */
  datatype Interference = AbortTask | AddNode(spec: NodeSpec) | FinishReplan(added: seq<NodeId>, removed: seq<NodeId>)

  datatype Settlement = Settled(result: TaskResult) | SettleThrew(message: string)

  /** A result and the status it leaves; a blocked task reports a failure. */
  predicate Matches(result: TaskResult, status: NodeStatus) {
    match result
    case Success(_) => status == Completed
    case Cancelling(_) => status == Cancelled
    case Failure(_) => status == Failed || status == Blocked
  }

  /** The status a task takes from the drive behind it. */
  function StatusFor(outcome: DriveOutcome): NodeStatus {
    match outcome
    case DriveCompleted => Completed
    case DriveBlocked => Blocked
    case _ => Failed
  }

  /** What a run reports to its caller. */
  datatype TaskResult = Success(summary: string) | Failure(error: string) | Cancelling(reason: string)

  /** Whether the turn goes on after a tool call, and with which transcript. */
  datatype ToolStep = GoOn(transcript: string) | Stop(outcome: NodeOutcome)

  method MarkCompleted(graph: TaskGraph, id: NodeId, result: string) returns (ok: bool)
    requires graph.Valid()
    modifies graph
    ensures graph.Valid() && ok == old(graph.nodes.Has(id))
    ensures var g := old(graph.View());
            graph.View()
            == if ok then g.WithNode(id, g.nodes.Get(id).(result := Some(result), status := Completed)) else g
  {
    ok := graph.SetNodeResult(id, result);
    if ok {
      var _ := graph.SetNodeStatus(id, Completed);
    }
  }

  method MarkFailed(graph: TaskGraph, id: NodeId, error: string) returns (ok: bool)
    requires graph.Valid()
    modifies graph
    ensures graph.Valid() && ok == old(graph.nodes.Has(id))
    ensures var g := old(graph.View());
            graph.View() == if ok then g.WithNode(id, g.nodes.Get(id).(error := Some(error), status := Failed)) else g
  {
    ok := graph.SetNodeError(id, error);
    if ok {
      var _ := graph.SetNodeStatus(id, Failed);
    }
  }

  /** Sets every blocked node back to pending. */
  method ClearBlocked(graph: TaskGraph)
    requires graph.Valid()
    modifies graph
    ensures graph.Valid()
    ensures var g := old(graph.View());
            graph.View() == g.(nodes := MapValues(g.nodes, (n: TaskNode) => Unblocked(n)))
  {
    ghost var before := graph.nodes;
    var ids := graph.nodes.keys;
    for i := 0 to |ids|
      invariant graph.Valid() && graph.rootNodeIds == old(graph.rootNodeIds)
      invariant graph.nodes.keys == ids && graph.nodes.vals.Keys == before.vals.Keys
      invariant forall j :: 0 <= j < |ids| ==>
                  graph.nodes.vals[ids[j]] == if j < i then Unblocked(before.vals[ids[j]]) else before.vals[ids[j]]
    {
      if graph.nodes.Get(ids[i]).status == Blocked {
        var _ := graph.SetNodeStatus(ids[i], Pending);
      }
    }
  }

  class AgentTask {
    const origin: Origin
    const conversationId: int
    const maxNodeIterations: nat
    const hasGateway: bool
    /** Writing and reading the JSON checkpoint of a blocked node. */
    const writeCheckpoint: (ToolCall, string) -> string
    const readCheckpoint: string -> Option<Checkpoint>

    const graph: TaskGraph
    var status: NodeStatus
    var aborted: bool
    var sequence: nat
    var published: seq<E.AIEvent>
    /** What was published, without numbers and times. */
    ghost var log: seq<E.Body>
    var invocations: nat
    /** How much was published when the task was aborted. */
    ghost var abortedAt: nat
    /** Every answer of the gateway. */
    ghost var judged: seq<Judgement>
    /** The current node run. */
    ghost var story: Story

    // ----------------------------------------------------------------
    // State
    // ----------------------------------------------------------------

    ghost function View(): Live
      reads this`log, graph
    {
      Live(graph.View(), log)
    }

    ghost predicate Numbered()
      reads this`sequence, this`published, this`log, this`aborted, this`abortedAt
    {
      Filed(published, log, conversationId, sequence, aborted, abortedAt)
    }

    ghost predicate Valid()
      reads this`sequence, this`published, this`log, this`aborted, this`abortedAt, this`status, graph
    {
      Numbered() && Sound(origin, View(), status)
    }

    ghost predicate During(base: Live, busy: Option<NodeId>)
      reads this`sequence, this`published, this`log, this`aborted, this`abortedAt, this`status, graph
    {
      Valid() && Ongoing(origin, base, View(), busy)
    }

    /** Node `id` runs, and holds this status unless it was removed. */
    ghost predicate InRun(base: Live, id: NodeId, now: NodeStatus)
      reads this`sequence, this`published, this`log, this`aborted, this`abortedAt, this`status, graph
    {
      During(base, Some(id)) && Holds(base, View(), origin.task, id, now)
    }

    /** The log only grows, and an abort stays; a new one comes after what was published before. */
    twostate predicate Goes()
      reads this`log, this`aborted, this`abortedAt
    {
      && old(log) <= log
      && (old(aborted) ==> aborted && abortedAt == old(abortedAt))
      && (!old(aborted) && aborted ==> |old(log)| <= abortedAt)
    }

    constructor (origin: Origin, conversationId: int, maxNodeIterations: nat, hasGateway: bool,
                 writeCheckpoint: (ToolCall, string) -> string, readCheckpoint: string -> Option<Checkpoint>)
      ensures fresh(graph) && graph.Valid() && graph.View() == origin.Created().graph
      ensures Unstarted() && !aborted && invocations == 0 && judged == []
      ensures this.origin == origin && this.conversationId == conversationId
    {
      this.origin, this.conversationId := origin, conversationId;
      this.maxNodeIterations, this.hasGateway := maxNodeIterations, hasGateway;
      this.writeCheckpoint, this.readCheckpoint := writeCheckpoint, readCheckpoint;
      var g := new TaskGraph();
      origin.CreatedByAdding();
      var r := g.AddNode(origin.RootSpec());
      graph := g;
      status, aborted, sequence, published, log, invocations := Pending, false, 0, [], [], 0;
      judged, story, abortedAt := [], Begun(Astray), 0;
    }

    ghost predicate Unstarted()
      reads this
    {
      status == Pending && published == [] && log == [] && sequence == 0 && judged == [] && (aborted ==> abortedAt == 0)
    }

    /** Publishes one event under the next sequence number. */
    method Emit(body: E.Body)
      requires Numbered()
      modifies this`published, this`log, this`sequence
      ensures Numbered() && log == old(log) + [body] && Goes()
    {
      var eventId: int, now: int := *, *;
      var event := E.AIEvent(conversationId, sequence, eventId, E.CURRENT_SCHEMA_VERSION, now, body);
      FiledSnoc(published, log, conversationId, sequence, aborted, abortedAt, event);
      published, log := published + [event], log + [body];
      sequence := sequence + 1;
    }

    // ----------------------------------------------------------------
    // Atomic segments
    // ----------------------------------------------------------------

    ghost predicate Took(before: Live, step: Step)
      reads this`log, graph
    {
      View() == Next(before, origin.task, step)
    }

    lemma NodeSegment(base: Live, before: Live, step: Step, id: NodeId)
      requires Sound(origin, before, status) && Ongoing(origin, base, before, Some(id))
      requires Allowed(before, origin.task, step) && Concerns(step, id) && Numbered() && Took(before, step)
      ensures During(base, Some(id)) && before.log <= log && ToolEvents(log) == ToolEvents(before.log)
    {
      StepIsSound(origin, before, status, step);
      NodeStepContinues(origin, base, before, step, id);
      LogPrefix(before, origin.task, step);
    }

    method StartNode(id: NodeId, ghost base: Live) returns (ok: bool)
      requires During(base, Some(id))
      requires Fresh(log, origin.task) && graph.nodes.Has(id) ==> IsReady(graph.nodes, id)
      modifies this`published, this`log, this`sequence, graph
      ensures During(base, Some(id)) && Took(old(View()), Begin(id)) && ok == old(graph.nodes.Has(id))
      ensures ToolEvents(log) == old(ToolEvents(log)) && Goes()
    {
      ghost var before := View();
      ReadyMayBegin(before, origin.task, id);
      ReachedIsValid(origin, before);
      ok := graph.SetNodeStatus(id, Active);
      if ok {
        Emit(E.NodeStarted(origin.task, id));
      }
      assert Took(before, Begin(id));
      NodeSegment(base, before, Begin(id), id);
    }

    method CompleteNode(id: NodeId, result: string, ghost base: Live) returns (ok: bool)
      requires InRun(base, id, Active)
      modifies this`published, this`log, this`sequence, graph
      ensures During(base, Some(id)) && Took(old(View()), Finish(id, result)) && ok == old(graph.nodes.Has(id))
      ensures ToolEvents(log) == old(ToolEvents(log)) && Goes()
    {
      ghost var before := View();
      ActiveMayEnd(base, before, origin.task, Finish(id, result), id);
      ReachedIsValid(origin, before);
      ok := MarkCompleted(graph, id, result);
      if ok {
        Emit(E.NodeCompleted(origin.task, id, result));
      }
      assert Took(before, Finish(id, result));
      NodeSegment(base, before, Finish(id, result), id);
    }

    method FailNode(id: NodeId, error: string, ghost base: Live) returns (ok: bool)
      requires InRun(base, id, Active)
      modifies this`published, this`log, this`sequence, graph
      ensures During(base, Some(id)) && Took(old(View()), Break(id, error)) && ok == old(graph.nodes.Has(id))
      ensures ToolEvents(log) == old(ToolEvents(log)) && Goes()
    {
      ghost var before := View();
      ActiveMayEnd(base, before, origin.task, Break(id, error), id);
      ReachedIsValid(origin, before);
      ok := MarkFailed(graph, id, error);
      if ok {
        Emit(E.NodeFailed(origin.task, id, error));
      }
      assert Took(before, Break(id, error));
      NodeSegment(base, before, Break(id, error), id);
    }

    method BlockNode(id: NodeId, why: string, ghost base: Live) returns (ok: bool)
      requires InRun(base, id, Active)
      modifies this`published, this`log, this`sequence, graph
      ensures During(base, Some(id)) && Took(old(View()), Block(id, why)) && ok == old(graph.nodes.Has(id))
      ensures ToolEvents(log) == old(ToolEvents(log)) && Goes()
    {
      ghost var before := View();
      ActiveMayEnd(base, before, origin.task, Block(id, why), id);
      ReachedIsValid(origin, before);
      ok := graph.SetNodeStatus(id, Blocked);
      if ok {
        Emit(E.TaskBlocked(origin.task, Some(id), why));
      }
      assert Took(before, Block(id, why));
      NodeSegment(base, before, Block(id, why), id);
    }

    method CancelNode(id: NodeId, ghost base: Live) returns (ok: bool)
      requires InRun(base, id, Active)
      modifies graph
      ensures During(base, Some(id)) && Took(old(View()), Abandon(id)) && ok == old(graph.nodes.Has(id))
      ensures ToolEvents(log) == old(ToolEvents(log)) && Goes()
    {
      ghost var before := View();
      ActiveMayEnd(base, before, origin.task, Abandon(id), id);
      ReachedIsValid(origin, before);
      ok := graph.SetNodeStatus(id, Cancelled);
      assert Took(before, Abandon(id));
      NodeSegment(base, before, Abandon(id), id);
    }

    method NoteResult(id: NodeId, result: string, ghost now: NodeStatus, ghost base: Live) returns (ok: bool)
      requires InRun(base, id, now) && now != Completed
      modifies graph
      ensures During(base, Some(id)) && Took(old(View()), Note(id, result)) && ok == old(graph.nodes.Has(id))
    {
      ghost var before := View();
      assert Allowed(before, origin.task, Note(id, result));
      ReachedIsValid(origin, before);
      ok := graph.SetNodeResult(id, result);
      assert Took(before, Note(id, result));
      NodeSegment(base, before, Note(id, result), id);
    }

    // ----------------------------------------------------------------
    // Interference at awaits
    // ----------------------------------------------------------------

    /**
     * One node of a replan: added to the graph, then announced if the graph
     * accepts it. A refused id changes nothing; a node with a dependency that
     * does not exist stays in the graph unannounced, and the replan ends.
     */
    method ReplanAdd(spec: NodeSpec) returns (r: AddResult)
      requires Valid()
      modifies this`published, this`log, this`sequence, graph
      ensures Took(old(View()), Add(spec)) && Numbered() && graph.Valid()
      ensures r.Added? <==> !old(graph.nodes.Has(spec.id)) && MayAdd(old(graph.View()), spec)
      ensures r.AlreadyPresent? <==> old(graph.nodes.Has(spec.id))
      ensures MayAdd(old(graph.View()), spec) ==> Valid() && ToolEvents(log) == old(ToolEvents(log))
    {
      ghost var before := View();
      AddOutcome(origin, before, spec);
      r := graph.AddNode(spec);
      if r.Added? {
        Emit(Announcement(origin.task, spec));
      }
      assert Took(before, Add(spec));
      if MayAdd(before.graph, spec) { StepIsSound(origin, before, status, Add(spec)); }
    }

    /** Removes nodes one after the other, then publishes the replan event. */
    method Revise(added: seq<NodeId>, removed: seq<NodeId>)
      requires Numbered() && graph.Valid()
      modifies this`published, this`log, this`sequence, graph
      ensures Took(old(View()), Commit(added, removed)) && Numbered() && graph.Valid()
    {
      ghost var before := View();
      for i := 0 to |removed|
        invariant graph.Valid() && RemovedAll(before.graph, removed) == RemovedAll(graph.View(), removed[i..])
        invariant Numbered() && log == before.log
      {
        assert removed[i..][0] == removed[i] && removed[i..][1..] == removed[i+1..];
        var _ := graph.RemoveNode(removed[i]);
      }
      Emit(Revision(origin.task, graph.View(), added, removed));
    }

    /** The end of a replan. */
    method ReplanCommit(added: seq<NodeId>, removed: seq<NodeId>)
      requires Valid()
      modifies this`published, this`log, this`sequence, graph
      ensures Took(old(View()), Commit(added, removed)) && Numbered() && graph.Valid()
      ensures MayCommit(old(graph.View()), added, removed) ==> Valid() && ToolEvents(log) == old(ToolEvents(log))
    {
      ghost var before := View();
      ReachedIsValid(origin, before);
      Revise(added, removed);
      if MayCommit(before.graph, added, removed) { StepIsSound(origin, before, status, Commit(added, removed)); }
    }

    /** Adds a node, unless a dependency of it is missing. */
    method TryAdd(spec: NodeSpec, ghost base: Live, busy: Option<NodeId>)
      requires During(base, busy)
      modifies this`published, this`log, this`sequence, graph
      ensures During(base, busy) && Progress(old(View()), View(), origin.task, None)
      ensures ToolEvents(log) == old(ToolEvents(log))
    {
      ghost var before := View();
      if MayAdd(graph.View(), spec) {
        var _ := ReplanAdd(spec);
        ReplanStepContinues(origin, base, before, busy, Add(spec));
      } else {
        AsideIsNothing(before);
      }
    }

    /** Finishes a replan if none of its nodes has completed or failed meanwhile. */
    method TryCommit(added: seq<NodeId>, removed: seq<NodeId>, ghost base: Live, busy: Option<NodeId>)
      requires During(base, busy)
      modifies this`published, this`log, this`sequence, graph
      ensures During(base, busy) && Progress(old(View()), View(), origin.task, None)
      ensures ToolEvents(log) == old(ToolEvents(log))
    {
      ghost var before := View();
      if MayCommit(graph.View(), added, removed) {
        ReplanCommit(added, removed);
        ReplanStepContinues(origin, base, before, busy, Commit(added, removed));
      } else {
        AsideIsNothing(before);
      }
    }

    lemma AsideIsNothing(l: Live)
      ensures Progress(l, l, origin.task, None)
    {
    }

    /** The task's abort signal fires. */
    method Abort()
      requires Numbered()
      modifies this`aborted, this`abortedAt
      ensures Numbered() && aborted && Goes()
    {
      abortedAt := if aborted then abortedAt else |log|;
      aborted := true;
    }

    /** One caller gets in. */
    method Interfere(action: Interference, ghost base: Live, busy: Option<NodeId>)
      requires During(base, busy)
      modifies this`published, this`log, this`sequence, this`aborted, this`abortedAt, graph
      ensures During(base, busy) && Progress(old(View()), View(), origin.task, None)
      ensures ToolEvents(log) == old(ToolEvents(log)) && Goes()
    {
      match action {
        case AbortTask =>
          Abort();
          AsideIsNothing(View());
        case AddNode(spec) => TryAdd(spec, base, busy);
        case FinishReplan(added, removed) => TryCommit(added, removed, base, busy);
      }
    }

    /** An await: any number of callers get in. */
    method Await(ghost base: Live, busy: Option<NodeId>)
      requires During(base, busy)
      modifies this`published, this`log, this`sequence, this`aborted, this`abortedAt, graph
      ensures During(base, busy) && Progress(old(View()), View(), origin.task, None)
      ensures ToolEvents(log) == old(ToolEvents(log)) && Goes()
    {
      ghost var before := View();
      AsideIsNothing(before);
      var actions: seq<Interference> := *;
      for i := 0 to |actions|
        invariant During(base, busy) && Progress(before, View(), origin.task, None)
        invariant ToolEvents(log) == ToolEvents(before.log) && Goes()
      {
        ghost var here := View();
        Interfere(actions[i], base, busy);
        ProgressTwice(origin, before, here, View());
      }
    }

    // ----------------------------------------------------------------
    // Tool calls
    // ----------------------------------------------------------------

    /** An await while node `id` runs: it keeps its status unless it is removed. */
    method AwaitNode(id: NodeId, ghost now: NodeStatus, ghost base: Live)
      requires InRun(base, id, now)
      modifies this`published, this`log, this`sequence, this`aborted, this`abortedAt, graph
      ensures InRun(base, id, now)
      ensures Smooth(Since(base, View())) ==> Smooth(Since(base, old(View())))
      ensures SaidCancelled(Since(base, old(View()))) ==> SaidCancelled(Since(base, View()))
      ensures forall b :: Seen(Since(base, old(View())), b) ==> Seen(Since(base, View()), b)
      ensures ToolEvents(log) == old(ToolEvents(log)) && Goes()
    {
      ghost var before := View();
      Await(base, Some(id));
      SplitSince(base, before, View());
      forall b ensures Seen(Since(base, before), b) ==> Seen(Since(base, View()), b) {
        SplitSeen(base, before, View(), b);
      }
      HoldsRemains(base, before, View(), origin.task, id, now);
    }

    method SayTool(body: E.Body, id: NodeId, ghost base: Live)
      requires InRun(base, id, Active) && IsToolEvent(body)
      modifies this`published, this`log, this`sequence
      ensures InRun(base, id, Active) && Seen(Since(base, View()), body)
      ensures ToolEvents(log) == old(ToolEvents(log)) + [body] && Goes()
    {
      ghost var before := View();
      SayContinues(origin, base, before, status, id, Active, body);
      Emit(body);
      assert View() == Live(before.graph, before.log + [body]);
    }

    /** Publishes an event of a tool call, then awaits. */
    method ReportTool(body: E.Body, id: NodeId, ghost base: Live)
      requires InRun(base, id, Active) && IsToolEvent(body)
      modifies this`published, this`log, this`sequence, this`aborted, this`abortedAt, graph
      ensures InRun(base, id, Active)
      ensures ToolEvents(log) == old(ToolEvents(log)) + [body] && Goes()
      ensures Seen(Since(base, View()), body)
    {
      SayTool(body, id, base);
      AwaitNode(id, Active, base);
    }

    /** One invocation of the tool, with whatever reply, and the await for it. */
    method Invoke(call: E.ToolCallId, id: NodeId, ghost base: Live) returns (reply: Reply)
      requires InRun(base, id, Active)
      modifies this`published, this`log, this`sequence, this`aborted, this`abortedAt, graph
      modifies this`invocations
      ensures InRun(base, id, Active)
      ensures ToolEvents(log) == old(ToolEvents(log)) && Goes()
      ensures invocations == old(invocations) + 1
    {
      reply := *;
      invocations := invocations + 1;
      AwaitNode(id, Active, base);
    }

    /** Cancelled before the attempt, or one invocation and what follows from its reply. */
    method TryOnce(call: E.ToolCallId, final: bool, id: NodeId, ghost base: Live)
      returns (r: Reaction, ghost reply: Option<Reply>)
      requires InRun(base, id, Active)
      modifies this`published, this`log, this`sequence, this`aborted, this`abortedAt, graph
      modifies this`invocations
      ensures InRun(base, id, Active) && Goes() && ToolEvents(log) == old(ToolEvents(log))
      ensures r.Answer? ==> Bracket(E.ToolStarted(call), r.end) && IsToolEvent(r.end)
      ensures invocations == old(invocations) + if reply.Some? then 1 else 0
      ensures r.Retry? ==> reply.Some? && !final && Retryable(reply.value)
      ensures r.Answer? ==>
                if reply.Some? then Concluded(call, reply.value, final, r.end, r.outcome, aborted)
                else CancelledBefore(call, r.end, r.outcome, aborted)
      ensures reply.None? <==> old(aborted)
    {
      if aborted {
        r, reply := Answer("cancelled", E.ToolFailed(call, "Cancelled: Tool call cancelled")), None;
      } else {
        var answer := Invoke(call, id, base);
        r, reply := React(call, answer, final, aborted), Some(answer);
      }
    }

    /** One attempt, and the event that ends the call if it decides. */
    method AttemptCall(call: E.ToolCallId, final: bool, id: NodeId, ghost base: Live)
      returns (r: Reaction, ghost reply: Option<Reply>)
      requires InRun(base, id, Active)
      modifies this`published, this`log, this`sequence, this`aborted, this`abortedAt, graph
      modifies this`invocations
      ensures InRun(base, id, Active) && Goes()
      ensures r.Retry? ==> ToolEvents(log) == old(ToolEvents(log))
      ensures r.Answer? ==> ToolEvents(log) == old(ToolEvents(log)) + [r.end]
      ensures r.Answer? ==> Bracket(E.ToolStarted(call), r.end) && Seen(Since(base, View()), r.end)
      ensures invocations == old(invocations) + if reply.Some? then 1 else 0
      ensures r.Retry? ==> reply.Some? && !final && Retryable(reply.value)
      ensures r.Answer? ==>
                if reply.Some? then Concluded(call, reply.value, final, r.end, r.outcome, aborted)
                else CancelledBefore(call, r.end, r.outcome, aborted)
      ensures reply.None? <==> old(aborted)
    {
      r, reply := TryOnce(call, final, id, base);
      if r.Answer? {
        ReportTool(r.end, id, base);
      }
    }

    /** The attempts of one call, until one of them decides. */
    method AttemptAll(call: E.ToolCallId, id: NodeId, ghost base: Live)
      returns (outcome: string, ghost end: E.Body, ghost tried: Tried)
      requires InRun(base, id, Active)
      modifies this`published, this`log, this`sequence, this`aborted, this`abortedAt, graph
      modifies this`invocations
      ensures InRun(base, id, Active) && Goes()
      ensures ToolEvents(log) == old(ToolEvents(log)) + [end]
      ensures Bracket(E.ToolStarted(call), end) && Seen(Since(base, View()), end)
      ensures invocations == old(invocations) + tried.Count()
      ensures ToolVerdict(call, tried, end, outcome, aborted)
      ensures old(aborted) ==> tried.Untried?
    {
      tried := Untried;
      var attempt := 1;
      while true
        invariant InRun(base, id, Active) && Goes()
        invariant tried.Count() == attempt - 1 <= MAX_AUTO_RETRIES
        invariant invocations == old(invocations) + tried.Count()
        invariant old(aborted) ==> tried.Untried?
        invariant tried.Once? ==> Retryable(tried.first)
        invariant ToolEvents(log) == old(ToolEvents(log))
        decreases MAX_AUTO_RETRIES + 1 - attempt
      {
        var r;
        ghost var reply;
        r, reply := AttemptCall(call, attempt == MAX_AUTO_RETRIES + 1, id, base);
        tried := if reply.Some? then tried.And(reply.value) else tried;
        if r.Answer? {
          return r.outcome, r.end, tried;
        }
        attempt := attempt + 1;
      }
    }

    /** The gateway's answer is noted; a gateway that throws counts as blocking, none as letting through. */
    method AskGateway(call: ToolCall, id: NodeId, ghost base: Live) returns (blocked: bool)
      requires InRun(base, id, Active)
      modifies this`published, this`log, this`sequence, this`aborted, this`abortedAt, graph
      modifies this`judged
      ensures InRun(base, id, Active) && (blocked ==> hasGateway)
      ensures judged == old(judged) + [Judgement(call, blocked)]
      ensures ToolEvents(log) == old(ToolEvents(log)) && Goes()
    {
      blocked := false;
      if hasGateway {
        blocked := *;
        AwaitNode(id, Active, base);
      }
      judged := judged + [Judgement(call, blocked)];
    }

    /** One act more in the story, and nothing else. */
    twostate predicate Acted(act: Act)
      reads this`story
    {
      && story == Told(old(story), act) && (old(Scripted(story)) ==> Scripted(story))
      && Turns(story.run) == old(Turns(story.run)) + (if act.Asked? then 1 else 0)
    }

    /** Records one act in the history of the node run. */
    ghost method Tell(act: Act)
      modifies this`story
      ensures Acted(act)
    {
      if Scripted(story) { ToldIsScripted(story, act); }
      TurnsSnoc(story.run, Stage(act, After(story.talk, act)));
      story := Told(story, act);
    }

    /** A call that got past the gateway: its start, its attempts, its end. */
    method CallTool(call: E.ToolCallId, id: NodeId, ghost base: Live)
      returns (outcome: string, ghost end: E.Body, ghost tried: Tried)
      requires InRun(base, id, Active)
      modifies this`published, this`log, this`sequence, this`aborted, this`abortedAt, graph
      modifies this`invocations
      ensures InRun(base, id, Active) && Goes()
      ensures invocations == old(invocations) + tried.Count()
      ensures ToolVerdict(call, tried, end, outcome, aborted)
      ensures Bracket(E.ToolStarted(call), end) && Seen(Since(base, View()), end)
      ensures ToolEvents(log) == old(ToolEvents(log)) + [E.ToolStarted(call)] + [end]
      ensures old(aborted) ==> tried.Untried?
    {
      ghost var before := ToolEvents(log);
      ReportTool(E.ToolStarted(call), id, base);
      assert ToolEvents(log) == before + [E.ToolStarted(call)];
      outcome, end, tried := AttemptAll(call, id, base);
    }

    /**
     * A call the gateway blocks invokes nothing and publishes nothing. Any
     * other call publishes one start and one end around at most two
     * invocations, the second only after a transient failure that is no denial.
     */
    method ExecuteToolCall(call: ToolCall, id: NodeId, ghost base: Live)
      returns (outcome: string, ghost end: Option<E.Body>, ghost tried: Tried)
      requires InRun(base, id, Active)
      modifies this`published, this`log, this`sequence, this`aborted, this`abortedAt, graph
      modifies this`invocations, this`judged
      ensures InRun(base, id, Active) && Goes()
      ensures judged == old(judged) + [Judgement(call, end.None?)]
      ensures invocations == old(invocations) + tried.Count()
      ensures end.None? ==>
                hasGateway && outcome == "blocked" && tried.Untried? && ToolEvents(log) == old(ToolEvents(log))
      ensures end.Some? ==>
                && ToolVerdict(call.id, tried, end.value, outcome, aborted)
                && Bracket(E.ToolStarted(call.id), end.value) && Seen(Since(base, View()), end.value)
                && ToolEvents(log) == old(ToolEvents(log)) + [E.ToolStarted(call.id)] + [end.value]
      ensures old(aborted) ==> tried.Untried?
    {
      var blocked := AskGateway(call, id, base);
      if blocked {
        return "blocked", None, Untried;
      }
      ghost var e;
      outcome, e, tried := CallTool(call.id, id, base);
      end := Some(e);
    }

    // ----------------------------------------------------------------
    // Node runs
    // ----------------------------------------------------------------

    /** Every tool call so far has its start and its end, and is one the gateway let through. */
    ghost predicate Balanced()
      reads this`log, this`judged
    {
      Accounted(ToolEvents(log), judged)
    }

    /** No tool call has failed since `base`. */
    ghost predicate Unharmed(base: Live)
      reads this`log
    {
      Unfailed(ToolEvents(log), |ToolEvents(base.log)|)
    }

    /** The ways out of a node run. Each throws when the node is gone. */
    method LeaveDone(id: NodeId, result: string, ghost base: Live) returns (r: NodeOutcome)
      requires InRun(base, id, Active)
      modifies this`published, this`log, this`sequence, this`aborted, this`abortedAt, graph
      ensures During(base, Some(id)) && Ended(r, base, View(), origin.task, aborted, id)
      ensures if r.NodeDone? then Seen(Since(base, View()), E.NodeCompleted(origin.task, id, result))
              else r.NodeThrew? && !graph.nodes.Has(id)
      ensures ToolEvents(log) == old(ToolEvents(log)) && Goes()
    {
      ghost var before := View();
      StepHolds(base, before, origin.task, Finish(id, result), id);
      var ok := CompleteNode(id, result, base);
      if !ok {
        return NodeThrew("Unknown task node");
      }
      SaidSince(base, before, View(), E.NodeCompleted(origin.task, id, result));
      AwaitNode(id, Completed, base);
      return NodeDone;
    }

    /** Fails the node and leaves the run. */
    method LeaveBroken(id: NodeId, error: string, ghost base: Live) returns (r: NodeOutcome)
      requires InRun(base, id, Active)
      modifies this`published, this`log, this`sequence, this`aborted, this`abortedAt, graph
      ensures During(base, Some(id)) && Ended(r, base, View(), origin.task, aborted, id)
      ensures if r.NodeBroken? then Seen(Since(base, View()), E.NodeFailed(origin.task, id, error))
              else r.NodeThrew? && !graph.nodes.Has(id)
      ensures r.NodeThrew? <==> !old(graph.nodes.Has(id))
      ensures ToolEvents(log) == old(ToolEvents(log)) && Goes()
    {
      ghost var before := View();
      StepHolds(base, before, origin.task, Break(id, error), id);
      var ok := FailNode(id, error, base);
      if !ok {
        return NodeThrew("Unknown task node");
      }
      RoughStep(base, before, origin.task, Break(id, error));
      SaidSince(base, before, View(), E.NodeFailed(origin.task, id, error));
      AwaitNode(id, Failed, base);
      return NodeBroken;
    }

    /** Blocks the node and publishes why. */
    method Hold(id: NodeId, why: string, ghost base: Live) returns (ok: bool)
      requires InRun(base, id, Active)
      modifies this`published, this`log, this`sequence, this`aborted, this`abortedAt, graph
      ensures InRun(base, id, Blocked) && if ok then !Smooth(Since(base, View())) else !graph.nodes.Has(id)
      ensures ok ==> Seen(Since(base, View()), E.TaskBlocked(origin.task, Some(id), why))
      ensures ToolEvents(log) == old(ToolEvents(log)) && Goes()
    {
      ghost var before := View();
      StepHolds(base, before, origin.task, Block(id, why), id);
      ok := BlockNode(id, why, base);
      if ok {
        RoughStep(base, before, origin.task, Block(id, why));
        SaidSince(base, before, View(), E.TaskBlocked(origin.task, Some(id), why));
        AwaitNode(id, Blocked, base);
      }
    }

    /** The node's result is the checkpoint of this call. */
    ghost predicate Checkpointed(id: NodeId, call: ToolCall, transcript: string)
      reads graph
    {
      graph.nodes.Has(id) && graph.nodes.Get(id).result == Some(writeCheckpoint(call, transcript))
    }

    /** Writes the checkpoint a resumed run begins with. */
    method Bookmark(id: NodeId, call: ToolCall, transcript: string, ghost base: Live) returns (ok: bool)
      requires InRun(base, id, Blocked)
      modifies graph
      ensures InRun(base, id, Blocked) && if ok then Checkpointed(id, call, transcript) else !graph.nodes.Has(id)
      ensures log == old(log)
    {
      ghost var here := View();
      var checkpoint := writeCheckpoint(call, transcript);
      StepHolds(base, here, origin.task, Note(id, checkpoint), id);
      ok := NoteResult(id, checkpoint, Blocked, base);
    }

    /** Blocks the node with its checkpoint and leaves the run. */
    method LeaveHeld(id: NodeId, call: ToolCall, transcript: string, ghost base: Live) returns (r: NodeOutcome)
      requires InRun(base, id, Active)
      modifies this`published, this`log, this`sequence, this`aborted, this`abortedAt, graph
      ensures During(base, Some(id)) && Ended(r, base, View(), origin.task, aborted, id)
      ensures if r.NodeHeld? then
                && Seen(Since(base, View()), E.TaskBlocked(origin.task, Some(id), Petition(call)))
                && Checkpointed(id, call, transcript)
              else r.NodeThrew? && !graph.nodes.Has(id)
      ensures ToolEvents(log) == old(ToolEvents(log)) && Goes()
    {
      var ok := Hold(id, Petition(call), base);
      if ok {
        ok := Bookmark(id, call, transcript, base);
      }
      return if ok then NodeHeld else NodeThrew("Unknown task node");
    }

    /** Cancels the node and leaves the run. */
    method LeaveDropped(id: NodeId, ghost base: Live) returns (r: NodeOutcome)
      requires InRun(base, id, Active)
      requires aborted || SaidCancelled(Since(base, View()))
      modifies graph
      ensures During(base, Some(id)) && Ended(r, base, View(), origin.task, aborted, id)
      ensures if r.NodeDropped? then graph.nodes.Has(id) && graph.nodes.Get(id).status == Cancelled
              else r.NodeThrew? && !graph.nodes.Has(id)
      ensures r.NodeThrew? <==> !old(graph.nodes.Has(id))
    {
      StepHolds(base, View(), origin.task, Abandon(id), id);
      var ok := CancelNode(id, base);
      return if ok then NodeDropped else NodeThrew("Unknown task node");
    }

    /** A tool call whose text or verdict is "cancelled": aborted, or the tool said so. */
    lemma CancelledIsExcused(call: E.ToolCallId, tried: Tried, end: E.Body, base: Live)
      requires base.log <= log && Seen(Since(base, View()), end) && ToolVerdict(call, tried, end, "cancelled", aborted)
      ensures aborted || SaidCancelled(Since(base, View()))
    {
      SeenIsRough(Since(base, View()), end);
      if !aborted {
        assert end == E.ToolCompleted(call, "cancelled");
      }
    }

    /** A run that is over, and why. It throws when the node is gone, or what the model threw. */
    ghost predicate Halted(r: NodeOutcome, id: NodeId, base: Live)
      reads this, graph
    {
      && During(base, Some(id)) && Ended(r, base, View(), origin.task, aborted, id) && Scripted(story)
      && Played(r, story.talk, Since(base, View()), origin.task, aborted, id)
      && (r.NodeHeld? ==> Checkpointed(id, story.talk.call, story.talk.transcript))
      && (r.NodeThrew? ==> !graph.nodes.Has(id) || story.talk == Lost(r.message))
    }

    /** The run goes on, and no tool call has failed in it. */
    ghost predicate Steady(id: NodeId, base: Live)
      reads this, graph
    {
      InRun(base, id, Active) && Balanced() && Unharmed(base) && Scripted(story)
    }

    /** It goes on after the first `next` of these calls. */
    ghost predicate GoesOn(r: ToolStep, calls: seq<ToolCall>, next: nat, id: NodeId, base: Live)
      reads this, graph
    {
      r.GoOn? && Steady(id, base) && story.talk == Going(r.transcript, calls, next)
    }

    /** Completes the node with the transcript so far. */
    method Complete(transcript: string, id: NodeId, ghost base: Live) returns (r: NodeOutcome)
      requires Steady(id, base) && (story.talk.Said? || story.talk.Going?) && story.talk.transcript == transcript
      modifies this`published, this`log, this`sequence, this`aborted, this`abortedAt, graph
      ensures Halted(r, id, base) && Goes() && Balanced() && Unharmed(base)
      ensures r.NodeDone? || r.NodeThrew?
    {
      r := LeaveDone(id, OrNothing(transcript), base);
    }

    /** Abandons the node after an abort. */
    method Drop(id: NodeId, ghost base: Live) returns (r: NodeOutcome)
      requires InRun(base, id, Active) && Scripted(story) && aborted && !story.talk.Astray?
      requires graph.nodes.Has(id) ==> story.talk.Going? || story.talk.Lost?
      modifies graph
      ensures Halted(r, id, base) && (r.NodeThrew? ==> !graph.nodes.Has(id))
      ensures if old(graph.nodes.Has(id)) then r.NodeDropped? else r.NodeThrew?
    {
      r := LeaveDropped(id, base);
    }

    /** Fails the node with what the model threw. */
    method Fail(id: NodeId, message: string, ghost base: Live) returns (r: NodeOutcome)
      requires InRun(base, id, Active) && Balanced() && Scripted(story) && !story.talk.Astray?
      requires graph.nodes.Has(id) ==> story.talk == Lost(message)
      modifies this`published, this`log, this`sequence, this`aborted, this`abortedAt, graph
      ensures Halted(r, id, base) && Goes() && Balanced() && (r.NodeThrew? ==> !graph.nodes.Has(id))
      ensures if old(graph.nodes.Has(id)) then r.NodeBroken? else r.NodeThrew?
    {
      r := LeaveBroken(id, message, base);
    }

    /** Notes the transcript so far on the node. */
    method Jot(transcript: string, id: NodeId, ghost base: Live) returns (left: Option<NodeOutcome>)
      requires InRun(base, id, Active) && Scripted(story) && !story.talk.Astray?
      modifies graph
      ensures if left.None? then InRun(base, id, Active) else Halted(left.value, id, base) && left.value.NodeThrew?
    {
      StepHolds(base, View(), origin.task, Note(id, transcript), id);
      var ok := NoteResult(id, transcript, Active, base);
      return if ok then None else Some(NodeThrew("Unknown task node"));
    }

    /** What a tool outcome means for the node, unless the node is gone. */
    ghost predicate Obeys(r: ToolStep, call: ToolCall, transcript: string, outcome: string, id: NodeId, base: Live)
      reads this`log, graph
      requires base.log <= log
    {
      match KindOf(outcome)
      case None => r == GoOn(Joined(transcript, LineFor(call, outcome)))
      case Some(kind) => Gone(r, id) || (r.Stop? && Befell(r.outcome, kind, call, transcript, id, base))
    }

    /** A replan removed the node, so that the update throws. */
    ghost predicate Gone(r: ToolStep, id: NodeId)
      reads graph
    {
      r.Stop? && r.outcome.NodeThrew? && !graph.nodes.Has(id)
    }

    /** The node failed, waits for approval with this call as its checkpoint, or is cancelled. */
    ghost predicate Befell(r: NodeOutcome, kind: Kind, call: ToolCall, transcript: string, id: NodeId, base: Live)
      reads this`log, graph
      requires base.log <= log
    {
      match kind
      case ByFailure => r.NodeBroken? && Seen(Since(base, View()), Failing(id, call))
      case ByBlock =>
        && r.NodeHeld? && Checkpointed(id, call, transcript)
        && Seen(Since(base, View()), E.TaskBlocked(origin.task, Some(id), Petition(call)))
      case ByCancel => r.NodeDropped? && graph.nodes.Has(id) && graph.nodes.Get(id).status == Cancelled
    }

    function Failing(id: NodeId, call: ToolCall): E.Body {
      E.NodeFailed(origin.task, id, "Tool \"" + call.name + "\" failed")
    }

    /** Uses no tool and asks nobody. */
    twostate predicate Silent()
      reads this`story, this`judged, this`log
    {
      story == old(story) && judged == old(judged) && ToolEvents(log) == old(ToolEvents(log))
    }

    /** Executes a call that is due, and keeps the accounts. */
    method UseDue(call: ToolCall, ghost transcript: string, ghost calls: seq<ToolCall>, ghost i: nat, id: NodeId,
                  ghost base: Live)
      returns (outcome: string, ghost end: Option<E.Body>, ghost tried: Tried)
      requires Steady(id, base)
      requires i < |calls| && calls[i] == call && story.talk == Going(transcript, calls, i)
      modifies this`published, this`log, this`sequence, this`aborted, this`abortedAt, graph
      modifies this`invocations, this`judged, this`story
      ensures InRun(base, id, Active) && Balanced() && Goes() && Acted(Used(call, outcome)) && Scripted(story)
      ensures judged == old(judged) + [Judgement(call, end.None?)] && (end.None? ==> outcome == "blocked")
      ensures end.Some? ==> ToolVerdict(call.id, tried, end.value, outcome, aborted)
      ensures if Ending(outcome) then story.talk == Stopped(call, KindOf(outcome).value, transcript)
              else Unharmed(base) && story.talk == Going(Joined(transcript, LineFor(call, outcome)), calls, i + 1)
      ensures outcome == "cancelled" ==> aborted || SaidCancelled(Since(base, View()))
    {
      outcome, end, tried := UseCounted(call, id, base);
      Tell(Used(call, outcome));
      AfterUse(transcript, calls, i, outcome);
    }

    /** Executes a call and keeps verdicts and tool events in step. */
    method UseCounted(call: ToolCall, id: NodeId, ghost base: Live)
      returns (outcome: string, ghost end: Option<E.Body>, ghost tried: Tried)
      requires InRun(base, id, Active) && Balanced() && Unharmed(base)
      modifies this`published, this`log, this`sequence, this`aborted, this`abortedAt, graph
      modifies this`invocations, this`judged
      ensures InRun(base, id, Active) && Balanced() && Goes()
      ensures judged == old(judged) + [Judgement(call, end.None?)] && (end.None? ==> outcome == "blocked")
      ensures end.Some? ==> ToolVerdict(call.id, tried, end.value, outcome, aborted)
      ensures !Ending(outcome) ==> Unharmed(base)
      ensures outcome == "cancelled" ==> aborted || SaidCancelled(Since(base, View()))
    {
      ghost var events, answers := ToolEvents(log), judged;
      outcome, end, tried := ExecuteToolCall(call, id, base);
      if end.Some? {
        OneMoreCall(events, answers, call, end.value);
        if outcome == "cancelled" { CancelledIsExcused(call.id, tried, end.value, base); }
        if !Ending(outcome) { UnfailedGrows(events, |ToolEvents(base.log)|, E.ToolStarted(call.id), end.value); }
      } else {
        OneMoreBlock(events, answers, call);
      }
    }

    /** Ends the node the way a tool outcome asks for. */
    method StopBy(kind: Kind, call: ToolCall, transcript: string, id: NodeId, ghost base: Live)
      returns (left: NodeOutcome)
      requires InRun(base, id, Active)
      requires kind == ByCancel ==> aborted || SaidCancelled(Since(base, View()))
      modifies this`published, this`log, this`sequence, this`aborted, this`abortedAt, graph
      ensures During(base, Some(id)) && Goes() && ToolEvents(log) == old(ToolEvents(log))
      ensures Gone(Stop(left), id) || Befell(left, kind, call, transcript, id, base)
      ensures Ended(left, base, View(), origin.task, aborted, id)
    {
      match kind {
        case ByBlock => left := LeaveHeld(id, call, transcript, base);
        case ByCancel => left := LeaveDropped(id, base);
        case ByFailure => left := LeaveBroken(id, "Tool \"" + call.name + "\" failed", base);
      }
    }

    /** What the outcome text of a call does to its node. */
    method AfterTool(call: ToolCall, transcript: string, outcome: string, id: NodeId, ghost base: Live)
      returns (r: ToolStep)
      requires InRun(base, id, Active)
      requires outcome == "cancelled" ==> aborted || SaidCancelled(Since(base, View()))
      modifies this`published, this`log, this`sequence, this`aborted, this`abortedAt, graph
      ensures During(base, Some(id)) && Goes()
      ensures ToolEvents(log) == old(ToolEvents(log))
      ensures Obeys(r, call, transcript, outcome, id, base)
      ensures if r.GoOn? then InRun(base, id, Active) else Ended(r.outcome, base, View(), origin.task, aborted, id)
    {
      var left: NodeOutcome;
      if outcome == "blocked" {
        left := StopBy(ByBlock, call, transcript, id, base);
        return Stop(left);
      }
      if outcome == "cancelled" {
        left := StopBy(ByCancel, call, transcript, id, base);
        return Stop(left);
      }
      if outcome == "failed" {
        left := StopBy(ByFailure, call, transcript, id, base);
        return Stop(left);
      }
      if outcome == "failed-transient" {
        return GoOn(Joined(transcript, "[Tool " + call.name + " retried]"));
      }
      return GoOn(Joined(transcript, "[Tool " + call.name + " result: " + outcome + "]"));
    }

    /** A run ended by a tool outcome stands where that outcome left it. */
    lemma ObeyingHalts(r: NodeOutcome, call: ToolCall, transcript: string, outcome: string, id: NodeId, base: Live)
      requires During(base, Some(id)) && Ended(r, base, View(), origin.task, aborted, id)
      requires Scripted(story) && !story.talk.Astray?
      requires Obeys(Stop(r), call, transcript, outcome, id, base)
      requires Ending(outcome) ==> story.talk == Stopped(call, KindOf(outcome).value, transcript)
      ensures Halted(r, id, base) && !r.NodeDone?
    {
    }

    /** One tool call, executed, and what its outcome means for the node. */
    method PlayTool(call: ToolCall, transcript: string, ghost calls: seq<ToolCall>, ghost i: nat, id: NodeId,
                      ghost base: Live)
      returns (r: ToolStep, ghost outcome: string)
      requires Steady(id, base)
      requires i < |calls| && calls[i] == call && story.talk == Going(transcript, calls, i)
      modifies this`published, this`log, this`sequence, this`aborted, this`abortedAt, graph
      modifies this`invocations, this`judged, this`story
      ensures During(base, Some(id)) && Balanced() && Goes()
      ensures Acted(Used(call, outcome)) && Obeys(r, call, transcript, outcome, id, base)
      ensures if r.GoOn? then GoesOn(r, calls, i + 1, id, base) else Halted(r.outcome, id, base) && !r.outcome.NodeDone?
    {
      var said;
      ghost var end, tried;
      said, end, tried := UseDue(call, transcript, calls, i, id, base);
      outcome := said;
      r := AfterTool(call, transcript, said, id, base);
      if r.Stop? { ObeyingHalts(r.outcome, call, transcript, said, id, base); }
    }

    /** Before a call: stop if aborted, else note the transcript. */
    method Prepare(transcript: string, id: NodeId, ghost base: Live) returns (left: Option<NodeOutcome>)
      requires InRun(base, id, Active) && Scripted(story) && story.talk.Going?
      modifies graph
      ensures if left.None? then InRun(base, id, Active) else Halted(left.value, id, base) && !left.value.NodeDone?
      ensures old(aborted) ==> left.Some?
      ensures left.Some? ==> old(aborted) || left.value.NodeThrew?
    {
      if aborted {
        var dropped := Drop(id, base);
        return Some(dropped);
      }
      left := Jot(transcript, id, base);
    }

    /**
     * One requested tool call and what its outcome means for the node. After
     * an abort, or when the node is gone, the call is not executed.
     */
    method UseTool(call: ToolCall, transcript: string, ghost calls: seq<ToolCall>, ghost i: nat, id: NodeId,
                      ghost base: Live)
      returns (r: ToolStep, ghost used: Option<string>)
      requires Steady(id, base)
      requires i < |calls| && calls[i] == call && story.talk == Going(transcript, calls, i)
      modifies this`published, this`log, this`sequence, this`aborted, this`abortedAt, graph
      modifies this`invocations, this`judged, this`story
      ensures During(base, Some(id)) && Balanced() && Goes()
      ensures old(aborted) ==> used.None?
      ensures used.None? ==> r.Stop? && Silent() && (old(aborted) || r.outcome.NodeThrew?)
      ensures used.Some? ==> Acted(Used(call, used.value)) && Obeys(r, call, transcript, used.value, id, base)
      ensures story.start == old(story.start)
      ensures Turns(story.run) == old(Turns(story.run))
      ensures if r.GoOn? then GoesOn(r, calls, i + 1, id, base) else Halted(r.outcome, id, base) && !r.outcome.NodeDone?
    {
      var left := Prepare(transcript, id, base);
      if left.Some? {
        return Stop(left.value), None;
      }
      ghost var outcome;
      r, outcome := PlayTool(call, transcript, calls, i, id, base);
      used := Some(outcome);
    }

    /** The tool calls of one turn, in order, until one of them ends the node. */
    method UseTools(calls: seq<ToolCall>, transcript: string, id: NodeId, ghost base: Live) returns (r: ToolStep)
      requires Steady(id, base) && story.talk == Going(transcript, calls, 0)
      modifies this`published, this`log, this`sequence, this`aborted, this`abortedAt, graph
      modifies this`invocations, this`judged, this`story
      ensures During(base, Some(id)) && Balanced() && Goes()
      ensures story.start == old(story.start)
      ensures Turns(story.run) == old(Turns(story.run))
      ensures if r.GoOn? then GoesOn(r, calls, |calls|, id, base)
              else Halted(r.outcome, id, base) && !r.outcome.NodeDone?
    {
      r := GoOn(transcript);
      for i := 0 to |calls|
        invariant Goes() && GoesOn(r, calls, i, id, base) && story.start == old(story.start)
        invariant Turns(story.run) == old(Turns(story.run))
      {
        ghost var used;
        r, used := UseTool(calls[i], r.transcript, calls, i, id, base);
        if r.Stop? {
          return;
        }
      }
    }

    /** A model turn, whatever the model answers. */
    method AskModel(transcript: string, id: NodeId, ghost base: Live) returns (turn: Turn)
      requires InRun(base, id, Active)
      modifies this`published, this`log, this`sequence, this`aborted, this`abortedAt, graph
      modifies this`story
      ensures InRun(base, id, Active)
      ensures Acted(Asked(transcript, turn))
      ensures ToolEvents(log) == old(ToolEvents(log)) && Goes()
    {
      turn := *;
      Tell(Asked(transcript, turn));
      AwaitNode(id, Active, base);
    }

    /** The rest of a turn: note the transcript, then complete or use the tools asked for. */
    method FinishTurn(said: string, calls: seq<ToolCall>, transcript: string, id: NodeId, ghost base: Live)
      returns (r: ToolStep)
      requires Steady(id, base)
      requires var soFar := Continued(transcript, said);
               story.talk == if calls == [] then Said(soFar) else Going(soFar, calls, 0)
      modifies this`published, this`log, this`sequence, this`aborted, this`abortedAt, graph
      modifies this`invocations, this`judged, this`story
      ensures During(base, Some(id)) && Balanced() && Goes()
      ensures story.start == old(story.start)
      ensures Turns(story.run) == old(Turns(story.run))
      ensures r.Stop? && r.outcome.NodeDone? ==> Unharmed(base) && story.talk.Said?
      ensures if r.GoOn? then Steady(id, base) && NoneDue(story.talk, r.transcript) else Halted(r.outcome, id, base)
    {
      var soFar := if said == "" then transcript else Joined(transcript, said);
      var left := Jot(soFar, id, base);
      if left.Some? {
        return Stop(left.value);
      }
      if |calls| == 0 {
        var done := Complete(soFar, id, base);
        return Stop(done);
      }
      r := UseTools(calls, soFar, id, base);
    }

    /**
     * One turn: the pending calls if there are any, else the model; then the
     * tools it asks for. After an abort nobody is asked.
     */
    method TakeTurn(pending: Option<seq<ToolCall>>, transcript: string, id: NodeId, ghost base: Live)
      returns (r: ToolStep)
      requires Steady(id, base)
      requires if pending.Some? then pending.value != [] && story.talk == Going(transcript, pending.value, 0)
               else NoneDue(story.talk, transcript)
      modifies this`published, this`log, this`sequence, this`aborted, this`abortedAt, graph
      modifies this`invocations, this`judged, this`story
      ensures During(base, Some(id)) && Balanced() && Goes()
      ensures old(aborted) ==> r.Stop? && Silent()
      ensures story.start == old(story.start)
      ensures r.GoOn? ==> Turns(story.run) == old(Turns(story.run)) + if pending.Some? then 0 else 1
      ensures r.Stop? && r.outcome.NodeDone? ==> Unharmed(base) && story.talk.Said?
      ensures if r.GoOn? then Steady(id, base) && NoneDue(story.talk, r.transcript) else Halted(r.outcome, id, base)
    {
      if aborted {
        var dropped := Drop(id, base);
        return Stop(dropped);
      }
      if pending.Some? {
        r := FinishTurn("", pending.value, transcript, id, base);
      } else {
        var turn := AskModel(transcript, id, base);
        match turn {
          case TurnThrew(message) => r := Stop(NodeThrew(message));
          case Turn(said, calls) => r := FinishTurn(said, calls, transcript, id, base);
        }
      }
    }

    /** Where a run of a node with this result begins: a checkpoint's calls are due before the model is asked. */
    function StartOf(prior: Option<string>): Talk {
      if prior.None? || prior.value == "" then Going("", [], 0)
      else
        var recalled := readCheckpoint(prior.value);
        if recalled.Some? && recalled.value.calls != [] then Going(recalled.value.transcript, recalled.value.calls, 0)
        else Going(prior.value, [], 0)
    }

    /** One turn goes to the calls a run begins with. */
    ghost function Replays(): nat
      reads this`story
    {
      if story.start.Going? && story.start.calls != [] then 1 else 0
    }

    /** The turns are used up, and no call is due; with no turns at all nothing was done. */
    ghost predicate Exhausted()
      reads this`story
    {
      if maxNodeIterations == 0 then story.run == []
      else && story.talk.Going? && story.talk.next == |story.talk.calls|
           && Turns(story.run) + Replays() == maxNodeIterations
    }

    /** What a node's result lets its next run begin with. */
    method Recall(prior: Option<string>) returns (transcript: string, pending: Option<seq<ToolCall>>)
      ensures pending.Some? ==> pending.value != []
      ensures StartOf(prior) == Going(transcript, if pending.Some? then pending.value else [], 0)
    {
      transcript, pending := "", None;
      if prior.Some? && prior.value != "" {
        var recalled := readCheckpoint(prior.value);
        if recalled.Some? && |recalled.value.calls| > 0 {
          pending, transcript := Some(recalled.value.calls), recalled.value.transcript;
        } else {
          transcript := prior.value;
        }
      }
    }

    /** The turns of a node run, up to the one that ends it. */
    method TakeEach(first: Option<seq<ToolCall>>, told: string, id: NodeId, ghost base: Live)
      returns (left: Option<NodeOutcome>, transcript: string)
      requires Steady(id, base) && first != Some([])
      requires story == Begun(Going(told, if first.Some? then first.value else [], 0))
      modifies this`published, this`log, this`sequence, this`aborted, this`abortedAt, graph
      modifies this`invocations, this`judged, this`story
      ensures story.start == old(story.start)
      ensures Balanced() && Goes()
      ensures left.None? ==> Steady(id, base) && Exhausted() && story.talk.Going? && story.talk.transcript == transcript
      ensures left.Some? ==> Halted(left.value, id, base)
      ensures left.Some? && left.value.NodeDone? ==> Unharmed(base) && story.talk.Said?
    {
      left, transcript := None, told;
      var pending := first;
      for turn := 0 to maxNodeIterations
        invariant Steady(id, base) && Goes() && story.start == old(story.start)
        invariant pending == if turn == 0 then first else None
        invariant turn == 0 ==> story.run == []
        invariant if pending.Some? then story.talk == Going(transcript, pending.value, 0)
                  else NoneDue(story.talk, transcript)
        invariant turn > 0 ==> Turns(story.run) + Replays() == turn
      {
        var step := TakeTurn(pending, transcript, id, base);
        if step.Stop? {
          left := Some(step.outcome);
          return;
        }
        pending, transcript := None, step.transcript;
      }
    }

    /** The turns of a node run, and completion when they run out. */
    method TakeAll(first: Option<seq<ToolCall>>, told: string, id: NodeId, ghost base: Live) returns (r: NodeOutcome)
      requires Steady(id, base) && first != Some([])
      requires story == Begun(Going(told, if first.Some? then first.value else [], 0))
      modifies this`published, this`log, this`sequence, this`aborted, this`abortedAt, graph
      modifies this`invocations, this`judged, this`story
      ensures story.start == old(story.start)
      ensures Balanced() && Goes() && Halted(r, id, base)
      ensures r.NodeDone? ==> Unharmed(base) && (story.talk.Said? || Exhausted())
    {
      var left, transcript := TakeEach(first, told, id, base);
      if left.Some? {
        return left.value;
      }
      r := Complete(transcript, id, base);
    }

    /** Starts the node. */
    method Kick(id: NodeId, ghost base: Live)
      requires During(base, Some(id)) && graph.nodes.Has(id) && base == View()
      requires Fresh(log, origin.task) ==> IsReady(graph.nodes, id)
      modifies this`published, this`log, this`sequence, this`aborted, this`abortedAt, graph
      ensures InRun(base, id, Active) && Goes() && ToolEvents(log) == old(ToolEvents(log))
      ensures base.log + [E.NodeStarted(origin.task, id)] <= log
    {
      StepHolds(base, base, origin.task, Begin(id), id);
      var _ := StartNode(id, base);
      assert log == base.log + [E.NodeStarted(origin.task, id)];
      AwaitNode(id, Active, base);
    }

    /** Starts the node, and the history of its run. */
    method Launch(id: NodeId, prior: Option<string>, ghost base: Live)
      requires During(base, Some(id)) && Balanced() && graph.nodes.Has(id) && base == View()
      requires Fresh(log, origin.task) ==> IsReady(graph.nodes, id)
      modifies this`published, this`log, this`sequence, this`aborted, this`abortedAt, graph
      modifies this`story
      ensures Steady(id, base) && Goes()
      ensures base.log + [E.NodeStarted(origin.task, id)] <= log
      ensures story == Begun(StartOf(prior))
    {
      Kick(id, base);
      story := Begun(StartOf(prior));
    }

    /** The body of a node run: start, recall, and the turns. */
    method TakeTurns(id: NodeId, ghost base: Live) returns (r: NodeOutcome)
      requires During(base, Some(id)) && Balanced() && graph.nodes.Has(id) && base == View()
      requires Fresh(log, origin.task) ==> IsReady(graph.nodes, id)
      modifies this`published, this`log, this`sequence, this`aborted, this`abortedAt, graph
      modifies this`invocations, this`judged, this`story
      ensures Balanced() && Goes() && Halted(r, id, base)
      ensures story.start == StartOf(base.graph.nodes.Get(id).result)
      ensures r.NodeDone? ==> Unharmed(base) && (story.talk.Said? || Exhausted())
      ensures base.log + [E.NodeStarted(origin.task, id)] <= log
    {
      var prior := graph.nodes.Get(id).result;
      Launch(id, prior, base);
      var transcript, pending := Recall(prior);
      r := TakeAll(pending, transcript, id, base);
    }

    /** What catching an error does: cancelled if aborted, else failed; a node that is gone throws again. */
    method Rescue(id: NodeId, message: string, ghost base: Live) returns (r: NodeOutcome)
      requires InRun(base, id, Active) && Balanced() && Scripted(story) && !story.talk.Astray?
      requires graph.nodes.Has(id) ==> story.talk == Lost(message)
      modifies this`published, this`log, this`sequence, this`aborted, this`abortedAt, graph
      ensures Halted(r, id, base) && Goes() && Balanced()
      ensures if !old(graph.nodes.Has(id)) then r.NodeThrew? && !graph.nodes.Has(id)
              else if old(aborted) then r.NodeDropped? else r.NodeBroken?
    {
      if aborted {
        r := Drop(id, base);
      } else {
        r := Fail(id, message, base);
      }
    }

    /** A node run with its errors caught: one that still throws has lost its node. */
    method AttemptNode(id: NodeId, ghost base: Live) returns (r: NodeOutcome)
      requires During(base, Some(id)) && Balanced() && graph.nodes.Has(id) && base == View()
      requires Fresh(log, origin.task) ==> IsReady(graph.nodes, id)
      modifies this`published, this`log, this`sequence, this`aborted, this`abortedAt, graph
      modifies this`invocations, this`judged, this`story
      ensures Balanced() && Goes() && Halted(r, id, base) && (r.NodeThrew? ==> !graph.nodes.Has(id))
      ensures story.start == StartOf(base.graph.nodes.Get(id).result)
      ensures r.NodeDone? ==> Unharmed(base) && (story.talk.Said? || Exhausted())
      ensures base.log + [E.NodeStarted(origin.task, id)] <= log
    {
      r := TakeTurns(id, base);
      if r.NodeThrew? {
        r := Rescue(id, r.message, base);
      }
    }

    /** Ready for a node run or a drive. */
    ghost predicate Rested()
      reads this, graph
    {
      Valid() && Balanced() && AtRest(graph.View())
    }

    /** What the history of a finished node run says of its outcome. */
    ghost predicate Explains(r: NodeOutcome, id: NodeId, base: Live)
      reads this, graph
      requires base.log <= log
    {
      && Scripted(story) && Played(r, story.talk, Since(base, View()), origin.task, aborted, id)
      && (r.NodeDone? ==> NoCallFailed(Since(base, View())) && (story.talk.Said? || Exhausted()))
    }

    /** The await between a node run and what the driver does next. */
    method AwaitNext(ghost r: NodeOutcome, id: NodeId, ghost base: Live)
      requires Balanced() && Halted(r, id, base)
      requires r.NodeDone? ==> Unharmed(base) && (story.talk.Said? || Exhausted())
      modifies this`published, this`log, this`sequence, this`aborted, this`abortedAt, graph
      ensures During(base, Some(id)) && Balanced() && Goes() && Progress(old(View()), View(), origin.task, None)
      ensures Explains(r, id, base)
      ensures Progress(base, old(View()), origin.task, Some(id))
      ensures Ended(r, base, old(View()), origin.task, old(aborted), id)
    {
      ghost var ended, wasAborted := View(), aborted;
      Await(base, Some(id));
      ExplanationRemains(r, story.talk, base, ended, View(), origin.task, wasAborted, aborted, id);
    }

    /** The same, with what is left of a node at rest. */
    method AwaitAtRest(ghost r: NodeOutcome, id: NodeId, ghost base: Live)
      requires Balanced() && Halted(r, id, base)
      requires r.NodeDone? ==> Unharmed(base) && (story.talk.Said? || Exhausted())
      requires AtRest(base.graph) && base.graph.nodes.Has(id) && base.log + [E.NodeStarted(origin.task, id)] <= log
      requires r.NodeThrew? ==> !View().graph.nodes.Has(id)
      modifies this`published, this`log, this`sequence, this`aborted, this`abortedAt, graph
      ensures During(base, Some(id)) && Balanced() && Goes() && Explains(r, id, base)
      ensures Left(r, base, View(), origin.task, aborted, id) && (!r.NodeDropped? ==> AtRest(View().graph))
      ensures Seen(Since(base, View()), E.NodeStarted(origin.task, id))
    {
      ghost var ended, wasAborted := View(), aborted;
      SaidSince(base, base, ended, E.NodeStarted(origin.task, id));
      AwaitNext(r, id, base);
      RunIsOver(r, base, ended, View(), origin.task, wasAborted, aborted, id);
    }

    /** Runs a node that is there, when the task is not aborted. */
    method RunPresent(id: NodeId, ghost base: Live) returns (r: NodeOutcome)
      requires Rested() && graph.nodes.Has(id) && base == View() && During(base, Some(id))
      requires Fresh(log, origin.task) ==> IsReady(graph.nodes, id)
      modifies this`published, this`log, this`sequence, this`aborted, this`abortedAt, graph
      modifies this`invocations, this`judged, this`story
      ensures Valid() && Balanced() && Goes() && (!r.NodeDropped? ==> Rested())
      ensures Progress(base, View(), origin.task, Some(id)) && Left(r, base, View(), origin.task, aborted, id)
      ensures story.start == StartOf(base.graph.nodes.Get(id).result) && Explains(r, id, base)
      ensures Seen(Since(base, View()), E.NodeStarted(origin.task, id))
    {
      r := AttemptNode(id, base);
      AwaitAtRest(r, id, base);
    }

    /**
     * Runs one node, up to the point where the driver goes on. It throws only
     * if a replan removed the node, and only a cancelled run leaves a node
     * cancelled. What the run did follows the order of turns and calls, and
     * its outcome follows from that; after an abort it does nothing.
     */
    method RunNode(id: NodeId) returns (r: NodeOutcome)
      requires Rested()
      requires Fresh(log, origin.task) && graph.nodes.Has(id) ==> IsReady(graph.nodes, id)
      modifies this`published, this`log, this`sequence, this`aborted, this`abortedAt, graph
      modifies this`invocations, this`judged, this`story
      ensures Valid() && Balanced() && Goes() && (!r.NodeDropped? ==> Rested())
      ensures old(graph.nodes.Has(id)) ==> Progress(old(View()), View(), origin.task, Some(id))
      ensures old(graph.nodes.Has(id)) && !old(aborted) ==> Left(r, old(View()), View(), origin.task, aborted, id)
      ensures old(graph.nodes.Has(id)) && !old(aborted) ==>
                story.start == StartOf(old(graph.nodes.Get(id).result)) && Explains(r, id, old(View()))
      ensures old(graph.nodes.Has(id)) && !old(aborted) ==>
                Seen(Since(old(View()), View()), E.NodeStarted(origin.task, id))
      ensures !old(graph.nodes.Has(id)) ==> r.NodeBroken? && Progress(old(View()), View(), origin.task, None)
      ensures old(graph.nodes.Has(id)) && old(aborted) ==> r.NodeDropped? && View() == old(View()) && Silent()
    {
      ghost var base := View();
      if !graph.nodes.Has(id) {
        ReachedStarts(origin, base, None);
        Await(base, None);
        RestRemains(base, View(), origin.task, None);
        return NodeBroken;
      }
      ReachedStarts(origin, base, Some(id));
      if aborted {
        return NodeDropped;
      }
      r := RunPresent(id, base);
    }

    // ----------------------------------------------------------------
    // The driver
    // ----------------------------------------------------------------

    lemma GraphIsOk()
      requires Valid()
      ensures graph.Valid() && GraphOk(View().graph)
    {
      ReachedIsGood(origin, View());
    }

    /** Whether some node is blocked. */
    method HasBlockedNode() returns (b: bool)
      requires graph.Valid()
      ensures b == HasBlocked(graph.nodes)
    {
      for i := 0 to |graph.nodes.keys|
        invariant forall k :: 0 <= k < i ==> graph.nodes.vals[graph.nodes.keys[k]].status != Blocked
      {
        if graph.nodes.Get(graph.nodes.keys[i]).status == Blocked {
          return true;
        }
      }
      assert forall id :: id in graph.nodes.vals ==> graph.nodes.keys[Index(graph.nodes.keys, id)] == id;
      return false;
    }

    /** A failed node ends the drive at once only when nothing is pending or active. */
    method ShouldFailFast() returns (b: bool)
      requires graph.Valid()
      ensures b <==> forall id :: id in graph.nodes.vals ==>
                graph.nodes.vals[id].status != Pending && graph.nodes.vals[id].status != Active
    {
      for i := 0 to |graph.nodes.keys|
        invariant forall k :: 0 <= k < i ==>
                    var status := graph.nodes.vals[graph.nodes.keys[k]].status; status != Pending && status != Active
      {
        var status := graph.nodes.Get(graph.nodes.keys[i]).status;
        if status == Pending || status == Active {
          return false;
        }
      }
      assert forall id :: id in graph.nodes.vals ==> graph.nodes.keys[Index(graph.nodes.keys, id)] == id;
      return true;
    }

    /** Whether a node run ends the drive, and how. */
    method AfterNode(r: NodeOutcome) returns (o: Option<DriveOutcome>)
      requires Valid()
      ensures o.Some? ==> !r.NodeDone? && o.value == ReportFor(r)
      ensures o.None? ==> r.NodeDone? || r.NodeBroken?
      ensures r.NodeBroken? ==>
                (o.Some? <==> forall id :: id in graph.nodes.vals ==>
                   graph.nodes.vals[id].status != Pending && graph.nodes.vals[id].status != Active)
    {
      match r {
        case NodeHeld => return Some(DriveBlocked);
        case NodeDropped => return Some(DriveFailed);
        case NodeThrew(message) => return Some(DriveThrew(message));
        case NodeBroken =>
          GraphIsOk();
          var now := ShouldFailFast();
          return if now then Some(DriveFailed) else None;
        case NodeDone => return None;
      }
    }

    /** Runs one node of a round. */
    method RunCounted(ghost start: Live, ready: seq<NodeId>, i: nat) returns (r: NodeOutcome)
      requires Rested() && i < |ready| && Scheduled(start, origin.task, ready) && !aborted
      requires RoundSoFar(start, View(), origin.task, false, ready, i)
      modifies this`published, this`log, this`sequence, this`aborted, this`abortedAt, graph
      modifies this`invocations, this`judged, this`story
      ensures Valid() && Balanced() && Goes() && start.log <= log && (!r.NodeDropped? ==> Rested())
      ensures RoundSoFar(start, View(), origin.task, aborted, ready, i + 1)
      ensures !r.NodeDone? ==> Reports(ReportFor(r), start, View(), origin.task, aborted, false)
      ensures !r.NodeDone? ==> aborted || !Smooth(Since(start, View()))
    {
      ghost var before := View();
      r := RunNode(ready[i]);
      NodeRan(start, before, View(), origin.task, aborted, ready, i, r);
    }

    /** One node of a round; the drive stops here if it is blocked, cancelled, threw, or failed fast. */
    method RunReadyNode(ghost start: Live, ready: seq<NodeId>, i: nat) returns (o: Option<DriveOutcome>)
      requires Rested() && i < |ready| && Scheduled(start, origin.task, ready)
      requires RoundSoFar(start, View(), origin.task, aborted, ready, i)
      modifies this`published, this`log, this`sequence, this`aborted, this`abortedAt, graph
      modifies this`invocations, this`judged, this`story
      ensures Valid() && Balanced() && Goes() && start.log <= log && (o != Some(DriveFailed) ==> Rested())
      ensures o.None? ==> RoundSoFar(start, View(), origin.task, aborted, ready, i + 1)
      ensures old(aborted) ==> o == Some(DriveFailed) && View() == old(View()) && Silent()
      ensures o.Some? ==> Reports(o.value, start, View(), origin.task, aborted, false)
      ensures o.Some? ==> aborted || !Smooth(Since(start, View()))
    {
      if aborted {
        return Some(DriveFailed);
      }
      var r := RunCounted(start, ready, i);
      o := AfterNode(r);
    }

    /** The ready nodes of one round, one after the other. */
    method RunReady(ready: seq<NodeId>) returns (o: Option<DriveOutcome>)
      requires Rested() && ready == Ready(graph.nodes)
      modifies this`published, this`log, this`sequence, this`aborted, this`abortedAt, graph
      modifies this`invocations, this`judged, this`story
      ensures Valid() && Balanced() && Goes() && (o != Some(DriveFailed) ==> Rested())
      ensures o.None? ==> RoundSoFar(old(View()), View(), origin.task, aborted, ready, |ready|)
      ensures o.Some? ==> Reports(o.value, old(View()), View(), origin.task, aborted, false)
      ensures o.Some? ==> aborted || !Smooth(Since(old(View()), View()))
    {
      ghost var start := View();
      RoundStarts(origin, start, aborted, ready);
      for i := 0 to |ready|
        invariant Rested() && Goes()
        invariant RoundSoFar(start, View(), origin.task, aborted, ready, i)
      {
        o := RunReadyNode(start, ready, i);
        if o.Some? {
          return;
        }
      }
      o := None;
    }

    /** What the driver says when every node is terminal. */
    method TerminalOutcome(ghost base: Live) returns (o: DriveOutcome)
      requires Rested() && base.log <= log && AllTerminal(graph.nodes)
      requires Smooth(Since(base, View())) && !aborted && Clean(base.graph) ==> Clean(View().graph)
      ensures o == if HasFailed(graph.nodes) then DriveFailed else DriveCompleted
      ensures Reports(o, base, View(), origin.task, aborted, false) && SmoothlyDone(o, base, View(), aborted)
    {
      GraphIsOk();
      var failed := graph.CheckHasFailed();
      return if failed then DriveFailed else DriveCompleted;
    }

    /**
     * Nothing is ready: all is terminal, or something blocks, or a node has
     * failed that the rest waits on.
     */
    method WithoutReady() returns (o: DriveOutcome)
      requires Rested() && Ready(graph.nodes) == []
      ensures o == if HasBlocked(graph.nodes) then DriveBlocked
                   else if HasFailed(graph.nodes) then DriveFailed else DriveCompleted
      ensures Reports(o, View(), View(), origin.task, aborted, false) && SmoothlyDone(o, View(), View(), aborted)
    {
      GraphIsOk();
      if Clean(View().graph) { CleanNeverStalls(View()); }
      var terminal := graph.CheckAllTerminal();
      if terminal {
        o := TerminalOutcome(View());
        return;
      }
      var blocked := HasBlockedNode();
      if blocked {
        return DriveBlocked;
      }
      StallIsExplained(graph.View());
      return DriveFailed;
    }

    /** One round of an unaborted drive; with nothing ready it ends the drive. */
    method RunRound() returns (o: Option<DriveOutcome>)
      requires Rested() && !aborted
      modifies this`published, this`log, this`sequence, this`aborted, this`abortedAt, graph
      modifies this`invocations, this`judged, this`story
      ensures Valid() && Balanced() && Goes() && (o != Some(DriveFailed) ==> Rested())
      ensures o.None? ==> var ready := Ready(old(View()).graph.nodes);
                          RoundSoFar(old(View()), View(), origin.task, aborted, ready, |ready|)
      ensures o.Some? ==> && Reports(o.value, old(View()), View(), origin.task, aborted, false)
                          && SmoothlyDone(o.value, old(View()), View(), aborted)
    {
      ghost var start := View();
      GraphIsOk();
      var ready := graph.ReadyNodes();
      if |ready| == 0 {
        var stalled := WithoutReady();
        return Some(stalled);
      }
      o := RunReady(ready);
      if o.Some? {
        return;
      }
      GraphIsOk();
      var terminal := graph.CheckAllTerminal();
      if terminal {
        var outcome := TerminalOutcome(start);
        return Some(outcome);
      }
    }

    /** One round of the drive: it stops the drive, or runs every node that was ready. */
    method DriveRound() returns (o: Option<DriveOutcome>)
      requires Rested()
      modifies this`published, this`log, this`sequence, this`aborted, this`abortedAt, graph
      modifies this`invocations, this`judged, this`story
      ensures Valid() && Balanced() && Goes() && (o != Some(DriveFailed) ==> Rested())
      ensures o.None? ==> var ready := Ready(old(View()).graph.nodes);
                          RoundSoFar(old(View()), View(), origin.task, aborted, ready, |ready|)
      ensures old(aborted) ==> o == Some(DriveFailed) && View() == old(View()) && Silent()
      ensures o.Some? ==> && Reports(o.value, old(View()), View(), origin.task, aborted, false)
                          && SmoothlyDone(o.value, old(View()), View(), aborted)
    {
      if aborted {
        return Some(DriveFailed);
      }
      o := RunRound();
    }

    /**
     * Drives the graph for at most `maxIterations` rounds. Between two round
     * boundaries every node that was ready ran or was removed. The outcome is
     * justified by the graph and the log. And from any boundary on, when
     * nothing fails, blocks, aborts or replans, as many rounds as the longest
     * dependency chain complete every node.
     */
    method DriveGraph(maxIterations: nat) returns (outcome: DriveOutcome, ghost ranOut: bool, ghost marks: seq<Live>)
      requires Rested()
      modifies this`published, this`log, this`sequence, this`aborted, this`abortedAt, graph
      modifies this`invocations, this`judged, this`story
      ensures Valid() && Balanced() && Goes() && (outcome != DriveFailed ==> Rested())
      ensures marks != [] && marks[0] == old(View()) && (ranOut ==> |marks| == maxIterations + 1)
      ensures Shown(outcome, marks, View(), origin.task, aborted, maxIterations)
      ensures Reports(outcome, old(View()), View(), origin.task, aborted, ranOut)
    {
      marks, ranOut := [View()], false;
      MarksStart(View(), origin.task, aborted);
      for iterations := 0 to maxIterations
        invariant Rested() && Goes()
        invariant |marks| == iterations + 1 && marks[0] == old(View()) && marks[iterations] == View()
        invariant Marked(marks, View(), origin.task) && MarksSoFar(marks, View(), aborted)
      {
        ghost var start, wasAborted := View(), aborted;
        GraphIsOk();
        var o := DriveRound();
        if o.Some? {
          StoppedIsShown(o.value, marks, View(), origin.task, wasAborted, aborted, maxIterations);
          outcome := o.value;
          return;
        }
        MarksStep(marks, start, View(), origin.task, wasAborted, aborted);
        marks := marks + [View()];
      }
      GraphIsOk();
      var failed := graph.CheckHasFailed();
      outcome, ranOut := if failed then DriveFailed else DriveCompleted, true;
      RanOutIsShown(outcome, marks, View(), origin.task, aborted, maxIterations);
    }

    // ----------------------------------------------------------------
    // The task
    // ----------------------------------------------------------------

    /** Between drives: a task that has not ended has no active or cancelled node. */
    ghost predicate Idle()
      reads this, graph
    {
      Valid() && Balanced() && (Open(status) ==> AtRest(graph.View()))
    }

    /** The event at this position ended the task, as cancelled exactly if the abort came before it. */
    ghost predicate EndedAt(at: nat)
      reads this`status, this`log, this`aborted, this`abortedAt
    {
      && !Open(status) && at < |log| && WordOf(log[at], origin.task) == Some(EndWord(status))
      && (status == Cancelled <==> aborted && abortedAt <= at)
    }

    /** Blocked and not aborted, or ended. */
    ghost predicate Closed(at: nat)
      reads this`status, this`log, this`aborted, this`abortedAt
    {
      if status == Blocked then !aborted else EndedAt(at)
    }

    /** Takes a terminal status and publishes its event; cancelled exactly when the task is aborted. */
    method Conclude(terminal: NodeStatus, body: E.Body) returns (ghost at: nat)
      requires Valid() && Balanced() && Open(status) && !Open(terminal) && (terminal == Cancelled <==> aborted)
      requires SaysNothingOfNodes(body) && WordOf(body, origin.task) == Some(EndWord(terminal)) && !IsToolEvent(body)
      modifies this`published, this`log, this`sequence, this`aborted, this`abortedAt, this`status, graph
      ensures Idle() && status == terminal && Goes() && EndedAt(at)
      ensures Progress(old(View()), View(), origin.task, None)
    {
      ghost var before := View();
      ConclusionIsSound(origin, before, status, terminal, body);
      status, at := terminal, |log|;
      Emit(body);
      ghost var here := View();
      assert here == Live(before.graph, before.log + [body]);
      ReachedStarts(origin, here, None);
      Await(here, None);
      ProgressTwice(origin, before, here, View());
    }

    /** Drives the graph, up to the point where the caller goes on. */
    method AwaitDrive(maxIterations: nat) returns (outcome: DriveOutcome, ghost marks: seq<Live>)
      requires Rested()
      modifies this`published, this`log, this`sequence, this`aborted, this`abortedAt, graph
      modifies this`invocations, this`judged, this`story
      ensures Valid() && Balanced() && Goes() && (outcome != DriveFailed ==> Rested())
      ensures marks != [] && marks[0] == old(View())
      ensures Shown(outcome, marks, View(), origin.task, aborted, maxIterations)
    {
      ghost var ranOut;
      outcome, ranOut, marks := DriveGraph(maxIterations);
      ghost var driven, wasAborted := View(), aborted;
      ReachedStarts(origin, driven, None);
      Await(driven, None);
      if outcome != DriveFailed { RestRemains(driven, View(), origin.task, None); }
      ShownRemains(outcome, marks, driven, View(), origin.task, wasAborted, aborted, maxIterations);
    }

    /** One terminal event, or a blocked task. */
    method ReportOutcome(outcome: DriveOutcome) returns (result: TaskResult, ghost at: nat)
      requires Valid() && Balanced() && status == Active && !aborted
      requires !outcome.DriveThrew? && (outcome != DriveFailed ==> Rested())
      modifies this`published, this`log, this`sequence, this`aborted, this`abortedAt, this`status, graph
      ensures Idle() && Goes() && Progress(old(View()), View(), origin.task, None)
      ensures Matches(result, status) && status == StatusFor(outcome) && Closed(at)
    {
      if outcome.DriveBlocked? {
        status := Blocked;
        AsideIsNothing(View());
        return Failure("Task blocked awaiting approval"), 0;
      }
      var text: string := *;
      if outcome.DriveCompleted? {
        at := Conclude(Completed, E.TaskCompleted(origin.task));
        result := Success(text);
      } else {
        at := Conclude(Failed, E.TaskFailed(origin.task, text));
        result := Failure(text);
      }
    }

    /** Ends an aborted task as cancelled. */
    method ReportAbort(reason: string) returns (ghost at: nat)
      requires Valid() && Balanced() && Open(status) && aborted
      modifies this`published, this`log, this`sequence, this`aborted, this`abortedAt, this`status, graph
      ensures Idle() && aborted && status == Cancelled && Goes() && Progress(old(View()), View(), origin.task, None)
      ensures EndedAt(at)
    {
      at := Conclude(Cancelled, E.TaskCancelled(origin.task, Some(reason)));
    }

    /**
     * Drives the graph and settles the task, unless the drive throws. An abort
     * that comes before the terminal event takes precedence; otherwise the
     * status is the one the drive's outcome asks for.
     */
    method SettleTask(maxIterations: nat)
      returns (s: Settlement, ghost outcome: DriveOutcome, ghost marks: seq<Live>, ghost at: nat)
      requires Rested() && status == Active
      modifies this`published, this`log, this`sequence, this`aborted, this`abortedAt, this`status, graph
      modifies this`invocations, this`judged, this`story
      ensures Idle() && Goes()
      ensures s.SettleThrew? <==> outcome.DriveThrew?
      ensures s.SettleThrew? ==> status == Active && s.message == outcome.message
      ensures s.Settled? ==>
                Matches(s.result, status) && Closed(at) && (status == Cancelled || status == StatusFor(outcome))
      ensures marks != [] && marks[0] == old(View())
      ensures Shown(outcome, marks, View(), origin.task, aborted, maxIterations)
    {
      var driven;
      driven, marks := AwaitDrive(maxIterations);
      outcome := driven;
      if driven.DriveThrew? {
        s, at := SettleThrew(driven.message), 0;
        return;
      }
      ghost var here, wasAborted := View(), aborted;
      if aborted {
        at := ReportAbort("Task cancelled");
        s := Settled(Cancelling("Task cancelled"));
      } else {
        var result;
        result, at := ReportOutcome(driven);
        s := Settled(result);
      }
      ShownRemains(outcome, marks, here, View(), origin.task, wasAborted, aborted, maxIterations);
    }

    /** Before the plan is announced. */
    ghost predicate Early(spared: bool)
      reads this, graph
    {
      Numbered() && Opening(origin, View(), spared)
    }

    /** A replan that only removes. */
    method RemoveEarly(removed: seq<NodeId>, ghost spared: bool)
      requires Early(spared)
      modifies this`published, this`log, this`sequence, graph
      ensures Early(spared && origin.root !in removed) && Goes()
      ensures Course(log, origin.task) == old(Course(log, origin.task))
    {
      ghost var before := View();
      OpeningRemoves(origin, before, spared, removed);
      OpeningIsValid(origin, before, spared);
      Revise([], removed);
      LogPrefix(before, origin.task, Commit([], removed));
    }

    /**
     * An await before the plan is announced: an abort may come in, or replans
     * that only remove. What replans that add do here, Openings says.
     */
    method AwaitStartup(ghost spared: bool) returns (ghost stillSpared: bool)
      requires Early(spared)
      modifies this`published, this`log, this`sequence, this`aborted, this`abortedAt, graph
      ensures Early(stillSpared) && Goes()
      ensures Course(log, origin.task) == old(Course(log, origin.task))
    {
      stillSpared := spared;
      var aborts: bool := *;
      if aborts {
        Abort();
      }
      var removals: seq<seq<NodeId>> := *;
      for i := 0 to |removals|
        invariant Early(stillSpared) && Goes()
        invariant Course(log, origin.task) == old(Course(log, origin.task))
      {
        RemoveEarly(removals[i], stillSpared);
        stillSpared := stillSpared && origin.root !in removals[i];
      }
    }

    /** Publishes that the task was created, or that it started. */
    method EmitCreated()
      requires Unstarted() && graph.View() == origin.Created().graph
      modifies this`published, this`log, this`sequence
      ensures Early(true) && Goes() && Course(log, origin.task) == [PlanPending]
    {
      OpeningStarts(origin);
      Emit(E.TaskCreated(origin.task, origin.title, graph.rootNodeIds));
      assert View() == origin.Created();
    }

    /** Announces the start of the task. */
    method EmitStarted(ghost spared: bool)
      requires Early(spared)
      modifies this`published, this`log, this`sequence
      ensures Early(spared) && Goes() && Course(log, origin.task) == old(Course(log, origin.task)) + [PlanActive]
    {
      ghost var before := View();
      OpeningSays(origin, before, spared);
      Emit(E.TaskStarted(origin.task));
      assert View() == Next(before, origin.task, Say(E.TaskStarted(origin.task)));
    }

    /** Announces every node of the initial plan; between two announcements only an abort can come in. */
    method AnnouncePlan(initial: Nodes)
      requires Numbered() && forall k :: k in initial.keys ==> initial.Has(k)
      modifies this`published, this`log, this`sequence, this`aborted, this`abortedAt
      ensures Numbered() && log == old(log) + Announcements(origin.task, initial, |initial.keys|) && Goes()
    {
      for i := 0 to |initial.keys|
        invariant Numbered() && Goes()
        invariant log == old(log) + Announcements(origin.task, initial, i)
      {
        AnnouncementsLast(old(log), origin.task, initial, i);
        Emit(NodeAnnouncement(origin.task, initial.Get(initial.keys[i])));
        var aborts: bool := *;
        if aborts {
          Abort();
        }
      }
    }

    /** Announces the plan: from here on the task is open. */
    method OpenPlan(ghost spared: bool)
      requires Early(spared) && status == Active && judged == []
      requires Course(log, origin.task) == [PlanPending, PlanActive]
      modifies this`published, this`log, this`sequence, this`aborted, this`abortedAt
      ensures Rested() && Goes() && OpensFrom(origin, old(View()), spared, View())
    {
      ghost var early := View();
      OpeningOpens(origin, early, spared);
      AnnouncePlan(graph.nodes);
      assert View() == Opened(origin, early);
      OpeningIsSound(origin, early, spared, View());
    }

    /** Creates the task, starts it and announces its initial plan. */
    method StartTask() returns (ghost early: Live, ghost spared: bool)
      requires Unstarted() && graph.View() == origin.Created().graph
      modifies this`published, this`log, this`sequence, this`aborted, this`abortedAt, this`status, graph
      ensures Rested() && status == Active && Goes()
      ensures OpensFrom(origin, early, spared, View())
    {
      EmitCreated();
      spared := AwaitStartup(true);
      status := Active;
      EmitStarted(spared);
      spared := AwaitStartup(spared);
      early := View();
      OpenPlan(spared);
    }

    /** Starts the task, up to the point where the drive begins. */
    method BeginTask() returns (ghost opening: Live)
      requires Unstarted() && graph.View() == origin.Created().graph
      modifies this`published, this`log, this`sequence, this`aborted, this`abortedAt, this`status, graph
      ensures Rested() && status == Active && Goes()
      ensures IsOpening(origin, opening) && Progress(opening, View(), origin.task, None)
    {
      ghost var early, spared := StartTask();
      opening := View();
      ReachedStarts(origin, opening, None);
      Await(opening, None);
      RestRemains(opening, View(), origin.task, None);
    }

    /** What catching an error does to the task: cancelled if aborted, else failed. */
    method RescueTask(message: string) returns (result: TaskResult, ghost at: nat)
      requires Valid() && Balanced() && status == Active
      modifies this`published, this`log, this`sequence, this`aborted, this`abortedAt, this`status, graph
      ensures Idle() && Goes() && Progress(old(View()), View(), origin.task, None)
      ensures Matches(result, status) && EndedAt(at) && (status == Cancelled || status == Failed)
    {
      if aborted {
        at := ReportAbort(message);
        result := Cancelling("Task cancelled");
      } else {
        at := Conclude(Failed, E.TaskFailed(origin.task, message));
        result := Failure(message);
      }
    }

    /** Settles the task; what the drive throws is caught. */
    method SettleOrRescue(maxIterations: nat)
      returns (result: TaskResult, ghost outcome: DriveOutcome, ghost marks: seq<Live>, ghost at: nat)
      requires Rested() && status == Active
      modifies this`published, this`log, this`sequence, this`aborted, this`abortedAt, this`status, graph
      modifies this`invocations, this`judged, this`story
      ensures Idle() && Goes() && Matches(result, status) && Closed(at)
      ensures status == Cancelled || status == StatusFor(outcome)
      ensures marks != [] && marks[0] == old(View())
      ensures Shown(outcome, marks, View(), origin.task, aborted, maxIterations)
    {
      var s;
      s, outcome, marks, at := SettleTask(maxIterations);
      match s {
        case Settled(r) => result := r;
        case SettleThrew(message) =>
          ghost var here, wasAborted := View(), aborted;
          result, at := RescueTask(message);
          ShownRemains(outcome, marks, here, View(), origin.task, wasAborted, aborted, maxIterations);
      }
    }

    lemma OneCourse()
      requires Valid()
      ensures Course(log, origin.task) == CourseOf(status)
    {
    }

    /**
     * Runs a new task. It is announced as created, started, and ended by
     * exactly one event of the status it reports, unless it blocks, and then
     * by none. The status is the one the drive's outcome asks for, or cancelled
     * exactly when the abort came first; the drive began where the task was
     * opened, but for replans and an abort.
     */
    method RunTask(maxIterations: nat)
      returns (result: TaskResult, ghost opening: Live, ghost outcome: DriveOutcome, ghost marks: seq<Live>,
               ghost at: nat)
      requires Unstarted() && graph.View() == origin.Created().graph
      modifies this`published, this`log, this`sequence, this`aborted, this`abortedAt, this`status, graph
      modifies this`invocations, this`judged, this`story
      ensures Idle() && Goes() && Matches(result, status) && Closed(at)
      ensures Course(log, origin.task) == CourseOf(status)
      ensures status == Cancelled || status == StatusFor(outcome)
      ensures marks != [] && IsOpening(origin, opening) && Progress(opening, marks[0], origin.task, None)
      ensures Shown(outcome, marks, View(), origin.task, aborted, maxIterations)
    {
      opening := BeginTask();
      result, outcome, marks, at := SettleOrRescue(maxIterations);
      OneCourse();
    }

    /** Sets every blocked node back to pending. */
    method UnblockNodes()
      requires Rested()
      modifies graph
      ensures Rested() && View() == Next(old(View()), origin.task, Unblock)
    {
      ghost var before := View();
      ReachedIsValid(origin, before);
      ClearBlocked(graph);
      assert View() == Next(before, origin.task, Unblock);
      UnblockIsSound(origin, before, status);
    }

    /**
     * Resumes a blocked task; does nothing to any other. An error that escapes
     * the drive escapes here too, and leaves the task active with no event.
     */
    method ResumeTask()
      returns (s: Option<Settlement>, ghost outcome: DriveOutcome, ghost marks: seq<Live>, ghost at: nat)
      requires Idle()
      modifies this`published, this`log, this`sequence, this`aborted, this`abortedAt, this`status, graph
      modifies this`invocations, this`judged, this`story
      ensures Idle() && Goes()
      ensures s.None? <==> old(status) != Blocked
      ensures s.None? ==> status == old(status) && View() == old(View())
      ensures s.Some? ==> (s.value.SettleThrew? <==> outcome.DriveThrew?)
      ensures s.Some? && s.value.SettleThrew? ==> status == Active && s.value.message == outcome.message
      ensures s.Some? && s.value.Settled? ==>
                Matches(s.value.result, status) && Closed(at) && (status == Cancelled || status == StatusFor(outcome))
      ensures s.Some? ==> marks != [] && marks[0] == Next(old(View()), origin.task, Unblock)
      ensures s.Some? ==> Shown(outcome, marks, View(), origin.task, aborted, maxNodeIterations)
    {
      if status != Blocked {
        s, outcome, marks, at := None, DriveFailed, [], 0;
        return;
      }
      status := Active;
      UnblockNodes();
      var settlement;
      settlement, outcome, marks, at := SettleTask(maxNodeIterations);
      s := Some(settlement);
    }

    /** Requests cancellation of a task that has not ended. */
    method CancelTask() returns (accepted: bool)
      requires Idle()
      modifies this`aborted, this`abortedAt
      ensures Idle() && accepted == Open(status) && aborted == (old(aborted) || accepted)
    {
      if !Open(status) {
        return false;
      }
      Abort();
      return true;
    }

    /**
     * From the announcement of the root on, at every await, any store that
     * holds the events published so far projects to the live graph under the
     * task's title, and to the status the task has ended with, or active; and
     * unless ids were used again every start so far was sound.
     */
    lemma PublishedReplays(store: seq<E.AIEvent>)
      requires Valid() && Keeps(store, published, origin.task)
      ensures Fresh(log, origin.task) ==> StartsSound(log, origin.task)
      ensures var r := Project(store, origin.task);
              && r.Projected? && r.plan.title == Some(origin.title)
              && r.plan.status == (if Open(status) then PlanActive else EndWord(status))
              && Agrees(graph.View(), r.plan) && Judge(EdgesOf(graph.nodes)) == Ordered(r.order)
    {
      CourseGivesStatus(log, origin.task);
      ReachedIsGood(origin, View());
      NumberedIsStored(published, log, conversationId);
      StoreProjects(origin, View(), published, store);
    }
  }
}
