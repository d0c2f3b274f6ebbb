/**
 * The live runtime as graph plus event log, changed by the atomic segments
 * between awaits. Replans come in two parts, adds and a commit, with anything
 * in between.
 */
module RuntimeModel {
  import opened Seqs
  import opened JsMaps
  import opened Graphs
  import opened Kahn
  import opened TaskGraphs
  import E = Events
  import opened EventStream
  import opened TaskProjection
  import opened ReplayAgreement

  datatype Live = Live(graph: Graph, log: seq<E.Body>)

  datatype Step =
    | Add(spec: NodeSpec)
    | Commit(added: seq<NodeId>, removed: seq<NodeId>)
    | Begin(id: NodeId)
    | Finish(id: NodeId, result: string)
    | Break(id: NodeId, error: string)
    | Block(id: NodeId, why: string)
    | Abandon(id: NodeId)
    | Note(id: NodeId, result: string)
    | Unblock
    | Say(body: E.Body)

  // ------------------------------------------------------------------
  // Reading the log
  // ------------------------------------------------------------------

  predicate Announces(b: E.Body, task: E.TaskId, id: NodeId) {
    b.SubtaskCreated? && b.taskId == task && b.nodeId == id
  }

  function Announced(log: seq<E.Body>, task: E.TaskId, id: NodeId): bool {
    exists b :: b in log && Announces(b, task, id)
  }

  /** No node id is announced twice. */
  ghost predicate Fresh(log: seq<E.Body>, task: E.TaskId) {
    forall i :: 0 <= i < |log| ==> NewAt(log, task, i)
  }

  ghost predicate NewAt(log: seq<E.Body>, task: E.TaskId, i: nat)
    requires i < |log|
  {
    log[i].SubtaskCreated? && log[i].taskId == task ==> !Announced(log[..i], task, log[i].nodeId)
  }

  /** Started since it was last announced or blocked. */
  function Running(log: seq<E.Body>, task: E.TaskId, id: NodeId): bool {
    if log == [] then false
    else
      var b := log[|log|-1];
      if b.NodeStarted? && b.taskId == task && b.nodeId == id then true
      else if Renews(b, task, id) then false
      else Running(log[..|log|-1], task, id)
  }

  predicate Renews(b: E.Body, task: E.TaskId, id: NodeId) {
    Announces(b, task, id) || (b.TaskBlocked? && b.taskId == task && b.node == Some(id))
  }

  /**
   * A start is sound when the log so far announces the node, its replay shows
   * the dependencies completed, and it is no second start.
   */
  ghost predicate SoundStart(before: seq<E.Body>, task: E.TaskId, id: NodeId) {
    var p := Replay(before, task);
    && Announced(before, task, id) && p.nodes.Has(id)
    && (forall d :: d in p.nodes.Get(id).dependsOn ==>
          p.nodes.Has(d) && p.nodes.Get(d).status == E.Runtime(Completed))
    && !Running(before, task, id)
  }

  ghost predicate StartsSound(log: seq<E.Body>, task: E.TaskId) {
    forall i :: 0 <= i < |log| && log[i].NodeStarted? && log[i].taskId == task ==>
      SoundStart(log[..i], task, log[i].nodeId)
  }

  // ------------------------------------------------------------------
  // Steps
  // ------------------------------------------------------------------

  function Unblocked(n: TaskNode): TaskNode {
    if n.status == Blocked then n.(status := Pending) else n
  }

  /** Events that say nothing about nodes. */
  predicate SaysNothingOfNodes(b: E.Body) {
    b.TaskStarted? || b.TaskCompleted? || b.TaskFailed? || b.TaskCancelled?
    || b.ToolStarted? || b.ToolCompleted? || b.ToolFailed?
  }

  /** Adding inserts, validates, and announces only what validation accepts. */
  ghost function Grown(l: Live, task: E.TaskId, spec: NodeSpec): Live {
    if l.graph.nodes.Has(spec.id) then l
    else if IsDag(EdgesOf(l.graph.Inserted(spec).nodes)) then
      Live(l.graph.Inserted(spec), l.log + [Announcement(task, spec)])
    else l.(graph := l.graph.Inserted(spec))
  }

  /** One segment; a segment about a node that is gone throws and does nothing. */
  ghost function Next(l: Live, task: E.TaskId, step: Step): Live {
    match step
    case Add(spec) => Grown(l, task, spec)
    case Commit(added, removed) =>
      var g := RemovedAll(l.graph, removed);
      Live(g, l.log + [Revision(task, g, added, removed)])
    case Begin(id) =>
      if !l.graph.nodes.Has(id) then l
      else Live(l.graph.WithNode(id, l.graph.nodes.Get(id).(status := Active)), l.log + [E.NodeStarted(task, id)])
    case Finish(id, result) =>
      if !l.graph.nodes.Has(id) then l
      else Live(l.graph.WithNode(id, l.graph.nodes.Get(id).(result := Some(result), status := Completed)),
                l.log + [E.NodeCompleted(task, id, result)])
    case Break(id, error) =>
      if !l.graph.nodes.Has(id) then l
      else Live(l.graph.WithNode(id, l.graph.nodes.Get(id).(error := Some(error), status := Failed)),
                l.log + [E.NodeFailed(task, id, error)])
    case Block(id, why) =>
      if !l.graph.nodes.Has(id) then l
      else Live(l.graph.WithNode(id, l.graph.nodes.Get(id).(status := Blocked)),
                l.log + [E.TaskBlocked(task, Some(id), why)])
    case Abandon(id) =>
      if !l.graph.nodes.Has(id) then l
      else l.(graph := l.graph.WithNode(id, l.graph.nodes.Get(id).(status := Cancelled)))
    case Note(id, result) =>
      if !l.graph.nodes.Has(id) then l
      else l.(graph := l.graph.WithNode(id, l.graph.nodes.Get(id).(result := Some(result))))
    case Unblock => l.(graph := l.graph.(nodes := MapValues(l.graph.nodes, (n: TaskNode) => Unblocked(n))))
    case Say(body) => l.(log := l.log + [body])
  }

  /** A step the runtime takes: what it says between node segments is not about nodes. */
  predicate Plain(step: Step) {
    step.Say? ==> SaysNothingOfNodes(step.body)
  }

  /** An add is refused outright or depends on existing nodes only. */
  predicate MayAdd(g: Graph, spec: NodeSpec) {
    g.nodes.Has(spec.id) || forall d :: d in spec.dependsOn ==> g.nodes.Has(d)
  }

  /** A replan ends before any node it added has completed or failed. */
  predicate MayCommit(g: Graph, added: seq<NodeId>, removed: seq<NodeId>) {
    Unfinished(RemovedAll(g, removed), added)
  }

  /** Cancellation is not logged, so it must not undo a logged outcome. */
  predicate MayAbandon(g: Graph, id: NodeId) {
    g.nodes.Has(id) ==> g.nodes.Get(id).status != Completed && g.nodes.Get(id).status != Failed
  }

  /** Notes are not logged, so they must not change a logged result. */
  predicate MayNote(g: Graph, id: NodeId, result: string) {
    g.nodes.Has(id) && g.nodes.Get(id).status == Completed ==> g.nodes.Get(id).result == Some(result)
  }

  /** Exactly when a step keeps replay in agreement. */
  predicate Meets(g: Graph, step: Step) {
    match step
    case Add(spec) => MayAdd(g, spec)
    case Commit(added, removed) => MayCommit(g, added, removed)
    case Abandon(id) => MayAbandon(g, id)
    case Note(id, result) => MayNote(g, id, result)
    case _ => true
  }

  /** How the driver treats nodes: it starts ready ones and ends active ones. */
  ghost predicate Orderly(g: Graph, step: Step) {
    match step
    case Begin(id) => g.nodes.Has(id) ==> IsReady(g.nodes, id)
    case Finish(id, _) => g.nodes.Has(id) ==> g.nodes.Get(id).status == Active
    case Break(id, _) => g.nodes.Has(id) ==> g.nodes.Get(id).status == Active
    case Block(id, _) => g.nodes.Has(id) ==> g.nodes.Get(id).status == Active
    case Abandon(id) => g.nodes.Has(id) ==> g.nodes.Get(id).status == Active
    case _ => true
  }

  /**
   * The steps of a run. The driver's own discipline counts on ids that are not
   * used again: a node may be replaced under its id while it runs.
   */
  ghost predicate Allowed(l: Live, task: E.TaskId, step: Step) {
    && Plain(step) && Meets(l.graph, step)
    && (Fresh(Next(l, task, step).log, task) ==> Orderly(l.graph, step))
  }

  ghost predicate GraphOk(g: Graph) {
    g.Valid() && IsDag(EdgesOf(g.nodes)) && NodeIdsMatch(g)
  }

  /** The node was announced and, if it waits, is not running. */
  predicate Knows(log: seq<E.Body>, task: E.TaskId, id: NodeId, status: NodeStatus) {
    Announced(log, task, id) && (status == Pending || status == Blocked ==> !Running(log, task, id))
  }

  /** Live nodes were announced; those that wait are not running by the log. */
  ghost predicate LogKnows(l: Live, task: E.TaskId) {
    forall id :: id in l.graph.nodes.vals ==> Knows(l.log, task, id, l.graph.nodes.vals[id].status)
  }

  /** Replay agrees with the graph. */
  ghost predicate InStep(l: Live, task: E.TaskId) {
    GraphOk(l.graph) && Agrees(l.graph, Replay(l.log, task))
  }

  ghost predicate Good(l: Live, task: E.TaskId) {
    && InStep(l, task)
    && (Fresh(l.log, task) ==> LogKnows(l, task) && StartsSound(l.log, task))
  }

  // ------------------------------------------------------------------
  // Graph and agreement
  // ------------------------------------------------------------------

  lemma WithNodeEdges(g: Graph, id: NodeId, n: TaskNode)
    requires GraphOk(g) && g.nodes.Has(id) && n.dependsOn == g.nodes.Get(id).dependsOn && n.id == id
    ensures GraphOk(g.WithNode(id, n))
  {
    assert EdgesOf(g.WithNode(id, n).nodes).vals == EdgesOf(g.nodes).vals;
  }

  lemma UnblockEdges(g: Graph)
    requires GraphOk(g)
    ensures GraphOk(g.(nodes := MapValues(g.nodes, (n: TaskNode) => Unblocked(n))))
  {
    var g' := g.(nodes := MapValues(g.nodes, (n: TaskNode) => Unblocked(n)));
    assert EdgesOf(g'.nodes).vals == EdgesOf(g.nodes).vals;
  }

  lemma {:induction false} RemovedAllOk(g: Graph, ids: seq<NodeId>)
    requires GraphOk(g)
    ensures GraphOk(RemovedAll(g, ids))
    decreases |ids|
  {
    if ids != [] {
      RemovalKeepsDag(g, ids[0]);
      RemovedAllOk(g.Removed(ids[0]), ids[1..]);
    }
  }

  lemma AddGraphOk(g: Graph, spec: NodeSpec)
    requires GraphOk(g) && !g.nodes.Has(spec.id)
    ensures IsDag(EdgesOf(g.Inserted(spec).nodes)) <==> MayAdd(g, spec)
    ensures MayAdd(g, spec) ==> GraphOk(g.Inserted(spec))
  {
    InsertionOutcomes(g, spec);
  }

  lemma GraphSteps(l: Live, task: E.TaskId, step: Step)
    requires GraphOk(l.graph) && Meets(l.graph, step)
    ensures GraphOk(Next(l, task, step).graph)
  {
    var g := l.graph;
    match step
    case Add(spec) => if !g.nodes.Has(spec.id) { AddGraphOk(g, spec); }
    case Commit(added, removed) => RemovedAllOk(g, removed);
    case Unblock => UnblockEdges(g);
    case Say(_) =>
    case _ =>
      if g.nodes.Has(step.id) {
        WithNodeEdges(g, step.id, Next(l, task, step).graph.nodes.Get(step.id));
      }
  }

  lemma NodeStepAgrees(l: Live, task: E.TaskId, id: NodeId, n: TaskNode, b: E.Body, q: PlanNode)
    requires Agrees(l.graph, Replay(l.log, task)) && l.graph.nodes.Has(id)
    requires TaskOf(b) == Some(task)
    requires PlanStep(Replay(l.log, task), b)
             == Replay(l.log, task).(nodes := Replay(l.log, task).nodes.Set(id, q))
    requires NodeAgrees(n, q)
    ensures Agrees(l.graph.WithNode(id, n), Replay(l.log + [b], task))
  {
    ReplaySnoc(l.log, b, task);
  }

  /** Adding as coded agrees exactly when the id is known or every dependency exists. */
  lemma AddAgreement(l: Live, task: E.TaskId, spec: NodeSpec)
    requires InStep(l, task)
    ensures Agrees(Grown(l, task, spec).graph, Replay(Grown(l, task, spec).log, task)) <==> MayAdd(l.graph, spec)
  {
    if !l.graph.nodes.Has(spec.id) {
      AddGraphOk(l.graph, spec);
      if MayAdd(l.graph, spec) {
        AnnouncedAgrees(l.graph, Replay(l.log, task), task, spec);
        ReplaySnoc(l.log, Announcement(task, spec), task);
      } else {
        UnannouncedDisagrees(l.graph, Replay(l.log, task), spec);
      }
    }
  }

  lemma CommitStep(l: Live, task: E.TaskId, added: seq<NodeId>, removed: seq<NodeId>)
    requires InStep(l, task)
    ensures var g := RemovedAll(l.graph, removed);
            Agrees(g, Replay(l.log + [Revision(task, g, added, removed)], task)) <==> MayCommit(l.graph, added, removed)
  {
    RemovedAllOk(l.graph, removed);
    CommitAgreement(l.graph, Replay(l.log, task), task, added, removed);
    ReplaySnoc(l.log, Revision(task, RemovedAll(l.graph, removed), added, removed), task);
  }

  lemma SayAgrees(l: Live, task: E.TaskId, b: E.Body)
    requires Agrees(l.graph, Replay(l.log, task)) && SaysNothingOfNodes(b)
    ensures Agrees(l.graph, Replay(l.log + [b], task))
  {
    ReplaySnoc(l.log, b, task);
  }

  /**
   * Agreement before a segment gives agreement after it exactly when the
   * segment meets its condition.
   */
  lemma StepAgreement(l: Live, task: E.TaskId, step: Step)
    requires InStep(l, task) && Plain(step)
    ensures Agrees(Next(l, task, step).graph, Replay(Next(l, task, step).log, task)) <==> Meets(l.graph, step)
  {
    match step
    case Add(spec) => AddAgreement(l, task, spec);
    case Commit(added, removed) => CommitStep(l, task, added, removed);
    case Unblock => UnblockAgrees(l.graph, Replay(l.log, task));
    case Say(b) => SayAgrees(l, task, b);
    case _ => if l.graph.nodes.Has(step.id) { NodeSteps(l, task, step); }
  }

  lemma StepKeepsInStep(l: Live, task: E.TaskId, step: Step)
    requires InStep(l, task) && Plain(step) && Meets(l.graph, step)
    ensures InStep(Next(l, task, step), task)
  {
    GraphSteps(l, task, step);
    StepAgreement(l, task, step);
  }

  lemma UnblockAgrees(g: Graph, p: Plan)
    requires Agrees(g, p)
    ensures Agrees(g.(nodes := MapValues(g.nodes, (n: TaskNode) => Unblocked(n))), p)
  {
  }

  lemma BeginAgrees(l: Live, task: E.TaskId, id: NodeId)
    requires Agrees(l.graph, Replay(l.log, task)) && l.graph.nodes.Has(id)
    ensures Agrees(Next(l, task, Begin(id)).graph, Replay(Next(l, task, Begin(id)).log, task))
  {
    var n, q := l.graph.nodes.Get(id), Replay(l.log, task).nodes.Get(id);
    assert NodeAgrees(n, q);
    NodeStepAgrees(l, task, id, n.(status := Active), E.NodeStarted(task, id), q.(status := E.Runtime(Active)));
  }

  lemma FinishAgrees(l: Live, task: E.TaskId, id: NodeId, r: string)
    requires Agrees(l.graph, Replay(l.log, task)) && l.graph.nodes.Has(id)
    ensures Agrees(Next(l, task, Finish(id, r)).graph, Replay(Next(l, task, Finish(id, r)).log, task))
  {
    var n, q := l.graph.nodes.Get(id), Replay(l.log, task).nodes.Get(id);
    assert NodeAgrees(n, q);
    NodeStepAgrees(l, task, id, n.(result := Some(r), status := Completed), E.NodeCompleted(task, id, r),
                   q.(status := E.Runtime(Completed), result := Some(r)));
  }

  lemma BreakAgrees(l: Live, task: E.TaskId, id: NodeId, e: string)
    requires Agrees(l.graph, Replay(l.log, task)) && l.graph.nodes.Has(id)
    ensures Agrees(Next(l, task, Break(id, e)).graph, Replay(Next(l, task, Break(id, e)).log, task))
  {
    var n, q := l.graph.nodes.Get(id), Replay(l.log, task).nodes.Get(id);
    assert NodeAgrees(n, q);
    NodeStepAgrees(l, task, id, n.(error := Some(e), status := Failed), E.NodeFailed(task, id, e),
                   q.(status := E.Runtime(Failed), error := Some(e)));
  }

  lemma BlockAgrees(l: Live, task: E.TaskId, id: NodeId, why: string)
    requires Agrees(l.graph, Replay(l.log, task)) && l.graph.nodes.Has(id)
    ensures Agrees(Next(l, task, Block(id, why)).graph, Replay(Next(l, task, Block(id, why)).log, task))
  {
    var n, q := l.graph.nodes.Get(id), Replay(l.log, task).nodes.Get(id);
    assert NodeAgrees(n, q);
    NodeStepAgrees(l, task, id, n.(status := Blocked), E.TaskBlocked(task, Some(id), why),
                   q.(status := E.Runtime(Blocked)));
  }

  lemma NodeSteps(l: Live, task: E.TaskId, step: Step)
    requires Agrees(l.graph, Replay(l.log, task))
    requires !step.Add? && !step.Commit? && !step.Unblock? && !step.Say?
    requires l.graph.nodes.Has(step.id)
    ensures Agrees(Next(l, task, step).graph, Replay(Next(l, task, step).log, task)) <==> Meets(l.graph, step)
  {
    var n := l.graph.nodes.Get(step.id);
    assert NodeAgrees(n, Replay(l.log, task).nodes.Get(step.id));
    match step
    case Begin(id) => BeginAgrees(l, task, id);
    case Finish(id, r) => FinishAgrees(l, task, id, r);
    case Break(id, e) => BreakAgrees(l, task, id, e);
    case Block(id, why) => BlockAgrees(l, task, id, why);
    case Abandon(id) => LiveChangeAgrees(l.graph, Replay(l.log, task), id, n.(status := Cancelled));
    case Note(id, r) => LiveChangeAgrees(l.graph, Replay(l.log, task), id, n.(result := Some(r)));
  }

  // ------------------------------------------------------------------
  // The log
  // ------------------------------------------------------------------

  lemma AnnouncedSnoc(log: seq<E.Body>, b: E.Body, task: E.TaskId, id: NodeId)
    ensures Announced(log + [b], task, id) <==> Announced(log, task, id) || Announces(b, task, id)
  {
    assert b in log + [b];
    forall x | x in log ensures x in log + [b] {}
  }

  lemma RunningSnoc(log: seq<E.Body>, b: E.Body, task: E.TaskId, id: NodeId)
    ensures Running(log + [b], task, id)
            == if b.NodeStarted? && b.taskId == task && b.nodeId == id then true
               else if Renews(b, task, id) then false
               else Running(log, task, id)
  {
    assert (log + [b])[..|log|] == log;
  }

  lemma NewAtPrefix(log: seq<E.Body>, more: seq<E.Body>, task: E.TaskId, i: nat)
    requires log <= more && i < |log|
    ensures NewAt(log, task, i) <==> NewAt(more, task, i)
  {
    assert more[..i] == log[..i];
  }

  lemma FreshPrefix(log: seq<E.Body>, more: seq<E.Body>, task: E.TaskId)
    requires log <= more && Fresh(more, task)
    ensures Fresh(log, task)
  {
    forall i | 0 <= i < |log| ensures NewAt(log, task, i) { NewAtPrefix(log, more, task, i); }
  }

  lemma FreshSnoc(log: seq<E.Body>, b: E.Body, task: E.TaskId)
    ensures Fresh(log + [b], task) <==>
            Fresh(log, task) && (b.SubtaskCreated? && b.taskId == task ==> !Announced(log, task, b.nodeId))
  {
    var more := log + [b];
    assert more[..|log|] == log;
    assert NewAt(more, task, |log|) <==> (b.SubtaskCreated? && b.taskId == task ==> !Announced(log, task, b.nodeId));
    if Fresh(more, task) { FreshPrefix(log, more, task); }
    if Fresh(log, task) {
      forall i | 0 <= i < |log| ensures NewAt(more, task, i) { NewAtPrefix(log, more, task, i); }
    }
  }

  lemma {:induction false} RemovedStatus(g: Graph, ids: seq<NodeId>, id: NodeId)
    requires RemovedAll(g, ids).nodes.Has(id)
    ensures g.nodes.Has(id) && RemovedAll(g, ids).nodes.Get(id).status == g.nodes.Get(id).status
    decreases |ids|
  {
    if ids != [] { RemovedStatus(g.Removed(ids[0]), ids[1..], id); }
  }

  /** What a step leaves of another node's status. */
  lemma StatusAfter(l: Live, task: E.TaskId, step: Step, id: NodeId)
    requires Next(l, task, step).graph.nodes.Has(id)
    requires !(step.Add? && step.spec.id == id)
    ensures l.graph.nodes.Has(id)
    ensures var s, s' := l.graph.nodes.Get(id).status, Next(l, task, step).graph.nodes.Get(id).status;
            match step
            case Begin(m) => s' == if m == id then Active else s
            case Finish(m, _) => s' == if m == id then Completed else s
            case Break(m, _) => s' == if m == id then Failed else s
            case Block(m, _) => s' == if m == id then Blocked else s
            case Abandon(m) => s' == if m == id then Cancelled else s
            case Unblock => s' == if s == Blocked then Pending else s
            case _ => s' == s
  {
    if step.Commit? { RemovedStatus(l.graph, step.removed, id); }
  }

  /** The event a step appends, if any. */
  ghost function Appended(l: Live, task: E.TaskId, step: Step): Option<E.Body> {
    var l' := Next(l, task, step);
    if |l'.log| > |l.log| then Some(l'.log[|l'.log|-1]) else None
  }

  lemma LogGrowth(l: Live, task: E.TaskId, step: Step)
    ensures Next(l, task, step).log
            == match Appended(l, task, step) case None => l.log case Some(b) => l.log + [b]
  {
  }

  lemma KnownAfterAdd(l: Live, task: E.TaskId, spec: NodeSpec, id: NodeId)
    requires LogKnows(l, task) && GraphOk(l.graph) && MayAdd(l.graph, spec)
    requires Grown(l, task, spec).graph.nodes.Has(id)
    ensures var l' := Grown(l, task, spec); Knows(l'.log, task, id, l'.graph.nodes.Get(id).status)
  {
    if !l.graph.nodes.Has(spec.id) {
      AddGraphOk(l.graph, spec);
      AnnouncedSnoc(l.log, Announcement(task, spec), task, id);
      RunningSnoc(l.log, Announcement(task, spec), task, id);
    }
  }

  lemma KnownAfter(l: Live, task: E.TaskId, step: Step, id: NodeId)
    requires LogKnows(l, task) && Orderly(l.graph, step) && Plain(step) && !step.Add?
    requires Next(l, task, step).graph.nodes.Has(id)
    ensures var l' := Next(l, task, step); Knows(l'.log, task, id, l'.graph.nodes.Get(id).status)
  {
    LogGrowth(l, task, step);
    var b := Appended(l, task, step);
    if b.Some? {
      AnnouncedSnoc(l.log, b.value, task, id);
      RunningSnoc(l.log, b.value, task, id);
    }
    StatusAfter(l, task, step, id);
  }

  lemma LogSteps(l: Live, task: E.TaskId, step: Step)
    requires LogKnows(l, task) && Orderly(l.graph, step) && Plain(step) && GraphOk(l.graph) && Meets(l.graph, step)
    ensures LogKnows(Next(l, task, step), task)
  {
    forall id | id in Next(l, task, step).graph.nodes.vals
      ensures var l' := Next(l, task, step); Knows(l'.log, task, id, l'.graph.nodes.vals[id].status)
    {
      if step.Add? { KnownAfterAdd(l, task, step.spec, id); } else { KnownAfter(l, task, step, id); }
    }
  }

  lemma ReadyStartIsSound(l: Live, task: E.TaskId, id: NodeId)
    requires InStep(l, task) && LogKnows(l, task) && IsReady(l.graph.nodes, id)
    ensures SoundStart(l.log, task, id)
  {
    var p, n := Replay(l.log, task), l.graph.nodes.Get(id);
    assert NodeAgrees(n, p.nodes.Get(id));
    UniqueMembers(n.dependsOn);
    forall d | d in p.nodes.Get(id).dependsOn
      ensures p.nodes.Has(d) && p.nodes.Get(d).status == E.Runtime(Completed)
    {
      var i := Index(n.dependsOn, d);
      assert l.graph.nodes.Has(n.dependsOn[i]) && l.graph.nodes.Get(n.dependsOn[i]).status == Completed;
      assert NodeAgrees(l.graph.nodes.Get(d), p.nodes.Get(d));
    }
  }

  lemma StartsSnoc(log: seq<E.Body>, b: E.Body, task: E.TaskId)
    requires StartsSound(log, task)
    requires b.NodeStarted? && b.taskId == task ==> SoundStart(log, task, b.nodeId)
    ensures StartsSound(log + [b], task)
  {
    var log' := log + [b];
    forall i | 0 <= i < |log'| && log'[i].NodeStarted? && log'[i].taskId == task
      ensures SoundStart(log'[..i], task, log'[i].nodeId)
    {
      assert log'[..i] == log[..i];
      if i == |log| { assert log[..i] == log; }
    }
  }

  lemma StartSteps(l: Live, task: E.TaskId, step: Step)
    requires InStep(l, task) && LogKnows(l, task) && StartsSound(l.log, task)
    requires Plain(step) && Orderly(l.graph, step)
    ensures StartsSound(Next(l, task, step).log, task)
  {
    if step.Begin? {
      if l.graph.nodes.Has(step.id) {
        ReadyStartIsSound(l, task, step.id);
        StartsSnoc(l.log, E.NodeStarted(task, step.id), task);
      }
    } else {
      LogGrowth(l, task, step);
      var b := Appended(l, task, step);
      if b.Some? { StartsSnoc(l.log, b.value, task); }
    }
  }

  // ------------------------------------------------------------------
  // Steps keep the invariant
  // ------------------------------------------------------------------

  lemma LogPrefix(l: Live, task: E.TaskId, step: Step)
    ensures l.log <= Next(l, task, step).log
  {
    LogGrowth(l, task, step);
  }

  lemma StepKeepsGood(l: Live, task: E.TaskId, step: Step)
    requires Good(l, task) && Allowed(l, task, step)
    ensures Good(Next(l, task, step), task)
  {
    StepKeepsInStep(l, task, step);
    if Fresh(Next(l, task, step).log, task) {
      LogPrefix(l, task, step);
      FreshPrefix(l.log, Next(l, task, step).log, task);
      LogSteps(l, task, step);
      StartSteps(l, task, step);
    }
  }
}
