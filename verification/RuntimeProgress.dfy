/**
 * What one stretch of a run leaves intact: the vocabulary in which the driver
 * is specified. `busy` is the node being run, if any.
 */
module RuntimeProgress {
  import opened Seqs
  import opened JsMaps
  import opened Graphs
  import opened Kahn
  import opened TaskGraphs
  import E = Events
  import opened TaskProjection
  import opened TaskContents
  import opened ReplayAgreement
  import opened RuntimeModel
  import opened Openings
  import opened RuntimeRuns

  lemma ReachedIsValid(o: Origin, l: Live)
    requires Reached(o, l)
    ensures l.graph.Valid()
  {
    ReachedIsGood(o, l);
  }

  // ------------------------------------------------------------------
  // Events of a stretch
  // ------------------------------------------------------------------

  /** The events of a log from a position on. */
  datatype Stretch = Stretch(log: seq<E.Body>, from: nat)

  function Since(before: Live, now: Live): Stretch {
    Stretch(now.log, |before.log|)
  }

  predicate At(s: Stretch, i: nat) {
    s.from <= i < |s.log|
  }

  ghost predicate Seen(s: Stretch, b: E.Body) {
    exists i :: SeenAt(s, b, i)
  }

  predicate SeenAt(s: Stretch, b: E.Body, i: nat) {
    At(s, i) && s.log[i] == b
  }

  predicate Replans(b: E.Body) {
    b.SubtaskCreated? || b.TaskReplan?
  }

  predicate QuietAt(s: Stretch, i: nat) {
    At(s, i) ==> !Replans(s.log[i])
  }

  /** No replanning. */
  ghost predicate Quiet(s: Stretch) {
    forall i :: QuietAt(s, i)
  }

  predicate Removes(b: E.Body, task: E.TaskId, id: NodeId) {
    b.TaskReplan? && b.taskId == task && id in b.removed
  }

  predicate RemovedAt(s: Stretch, task: E.TaskId, id: NodeId, i: nat) {
    At(s, i) && Removes(s.log[i], task, id)
  }

  /** A replan removed this node. */
  ghost predicate RemovedIn(s: Stretch, task: E.TaskId, id: NodeId) {
    exists i :: RemovedAt(s, task, id, i)
  }

  /** A replan removed some node. */
  ghost predicate Shrunk(s: Stretch, task: E.TaskId) {
    exists id :: RemovedIn(s, task, id)
  }

  predicate SaysCancelled(b: E.Body) {
    b.ToolCompleted? && b.result == "cancelled"
  }

  predicate CancelledAt(s: Stretch, i: nat) {
    At(s, i) && SaysCancelled(s.log[i])
  }

  /** Some tool answered with the word the runtime uses for a cancelled call. */
  ghost predicate SaidCancelled(s: Stretch) {
    exists i :: CancelledAt(s, i)
  }

  predicate Rough(b: E.Body) {
    b.NodeFailed? || b.TaskBlocked? || SaysCancelled(b)
  }

  predicate SmoothAt(s: Stretch, i: nat) {
    At(s, i) ==> !Rough(s.log[i])
  }

  /** No replanning, no failed node, no blocked one, and no tool that answers "cancelled". */
  ghost predicate Smooth(s: Stretch) {
    Quiet(s) && forall i :: SmoothAt(s, i)
  }

  lemma CancelledIsRough(s: Stretch)
    requires SaidCancelled(s)
    ensures !Smooth(s)
  {
    var i :| CancelledAt(s, i);
    assert !SmoothAt(s, i);
  }

  lemma SplitSince(a: Live, b: Live, c: Live)
    requires a.log <= b.log && b.log <= c.log
    ensures Quiet(Since(a, c)) <==> Quiet(Since(a, b)) && Quiet(Since(b, c))
    ensures Smooth(Since(a, c)) <==> Smooth(Since(a, b)) && Smooth(Since(b, c))
    ensures SaidCancelled(Since(a, c)) <==> SaidCancelled(Since(a, b)) || SaidCancelled(Since(b, c))
  {
    var u, v, w := Since(a, b), Since(b, c), Since(a, c);
    forall i ensures QuietAt(w, i) <==> QuietAt(u, i) && QuietAt(v, i) {}
    forall i ensures SmoothAt(w, i) <==> SmoothAt(u, i) && SmoothAt(v, i) {}
    forall i ensures CancelledAt(w, i) <==> CancelledAt(u, i) || CancelledAt(v, i) {}
    if Quiet(w) { forall i ensures QuietAt(u, i) && QuietAt(v, i) { assert QuietAt(w, i); } }
    if forall i :: SmoothAt(w, i) { forall i ensures SmoothAt(u, i) && SmoothAt(v, i) { assert SmoothAt(w, i); } }
  }

  lemma SplitSeen(a: Live, b: Live, c: Live, e: E.Body)
    requires a.log <= b.log && b.log <= c.log
    ensures Seen(Since(a, c), e) <==> Seen(Since(a, b), e) || Seen(Since(b, c), e)
  {
    forall i ensures SeenAt(Since(a, c), e, i) <==> SeenAt(Since(a, b), e, i) || SeenAt(Since(b, c), e, i) {}
  }

  lemma SplitRemovedOne(a: Live, b: Live, c: Live, task: E.TaskId, k: NodeId)
    requires a.log <= b.log && b.log <= c.log
    ensures RemovedIn(Since(a, c), task, k) <==> RemovedIn(Since(a, b), task, k) || RemovedIn(Since(b, c), task, k)
  {
    forall i
      ensures RemovedAt(Since(a, c), task, k, i) <==>
              RemovedAt(Since(a, b), task, k, i) || RemovedAt(Since(b, c), task, k, i)
    {
    }
  }

  lemma SplitRemoved(a: Live, b: Live, c: Live, task: E.TaskId)
    requires a.log <= b.log && b.log <= c.log
    ensures forall k :: RemovedIn(Since(a, c), task, k) <==>
                        RemovedIn(Since(a, b), task, k) || RemovedIn(Since(b, c), task, k)
    ensures Shrunk(Since(a, c), task) <==> Shrunk(Since(a, b), task) || Shrunk(Since(b, c), task)
  {
    forall k
      ensures RemovedIn(Since(a, c), task, k) <==> RemovedIn(Since(a, b), task, k) || RemovedIn(Since(b, c), task, k)
    {
      SplitRemovedOne(a, b, c, task, k);
    }
    if Shrunk(Since(a, c), task) { var k :| RemovedIn(Since(a, c), task, k); }
  }

  lemma SaidSince(base: Live, l: Live, m: Live, b: E.Body)
    requires base.log <= l.log && l.log + [b] <= m.log
    ensures Seen(Since(base, m), b)
  {
    assert (l.log + [b])[|l.log|] == b;
    assert SeenAt(Since(base, m), b, |l.log|);
  }

  lemma SeenIsRough(s: Stretch, b: E.Body)
    requires Seen(s, b)
    ensures SaysCancelled(b) ==> SaidCancelled(s)
    ensures Rough(b) || Replans(b) ==> !Smooth(s)
    ensures Replans(b) ==> !Quiet(s)
    ensures forall task, id :: Removes(b, task, id) ==> RemovedIn(s, task, id)
  {
    var i :| SeenAt(s, b, i);
    assert SaysCancelled(b) ==> CancelledAt(s, i);
    assert Rough(b) ==> !SmoothAt(s, i);
    assert Replans(b) ==> !QuietAt(s, i);
    assert forall task, id :: Removes(b, task, id) ==> RemovedAt(s, task, id, i);
  }

  // ------------------------------------------------------------------
  // Progress
  // ------------------------------------------------------------------

  ghost predicate SameBut(g: Graph, h: Graph, busy: Option<NodeId>) {
    && g.nodes.keys == h.nodes.keys && g.nodes.vals.Keys == h.nodes.vals.Keys
    && forall k :: k in g.nodes.vals ==>
         && (Some(k) != busy ==> h.nodes.vals[k] == g.nodes.vals[k])
         && h.nodes.vals[k].dependsOn == g.nodes.vals[k].dependsOn
  }

  /** Nodes leave only by a replan that removes them. */
  ghost predicate Departed(l: Live, m: Live, task: E.TaskId)
    requires l.log <= m.log
  {
    forall k :: k in l.graph.nodes.vals && k !in m.graph.nodes.vals ==> RemovedIn(Since(l, m), task, k)
  }

  /** A node keeps its status, or it is new, perhaps under the id of a removed one, and waits. */
  ghost predicate Remained(l: Live, m: Live, task: E.TaskId, busy: Option<NodeId>)
    requires l.log <= m.log
  {
    forall k :: k in m.graph.nodes.vals && Some(k) != busy ==>
      || (k in l.graph.nodes.vals && m.graph.nodes.vals[k].status == l.graph.nodes.vals[k].status)
      || (m.graph.nodes.vals[k].status == Pending && (k in l.graph.nodes.vals ==> RemovedIn(Since(l, m), task, k)))
  }

  /** Nodes that appear were never announced; nodes that stay keep their status; ready ones stay ready. */
  ghost predicate Calm(g: Graph, log: seq<E.Body>, h: Graph, task: E.TaskId, busy: Option<NodeId>) {
    forall k :: k in h.nodes.vals ==>
      && (k !in g.nodes.vals ==> !Announced(log, task, k))
      && (k in g.nodes.vals && Some(k) != busy ==> h.nodes.vals[k].status == g.nodes.vals[k].status)
      && (IsReady(g.nodes, k) && Some(k) != busy ==> IsReady(h.nodes, k))
  }

  ghost predicate Progress(l: Live, m: Live, task: E.TaskId, busy: Option<NodeId>) {
    && l.log <= m.log
    && Departed(l, m, task) && Remained(l, m, task, busy)
    && (Fresh(m.log, task) ==> Calm(l.graph, l.log, m.graph, task, busy))
    && (Quiet(Since(l, m)) ==> SameBut(l.graph, m.graph, busy))
  }

  /** What a stretch counts on where it begins. */
  ghost predicate Starting(l: Live, task: E.TaskId, busy: Option<NodeId>) {
    (Fresh(l.log, task) ==> LogKnows(l, task)) && (busy.Some? ==> busy.value in l.graph.nodes.vals)
  }

  lemma CalmContinues(a: Live, b: Live, c: Live, task: E.TaskId, busy: Option<NodeId>)
    requires a.log <= b.log && LogKnows(a, task) && (busy.Some? ==> busy.value in a.graph.nodes.vals)
    requires Calm(a.graph, a.log, b.graph, task, busy) && Calm(b.graph, b.log, c.graph, task, busy)
    ensures Calm(a.graph, a.log, c.graph, task, busy)
  {
    forall k | k in c.graph.nodes.vals
      ensures k !in a.graph.nodes.vals ==> !Announced(a.log, task, k)
      ensures k in a.graph.nodes.vals && Some(k) != busy ==>
                c.graph.nodes.vals[k].status == a.graph.nodes.vals[k].status
      ensures IsReady(a.graph.nodes, k) && Some(k) != busy ==> IsReady(c.graph.nodes, k)
    {
      if k in a.graph.nodes.vals { assert Knows(a.log, task, k, a.graph.nodes.vals[k].status); }
    }
  }

  lemma ProgressContinues(a: Live, b: Live, c: Live, task: E.TaskId, busy: Option<NodeId>)
    requires Starting(a, task, busy)
    requires Progress(a, b, task, busy) && Progress(b, c, task, busy)
    ensures Progress(a, c, task, busy)
  {
    SplitSince(a, b, c);
    SplitRemoved(a, b, c, task);
    if Fresh(c.log, task) {
      FreshPrefix(b.log, c.log, task);
      FreshPrefix(a.log, b.log, task);
      CalmContinues(a, b, c, task, busy);
    }
  }

  // ------------------------------------------------------------------
  // Steps make progress
  // ------------------------------------------------------------------

  lemma RemovedReady(g: Graph, id: NodeId, k: NodeId)
    requires k in g.Removed(id).nodes.vals && IsReady(g.nodes, k)
    ensures IsReady(g.Removed(id).nodes, k)
  {
    if g.nodes.Has(id) {
      var ds, es := g.nodes.Get(k).dependsOn, g.Removed(id).nodes.Get(k).dependsOn;
      FilterMember(ds, (x: NodeId) => x != id);
      forall i | 0 <= i < |es|
        ensures g.Removed(id).nodes.Has(es[i]) && g.Removed(id).nodes.Get(es[i]).status == Completed
      {
        assert es[i] in Without(ds, id);
        var j := Index(ds, es[i]);
        assert g.nodes.Has(ds[j]) && g.nodes.Get(ds[j]).status == Completed;
      }
    }
  }

  lemma {:induction false} RemovedAllCalm(g: Graph, ids: seq<NodeId>, k: NodeId)
    requires k in RemovedAll(g, ids).nodes.vals
    ensures k in g.nodes.vals && RemovedAll(g, ids).nodes.vals[k].status == g.nodes.vals[k].status
    ensures IsReady(g.nodes, k) ==> IsReady(RemovedAll(g, ids).nodes, k)
    decreases |ids|
  {
    if ids != [] {
      RemovedAllCalm(g.Removed(ids[0]), ids[1..], k);
      if IsReady(g.nodes, k) { RemovedReady(g, ids[0], k); }
    }
  }

  lemma {:induction false} RemovedAllGone(g: Graph, ids: seq<NodeId>, k: NodeId)
    requires k in g.nodes.vals && k !in RemovedAll(g, ids).nodes.vals
    ensures k in ids
    decreases |ids|
  {
    if ids != [] && ids[0] != k { RemovedAllGone(g.Removed(ids[0]), ids[1..], k); }
  }

  /** A new node breaks nobody's readiness. */
  lemma InsertedCalm(l: Live, task: E.TaskId, spec: NodeSpec)
    requires !Announced(l.log, task, spec.id) && !l.graph.nodes.Has(spec.id)
    ensures Calm(l.graph, l.log, l.graph.Inserted(spec), task, None)
  {
    var h := l.graph.Inserted(spec);
    forall k | k in l.graph.nodes.vals && IsReady(l.graph.nodes, k) ensures IsReady(h.nodes, k) {
      forall i | 0 <= i < |h.nodes.Get(k).dependsOn|
        ensures var d := h.nodes.Get(k).dependsOn[i]; h.nodes.Has(d) && h.nodes.Get(d).status == Completed
      {
        var d := l.graph.nodes.Get(k).dependsOn[i];
        assert l.graph.nodes.Has(d) && l.graph.nodes.Get(d).status == Completed;
      }
    }
  }

  lemma InsertedProgress(l: Live, task: E.TaskId, spec: NodeSpec)
    requires !l.graph.nodes.Has(spec.id)
    ensures Progress(l, Live(l.graph.Inserted(spec), l.log + [Announcement(task, spec)]), task, None)
  {
    var m, b := Live(l.graph.Inserted(spec), l.log + [Announcement(task, spec)]), Announcement(task, spec);
    SaidSince(l, l, m, b);
    SeenIsRough(Since(l, m), b);
    FreshSnoc(l.log, b, task);
    if Fresh(m.log, task) { InsertedCalm(l, task, spec); }
  }

  lemma AddProgress(l: Live, task: E.TaskId, spec: NodeSpec)
    requires InStep(l, task) && MayAdd(l.graph, spec)
    ensures Progress(l, Grown(l, task, spec), task, None)
  {
    if !l.graph.nodes.Has(spec.id) {
      AddGraphOk(l.graph, spec);
      InsertedProgress(l, task, spec);
    }
  }

  /** Validation after an insertion accepts exactly the nodes whose dependencies exist. */
  lemma AddOutcome(o: Origin, l: Live, spec: NodeSpec)
    requires Reached(o, l)
    ensures l.graph.Valid()
    ensures !l.graph.nodes.Has(spec.id) ==>
              (Judge(EdgesOf(l.graph.Inserted(spec).nodes)).Ordered? <==> MayAdd(l.graph, spec))
    ensures !l.graph.nodes.Has(spec.id) ==>
              (IsDag(EdgesOf(l.graph.Inserted(spec).nodes)) <==> MayAdd(l.graph, spec))
  {
    ReachedIsGood(o, l);
    if !l.graph.nodes.Has(spec.id) {
      AddGraphOk(l.graph, spec);
      InsertionOutcomes(l.graph, spec);
    }
  }

  lemma CommitProgress(l: Live, task: E.TaskId, added: seq<NodeId>, removed: seq<NodeId>)
    ensures Progress(l, Next(l, task, Commit(added, removed)), task, None)
  {
    var m := Next(l, task, Commit(added, removed));
    var b := m.log[|l.log|];
    SaidSince(l, l, m, b);
    SeenIsRough(Since(l, m), b);
    forall k | k in m.graph.nodes.vals
      ensures k in l.graph.nodes.vals && m.graph.nodes.vals[k].status == l.graph.nodes.vals[k].status
      ensures IsReady(l.graph.nodes, k) ==> IsReady(m.graph.nodes, k)
    {
      RemovedAllCalm(l.graph, removed, k);
    }
    forall k | k in l.graph.nodes.vals && k !in m.graph.nodes.vals ensures RemovedIn(Since(l, m), task, k) {
      RemovedAllGone(l.graph, removed, k);
      assert Removes(b, task, k);
    }
  }

  lemma ReplanProgress(l: Live, task: E.TaskId, step: Step)
    requires Good(l, task) && Allowed(l, task, step) && (step.Add? || step.Commit?)
    ensures Progress(l, Next(l, task, step), task, None)
  {
    if step.Add? { AddProgress(l, task, step.spec); } else { CommitProgress(l, task, step.added, step.removed); }
  }

  /** A step of node `id` alone. */
  predicate Concerns(step: Step, id: NodeId) {
    (step.Begin? || step.Finish? || step.Break? || step.Block? || step.Abandon? || step.Note?) && step.id == id
  }

  lemma OneNodeCalm(g: Graph, log: seq<E.Body>, id: NodeId, n: TaskNode, task: E.TaskId)
    requires g.nodes.Has(id) && n.dependsOn == g.nodes.vals[id].dependsOn
    requires g.nodes.vals[id].status == Completed ==> n.status == Completed
    ensures Calm(g, log, g.WithNode(id, n), task, Some(id))
  {
  }

  lemma OneNodeProgress(l: Live, id: NodeId, n: TaskNode, more: seq<E.Body>, task: E.TaskId)
    requires l.graph.nodes.Has(id) && n.dependsOn == l.graph.nodes.vals[id].dependsOn
    requires Fresh(l.log + more, task) ==> (l.graph.nodes.vals[id].status == Completed ==> n.status == Completed)
    ensures Progress(l, Live(l.graph.WithNode(id, n), l.log + more), task, Some(id))
  {
    if Fresh(l.log + more, task) { OneNodeCalm(l.graph, l.log, id, n, task); }
  }

  lemma NodeProgress(l: Live, task: E.TaskId, step: Step, id: NodeId)
    requires Allowed(l, task, step) && Concerns(step, id)
    ensures Progress(l, Next(l, task, step), task, Some(id))
  {
    var m := Next(l, task, step);
    if l.graph.nodes.Has(id) {
      LogGrowth(l, task, step);
      var b := Appended(l, task, step);
      var more := if b.Some? then [b.value] else [];
      assert m == Live(l.graph.WithNode(id, m.graph.nodes.vals[id]), l.log + more);
      OneNodeProgress(l, id, m.graph.nodes.vals[id], more, task);
    }
  }

  // ------------------------------------------------------------------
  // Nodes at rest, and the node being run
  // ------------------------------------------------------------------

  /** No node is active, none cancelled. */
  ghost predicate AtRest(g: Graph) {
    forall k :: k in g.nodes.vals ==> g.nodes.vals[k].status != Active && g.nodes.vals[k].status != Cancelled
  }

  lemma RestRemains(l: Live, m: Live, task: E.TaskId, busy: Option<NodeId>)
    requires AtRest(l.graph) && Progress(l, m, task, busy)
    requires busy.Some? && busy.value in m.graph.nodes.vals ==>
               m.graph.nodes.vals[busy.value].status != Active && m.graph.nodes.vals[busy.value].status != Cancelled
    ensures AtRest(m.graph)
  {
  }

  /** Present only with this status, unless it was replaced under its id, and then it waits. */
  ghost predicate Holds(base: Live, l: Live, task: E.TaskId, id: NodeId, status: NodeStatus)
    requires base.log <= l.log
  {
    id in l.graph.nodes.vals ==>
      var now := l.graph.nodes.vals[id].status;
      now == status || (now == Pending && !Fresh(l.log, task) && RemovedIn(Since(base, l), task, id))
  }

  lemma HoldsRemains(base: Live, l: Live, m: Live, task: E.TaskId, id: NodeId, status: NodeStatus)
    requires Starting(base, task, Some(id)) && Progress(base, l, task, Some(id)) && Holds(base, l, task, id, status)
    requires Progress(l, m, task, None)
    ensures base.log <= m.log && Holds(base, m, task, id, status)
  {
    SplitRemoved(base, l, m, task);
    if id in m.graph.nodes.vals && Fresh(m.log, task) {
      FreshPrefix(l.log, m.log, task);
      FreshPrefix(base.log, l.log, task);
      assert Knows(base.log, task, id, base.graph.nodes.vals[id].status);
      assert Announced(l.log, task, id);
    }
  }

  lemma StepHolds(base: Live, l: Live, task: E.TaskId, step: Step, id: NodeId)
    requires base.log <= l.log && Concerns(step, id)
    ensures base.log <= Next(l, task, step).log
    ensures var m := Next(l, task, step);
            match step
            case Begin(_) => Holds(base, m, task, id, Active)
            case Finish(_, _) => Holds(base, m, task, id, Completed)
            case Break(_, _) => Holds(base, m, task, id, Failed)
            case Block(_, _) => Holds(base, m, task, id, Blocked)
            case Abandon(_) => Holds(base, m, task, id, Cancelled)
            case _ => forall s :: Holds(base, l, task, id, s) ==> Holds(base, m, task, id, s)
  {
    LogPrefix(l, task, step);
  }

  lemma SayHolds(base: Live, l: Live, task: E.TaskId, id: NodeId, status: NodeStatus, b: E.Body)
    requires base.log <= l.log && Holds(base, l, task, id, status)
    ensures base.log <= l.log + [b] && Holds(base, Live(l.graph, l.log + [b]), task, id, status)
  {
    var m := Live(l.graph, l.log + [b]);
    SplitRemoved(base, l, m, task);
    if Fresh(m.log, task) { FreshPrefix(l.log, m.log, task); }
  }

  /** While its run goes on, a node may end in any way. */
  lemma ActiveMayEnd(base: Live, l: Live, task: E.TaskId, step: Step, id: NodeId)
    requires base.log <= l.log && Holds(base, l, task, id, Active)
    requires Concerns(step, id) && !step.Begin?
    ensures Allowed(l, task, step)
  {
    LogPrefix(l, task, step);
    if Fresh(Next(l, task, step).log, task) { FreshPrefix(l.log, Next(l, task, step).log, task); }
  }

  lemma ReadyMayBegin(l: Live, task: E.TaskId, id: NodeId)
    requires Fresh(l.log, task) && l.graph.nodes.Has(id) ==> IsReady(l.graph.nodes, id)
    ensures Allowed(l, task, Begin(id))
  {
    LogPrefix(l, task, Begin(id));
    if Fresh(Next(l, task, Begin(id)).log, task) { FreshPrefix(l.log, Next(l, task, Begin(id)).log, task); }
  }

  // ------------------------------------------------------------------
  // Counting in the log
  // ------------------------------------------------------------------

  /** The word for a terminal status. */
  function EndWord(status: NodeStatus): PlanStatus {
    if status == Completed then PlanCompleted else if status == Failed then PlanFailed else PlanCancelled
  }

  /** What the log of a task says of its status, in order: created, started, and how it ended. */
  function CourseOf(status: NodeStatus): seq<PlanStatus> {
    if Open(status) then [PlanPending, PlanActive] else [PlanPending, PlanActive, EndWord(status)]
  }

  predicate IsToolEvent(b: E.Body) {
    b.ToolStarted? || b.ToolCompleted? || b.ToolFailed?
  }

  function ToolEvents(log: seq<E.Body>): seq<E.Body> {
    if log == [] then []
    else
      var front := ToolEvents(log[..|log|-1]);
      if IsToolEvent(log[|log|-1]) then front + [log[|log|-1]] else front
  }

  lemma ToolEventsSnoc(log: seq<E.Body>, b: E.Body)
    ensures ToolEvents(log + [b]) == if IsToolEvent(b) then ToolEvents(log) + [b] else ToolEvents(log)
  {
    assert (log + [b])[..|log|] == log;
  }

  lemma PlainSnoc(log: seq<E.Body>, b: E.Body, task: E.TaskId)
    requires WordOf(b, task).None? && !IsToolEvent(b)
    ensures Course(log + [b], task) == Course(log, task) && ToolEvents(log + [b]) == ToolEvents(log)
  {
    CourseSnoc(log, b, task);
    ToolEventsSnoc(log, b);
  }

  lemma SegmentTools(l: Live, task: E.TaskId, step: Step)
    requires !step.Say?
    ensures ToolEvents(Next(l, task, step).log) == ToolEvents(l.log)
  {
    LogGrowth(l, task, step);
    var b := Appended(l, task, step);
    if b.Some? { ToolEventsSnoc(l.log, b.value); }
  }

  lemma SegmentCourse(l: Live, task: E.TaskId, step: Step)
    requires step.Say? ==> IsToolEvent(step.body)
    ensures Course(Next(l, task, step).log, task) == Course(l.log, task)
  {
    LogGrowth(l, task, step);
    var b := Appended(l, task, step);
    if b.Some? { CourseSnoc(l.log, b.value, task); }
  }

  // ------------------------------------------------------------------
  // The runtime's invariant, as a property of its state
  // ------------------------------------------------------------------

  /** Reachable, and the log announces exactly the course of a task with this status. */
  ghost predicate Sound(o: Origin, l: Live, status: NodeStatus) {
    Reached(o, l) && Course(l.log, o.task) == CourseOf(status)
  }

  /** Nothing but node `busy` has moved since `base`, except by replanning. */
  ghost predicate Ongoing(o: Origin, base: Live, l: Live, busy: Option<NodeId>) {
    Starting(base, o.task, busy) && Progress(base, l, o.task, busy)
  }

  lemma StepIsSound(o: Origin, l: Live, status: NodeStatus, step: Step)
    requires Sound(o, l, status) && Allowed(l, o.task, step)
    requires step.Say? ==> IsToolEvent(step.body)
    ensures Sound(o, Next(l, o.task, step), status)
    ensures !step.Say? ==> ToolEvents(Next(l, o.task, step).log) == ToolEvents(l.log)
  {
    StepReaches(o, l, step);
    SegmentCourse(l, o.task, step);
    if !step.Say? { SegmentTools(l, o.task, step); }
  }

  lemma NodeStepContinues(o: Origin, base: Live, l: Live, step: Step, id: NodeId)
    requires Ongoing(o, base, l, Some(id)) && Allowed(l, o.task, step) && Concerns(step, id)
    ensures Ongoing(o, base, Next(l, o.task, step), Some(id))
  {
    NodeProgress(l, o.task, step, id);
    ProgressContinues(base, l, Next(l, o.task, step), o.task, Some(id));
  }

  lemma AsideContinues(o: Origin, base: Live, l: Live, m: Live, busy: Option<NodeId>)
    requires Ongoing(o, base, l, busy) && Progress(l, m, o.task, None)
    ensures Ongoing(o, base, m, busy)
  {
    ProgressContinues(base, l, m, o.task, busy);
  }

  lemma ReplanStepContinues(o: Origin, base: Live, l: Live, busy: Option<NodeId>, step: Step)
    requires Reached(o, l) && Ongoing(o, base, l, busy)
    requires Allowed(l, o.task, step) && (step.Add? || step.Commit?)
    ensures Ongoing(o, base, Next(l, o.task, step), busy)
    ensures Progress(l, Next(l, o.task, step), o.task, None)
  {
    ReachedIsGood(o, l);
    ReplanProgress(l, o.task, step);
    AsideContinues(o, base, l, Next(l, o.task, step), busy);
  }

  lemma SayContinues(o: Origin, base: Live, l: Live, status: NodeStatus, id: NodeId, now: NodeStatus, b: E.Body)
    requires Sound(o, l, status) && Ongoing(o, base, l, Some(id)) && Holds(base, l, o.task, id, now) && IsToolEvent(b)
    ensures var m := Live(l.graph, l.log + [b]);
            && Sound(o, m, status) && Ongoing(o, base, m, Some(id)) && Holds(base, m, o.task, id, now)
            && ToolEvents(m.log) == ToolEvents(l.log) + [b] && Seen(Since(base, m), b)
  {
    SaidSince(base, l, Live(l.graph, l.log + [b]), b);
    SayHolds(base, l, o.task, id, now, b);
    StepIsSound(o, l, status, Say(b));
    SayProgress(l, o.task, b);
    AsideContinues(o, base, l, Next(l, o.task, Say(b)), Some(id));
    ToolEventsSnoc(l.log, b);
  }

  lemma SayProgress(l: Live, task: E.TaskId, b: E.Body)
    ensures Progress(l, Live(l.graph, l.log + [b]), task, None)
  {
  }

  /** Publishing the terminal event and taking the terminal status are one segment. */
  lemma ConclusionIsSound(o: Origin, l: Live, was: NodeStatus, status: NodeStatus, b: E.Body)
    requires Sound(o, l, was) && Open(was) && !Open(status)
    requires SaysNothingOfNodes(b) && WordOf(b, o.task) == Some(EndWord(status)) && !IsToolEvent(b)
    ensures var m := Live(l.graph, l.log + [b]);
            Sound(o, m, status) && Progress(l, m, o.task, None) && ToolEvents(m.log) == ToolEvents(l.log)
  {
    StepReaches(o, l, Say(b));
    SayProgress(l, o.task, b);
    CourseSnoc(l.log, b, o.task);
    ToolEventsSnoc(l.log, b);
  }

  lemma UnblockIsSound(o: Origin, l: Live, status: NodeStatus)
    requires Sound(o, l, status) && AtRest(l.graph)
    ensures var m := Next(l, o.task, Unblock); Sound(o, m, status) && AtRest(m.graph)
  {
    StepIsSound(o, l, status, Unblock);
  }

  lemma ReachedStarts(o: Origin, l: Live, busy: Option<NodeId>)
    requires Reached(o, l) && (busy.Some? ==> l.graph.nodes.Has(busy.value))
    ensures Ongoing(o, l, l, busy)
  {
    ReachedIsGood(o, l);
  }

  lemma ProgressTwice(o: Origin, a: Live, b: Live, c: Live)
    requires Reached(o, a) && Progress(a, b, o.task, None) && Progress(b, c, o.task, None)
    ensures Progress(a, c, o.task, None)
  {
    ReachedIsGood(o, a);
    ProgressContinues(a, b, c, o.task, None);
  }

  /** Starts and ends alternate, and each end is that of the call before it. */
  ghost predicate Bracketed(events: seq<E.Body>) {
    |events| % 2 == 0 && forall i :: BracketAt(events, i)
  }

  ghost predicate BracketAt(events: seq<E.Body>, i: nat) {
    2 * i + 1 < |events| ==> Bracket(events[2 * i], events[2 * i + 1])
  }

  ghost predicate Bracket(first: E.Body, last: E.Body) {
    first.ToolStarted? && (last.ToolCompleted? || last.ToolFailed?) && last.toolCallId == first.toolCallId
  }

  lemma OneMoreBracket(events: seq<E.Body>, first: E.Body, last: E.Body)
    requires Bracketed(events) && Bracket(first, last)
    ensures Bracketed(events + [first] + [last])
  {
    var more := events + [first] + [last];
    forall i: nat ensures BracketAt(more, i) {
      if 2 * i + 1 < |events| {
        assert BracketAt(events, i);
        assert more[2 * i] == events[2 * i] && more[2 * i + 1] == events[2 * i + 1];
      } else if 2 * i + 1 < |more| {
        assert more[2 * i] == first && more[2 * i + 1] == last;
      }
    }
  }

  // ------------------------------------------------------------------
  // Startup
  // ------------------------------------------------------------------

  /** An opened task is sound and at rest. */
  lemma OpeningIsSound(o: Origin, early: Live, spared: bool, l: Live)
    requires OpensFrom(o, early, spared, l) && Course(l.log, o.task) == CourseOf(Active)
    ensures Sound(o, l, Active) && AtRest(l.graph)
  {
    assert IsOpening(o, l);
    OpeningReached(o, l);
    EarlyIsKept(o, early, spared);
  }

  /** Before the plan is announced: early steps, of which none added a node. */
  ghost predicate Opening(o: Origin, l: Live, spared: bool) {
    EarlyReached(o, l, spared) && l.graph.nodes.keys == if spared then [o.root] else []
  }

  lemma EarlyStepUsesNoTool(o: Origin, l: Live, step: Step)
    requires EarlyStep(o, l, step)
    ensures ToolEvents(Next(l, o.task, step).log) == ToolEvents(l.log)
  {
    if step.Say? { ToolEventsSnoc(l.log, step.body); } else { SegmentTools(l, o.task, step); }
  }

  lemma {:induction false} EarlyStepsUseNoTool(o: Origin, states: seq<Live>, steps: seq<Step>, i: nat)
    requires IsEarly(o, states, steps) && i < |states|
    ensures ToolEvents(states[i].log) == []
  {
    assert EarlyFits(o, states, steps, i);
    if i == 0 {
      var b := E.TaskCreated(o.task, o.title, [o.root]);
      assert o.Created().log == [] + [b];
      ToolEventsSnoc([], b);
    } else {
      EarlyStepsUseNoTool(o, states, steps, i - 1);
      EarlyStepUsesNoTool(o, states[i-1], steps[i-1]);
    }
  }

  /** No tool has been called yet. */
  lemma EarlyUsesNoTool(o: Origin, l: Live, spared: bool)
    requires EarlyReached(o, l, spared)
    ensures ToolEvents(l.log) == []
  {
    var states: seq<Live>, steps: seq<Step> :|
      IsEarly(o, states, steps) && states[|states|-1] == l && spared == Spares(steps, o.root);
    EarlyStepsUseNoTool(o, states, steps, |steps|);
  }

  lemma OpeningStarts(o: Origin)
    ensures Opening(o, o.Created(), true) && Course(o.Created().log, o.task) == [PlanPending]
  {
    CreatedReached(o);
    assert o.Created().log == [] + [E.TaskCreated(o.task, o.title, [o.root])];
    CourseSnoc([], E.TaskCreated(o.task, o.title, [o.root]), o.task);
  }

  lemma OpeningSays(o: Origin, l: Live, spared: bool)
    requires Opening(o, l, spared)
    ensures var m := Next(l, o.task, Say(E.TaskStarted(o.task)));
            Opening(o, m, spared) && Course(m.log, o.task) == Course(l.log, o.task) + [PlanActive]
  {
    CourseSnoc(l.log, E.TaskStarted(o.task), o.task);
    EarlyStepReaches(o, l, spared, Say(E.TaskStarted(o.task)));
  }

  /** A replan that only removes. */
  lemma OpeningRemoves(o: Origin, l: Live, spared: bool, removed: seq<NodeId>)
    requires Opening(o, l, spared)
    ensures Opening(o, Next(l, o.task, Commit([], removed)), spared && o.root !in removed)
    ensures Course(Next(l, o.task, Commit([], removed)).log, o.task) == Course(l.log, o.task)
  {
    var step := Commit([], removed);
    SegmentCourse(l, o.task, step);
    EarlyStepReaches(o, l, spared, step);
    EarlyIsKept(o, l, spared);
    RemovedKeys(o.root, l.graph, removed);
  }

  lemma {:induction false} RemovedKeys(root: NodeId, g: Graph, removed: seq<NodeId>)
    requires g.nodes.Valid() && (g.nodes.keys == [root] || g.nodes.keys == [])
    ensures RemovedAll(g, removed).nodes.keys == if root in removed then [] else g.nodes.keys
    decreases |removed|
  {
    if removed != [] {
      RemoveOnly(root, g, removed[0]);
      RemovedKeys(root, g.Removed(removed[0]), removed[1..]);
    }
  }

  lemma RemoveOnly(root: NodeId, g: Graph, id: NodeId)
    requires g.nodes.Valid() && (g.nodes.keys == [root] || g.nodes.keys == [])
    ensures g.Removed(id).nodes.Valid()
    ensures g.Removed(id).nodes.keys == if id == root then [] else g.nodes.keys
  {
    if g.nodes.Has(id) {
      assert g.nodes.keys == [] + [root];
      assert [root][..0] == [];
    }
  }

  lemma {:induction false} PlainGrowth(log: seq<E.Body>, longer: seq<E.Body>, task: E.TaskId)
    requires log <= longer && forall i :: |log| <= i < |longer| ==> longer[i].SubtaskCreated?
    ensures Course(longer, task) == Course(log, task) && ToolEvents(longer) == ToolEvents(log)
    decreases |longer|
  {
    if |longer| == |log| {
      assert longer == log;
    } else {
      PlainGrowth(log, longer[..|longer|-1], task);
    }
  }

  lemma AnnouncingChangesNothing(task: E.TaskId, l: Live)
    requires Listed(l.graph.nodes)
    ensures var log := l.log + Announcements(task, l.graph.nodes, |l.graph.nodes.keys|);
            Course(log, task) == Course(l.log, task) && ToolEvents(log) == ToolEvents(l.log)
  {
    OnlyAnnouncements(task, l.graph.nodes, |l.graph.nodes.keys|);
    var more := Announcements(task, l.graph.nodes, |l.graph.nodes.keys|);
    forall i | |l.log| <= i < |l.log + more| ensures (l.log + more)[i].SubtaskCreated? {
      assert (l.log + more)[i] == more[i - |l.log|];
      assert more[i - |l.log|] in more;
    }
    PlainGrowth(l.log, l.log + more, task);
  }

  lemma OpeningIsRooted(o: Origin, l: Live, spared: bool)
    requires Opening(o, l, spared)
    ensures Listed(l.graph.nodes) && Rooted(l.graph)
  {
    EarlyIsKept(o, l, spared);
    if spared {
      SparedAgreement(o, l);
    } else {
      assert forall k :: k in l.graph.nodes.vals ==> k in l.graph.nodes.keys;
    }
  }

  lemma OpeningIsValid(o: Origin, l: Live, spared: bool)
    requires Opening(o, l, spared)
    ensures l.graph.Valid()
  {
    EarlyIsKept(o, l, spared);
  }

  /** Announcing the plan then opens the task. */
  lemma OpeningOpens(o: Origin, l: Live, spared: bool)
    requires Opening(o, l, spared)
    ensures Listed(l.graph.nodes) && OpensFrom(o, l, spared, Opened(o, l))
    ensures Course(Opened(o, l).log, o.task) == Course(l.log, o.task) && ToolEvents(Opened(o, l).log) == []
  {
    OpeningIsRooted(o, l, spared);
    EarlyUsesNoTool(o, l, spared);
    AnnouncingChangesNothing(o.task, l);
  }
}
