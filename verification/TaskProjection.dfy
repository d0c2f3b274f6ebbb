/** Rebuilding a task graph from its event log. */
module TaskProjection {
  import opened Seqs
  import opened JsMaps
  import opened Graphs
  import opened Kahn
  import opened TaskGraphs
  import E = Events
  import opened EventStream

  datatype PlanStatus = PlanPending | PlanActive | PlanBlocked | PlanCompleted | PlanFailed | PlanCancelled

  /** `dependsOn` is a JavaScript Set: repeat-free, in insertion order. */
  datatype PlanNode = PlanNode(id: NodeId, parentId: Option<NodeId>, goal: string, status: E.TaskNodeStatus,
                               dependsOn: seq<NodeId>, result: Option<string>, error: Option<string>)

  type PlanNodes = JsMap<NodeId, PlanNode>

  datatype Plan = Plan(title: Option<string>, status: PlanStatus, roots: seq<NodeId>, nodes: PlanNodes)

  function EmptyPlan(): Plan {
    Plan(None, PlanPending, [], Empty())
  }

  /** The elements without repeats, first occurrences kept (new Set(array)). */
  function Unique(ds: seq<NodeId>): seq<NodeId> {
    if ds == [] then []
    else
      var front := Unique(ds[..|ds|-1]);
      if ds[|ds|-1] in front then front else front + [ds[|ds|-1]]
  }

  /** Drops the first occurrence (indexOf and splice). */
  function RemoveFirst(s: seq<NodeId>, x: NodeId): seq<NodeId> {
    if s == [] then [] else if s[0] == x then s[1..] else [s[0]] + RemoveFirst(s[1..], x)
  }

  /** Pushes the ids that are not there yet. */
  function PushNew(roots: seq<NodeId>, ids: seq<NodeId>): seq<NodeId>
    decreases |ids|
  {
    if ids == [] then roots
    else PushNew(if ids[0] in roots then roots else roots + [ids[0]], ids[1..])
  }

  function WithoutDependency(n: PlanNode, id: NodeId): PlanNode {
    n.(dependsOn := RemoveAll(n.dependsOn, id))
  }

  function RemoveOne(p: Plan, id: NodeId): Plan {
    p.(nodes := MapValues(p.nodes.Delete(id), (n: PlanNode) => WithoutDependency(n, id)),
       roots := RemoveFirst(p.roots, id))
  }

  function RemoveMany(p: Plan, ids: seq<NodeId>): Plan
    decreases |ids|
  {
    if ids == [] then p else RemoveMany(RemoveOne(p, ids[0]), ids[1..])
  }

  function AddOne(p: Plan, a: E.AddedNode): Plan {
    p.(nodes := p.nodes.Set(a.id, PlanNode(a.id, a.parentId, a.goal, a.status, Unique(a.dependsOn), a.result, a.error)))
  }

  function AddMany(p: Plan, added: seq<E.AddedNode>): Plan
    decreases |added|
  {
    if added == [] then p else AddMany(AddOne(p, added[0]), added[1..])
  }

  function Redirect(p: Plan, updated: seq<(NodeId, seq<NodeId>)>): Plan
    decreases |updated|
  {
    if updated == [] then p
    else
      var (id, deps) := updated[0];
      var p1 := if p.nodes.Has(id) then
                  p.(nodes := p.nodes.Set(id, p.nodes.Get(id).(dependsOn := Unique(deps))))
                else p;
      Redirect(p1, updated[1..])
  }

  function SetStatus(p: Plan, id: NodeId, status: E.TaskNodeStatus): Plan {
    if p.nodes.Has(id) then p.(nodes := p.nodes.Set(id, p.nodes.Get(id).(status := status))) else p
  }

  /** The task an event belongs to. */
  function TaskOf(b: E.Body): Option<E.TaskId> {
    if b.TaskCreated? || b.TaskStarted? || b.SubtaskCreated? || b.NodeStarted? || b.NodeCompleted? || b.NodeFailed?
       || b.TaskProgress? || b.TaskBlocked? || b.TaskReplan? || b.TaskCompleted? || b.TaskFailed? || b.TaskCancelled?
    then Some(b.taskId) else None
  }

  /** The effect of one event of the task. */
  function PlanStep(p: Plan, b: E.Body): Plan {
    match b
    case TaskCreated(_, title, rootIds) =>
      p.(title := Some(title), status := PlanPending, roots := PushNew(p.roots, rootIds))
    case TaskStarted(_) => p.(status := PlanActive)
    case SubtaskCreated(_, id, parentId, goal, deps, status) =>
      var set1 := Unique(deps);
      var now := if status.Some? then status.value else E.Runtime(Pending);
      p.(nodes := p.nodes.Set(id, PlanNode(id, parentId, goal, now, set1, None, None)),
         roots := if set1 == [] && id !in p.roots then p.roots + [id] else p.roots)
    case NodeStarted(_, id) => SetStatus(p, id, E.Runtime(Active))
    case NodeCompleted(_, id, result) =>
      if p.nodes.Has(id) then
        p.(nodes := p.nodes.Set(id, p.nodes.Get(id).(status := E.Runtime(Completed), result := Some(result))))
      else p
    case NodeFailed(_, id, error) =>
      if p.nodes.Has(id) then
        p.(nodes := p.nodes.Set(id, p.nodes.Get(id).(status := E.Runtime(Failed), error := Some(error))))
      else p
    case TaskProgress(_, node, status) =>
      if node.Some? && status.Some? then SetStatus(p, node.value, status.value) else p
    case TaskBlocked(_, node, _) =>
      if node.Some? then SetStatus(p, node.value, E.Runtime(Blocked)) else p.(status := PlanBlocked)
    case TaskReplan(_, added, removed, updated) => Redirect(AddMany(RemoveMany(p, removed), added), updated)
    case TaskCompleted(_) => p.(status := PlanCompleted)
    case TaskFailed(_, _) => p.(status := PlanFailed)
    case TaskCancelled(_, _) => p.(status := PlanCancelled)
    case _ => p
  }

  /** Replays a log of event bodies; events of other tasks do not count. */
  function Replay(log: seq<E.Body>, task: E.TaskId): Plan {
    if log == [] then EmptyPlan()
    else
      var before := Replay(log[..|log|-1], task);
      if TaskOf(log[|log|-1]) == Some(task) then PlanStep(before, log[|log|-1]) else before
  }

  function PlanEdges(nodes: PlanNodes): (g: Edges)
    ensures nodes.Valid() ==> g.Valid()
    ensures g.keys == nodes.keys && g.vals.Keys == nodes.vals.Keys
    ensures forall n :: n in nodes.vals ==> g.vals[n] == nodes.vals[n].dependsOn
  {
    MapValues(nodes, (n: PlanNode) => n.dependsOn)
  }

  // ------------------------------------------------------------------
  // The projection
  // ------------------------------------------------------------------

  datatype Projection =
    | Projected(plan: Plan, order: seq<NodeId>) | StreamError | NoEvents | GraphError(verdict: Verdict)

  lemma {:induction false} RemoveManyValid(p: Plan, ids: seq<NodeId>)
    requires p.nodes.Valid()
    ensures RemoveMany(p, ids).nodes.Valid()
    decreases |ids|
  {
    if ids != [] { RemoveManyValid(RemoveOne(p, ids[0]), ids[1..]); }
  }

  lemma {:induction false} AddManyValid(p: Plan, added: seq<E.AddedNode>)
    requires p.nodes.Valid()
    ensures AddMany(p, added).nodes.Valid()
    decreases |added|
  {
    if added != [] { AddManyValid(AddOne(p, added[0]), added[1..]); }
  }

  lemma {:induction false} RedirectValid(p: Plan, updated: seq<(NodeId, seq<NodeId>)>)
    requires p.nodes.Valid()
    ensures Redirect(p, updated).nodes.Valid()
    decreases |updated|
  {
    if updated != [] {
      var (id, deps) := updated[0];
      var p1 := if p.nodes.Has(id) then
                  p.(nodes := p.nodes.Set(id, p.nodes.Get(id).(dependsOn := Unique(deps))))
                else p;
      RedirectValid(p1, updated[1..]);
    }
  }

  lemma PlanStepValid(p: Plan, b: E.Body)
    requires p.nodes.Valid()
    ensures PlanStep(p, b).nodes.Valid()
  {
    if b.TaskReplan? {
      RemoveManyValid(p, b.removed);
      AddManyValid(RemoveMany(p, b.removed), b.added);
      RedirectValid(AddMany(RemoveMany(p, b.removed), b.added), b.updated);
    }
  }

  lemma {:induction false} ReplayValid(log: seq<E.Body>, task: E.TaskId)
    ensures Replay(log, task).nodes.Valid()
  {
    if log != [] {
      ReplayValid(log[..|log|-1], task);
      PlanStepValid(Replay(log[..|log|-1], task), log[|log|-1]);
    }
  }

  function Bodies(events: seq<E.AIEvent>): (r: seq<E.Body>)
    ensures |r| == |events| && forall i :: 0 <= i < |r| ==> r[i] == events[i].body
  {
    seq(|events|, i requires 0 <= i < |events| => events[i].body)
  }

  function OwnEvents(events: seq<E.AIEvent>, task: E.TaskId): seq<E.AIEvent> {
    Filter(events, (e: E.AIEvent) => TaskOf(e.body) == Some(task))
  }

  ghost function Project(events: seq<E.AIEvent>, task: E.TaskId): Projection {
    match PrepareEventStream(events)
    case UnsupportedSchema => StreamError
    case Stream(sorted) =>
      if OwnEvents(sorted, task) == [] then NoEvents
      else
        var plan := Replay(Bodies(sorted), task);
        ReplayValid(Bodies(sorted), task);
        var verdict := Judge(PlanEdges(plan.nodes));
        if verdict.Ordered? then Projected(plan, verdict.order) else GraphError(verdict)
  }

  lemma RemoveAbsent(s: seq<NodeId>, x: NodeId)
    requires x !in s
    ensures RemoveFirst(s, x) == s
  {
    if s != [] { RemoveAbsent(s[1..], x); }
  }

  lemma {:induction false} RemoveFirstAt(s: seq<NodeId>, x: NodeId)
    requires x in s
    ensures RemoveFirst(s, x) == s[..Index(s, x)] + s[Index(s, x)+1..]
  {
    if s[0] != x {
      RemoveFirstAt(s[1..], x);
    }
  }

  method ApplyReplan(p: Plan, added: seq<E.AddedNode>, removed: seq<NodeId>, updated: seq<(NodeId, seq<NodeId>)>)
    returns (p': Plan)
    requires p.nodes.Valid()
    ensures p' == Redirect(AddMany(RemoveMany(p, removed), added), updated)
  {
    var nodes, roots := p.nodes, p.roots;
    for i := 0 to |removed|
      invariant nodes.Valid()
      invariant RemoveMany(p, removed) == RemoveMany(p.(nodes := nodes, roots := roots), removed[i..])
    {
      var id := removed[i];
      assert removed[i..][0] == id && removed[i..][1..] == removed[i+1..];
      nodes := nodes.Delete(id);
      if id in roots {
        RemoveFirstAt(roots, id);
        var at := Index(roots, id);
        roots := roots[..at] + roots[at+1..];
      } else {
        RemoveAbsent(roots, id);
      }
      nodes := MapValues(nodes, (n: PlanNode) => WithoutDependency(n, id));
    }
    p' := p.(nodes := nodes, roots := roots);
    ghost var shrunk := p';
    for i := 0 to |added|
      invariant AddMany(shrunk, added) == AddMany(p', added[i..])
    {
      assert added[i..][0] == added[i] && added[i..][1..] == added[i+1..];
      p' := AddOne(p', added[i]);
    }
    ghost var grown := p';
    for i := 0 to |updated|
      invariant Redirect(grown, updated) == Redirect(p', updated[i..])
    {
      assert updated[i..][0] == updated[i] && updated[i..][1..] == updated[i+1..];
      var (id, deps) := updated[i];
      if p'.nodes.Has(id) {
        p' := p'.(nodes := p'.nodes.Set(id, p'.nodes.Get(id).(dependsOn := Unique(deps))));
      }
    }
  }

  method ApplyTaskEvent(p: Plan, b: E.Body) returns (p': Plan)
    requires p.nodes.Valid()
    ensures p' == PlanStep(p, b) && p'.nodes.Valid()
  {
    PlanStepValid(p, b);
    p' := p;
    match b {
      case TaskCreated(_, title, rootIds) =>
        var roots := p.roots;
        for i := 0 to |rootIds|
          invariant PushNew(p.roots, rootIds) == PushNew(roots, rootIds[i..])
        {
          assert rootIds[i..][0] == rootIds[i] && rootIds[i..][1..] == rootIds[i+1..];
          if rootIds[i] !in roots {
            roots := roots + [rootIds[i]];
          }
        }
        p' := p.(title := Some(title), status := PlanPending, roots := roots);
      case TaskStarted(_) => p' := p.(status := PlanActive);
      case SubtaskCreated(_, id, parentId, goal, deps, status) =>
        var dependsOn := Unique(deps);
        var initial := if status.Some? then status.value else E.Runtime(Pending);
        p' := p.(nodes := p.nodes.Set(id, PlanNode(id, parentId, goal, initial, dependsOn, None, None)));
        if |dependsOn| == 0 && id !in p.roots {
          p' := p'.(roots := p.roots + [id]);
        }
      case NodeStarted(_, id) => p' := SetStatus(p, id, E.Runtime(Active));
      case NodeCompleted(_, id, result) =>
        if p.nodes.Has(id) {
          p' := p.(nodes := p.nodes.Set(id, p.nodes.Get(id).(status := E.Runtime(Completed), result := Some(result))));
        }
      case NodeFailed(_, id, error) =>
        if p.nodes.Has(id) {
          p' := p.(nodes := p.nodes.Set(id, p.nodes.Get(id).(status := E.Runtime(Failed), error := Some(error))));
        }
      case TaskProgress(_, node, status) =>
        if node.Some? && status.Some? {
          p' := SetStatus(p, node.value, status.value);
        }
      case TaskBlocked(_, node, _) =>
        if node.Some? {
          p' := SetStatus(p, node.value, E.Runtime(Blocked));
        } else {
          p' := p.(status := PlanBlocked);
        }
      case TaskReplan(_, added, removed, updated) => p' := ApplyReplan(p, added, removed, updated);
      case TaskCompleted(_) => p' := p.(status := PlanCompleted);
      case TaskFailed(_, _) => p' := p.(status := PlanFailed);
      case TaskCancelled(_, _) => p' := p.(status := PlanCancelled);
      case _ =>
    }
  }

  lemma ReplaySnoc(log: seq<E.Body>, b: E.Body, task: E.TaskId)
    ensures Replay(log + [b], task)
            == if TaskOf(b) == Some(task) then PlanStep(Replay(log, task), b) else Replay(log, task)
  {
    assert (log + [b])[..|log|] == log;
  }

  lemma BodiesSnoc(events: seq<E.AIEvent>, e: E.AIEvent)
    ensures Bodies(events + [e]) == Bodies(events) + [e.body]
  {
  }

  lemma OwnSnoc(events: seq<E.AIEvent>, e: E.AIEvent, task: E.TaskId)
    ensures OwnEvents(events + [e], task) == OwnEvents(events, task) + if TaskOf(e.body) == Some(task) then [e] else []
  {
    assert (events + [e])[..|events|] == events;
  }

  /** Replaying the task's own events is replaying the whole stream. */
  lemma {:induction false} ReplayOwnEvents(events: seq<E.AIEvent>, task: E.TaskId)
    ensures Replay(Bodies(OwnEvents(events, task)), task) == Replay(Bodies(events), task)
  {
    if events != [] {
      var before, e := events[..|events|-1], events[|events|-1];
      ReplayOwnEvents(before, task);
      assert events == before + [e];
      OwnSnoc(before, e, task);
      BodiesSnoc(before, e);
      BodiesSnoc(OwnEvents(before, task), e);
      ReplaySnoc(Bodies(before), e.body, task);
      ReplaySnoc(Bodies(OwnEvents(before, task)), e.body, task);
    }
  }

  method ProjectTaskGraph(events: seq<E.AIEvent>, task: E.TaskId) returns (r: Projection)
    ensures r == Project(events, task)
  {
    var stream := PrepareEventStream(events);
    if stream.UnsupportedSchema? {
      return StreamError;
    }
    var own := OwnEvents(stream.events, task);
    if |own| == 0 {
      return NoEvents;
    }
    FilterMember(stream.events, (e: E.AIEvent) => TaskOf(e.body) == Some(task));
    var plan := EmptyPlan();
    for i := 0 to |own|
      invariant plan.nodes.Valid() && plan == Replay(Bodies(own[..i]), task)
    {
      assert Bodies(own[..i+1])[..i] == Bodies(own[..i]);
      assert own[i] in own;
      plan := ApplyTaskEvent(plan, own[i].body);
    }
    assert own[..|own|] == own;
    ReplayOwnEvents(stream.events, task);
    var verdict := ValidateTaskGraph(PlanEdges(plan.nodes));
    if !verdict.Ordered? {
      return GraphError(verdict);
    }
    return Projected(plan, verdict.order);
  }

  /** Any permutation of a log with distinct keys projects alike. */
  lemma ProjectionIsOrderBlind(a: seq<E.AIEvent>, b: seq<E.AIEvent>, task: E.TaskId)
    requires multiset(a) == multiset(b) && DistinctKeys(a)
    ensures Project(a, task) == Project(b, task)
  {
    PrepareIsOrderBlind(a, b);
  }
}
