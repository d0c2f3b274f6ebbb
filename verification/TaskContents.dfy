/**
 * What a replayed log says, told event by event: each field of the plan and of
 * its nodes is what the last event that speaks of it announces.
 */
module TaskContents {
  import opened Seqs
  import opened JsMaps
  import opened Graphs
  import opened TaskGraphs
  import E = Events
  import opened EventStream
  import opened TaskProjection

  // ------------------------------------------------------------------
  // The task's status and title
  // ------------------------------------------------------------------

  /** The status an event announces for the task, if any. */
  function WordOf(b: E.Body, task: E.TaskId): Option<PlanStatus> {
    match b
    case TaskCreated(t, _, _) => if t == task then Some(PlanPending) else None
    case TaskStarted(t) => if t == task then Some(PlanActive) else None
    case TaskBlocked(t, node, _) => if t == task && node.None? then Some(PlanBlocked) else None
    case TaskCompleted(t) => if t == task then Some(PlanCompleted) else None
    case TaskFailed(t, _) => if t == task then Some(PlanFailed) else None
    case TaskCancelled(t, _) => if t == task then Some(PlanCancelled) else None
    case _ => None
  }

  /** Event `i` is the last one that announces a status. */
  ghost predicate LastWord(log: seq<E.Body>, task: E.TaskId, i: nat) {
    && i < |log| && WordOf(log[i], task).Some?
    && forall j :: i < j < |log| ==> WordOf(log[j], task).None?
  }

  lemma StatusStep(log: seq<E.Body>, task: E.TaskId)
    requires log != []
    ensures var n := |log| - 1;
            Replay(log, task).status
            == if WordOf(log[n], task).Some? then WordOf(log[n], task).value else Replay(log[..n], task).status
  {
    var b, p := log[|log|-1], Replay(log[..|log|-1], task);
    if b.TaskReplan? {
      ReplanKeepsHeader(p, b);
    }
  }

  /** The task's status is the one its last status-bearing event announces. */
  lemma {:induction false} StatusIsLast(log: seq<E.Body>, task: E.TaskId, i: nat)
    requires LastWord(log, task, i)
    ensures Replay(log, task).status == WordOf(log[i], task).value
  {
    StatusStep(log, task);
    if i < |log| - 1 { StatusIsLast(log[..|log|-1], task, i); }
  }

  /** Without such an event it is pending. */
  lemma {:induction false} StatusStartsPending(log: seq<E.Body>, task: E.TaskId)
    requires forall j :: 0 <= j < |log| ==> WordOf(log[j], task).None?
    ensures Replay(log, task).status == PlanPending
  {
    if log != [] {
      StatusStep(log, task);
      StatusStartsPending(log[..|log|-1], task);
    }
  }

  /** Whatever was announced last is this. */
  ghost predicate LastSaid(log: seq<E.Body>, task: E.TaskId, status: PlanStatus) {
    forall i: nat :: LastWord(log, task, i) ==> WordOf(log[i], task) == Some(status)
  }

  lemma StatusIsSaid(log: seq<E.Body>, task: E.TaskId)
    ensures LastSaid(log, task, Replay(log, task).status)
  {
    forall i: nat | LastWord(log, task, i) ensures WordOf(log[i], task) == Some(Replay(log, task).status) {
      StatusIsLast(log, task, i);
    }
  }

  /** The statuses a log announces for the task, in order. */
  function Course(log: seq<E.Body>, task: E.TaskId): seq<PlanStatus> {
    if log == [] then []
    else
      var front, word := Course(log[..|log|-1], task), WordOf(log[|log|-1], task);
      if word.Some? then front + [word.value] else front
  }

  lemma CourseSnoc(log: seq<E.Body>, b: E.Body, task: E.TaskId)
    ensures Course(log + [b], task)
            == if WordOf(b, task).Some? then Course(log, task) + [WordOf(b, task).value] else Course(log, task)
  {
    assert (log + [b])[..|log|] == log;
  }

  lemma {:induction false} CourseGivesStatus(log: seq<E.Body>, task: E.TaskId)
    ensures var course := Course(log, task);
            Replay(log, task).status == if course == [] then PlanPending else course[|course|-1]
  {
    if log != [] {
      StatusStep(log, task);
      CourseGivesStatus(log[..|log|-1], task);
    }
  }

  predicate Titles(b: E.Body, task: E.TaskId) {
    b.TaskCreated? && b.taskId == task
  }

  lemma TitleStep(log: seq<E.Body>, task: E.TaskId)
    requires log != []
    ensures var n := |log| - 1;
            Replay(log, task).title
            == if Titles(log[n], task) then Some(log[n].taskTitle) else Replay(log[..n], task).title
  {
    var b, p := log[|log|-1], Replay(log[..|log|-1], task);
    if b.TaskReplan? {
      ReplanKeepsHeader(p, b);
    }
  }

  /** The title is that of the last creation. */
  lemma {:induction false} TitleIsLast(log: seq<E.Body>, task: E.TaskId, i: nat)
    requires i < |log| && Titles(log[i], task)
    requires forall j :: i < j < |log| ==> !Titles(log[j], task)
    ensures Replay(log, task).title == Some(log[i].taskTitle)
  {
    TitleStep(log, task);
    if i < |log| - 1 { TitleIsLast(log[..|log|-1], task, i); }
  }

  lemma {:induction false} TitleStartsUnknown(log: seq<E.Body>, task: E.TaskId)
    requires forall j :: 0 <= j < |log| ==> !Titles(log[j], task)
    ensures Replay(log, task).title == None
  {
    if log != [] {
      TitleStep(log, task);
      TitleStartsUnknown(log[..|log|-1], task);
    }
  }

  // ------------------------------------------------------------------
  // What a replan does to one node
  // ------------------------------------------------------------------

  lemma {:induction false} RemoveManyKeepsHeader(p: Plan, ids: seq<NodeId>)
    ensures RemoveMany(p, ids).status == p.status && RemoveMany(p, ids).title == p.title
    decreases |ids|
  {
    if ids != [] { RemoveManyKeepsHeader(RemoveOne(p, ids[0]), ids[1..]); }
  }

  lemma {:induction false} AddManyKeepsHeader(p: Plan, added: seq<E.AddedNode>)
    ensures var p' := AddMany(p, added); p'.status == p.status && p'.title == p.title && p'.roots == p.roots
    decreases |added|
  {
    if added != [] { AddManyKeepsHeader(AddOne(p, added[0]), added[1..]); }
  }

  lemma {:induction false} RedirectKeepsHeader(p: Plan, updated: seq<(NodeId, seq<NodeId>)>)
    ensures var p' := Redirect(p, updated); p'.status == p.status && p'.title == p.title && p'.roots == p.roots
    decreases |updated|
  {
    if updated != [] {
      var (id, deps) := updated[0];
      var p1 := if p.nodes.Has(id) then
                  p.(nodes := p.nodes.Set(id, p.nodes.Get(id).(dependsOn := Unique(deps))))
                else p;
      RedirectKeepsHeader(p1, updated[1..]);
    }
  }

  lemma ReplanKeepsHeader(p: Plan, b: E.Body)
    requires b.TaskReplan?
    ensures PlanStep(p, b).status == p.status && PlanStep(p, b).title == p.title
    ensures PlanStep(p, b).roots == RemoveMany(p, b.removed).roots
  {
    RemoveManyKeepsHeader(p, b.removed);
    AddManyKeepsHeader(RemoveMany(p, b.removed), b.added);
    RedirectKeepsHeader(AddMany(RemoveMany(p, b.removed), b.added), b.updated);
  }

  /** The last node a replan adds under an id, and the last dependencies it gives one. */
  function Addition(added: seq<E.AddedNode>, id: NodeId): Option<E.AddedNode> {
    if added == [] then None
    else if Addition(added[1..], id).Some? then Addition(added[1..], id)
    else if added[0].id == id then Some(added[0]) else None
  }

  function Redirection(updated: seq<(NodeId, seq<NodeId>)>, id: NodeId): Option<seq<NodeId>> {
    if updated == [] then None
    else if Redirection(updated[1..], id).Some? then Redirection(updated[1..], id)
    else if updated[0].0 == id then Some(updated[0].1) else None
  }

  lemma {:induction false} RemovedNode(p: Plan, ids: seq<NodeId>, id: NodeId)
    ensures var p' := RemoveMany(p, ids);
            && (p'.nodes.Has(id) <==> p.nodes.Has(id) && id !in ids)
            && (p'.nodes.Has(id) ==>
                  p'.nodes.Get(id) == p.nodes.Get(id).(dependsOn := p'.nodes.Get(id).dependsOn))
    decreases |ids|
  {
    if ids != [] { RemovedNode(RemoveOne(p, ids[0]), ids[1..], id); }
  }

  lemma {:induction false} RemovedDependency(p: Plan, ids: seq<NodeId>, id: NodeId, d: NodeId)
    requires RemoveMany(p, ids).nodes.Has(id)
    ensures p.nodes.Has(id)
    ensures d in RemoveMany(p, ids).nodes.Get(id).dependsOn <==> d in p.nodes.Get(id).dependsOn && d !in ids
    decreases |ids|
  {
    if ids != [] {
      var p1 := RemoveOne(p, ids[0]);
      RemovedDependency(p1, ids[1..], id, d);
      RemoveAllSpec(p.nodes.Get(id).dependsOn, ids[0]);
    }
  }

  lemma {:induction false} AddedNode(p: Plan, added: seq<E.AddedNode>, id: NodeId)
    ensures var p', a := AddMany(p, added), Addition(added, id);
            match a
            case Some(n) =>
              && p'.nodes.Has(id)
              && p'.nodes.Get(id) == PlanNode(id, n.parentId, n.goal, n.status, Unique(n.dependsOn), n.result, n.error)
            case None =>
              && (p'.nodes.Has(id) <==> p.nodes.Has(id))
              && (p.nodes.Has(id) ==> p'.nodes.Get(id) == p.nodes.Get(id))
    decreases |added|
  {
    if added != [] { AddedNode(AddOne(p, added[0]), added[1..], id); }
  }

  lemma {:induction false} RedirectedNode(p: Plan, updated: seq<(NodeId, seq<NodeId>)>, id: NodeId)
    ensures var p', ds := Redirect(p, updated), Redirection(updated, id);
            && (p'.nodes.Has(id) <==> p.nodes.Has(id))
            && (p.nodes.Has(id) ==>
                  p'.nodes.Get(id)
                  == if ds.Some? then p.nodes.Get(id).(dependsOn := Unique(ds.value)) else p.nodes.Get(id))
    decreases |updated|
  {
    if updated != [] {
      var (k, deps) := updated[0];
      var p1 := if p.nodes.Has(k) then
                  p.(nodes := p.nodes.Set(k, p.nodes.Get(k).(dependsOn := Unique(deps))))
                else p;
      RedirectedNode(p1, updated[1..], id);
    }
  }

  // ------------------------------------------------------------------
  // What one event says of a node
  // ------------------------------------------------------------------

  predicate IsReplan(b: E.Body, task: E.TaskId) {
    b.TaskReplan? && b.taskId == task
  }

  predicate Creates(b: E.Body, task: E.TaskId, id: NodeId) {
    || (b.SubtaskCreated? && b.taskId == task && b.nodeId == id)
    || (IsReplan(b, task) && Addition(b.added, id).Some?)
  }

  predicate Drops(b: E.Body, task: E.TaskId, id: NodeId) {
    IsReplan(b, task) && id in b.removed && Addition(b.added, id).None?
  }

  /** The status an event gives a node, if any. */
  function StatusIn(b: E.Body, task: E.TaskId, id: NodeId): Option<E.TaskNodeStatus> {
    match b
    case SubtaskCreated(t, k, _, _, _, status) =>
      if t != task || k != id then None else if status.Some? then status else Some(E.Runtime(Pending))
    case NodeStarted(t, k) => if t == task && k == id then Some(E.Runtime(Active)) else None
    case NodeCompleted(t, k, _) => if t == task && k == id then Some(E.Runtime(Completed)) else None
    case NodeFailed(t, k, _) => if t == task && k == id then Some(E.Runtime(Failed)) else None
    case TaskProgress(t, k, status) => if t == task && k == Some(id) then status else None
    case TaskBlocked(t, k, _) => if t == task && k == Some(id) then Some(E.Runtime(Blocked)) else None
    case TaskReplan(t, added, _, _) =>
      if t == task && Addition(added, id).Some? then Some(Addition(added, id).value.status) else None
    case _ => None
  }

  /** The result an event gives a node, none where it creates it without. */
  function ResultIn(b: E.Body, task: E.TaskId, id: NodeId): Option<Option<string>> {
    match b
    case SubtaskCreated(t, k, _, _, _, _) => if t == task && k == id then Some(None) else None
    case NodeCompleted(t, k, result) => if t == task && k == id then Some(Some(result)) else None
    case TaskReplan(t, added, _, _) =>
      if t == task && Addition(added, id).Some? then Some(Addition(added, id).value.result) else None
    case _ => None
  }

  function ErrorIn(b: E.Body, task: E.TaskId, id: NodeId): Option<Option<string>> {
    match b
    case SubtaskCreated(t, k, _, _, _, _) => if t == task && k == id then Some(None) else None
    case NodeFailed(t, k, error) => if t == task && k == id then Some(Some(error)) else None
    case TaskReplan(t, added, _, _) =>
      if t == task && Addition(added, id).Some? then Some(Addition(added, id).value.error) else None
    case _ => None
  }

  /** The goal and the parent a node is created with. */
  function BirthIn(b: E.Body, task: E.TaskId, id: NodeId): Option<(string, Option<NodeId>)> {
    match b
    case SubtaskCreated(t, k, parentId, goal, _, _) => if t == task && k == id then Some((goal, parentId)) else None
    case TaskReplan(t, added, _, _) =>
      if t == task && Addition(added, id).Some? then
        Some((Addition(added, id).value.goal, Addition(added, id).value.parentId))
      else None
    case _ => None
  }

  /** The dependencies an event gives a node. */
  function DependenciesIn(b: E.Body, task: E.TaskId, id: NodeId): Option<seq<NodeId>> {
    match b
    case SubtaskCreated(t, k, _, _, deps, _) => if t == task && k == id then Some(deps) else None
    case TaskReplan(t, added, _, updated) =>
      if t != task then None
      else if Redirection(updated, id).Some? then Redirection(updated, id)
      else if Addition(added, id).Some? then Some(Addition(added, id).value.dependsOn) else None
    case _ => None
  }

  predicate TakesOut(b: E.Body, task: E.TaskId, id: NodeId) {
    IsReplan(b, task) && id in b.removed
  }

  lemma ReplannedNode(p: Plan, b: E.Body, id: NodeId)
    requires b.TaskReplan?
    ensures var p', a := PlanStep(p, b), Addition(b.added, id);
            && (p'.nodes.Has(id) <==> a.Some? || (p.nodes.Has(id) && id !in b.removed))
            && (p'.nodes.Has(id) ==>
                  var n := p'.nodes.Get(id);
                  if a.Some? then
                    var (v, deps) := (a.value, n.dependsOn);
                    n == PlanNode(id, v.parentId, v.goal, v.status, deps, v.result, v.error)
                  else n == p.nodes.Get(id).(dependsOn := n.dependsOn))
  {
    RemovedNode(p, b.removed, id);
    AddedNode(RemoveMany(p, b.removed), b.added, id);
    RedirectedNode(AddMany(RemoveMany(p, b.removed), b.added), b.updated, id);
  }

  lemma ReplannedDependency(p: Plan, b: E.Body, task: E.TaskId, id: NodeId, d: NodeId)
    requires IsReplan(b, task) && PlanStep(p, b).nodes.Has(id)
    ensures var ds := DependenciesIn(b, task, id);
            if ds.Some? then PlanStep(p, b).nodes.Get(id).dependsOn == Unique(ds.value)
            else && p.nodes.Has(id)
                 && (d in PlanStep(p, b).nodes.Get(id).dependsOn <==>
                       d in p.nodes.Get(id).dependsOn && !TakesOut(b, task, d))
  {
    var p1 := RemoveMany(p, b.removed);
    var p2 := AddMany(p1, b.added);
    RedirectedNode(p2, b.updated, id);
    AddedNode(p1, b.added, id);
    if DependenciesIn(b, task, id).None? { RemovedDependency(p, b.removed, id, d); }
  }

  // ------------------------------------------------------------------
  // One more event
  // ------------------------------------------------------------------

  lemma PresenceStep(log: seq<E.Body>, task: E.TaskId, id: NodeId)
    requires log != []
    ensures var n := |log| - 1;
            Replay(log, task).nodes.Has(id) <==>
            Creates(log[n], task, id) || (Replay(log[..n], task).nodes.Has(id) && !Drops(log[n], task, id))
  {
    var b, p := log[|log|-1], Replay(log[..|log|-1], task);
    if IsReplan(b, task) { ReplannedNode(p, b, id); }
  }

  /** What the last event leaves of a node that was not created by it. */
  lemma NodeStep(log: seq<E.Body>, task: E.TaskId, id: NodeId)
    requires log != [] && Replay(log, task).nodes.Has(id)
    ensures var n := |log| - 1;
            var b, p, q := log[n], Replay(log[..n], task), Replay(log, task).nodes.Get(id);
            && (!Creates(b, task, id) ==> p.nodes.Has(id))
            && (StatusIn(b, task, id).None? ==> !Creates(b, task, id) && q.status == p.nodes.Get(id).status)
            && (StatusIn(b, task, id).Some? ==> q.status == StatusIn(b, task, id).value)
            && (ResultIn(b, task, id).None? ==> !Creates(b, task, id) && q.result == p.nodes.Get(id).result)
            && (ResultIn(b, task, id).Some? ==> q.result == ResultIn(b, task, id).value)
            && (ErrorIn(b, task, id).None? ==> !Creates(b, task, id) && q.error == p.nodes.Get(id).error)
            && (ErrorIn(b, task, id).Some? ==> q.error == ErrorIn(b, task, id).value)
            && (BirthIn(b, task, id).None? ==>
                  && !Creates(b, task, id)
                  && q.goal == p.nodes.Get(id).goal && q.parentId == p.nodes.Get(id).parentId)
            && (BirthIn(b, task, id).Some? ==> BirthIn(b, task, id).value == (q.goal, q.parentId))
  {
    var b, p := log[|log|-1], Replay(log[..|log|-1], task);
    if IsReplan(b, task) { ReplannedNode(p, b, id); }
  }

  lemma {:induction false} UniqueHas(ds: seq<NodeId>)
    ensures forall d :: d in Unique(ds) <==> d in ds
  {
    if ds != [] {
      UniqueHas(ds[..|ds|-1]);
      assert ds == ds[..|ds|-1] + [ds[|ds|-1]];
    }
  }

  lemma DependencyStep(log: seq<E.Body>, task: E.TaskId, id: NodeId, d: NodeId)
    requires log != [] && Replay(log, task).nodes.Has(id)
    ensures var n := |log| - 1;
            var b, p, q := log[n], Replay(log[..n], task), Replay(log, task).nodes.Get(id);
            var ds := DependenciesIn(b, task, id);
            if ds.Some? then (d in q.dependsOn <==> d in ds.value)
            else p.nodes.Has(id) && (d in q.dependsOn <==> d in p.nodes.Get(id).dependsOn && !TakesOut(b, task, d))
  {
    var b, p := log[|log|-1], Replay(log[..|log|-1], task);
    var ds := DependenciesIn(b, task, id);
    if ds.Some? { UniqueHas(ds.value); }
    if IsReplan(b, task) { ReplannedDependency(p, b, task, id, d); }
  }

  // ------------------------------------------------------------------
  // The last event that speaks of it
  // ------------------------------------------------------------------

  /** A node is there exactly when an event created it and no later one dropped it. */
  lemma {:induction false} PresentIffCreated(log: seq<E.Body>, task: E.TaskId, id: NodeId)
    ensures Replay(log, task).nodes.Has(id) <==> exists i :: CreatedAt(log, task, id, i)
  {
    if log != [] {
      var n := |log| - 1;
      PresenceStep(log, task, id);
      PresentIffCreated(log[..n], task, id);
      if Creates(log[n], task, id) {
        assert CreatedAt(log, task, id, n);
      } else if !Drops(log[n], task, id) && Replay(log[..n], task).nodes.Has(id) {
        var i :| CreatedAt(log[..n], task, id, i);
        assert CreatedAt(log, task, id, i);
      } else {
        forall i: nat ensures !CreatedAt(log, task, id, i) {
          if i < n && CreatedAt(log, task, id, i) { assert CreatedAt(log[..n], task, id, i); }
        }
      }
    }
  }

  /** Created by event `i` and not dropped since. */
  ghost predicate CreatedAt(log: seq<E.Body>, task: E.TaskId, id: NodeId, i: nat) {
    i < |log| && Creates(log[i], task, id) && forall j :: i < j < |log| ==> !Drops(log[j], task, id)
  }

  /** A node's status is the one the last event about it gives. */
  lemma {:induction false} NodeStatusIsLast(log: seq<E.Body>, task: E.TaskId, id: NodeId, i: nat)
    requires Replay(log, task).nodes.Has(id) && i < |log| && StatusIn(log[i], task, id).Some?
    requires forall j :: i < j < |log| ==> StatusIn(log[j], task, id).None?
    ensures Replay(log, task).nodes.Get(id).status == StatusIn(log[i], task, id).value
  {
    NodeStep(log, task, id);
    if i < |log| - 1 { NodeStatusIsLast(log[..|log|-1], task, id, i); }
  }

  /** Its result is that of its last completion, unless it was created anew since. */
  lemma {:induction false} NodeResultIsLast(log: seq<E.Body>, task: E.TaskId, id: NodeId, i: nat)
    requires Replay(log, task).nodes.Has(id) && i < |log| && ResultIn(log[i], task, id).Some?
    requires forall j :: i < j < |log| ==> ResultIn(log[j], task, id).None?
    ensures Replay(log, task).nodes.Get(id).result == ResultIn(log[i], task, id).value
  {
    NodeStep(log, task, id);
    if i < |log| - 1 { NodeResultIsLast(log[..|log|-1], task, id, i); }
  }

  /** Its error is that of its last failure, unless it was created anew since. */
  lemma {:induction false} NodeErrorIsLast(log: seq<E.Body>, task: E.TaskId, id: NodeId, i: nat)
    requires Replay(log, task).nodes.Has(id) && i < |log| && ErrorIn(log[i], task, id).Some?
    requires forall j :: i < j < |log| ==> ErrorIn(log[j], task, id).None?
    ensures Replay(log, task).nodes.Get(id).error == ErrorIn(log[i], task, id).value
  {
    NodeStep(log, task, id);
    if i < |log| - 1 { NodeErrorIsLast(log[..|log|-1], task, id, i); }
  }

  /** Its goal and parent are those it was last created with. */
  lemma {:induction false} NodeBirthIsLast(log: seq<E.Body>, task: E.TaskId, id: NodeId, i: nat)
    requires Replay(log, task).nodes.Has(id) && i < |log| && BirthIn(log[i], task, id).Some?
    requires forall j :: i < j < |log| ==> BirthIn(log[j], task, id).None?
    ensures var n := Replay(log, task).nodes.Get(id); (n.goal, n.parentId) == BirthIn(log[i], task, id).value
  {
    NodeStep(log, task, id);
    if i < |log| - 1 { NodeBirthIsLast(log[..|log|-1], task, id, i); }
  }

  /** It depends on what it was last given, less what replans have removed since. */
  lemma {:induction false} DependencyIsLast(log: seq<E.Body>, task: E.TaskId, id: NodeId, i: nat, d: NodeId)
    requires Replay(log, task).nodes.Has(id) && i < |log| && DependenciesIn(log[i], task, id).Some?
    requires forall j :: i < j < |log| ==> DependenciesIn(log[j], task, id).None?
    ensures d in Replay(log, task).nodes.Get(id).dependsOn <==>
            d in DependenciesIn(log[i], task, id).value && forall j :: i < j < |log| ==> !TakesOut(log[j], task, d)
  {
    DependencyStep(log, task, id, d);
    if i < |log| - 1 {
      DependencyIsLast(log[..|log|-1], task, id, i, d);
      assert forall j :: i < j < |log| - 1 ==> log[..|log|-1][j] == log[j];
    }
  }

  // ------------------------------------------------------------------
  // Roots
  // ------------------------------------------------------------------

  predicate Roots(b: E.Body, task: E.TaskId, id: NodeId) {
    || (b.TaskCreated? && b.taskId == task && id in b.rootNodeIds)
    || (b.SubtaskCreated? && b.taskId == task && b.nodeId == id && b.dependsOn == [])
  }

  lemma {:induction false} PushNewMembers(roots: seq<NodeId>, ids: seq<NodeId>)
    requires Distinct(roots)
    ensures Distinct(PushNew(roots, ids))
    ensures forall r :: r in PushNew(roots, ids) <==> r in roots || r in ids
    decreases |ids|
  {
    if ids != [] {
      PushNewMembers(if ids[0] in roots then roots else roots + [ids[0]], ids[1..]);
    }
  }

  lemma {:induction false} RemoveFirstMembers(s: seq<NodeId>, x: NodeId)
    requires Distinct(s)
    ensures Distinct(RemoveFirst(s, x))
    ensures forall r :: r in RemoveFirst(s, x) <==> r in s && r != x
  {
    if s != [] {
      var rest := s[1..];
      assert s == [s[0]] + rest && s[0] !in rest;
      RemoveFirstMembers(rest, x);
      if s[0] != x { DistinctCons(s[0], RemoveFirst(rest, x)); }
    }
  }

  lemma DistinctCons(r: NodeId, rest: seq<NodeId>)
    requires Distinct(rest) && r !in rest
    ensures Distinct([r] + rest)
  {
  }

  lemma {:induction false} RemoveManyRoots(p: Plan, ids: seq<NodeId>)
    requires Distinct(p.roots)
    ensures Distinct(RemoveMany(p, ids).roots)
    ensures forall r :: r in RemoveMany(p, ids).roots <==> r in p.roots && r !in ids
    decreases |ids|
  {
    if ids != [] {
      RemoveFirstMembers(p.roots, ids[0]);
      RemoveManyRoots(RemoveOne(p, ids[0]), ids[1..]);
    }
  }

  /** What one event of the task does to the roots. */
  lemma RootChange(p: Plan, b: E.Body, task: E.TaskId, id: NodeId)
    requires Distinct(p.roots) && TaskOf(b) == Some(task)
    ensures Distinct(PlanStep(p, b).roots)
    ensures id in PlanStep(p, b).roots <==> Roots(b, task, id) || (id in p.roots && !TakesOut(b, task, id))
  {
    match b
    case TaskReplan(_, _, removed, _) =>
      ReplanKeepsHeader(p, b);
      RemoveManyRoots(p, removed);
    case TaskCreated(_, _, ids) => PushNewMembers(p.roots, ids);
    case SubtaskCreated(_, _, _, _, deps, _) =>
      UniqueHas(deps);
      assert deps != [] ==> deps[0] in Unique(deps);
    case _ =>
  }

  lemma RootSnoc(log: seq<E.Body>, b: E.Body, task: E.TaskId, id: NodeId)
    requires Distinct(Replay(log, task).roots)
    ensures Distinct(Replay(log + [b], task).roots)
    ensures id in Replay(log + [b], task).roots <==>
            Roots(b, task, id) || (id in Replay(log, task).roots && !TakesOut(b, task, id))
  {
    ReplaySnoc(log, b, task);
    var p, p' := Replay(log, task), Replay(log + [b], task);
    if TaskOf(b) == Some(task) {
      assert p' == PlanStep(p, b);
      RootChange(p, b, task, id);
    } else {
      assert p' == p;
    }
  }

  /** Made a root by event `i` and not removed since. */
  ghost predicate RootedAt(log: seq<E.Body>, task: E.TaskId, id: NodeId, i: nat) {
    i < |log| && Roots(log[i], task, id) && forall j :: i < j < |log| ==> !TakesOut(log[j], task, id)
  }

  /** The roots, each once: named by a creation or added without dependencies, and not removed since. */
  lemma {:induction false} RootIffNamed(log: seq<E.Body>, task: E.TaskId, id: NodeId)
    ensures Distinct(Replay(log, task).roots)
    ensures id in Replay(log, task).roots <==> exists i :: RootedAt(log, task, id, i)
  {
    if log != [] {
      var n := |log| - 1;
      RootIffNamed(log[..n], task, id);
      assert log == log[..n] + [log[n]];
      RootSnoc(log[..n], log[n], task, id);
      if Roots(log[n], task, id) {
        assert RootedAt(log, task, id, n);
      } else if id in Replay(log[..n], task).roots && !TakesOut(log[n], task, id) {
        var i :| RootedAt(log[..n], task, id, i);
        assert RootedAt(log, task, id, i);
      } else {
        forall i: nat ensures !RootedAt(log, task, id, i) {
          if i < n && RootedAt(log, task, id, i) { assert RootedAt(log[..n], task, id, i); }
        }
      }
    }
  }

  // ------------------------------------------------------------------
  // From the stored stream
  // ------------------------------------------------------------------

  lemma NoOwnEvents(events: seq<E.AIEvent>, task: E.TaskId)
    ensures OwnEvents(Sort(events), task) == [] <==> forall e :: e in events ==> TaskOf(e.body) != Some(task)
  {
    var own := OwnEvents(Sort(events), task);
    FilterMember(Sort(events), (e: E.AIEvent) => TaskOf(e.body) == Some(task));
    forall e ensures e in own <==> e in events && TaskOf(e.body) == Some(task) { SortHas(events, e); }
    if own != [] {
      assert own[0] in own;
    } else {
      forall e | e in events ensures TaskOf(e.body) != Some(task) { assert e !in own; }
    }
  }

  /** Refused streams, and tasks without events. */
  lemma ProjectionErrors(events: seq<E.AIEvent>, task: E.TaskId)
    ensures Project(events, task).StreamError? <==> exists e :: e in events && e.schemaVersion != 1
    ensures Project(events, task).NoEvents? <==>
            !Project(events, task).StreamError? && forall e :: e in events ==> TaskOf(e.body) != Some(task)
  {
    RefusedIff(events);
    NoOwnEvents(events, task);
  }

  lemma LastWordInStream(events: seq<E.AIEvent>, task: E.TaskId, e: E.AIEvent)
    requires DistinctKeys(events) && e in events && WordOf(e.body, task).Some?
    requires forall x :: x in events && WordOf(x.body, task).Some? ==> Leq(x, e)
    ensures var s := Sort(events); e in s && LastWord(Bodies(s), task, Index(s, e))
  {
    var s := Sort(events);
    SortSpec(events);
    SortDistinct(events);
    var i := Index(s, e);
    forall j | i < j < |s| ensures WordOf(s[j].body, task).None? {
      assert s[j] in events && Leq(s[i], s[j]) && !SameKey(s[i], s[j]);
    }
  }

  /** A projected task has the status its latest status-bearing stored event announces. */
  lemma ProjectedStatus(events: seq<E.AIEvent>, task: E.TaskId, e: E.AIEvent)
    requires DistinctKeys(events) && e in events && WordOf(e.body, task).Some?
    requires forall x :: x in events && WordOf(x.body, task).Some? ==> Leq(x, e)
    ensures var r := Project(events, task); r.Projected? ==> r.plan.status == WordOf(e.body, task).value
  {
    var s := Sort(events);
    LastWordInStream(events, task, e);
    StatusIsLast(Bodies(s), task, Index(s, e));
  }
}
