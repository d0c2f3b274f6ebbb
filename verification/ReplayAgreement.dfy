/**
 * The live graph and the graph replayed from its log. The live side changes by
 * steps that emit what the runtime emits; agreement is on nodes in order,
 * dependency sets, roots, goals, on which nodes completed, with what result,
 * and on which failed, with what error.
 */
module ReplayAgreement {
  import opened Seqs
  import opened JsMaps
  import opened Graphs
  import opened Kahn
  import opened TaskGraphs
  import E = Events
  import opened TaskProjection

  ghost predicate NodeAgrees(n: TaskNode, q: PlanNode) {
    && q.dependsOn == Unique(n.dependsOn) && q.goal == n.goal
    && (n.status == Completed <==> q.status == E.Runtime(Completed))
    && (n.status == Failed <==> q.status == E.Runtime(Failed))
    && (n.status == Completed ==> q.result == n.result)
    && (n.status == Failed ==> q.error == n.error)
  }

  ghost predicate Agrees(g: Graph, p: Plan) {
    && g.Valid() && p.nodes.Valid()
    && g.nodes.keys == p.nodes.keys && g.roots == p.roots
    && (forall id :: id in g.nodes.vals <==> id in p.nodes.vals)
    && (forall id :: id in g.nodes.vals ==> NodeAgrees(g.nodes.vals[id], p.nodes.vals[id]))
  }

  // ------------------------------------------------------------------
  // Sets from lists
  // ------------------------------------------------------------------

  lemma {:induction false} UniqueMembers(ds: seq<NodeId>)
    ensures forall d :: d in Unique(ds) <==> d in ds
    ensures Unique(ds) == [] <==> ds == []
  {
    if ds != [] {
      UniqueMembers(ds[..|ds|-1]);
      assert ds == ds[..|ds|-1] + [ds[|ds|-1]];
    }
  }

  /** Filtering a list and deleting from its set agree. */
  lemma {:induction false} UniqueWithout(ds: seq<NodeId>, id: NodeId)
    ensures Unique(Without(ds, id)) == RemoveAll(Unique(ds), id)
  {
    if ds != [] {
      var n := |ds| - 1;
      var d, front := ds[n], Unique(ds[..n]);
      UniqueWithout(ds[..n], id);
      UniqueMembers(ds[..n]);
      UniqueMembers(Without(ds[..n], id));
      FilterMember(ds[..n], (x: NodeId) => x != id);
      if d != id {
        var kept := Without(ds[..n], id);
        assert (kept + [d])[..|kept|] == kept;
        if d !in front {
          assert (front + [d])[..|front|] == front;
        }
      } else if d !in front {
        assert (front + [d])[..|front|] == front;
      }
    }
  }

  lemma {:induction false} RemoveFirstOfDistinct(s: seq<NodeId>, id: NodeId)
    requires Distinct(s)
    ensures RemoveFirst(s, id) == Filter(s, (r: NodeId) => r != id)
  {
    if id in s {
      RemoveFirstAt(s, id);
      RemoveAt(s, Index(s, id), id);
    } else {
      RemoveAbsent(s, id);
      FilterAll(s, (r: NodeId) => r != id);
    }
  }

  // ------------------------------------------------------------------
  // One node changes
  // ------------------------------------------------------------------

  /** A change of the live node alone keeps agreement exactly when the node still agrees. */
  lemma LiveChangeAgrees(g: Graph, p: Plan, id: NodeId, n: TaskNode)
    requires Agrees(g, p) && g.nodes.Has(id)
    ensures Agrees(g.WithNode(id, n), p) <==> NodeAgrees(n, p.nodes.Get(id))
  {
    assert g.WithNode(id, n).nodes.vals[id] == n;
  }

  // ------------------------------------------------------------------
  // Adding a node
  // ------------------------------------------------------------------

  function Announcement(task: E.TaskId, spec: NodeSpec): E.Body {
    E.SubtaskCreated(task, spec.id, None, spec.goal, spec.dependsOn, Some(E.Runtime(Pending)))
  }

  lemma AnnouncedAgrees(g: Graph, p: Plan, task: E.TaskId, spec: NodeSpec)
    requires Agrees(g, p) && !g.nodes.Has(spec.id)
    ensures Agrees(g.Inserted(spec), PlanStep(p, Announcement(task, spec)))
  {
    UniqueMembers(spec.dependsOn);
    var g', p' := g.Inserted(spec), PlanStep(p, Announcement(task, spec));
    var q := PlanNode(spec.id, None, spec.goal, E.Runtime(Pending), Unique(spec.dependsOn), None, None);
    assert p'.nodes == p.nodes.Set(spec.id, q);
    assert NodeAgrees(NewNode(spec), q);
  }

  /** A node that the log does not mention breaks agreement. */
  lemma UnannouncedDisagrees(g: Graph, p: Plan, spec: NodeSpec)
    requires Agrees(g, p) && !g.nodes.Has(spec.id)
    ensures !Agrees(g.Inserted(spec), p)
  {
    assert spec.id in g.Inserted(spec).nodes.vals;
  }

  // ------------------------------------------------------------------
  // Replanning
  // ------------------------------------------------------------------

  function RemovedAll(g: Graph, ids: seq<NodeId>): Graph
    decreases |ids|
  {
    if ids == [] then g else RemovedAll(g.Removed(ids[0]), ids[1..])
  }

  lemma RemovalAgrees(g: Graph, p: Plan, id: NodeId)
    requires Agrees(g, p) && IsDag(EdgesOf(g.nodes))
    ensures Agrees(g.Removed(id), RemoveOne(p, id))
  {
    RemovalKeepsDag(g, id);
    RemoveFirstOfDistinct(g.roots, id);
    var g', p' := g.Removed(id), RemoveOne(p, id);
    if g.nodes.Has(id) {
      forall k | k in g'.nodes.vals ensures NodeAgrees(g'.nodes.vals[k], p'.nodes.vals[k]) {
        UniqueWithout(g.nodes.vals[k].dependsOn, id);
      }
    } else {
      FilterAll(g.roots, (r: NodeId) => r != id);
      RemoveAllSpec(p.nodes.keys, id);
      forall k | k in g.nodes.vals ensures p'.nodes.vals[k] == p.nodes.vals[k] {
        var ds := g.nodes.vals[k].dependsOn;
        UniqueMembers(ds);
        assert forall d :: d in ds ==> d in EdgesOf(g.nodes).vals[k] && d in g.nodes.vals;
        RemoveAllSpec(Unique(ds), id);
      }
    }
  }

  lemma {:induction false} RemovalsAgree(g: Graph, p: Plan, ids: seq<NodeId>)
    requires Agrees(g, p) && IsDag(EdgesOf(g.nodes))
    ensures Agrees(RemovedAll(g, ids), RemoveMany(p, ids))
    ensures IsDag(EdgesOf(RemovedAll(g, ids).nodes))
    decreases |ids|
  {
    if ids != [] {
      RemovalAgrees(g, p, ids[0]);
      RemovalKeepsDag(g, ids[0]);
      RemovalsAgree(g.Removed(ids[0]), RemoveOne(p, ids[0]), ids[1..]);
    }
  }

  function AddedOf(n: TaskNode): E.AddedNode {
    E.AddedNode(n.id, n.parentId, n.goal, E.Runtime(Pending), n.dependsOn, None, None)
  }

  /** The surviving added nodes as the replan event describes them. */
  function Survivors(g: Graph, added: seq<NodeId>): seq<E.AddedNode> {
    if added == [] then []
    else
      var id, front := added[|added|-1], Survivors(g, added[..|added|-1]);
      if g.nodes.Has(id) then front + [AddedOf(g.nodes.Get(id))] else front
  }

  ghost predicate NodeIdsMatch(g: Graph) {
    forall id :: id in g.nodes.vals ==> g.nodes.vals[id].id == id
  }

  function Readded(n: TaskNode): PlanNode {
    PlanNode(n.id, n.parentId, n.goal, E.Runtime(Pending), Unique(n.dependsOn), None, None)
  }

  lemma {:induction false} AddManySnoc(p: Plan, front: seq<E.AddedNode>, last: E.AddedNode)
    ensures AddMany(p, front + [last]) == AddOne(AddMany(p, front), last)
    decreases |front|
  {
    if front == [] {
      assert front + [last] == [last];
    } else {
      assert (front + [last])[1..] == front[1..] + [last];
      AddManySnoc(AddOne(p, front[0]), front[1..], last);
    }
  }

  /** Re-adding survivors resets exactly their replayed nodes. */
  lemma {:induction false} ReaddResets(g: Graph, p: Plan, added: seq<NodeId>)
    requires Agrees(g, p) && NodeIdsMatch(g)
    ensures var p' := AddMany(p, Survivors(g, added));
            && p'.nodes.keys == p.nodes.keys && p'.roots == p.roots && p'.nodes.vals.Keys == p.nodes.vals.Keys
            && forall id :: id in p.nodes.vals ==>
                 p'.nodes.vals[id] == if id in added then Readded(g.nodes.vals[id]) else p.nodes.vals[id]
  {
    if added != [] {
      var front, last := added[..|added|-1], added[|added|-1];
      ReaddResets(g, p, front);
      assert added == front + [last];
      if g.nodes.Has(last) {
        AddManySnoc(p, Survivors(g, front), AddedOf(g.nodes.Get(last)));
      }
    }
  }

  /** The replan event a commit emits. */
  function Revision(task: E.TaskId, g: Graph, added: seq<NodeId>, removed: seq<NodeId>): E.Body {
    E.TaskReplan(task, Survivors(g, added), removed, [])
  }

  /** No added node that is still there has already completed or failed. */
  predicate Unfinished(g: Graph, added: seq<NodeId>) {
    forall id :: id in added && id in g.nodes.vals ==>
      g.nodes.vals[id].status != Completed && g.nodes.vals[id].status != Failed
  }

  /**
   * Live replanning removes after adding, replay removes and adds again as
   * pending. The two agree exactly when no surviving added node has finished
   * between its announcement and the replan event.
   */
  lemma CommitAgreement(g: Graph, p: Plan, task: E.TaskId, added: seq<NodeId>, removed: seq<NodeId>)
    requires Agrees(g, p) && IsDag(EdgesOf(g.nodes)) && NodeIdsMatch(RemovedAll(g, removed))
    ensures var g' := RemovedAll(g, removed);
            Agrees(g', PlanStep(p, Revision(task, g', added, removed))) <==> Unfinished(g', added)
  {
    var g' := RemovedAll(g, removed);
    RemovalsAgree(g, p, removed);
    ReaddAgreement(g', RemoveMany(p, removed), added);
    RevisionStep(p, task, g', added, removed);
  }

  lemma RevisionStep(p: Plan, task: E.TaskId, g: Graph, added: seq<NodeId>, removed: seq<NodeId>)
    ensures PlanStep(p, Revision(task, g, added, removed)) == AddMany(RemoveMany(p, removed), Survivors(g, added))
  {
  }

  lemma ReaddAgreement(g': Graph, p1: Plan, added: seq<NodeId>)
    requires Agrees(g', p1) && NodeIdsMatch(g')
    ensures Agrees(g', AddMany(p1, Survivors(g', added))) <==> Unfinished(g', added)
  {
    ReaddResets(g', p1, added);
    var p' := AddMany(p1, Survivors(g', added));
    assert p'.nodes.Valid();
    forall id | id in g'.nodes.vals
      ensures NodeAgrees(g'.nodes.vals[id], p'.nodes.vals[id]) <==>
              !(id in added && (g'.nodes.vals[id].status == Completed || g'.nodes.vals[id].status == Failed))
    {
      assert id in p1.nodes.vals;
    }
  }

  /** Agreeing graphs validate alike and run in the same order. */
  lemma AgreementGivesSameOrder(g: Graph, p: Plan)
    requires Agrees(g, p) && IsDag(EdgesOf(g.nodes))
    ensures Judge(PlanEdges(p.nodes)) == Judge(EdgesOf(g.nodes)) && Judge(EdgesOf(g.nodes)).Ordered?
  {
    var l, r := EdgesOf(g.nodes), PlanEdges(p.nodes);
    forall n | n in l.vals ensures ToSet(l.vals[n]) == ToSet(r.vals[n]) {
      assert NodeAgrees(g.nodes.vals[n], p.nodes.vals[n]);
      UniqueMembers(g.nodes.vals[n].dependsOn);
    }
    assert l.vals.Keys == r.vals.Keys;
    JudgeSoundAndComplete(l);
    SameDependenciesSameOrder(l, r);
  }
}
