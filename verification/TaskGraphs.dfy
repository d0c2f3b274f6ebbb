/** The mutable in-memory task graph and what its readiness queries promise. */
module TaskGraphs {
  import opened Seqs
  import opened JsMaps
  import opened Graphs
  import opened Kahn

  datatype NodeStatus = Pending | Active | Blocked | Completed | Failed | Cancelled

  datatype NodeSpec = NodeSpec(id: NodeId, parentId: Option<NodeId>, goal: string, dependsOn: seq<NodeId>)

  datatype TaskNode = TaskNode(
    id: NodeId, parentId: Option<NodeId>, goal: string, status: NodeStatus,
    dependsOn: seq<NodeId>, attempts: nat, result: Option<string>, error: Option<string>)

  type Nodes = JsMap<NodeId, TaskNode>

  function EdgesOf(nodes: Nodes): (g: Edges)
    ensures nodes.Valid() ==> g.Valid()
    ensures g.keys == nodes.keys && g.vals.Keys == nodes.vals.Keys
    ensures forall n :: n in nodes.vals ==> g.vals[n] == nodes.vals[n].dependsOn
  {
    MapValues(nodes, (n: TaskNode) => n.dependsOn)
  }

  function NewNode(spec: NodeSpec): TaskNode {
    TaskNode(spec.id, spec.parentId, spec.goal, Pending, spec.dependsOn, 0, None, None)
  }

  // ------------------------------------------------------------------
  // The graph as a value
  // ------------------------------------------------------------------

  function Forgot(n: TaskNode, id: NodeId): TaskNode {
    n.(dependsOn := Without(n.dependsOn, id))
  }

  datatype Graph = Graph(nodes: Nodes, roots: seq<NodeId>)
  {
    ghost predicate Valid() {
      && nodes.Valid() && Distinct(roots)
      && forall r :: r in roots ==> r in nodes.vals
    }

    /** The node enters the map, and the roots if it waits for nothing. */
    function Inserted(spec: NodeSpec): Graph {
      Graph(nodes.Set(spec.id, NewNode(spec)),
            if spec.dependsOn == [] && spec.id !in roots then roots + [spec.id] else roots)
    }

    /** The node leaves the map, the roots and every dependency list. */
    function Removed(id: NodeId): Graph {
      if nodes.Has(id) then
        Graph(MapValues(nodes.Delete(id), (n: TaskNode) => Forgot(n, id)),
              Filter(roots, (r: NodeId) => r != id))
      else this
    }

    function WithNode(id: NodeId, node: TaskNode): Graph
      requires nodes.Has(id)
    {
      this.(nodes := nodes.Set(id, node))
    }
  }

  predicate IsReady(nodes: Nodes, id: NodeId) {
    && nodes.Has(id) && nodes.Get(id).status == Pending
    && forall i :: 0 <= i < |nodes.Get(id).dependsOn| ==>
         var d := nodes.Get(id).dependsOn[i]; nodes.Has(d) && nodes.Get(d).status == Completed
  }

  function Ready(nodes: Nodes): seq<NodeId> {
    Filter(nodes.keys, (id: NodeId) => IsReady(nodes, id))
  }

  predicate Open(s: NodeStatus) {
    s == Pending || s == Active || s == Blocked
  }

  predicate AllTerminal(nodes: Nodes) {
    forall id :: id in nodes.vals ==> !Open(nodes.vals[id].status)
  }

  predicate HasFailed(nodes: Nodes) {
    exists id :: id in nodes.vals && nodes.vals[id].status == Failed
  }

  lemma ReadyMembers(nodes: Nodes)
    requires nodes.Valid()
    ensures Distinct(Ready(nodes))
    ensures forall id :: id in Ready(nodes) <==> IsReady(nodes, id)
  {
    FilterMember(nodes.keys, (id: NodeId) => IsReady(nodes, id));
    FilterDistinct(nodes.keys, (id: NodeId) => IsReady(nodes, id));
  }

  // ------------------------------------------------------------------
  // Mutation keeps graphs valid
  // ------------------------------------------------------------------

  lemma InsertedEdges(g: Graph, spec: NodeSpec)
    ensures EdgesOf(g.Inserted(spec).nodes) == EdgesOf(g.nodes).Set(spec.id, spec.dependsOn)
  {
    var l, r := EdgesOf(g.Inserted(spec).nodes), EdgesOf(g.nodes).Set(spec.id, spec.dependsOn);
    assert l.vals == r.vals;
  }

  lemma RemovedEdges(g: Graph, id: NodeId)
    requires g.nodes.Has(id)
    ensures EdgesOf(g.Removed(id).nodes) == RemoveNode(EdgesOf(g.nodes), id)
  {
    var l, r := EdgesOf(g.Removed(id).nodes), RemoveNode(EdgesOf(g.nodes), id);
    assert l.vals == r.vals;
  }

  /**
   * From a valid graph an insertion ends in one of three ways and never in a
   * cycle; it yields a valid graph exactly when every dependency is present.
   */
  lemma InsertionOutcomes(g: Graph, spec: NodeSpec)
    requires g.Valid() && IsDag(EdgesOf(g.nodes)) && !g.nodes.Has(spec.id)
    ensures g.Inserted(spec).Valid()
    ensures !Judge(EdgesOf(g.Inserted(spec).nodes)).Cyclic?
    ensures Judge(EdgesOf(g.Inserted(spec).nodes)).Ordered? <==>
            forall d :: d in spec.dependsOn ==> g.nodes.Has(d)
    ensures Judge(EdgesOf(g.Inserted(spec).nodes)).Ordered? <==> IsDag(EdgesOf(g.Inserted(spec).nodes))
  {
    var e := EdgesOf(g.nodes);
    InsertedEdges(g, spec);
    AddingNodeNeverCloses(e, spec.id, spec.dependsOn);
    var h := e.Set(spec.id, spec.dependsOn);
    JudgeSoundAndComplete(h);
    assert h.vals[spec.id] == spec.dependsOn;
    if Closed(h) && NoSelfDependency(h) {
      forall d | d in spec.dependsOn ensures d in g.nodes.vals {
        assert spec.id in h.vals && d in h.vals[spec.id];
        assert d in h.vals && d != spec.id;
      }
    }
  }

  /** A removal needs no re-validation. */
  lemma RemovalKeepsDag(g: Graph, id: NodeId)
    requires g.Valid()
    ensures g.Removed(id).Valid()
    ensures IsDag(EdgesOf(g.nodes)) ==> IsDag(EdgesOf(g.Removed(id).nodes))
  {
    if g.nodes.Has(id) {
      FilterMember(g.roots, (r: NodeId) => r != id);
      FilterDistinct(g.roots, (r: NodeId) => r != id);
      RemovedEdges(g, id);
      if IsDag(EdgesOf(g.nodes)) { RemovingNodeKeepsDag(EdgesOf(g.nodes), id); }
    }
  }

  // ------------------------------------------------------------------
  // Deadlock freedom
  // ------------------------------------------------------------------

  ghost predicate Dead(nodes: Nodes, id: NodeId) {
    id in nodes.vals && (nodes.vals[id].status == Failed || nodes.vals[id].status == Cancelled)
  }

  /** A dependency chain from `id` to a failed or cancelled node. */
  ghost predicate WaitsOnDead(nodes: Nodes, id: NodeId) {
    exists p :: IsChain(EdgesOf(nodes), p) && p[0] == id && Dead(nodes, p[|p|-1])
  }

  lemma {:induction false} StalledWaitsOnDead(nodes: Nodes, order: seq<NodeId>, i: nat)
    requires nodes.Valid() && Topological(EdgesOf(nodes), order) && i < |order|
    requires Closed(EdgesOf(nodes))
    requires forall id :: id in nodes.vals ==> nodes.vals[id].status != Active && nodes.vals[id].status != Blocked
    requires forall id :: id in nodes.vals ==> !IsReady(nodes, id)
    requires nodes.vals[order[i]].status == Pending
    ensures WaitsOnDead(nodes, order[i])
    decreases i
  {
    var n := order[i];
    assert !IsReady(nodes, n);
    var j :| 0 <= j < |nodes.vals[n].dependsOn| && nodes.vals[nodes.vals[n].dependsOn[j]].status != Completed;
    var d := nodes.vals[n].dependsOn[j];
    assert d in EdgesOf(nodes).vals[n];
    if Dead(nodes, d) {
      assert IsChain(EdgesOf(nodes), [d]) && [d][0] == d;
    } else {
      assert d in order[..i];
      var k := Index(order[..i], d);
      StalledWaitsOnDead(nodes, order, k);
    }
    WaitIsInherited(nodes, n, d);
  }

  lemma WaitIsInherited(nodes: Nodes, n: NodeId, d: NodeId)
    requires n in nodes.vals && d in nodes.vals[n].dependsOn && WaitsOnDead(nodes, d)
    ensures WaitsOnDead(nodes, n)
  {
    var g := EdgesOf(nodes);
    var p :| IsChain(g, p) && p[0] == d && Dead(nodes, p[|p|-1]);
    var q := [n] + p;
    ChainCons(g, n, p);
    assert IsChain(g, q) && q[0] == n && q[|q|-1] == p[|p|-1];
  }

  /**
   * When a valid graph has pending work but nothing ready, active or blocked,
   * every pending node waits on a failed or cancelled one. So the driver's
   * deadlock branch needs a casualty.
   */
  lemma StallNeedsCasualty(nodes: Nodes)
    requires nodes.Valid() && IsDag(EdgesOf(nodes))
    requires forall id :: id in nodes.vals ==> nodes.vals[id].status != Active && nodes.vals[id].status != Blocked
    requires Ready(nodes) == []
    ensures forall id :: id in nodes.vals && nodes.vals[id].status == Pending ==> WaitsOnDead(nodes, id)
    ensures (forall id :: id in nodes.vals ==> !Dead(nodes, id)) ==> AllTerminal(nodes)
  {
    ReadyMembers(nodes);
    var order := KahnOrder(EdgesOf(nodes));
    KahnOrderSpec(EdgesOf(nodes));
    JudgeSoundAndComplete(EdgesOf(nodes));
    KahnSoundAndComplete(EdgesOf(nodes));
    DistinctWithin(order, nodes.keys);
    forall id | id in nodes.vals && nodes.vals[id].status == Pending ensures WaitsOnDead(nodes, id) {
      assert id in ToSet(nodes.keys);
      StalledWaitsOnDead(nodes, order, Index(order, id));
    }
    if !AllTerminal(nodes) {
      var id :| id in nodes.vals && Open(nodes.vals[id].status);
      var p :| IsChain(EdgesOf(nodes), p) && p[0] == id && Dead(nodes, p[|p|-1]);
    }
  }

  // ------------------------------------------------------------------
  // The class
  // ------------------------------------------------------------------

  lemma {:induction false} RemoveAt(s: seq<NodeId>, at: nat, x: NodeId)
    requires Distinct(s) && at < |s| && s[at] == x
    ensures s[..at] + s[at+1..] == Filter(s, (r: NodeId) => r != x)
  {
    var n := |s| - 1;
    if at == n {
      FilterAll(s[..n], (r: NodeId) => r != x);
      assert s[..at] + s[at+1..] == s[..n];
    } else {
      RemoveAt(s[..n], at, x);
      assert s[..at] + s[at+1..] == s[..n][..at] + s[..n][at+1..] + [s[n]];
    }
  }

  lemma {:induction false} SameLengthFilter(ds: seq<NodeId>, id: NodeId)
    requires |Without(ds, id)| == |ds|
    ensures Without(ds, id) == ds
  {
    if ds != [] {
      SameLengthFilter(ds[..|ds|-1], id);
    }
  }

  datatype AddResult = Added(node: TaskNode) | AlreadyPresent(id: NodeId) | Invalid(why: Verdict)

  /** The contents after the first `i` nodes have dropped the dependency. */
  function ForgottenUpTo(nodes: Nodes, id: NodeId, i: nat): map<NodeId, TaskNode>
    requires nodes.Valid() && i <= |nodes.keys|
    ensures ForgottenUpTo(nodes, id, i).Keys == nodes.vals.Keys
  {
    if i == 0 then nodes.vals
    else
      var key := nodes.keys[i-1];
      ForgottenUpTo(nodes, id, i - 1)[key := Forgot(nodes.vals[key], id)]
  }

  lemma {:induction false} ForgottenAt(nodes: Nodes, id: NodeId, i: nat, j: nat)
    requires nodes.Valid() && i <= |nodes.keys| && j < |nodes.keys|
    ensures var n := nodes.vals[nodes.keys[j]];
            ForgottenUpTo(nodes, id, i)[nodes.keys[j]] == if j < i then Forgot(n, id) else n
  {
    if i > 0 {
      ForgottenAt(nodes, id, i - 1, j);
      assert nodes.keys[i-1] == nodes.keys[j] <==> i - 1 == j;
    }
  }

  lemma ForgottenEverywhere(nodes: Nodes, id: NodeId)
    requires nodes.Valid()
    ensures JsMap(nodes.keys, ForgottenUpTo(nodes, id, |nodes.keys|))
            == MapValues(nodes, (n: TaskNode) => Forgot(n, id))
  {
    forall k | k in nodes.vals ensures ForgottenUpTo(nodes, id, |nodes.keys|)[k] == Forgot(nodes.vals[k], id) {
      ForgottenAt(nodes, id, |nodes.keys|, Index(nodes.keys, k));
    }
  }

  /** Filters the id out of one node, if it is there. */
  method ForgetIn(vals: map<NodeId, TaskNode>, key: NodeId, id: NodeId) returns (vals': map<NodeId, TaskNode>)
    requires key in vals
    ensures vals' == vals[key := Forgot(vals[key], id)]
  {
    var node := vals[key];
    var remaining := Without(node.dependsOn, id);
    if |remaining| != |node.dependsOn| {
      vals' := vals[key := node.(dependsOn := remaining)];
    } else {
      SameLengthFilter(node.dependsOn, id);
      vals' := vals;
    }
  }

  /** Filters one id out of every dependency list. */
  method ForgetDependency(nodes: Nodes, id: NodeId) returns (nodes': Nodes)
    requires nodes.Valid()
    ensures nodes' == MapValues(nodes, (n: TaskNode) => Forgot(n, id))
  {
    var vals := nodes.vals;
    for i := 0 to |nodes.keys|
      invariant vals == ForgottenUpTo(nodes, id, i)
    {
      ForgottenAt(nodes, id, i, i);
      vals := ForgetIn(vals, nodes.keys[i], id);
    }
    ForgottenEverywhere(nodes, id);
    nodes' := JsMap(nodes.keys, vals);
  }

  class TaskGraph {
    var nodes: Nodes
    var rootNodeIds: seq<NodeId>

    function View(): Graph
      reads this
    {
      Graph(nodes, rootNodeIds)
    }

    ghost predicate Valid()
      reads this
    {
      View().Valid()
    }

    constructor ()
      ensures Valid() && View() == Graph(Empty(), [])
    {
      nodes, rootNodeIds := Empty(), [];
    }

    /** Inserts first and validates after, so a rejected node stays behind. */
    method AddNode(spec: NodeSpec) returns (r: AddResult)
      requires Valid()
      modifies this
      ensures Valid()
      ensures old(nodes).Has(spec.id) ==> r == AlreadyPresent(spec.id) && View() == old(View())
      ensures !old(nodes).Has(spec.id) ==> View() == old(View()).Inserted(spec)
      ensures !old(nodes).Has(spec.id) ==>
                var v := Judge(EdgesOf(old(View()).Inserted(spec).nodes));
                r == if v.Ordered? then Added(NewNode(spec)) else Invalid(v)
    {
      if nodes.Has(spec.id) {
        return AlreadyPresent(spec.id);
      }
      var node := TaskNode(spec.id, spec.parentId, spec.goal, Pending, spec.dependsOn, 0, None, None);
      nodes := nodes.Set(spec.id, node);
      if |node.dependsOn| == 0 && spec.id !in rootNodeIds {
        rootNodeIds := rootNodeIds + [spec.id];
      }
      var v := ValidateTaskGraph(EdgesOf(nodes));
      return if v.Ordered? then Added(node) else Invalid(v);
    }

    method RemoveNode(id: NodeId) returns (existed: bool)
      requires Valid()
      modifies this
      ensures Valid()
      ensures existed == old(nodes).Has(id)
      ensures View() == old(View()).Removed(id)
    {
      if !nodes.Has(id) {
        return false;
      }
      RemovalKeepsDag(View(), id);
      nodes := nodes.Delete(id);
      if id in rootNodeIds {
        var at := Index(rootNodeIds, id);
        RemoveAt(rootNodeIds, at, id);
        rootNodeIds := rootNodeIds[..at] + rootNodeIds[at+1..];
      } else {
        FilterAll(rootNodeIds, (r: NodeId) => r != id);
      }
      nodes := ForgetDependency(nodes, id);
      return true;
    }

    /** False stands for the error thrown on an unknown node. */
    method SetNodeStatus(id: NodeId, status: NodeStatus) returns (ok: bool)
      requires Valid()
      modifies this
      ensures Valid()
      ensures ok == old(nodes).Has(id)
      ensures View() == if ok then old(View()).WithNode(id, old(nodes).Get(id).(status := status)) else old(View())
    {
      if !nodes.Has(id) {
        return false;
      }
      nodes := nodes.Set(id, nodes.Get(id).(status := status));
      return true;
    }

    method SetNodeResult(id: NodeId, result: string) returns (ok: bool)
      requires Valid()
      modifies this
      ensures Valid()
      ensures ok == old(nodes).Has(id)
      ensures View()
              == if ok then old(View()).WithNode(id, old(nodes).Get(id).(result := Some(result))) else old(View())
    {
      if !nodes.Has(id) {
        return false;
      }
      nodes := nodes.Set(id, nodes.Get(id).(result := Some(result)));
      return true;
    }

    method SetNodeError(id: NodeId, error: string) returns (ok: bool)
      requires Valid()
      modifies this
      ensures Valid()
      ensures ok == old(nodes).Has(id)
      ensures View() == if ok then old(View()).WithNode(id, old(nodes).Get(id).(error := Some(error))) else old(View())
    {
      if !nodes.Has(id) {
        return false;
      }
      nodes := nodes.Set(id, nodes.Get(id).(error := Some(error)));
      return true;
    }

    method ReadyNodes() returns (ready: seq<NodeId>)
      requires Valid()
      ensures ready == Ready(nodes)
    {
      ready := [];
      ghost var all := nodes;
      for i := 0 to |nodes.keys|
        invariant ready == Filter(nodes.keys[..i], (id: NodeId) => IsReady(all, id))
      {
        var id := nodes.keys[i];
        var node := nodes.Get(id);
        assert nodes.keys[..i+1][..i] == nodes.keys[..i];
        if node.status == Pending {
          var depsMet := true;
          for j := 0 to |node.dependsOn|
            invariant depsMet <==> forall k :: 0 <= k < j ==>
                        var d := node.dependsOn[k]; nodes.Has(d) && nodes.Get(d).status == Completed
          {
            var d := node.dependsOn[j];
            depsMet := depsMet && nodes.Has(d) && nodes.Get(d).status == Completed;
          }
          if depsMet {
            ready := ready + [id];
          }
        }
      }
      assert nodes.keys[..|nodes.keys|] == nodes.keys;
    }

    method CheckAllTerminal() returns (b: bool)
      requires Valid()
      ensures b == AllTerminal(nodes)
    {
      for i := 0 to |nodes.keys|
        invariant forall k :: 0 <= k < i ==> !Open(nodes.vals[nodes.keys[k]].status)
      {
        var status := nodes.Get(nodes.keys[i]).status;
        if status == Pending || status == Active || status == Blocked {
          return false;
        }
      }
      assert forall id :: id in nodes.vals ==> nodes.keys[Index(nodes.keys, id)] == id;
      return true;
    }

    method CheckHasFailed() returns (b: bool)
      requires Valid()
      ensures b == HasFailed(nodes)
    {
      for i := 0 to |nodes.keys|
        invariant forall k :: 0 <= k < i ==> nodes.vals[nodes.keys[k]].status != Failed
      {
        if nodes.Get(nodes.keys[i]).status == Failed {
          return true;
        }
      }
      assert forall id :: id in nodes.vals ==> nodes.keys[Index(nodes.keys, id)] == id;
      return false;
    }
  }
}
