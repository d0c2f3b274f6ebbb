/**
 * Dependency graphs and the theory behind their validation: chains, cycles,
 * and topological order by repeatedly releasing nodes whose dependencies are
 * all done. `Edges` maps a node to its `dependsOn` list, which may repeat.
 */
module Graphs {
  import opened Seqs
  import opened JsMaps

  datatype NodeId = NodeId(raw: string)

  type Edges = JsMap<NodeId, seq<NodeId>>

  ghost predicate NoSelfDependency(g: Edges) {
    forall n :: n in g.vals ==> n !in g.vals[n]
  }

  /** Every dependency is itself a node. */
  ghost predicate Closed(g: Edges) {
    forall n, d :: n in g.vals && d in g.vals[n] ==> d in g.vals
  }

  /** A walk along `dependsOn` edges inside the graph. */
  ghost predicate IsChain(g: Edges, p: seq<NodeId>) {
    && |p| > 0
    && (forall i :: 0 <= i < |p| ==> p[i] in g.vals)
    && (forall i :: 0 <= i < |p| - 1 ==> p[i+1] in g.vals[p[i]])
  }

  ghost predicate IsCycle(g: Edges, c: seq<NodeId>) {
    IsChain(g, c) && |c| > 1 && c[0] == c[|c|-1]
  }

  ghost predicate Acyclic(g: Edges) {
    forall c :: !IsCycle(g, c)
  }

  ghost predicate LeadsTo(g: Edges, p: seq<NodeId>, c: seq<NodeId>, n: NodeId) {
    IsChain(g, p) && p[0] == n && IsCycle(g, c) && p[|p|-1] == c[0]
  }

  /** `n` lies on a cycle or depends, directly or not, on a node that does. */
  ghost predicate ReachesCycle(g: Edges, n: NodeId) {
    exists p, c :: LeadsTo(g, p, c, n)
  }

  /** Each node comes after everything it depends on. */
  ghost predicate Topological(g: Edges, order: seq<NodeId>) {
    forall i :: 0 <= i < |order| ==>
      order[i] in g.vals && forall d :: d in g.vals[order[i]] ==> d in order[..i]
  }

  // ------------------------------------------------------------------
  // Kahn's algorithm, stated over sets of finished nodes
  // ------------------------------------------------------------------

  predicate AllIn(ds: seq<NodeId>, done: seq<NodeId>) {
    forall i :: 0 <= i < |ds| ==> ds[i] in done
  }

  /** Nodes, in map order, that finishing `c` releases once `done` is finished. */
  function Released(g: Edges, done: seq<NodeId>, c: NodeId): seq<NodeId> {
    Filter(g.keys, (n: NodeId) => n in g.vals && c in g.vals[n] && AllIn(g.vals[n], done + [c]))
  }

  function Sources(g: Edges): seq<NodeId> {
    Filter(g.keys, (n: NodeId) => n in g.vals && g.vals[n] == [])
  }

  /** What is done or queued is exactly what the finished nodes have released. */
  ghost predicate KahnState(g: Edges, order: seq<NodeId>, queue: seq<NodeId>) {
    && g.Valid()
    && Distinct(order + queue)
    && (forall n :: n in order || n in queue ==> n in g.vals && AllIn(g.vals[n], order))
    && (forall n :: n in g.vals && AllIn(g.vals[n], order) ==> n in order || n in queue)
    && Topological(g, order)
  }

  lemma NothingDone(ds: seq<NodeId>)
    ensures AllIn(ds, []) <==> ds == []
  {
    var none: seq<NodeId> := [];
    if |ds| > 0 {
      assert ds[0] !in none;
    }
  }

  lemma KahnStart(g: Edges)
    requires g.Valid()
    ensures KahnState(g, [], Sources(g))
  {
    var keep := (n: NodeId) => n in g.vals && g.vals[n] == [];
    FilterMember(g.keys, keep);
    FilterDistinct(g.keys, keep);
    assert [] + Sources(g) == Sources(g);
    forall n | n in g.vals ensures AllIn(g.vals[n], []) <==> g.vals[n] == [] {
      NothingDone(g.vals[n]);
    }
  }

  /** The released nodes are new, and are all that finishing `c` makes ready. */
  lemma ReleasedMembers(g: Edges, order: seq<NodeId>, queue: seq<NodeId>, c: NodeId)
    requires KahnState(g, order, queue) && c in queue && c !in order
    ensures forall n :: n in Released(g, order, c) ==> n !in order && n !in queue
    ensures forall n :: n in Released(g, order, c) ==> n in g.vals && AllIn(g.vals[n], order + [c])
    ensures forall n :: n in g.vals && AllIn(g.vals[n], order + [c]) && n !in order && n !in queue
                    ==> n in Released(g, order, c)
    ensures Distinct(Released(g, order, c))
  {
    var keep := (n: NodeId) => n in g.vals && c in g.vals[n] && AllIn(g.vals[n], order + [c]);
    FilterMember(g.keys, keep);
    FilterDistinct(g.keys, keep);
    forall n | n in g.vals && AllIn(g.vals[n], order + [c]) && n !in order && n !in queue
      ensures n in Released(g, order, c)
    {
      assert !AllIn(g.vals[n], order);
    }
  }

  lemma DistinctConcat(a: seq<NodeId>, b: seq<NodeId>)
    requires Distinct(a) && Distinct(b) && forall x :: x in b ==> x !in a
    ensures Distinct(a + b)
  {
    forall i, j | 0 <= i < j < |a + b| ensures (a + b)[i] != (a + b)[j] {
      if i < |a| <= j {
        assert (a + b)[j] == b[j - |a|] && b[j - |a|] in b;
        assert a[i] in a;
      }
    }
  }

  lemma KahnStep(g: Edges, order: seq<NodeId>, queue: seq<NodeId>)
    requires KahnState(g, order, queue) && queue != []
    ensures KahnState(g, order + [queue[0]], queue[1..] + Released(g, order, queue[0]))
    ensures |order| < |g.keys|
  {
    var c, all := queue[0], order + queue;
    assert c == all[|order|];
    assert forall i :: 0 <= i < |order| ==> order[i] == all[i] && all[i] != c;
    ReleasedMembers(g, order, queue, c);
    var released, order' := Released(g, order, c), order + [c];
    var queue' := queue[1..] + released;
    assert order' + queue' == all + released;
    forall x | x in released ensures x !in all {}
    DistinctConcat(all, released);
    forall n | n in order' || n in queue' ensures n in g.vals && AllIn(g.vals[n], order') {
      if n !in released { assert n in order || n in queue; }
    }
    forall n | n in g.vals && AllIn(g.vals[n], order') ensures n in order' || n in queue' {
      if n in queue { assert n == c || n in queue[1..]; }
    }
    TopologicalStep(g, order, c);
    DistinctWithin(all, g.keys);
  }

  lemma TopologicalStep(g: Edges, order: seq<NodeId>, c: NodeId)
    requires Topological(g, order) && c in g.vals && AllIn(g.vals[c], order)
    ensures Topological(g, order + [c])
  {
    var order' := order + [c];
    forall i | 0 <= i < |order'|
      ensures order'[i] in g.vals && forall d :: d in g.vals[order'[i]] ==> d in order'[..i]
    {
      assert order'[..i] == order[..i];
    }
  }

  /** The completion order of Kahn's algorithm from an intermediate state. */
  ghost function KahnFrom(g: Edges, order: seq<NodeId>, queue: seq<NodeId>): seq<NodeId>
    requires KahnState(g, order, queue)
    decreases |g.keys| - |order|
  {
    if queue == [] then order
    else
      KahnStep(g, order, queue);
      KahnFrom(g, order + [queue[0]], queue[1..] + Released(g, order, queue[0]))
  }

  ghost function KahnOrder(g: Edges): seq<NodeId>
    requires g.Valid()
  {
    KahnStart(g);
    KahnFrom(g, [], Sources(g))
  }

  lemma {:induction false} KahnFromFinal(g: Edges, order: seq<NodeId>, queue: seq<NodeId>)
    requires KahnState(g, order, queue)
    ensures KahnState(g, KahnFrom(g, order, queue), [])
    decreases |g.keys| - |order|
  {
    if queue != [] {
      KahnStep(g, order, queue);
      KahnFromFinal(g, order + [queue[0]], queue[1..] + Released(g, order, queue[0]));
    }
  }

  /**
   * The order is repeat-free, topological, and holds exactly the nodes all of
   * whose dependencies it holds.
   */
  lemma KahnOrderSpec(g: Edges)
    requires g.Valid()
    ensures Distinct(KahnOrder(g)) && Topological(g, KahnOrder(g))
    ensures forall n :: n in KahnOrder(g) <==> n in g.vals && AllIn(g.vals[n], KahnOrder(g))
  {
    KahnStart(g);
    KahnFromFinal(g, [], Sources(g));
    var o := KahnOrder(g);
    assert o + [] == o;
    assert forall n :: n in o ==> n in g.vals && AllIn(g.vals[n], o);
  }

  // ------------------------------------------------------------------
  // Soundness and completeness against cycles
  // ------------------------------------------------------------------

  /** Along a chain that starts in the order, positions strictly decrease. */
  lemma {:induction false} OrderedChain(g: Edges, order: seq<NodeId>, p: seq<NodeId>)
    requires Distinct(order) && Topological(g, order)
    requires IsChain(g, p) && p[0] in order
    ensures p[|p|-1] in order
    ensures Index(order, p[|p|-1]) + |p| - 1 <= Index(order, p[0])
  {
    if |p| > 1 {
      var i := Index(order, p[0]);
      assert p[1] in order[..i];
      var j := Index(order[..i], p[1]);
      assert order[j] == p[1];
      OrderedChain(g, order, p[1..]);
    }
  }

  lemma OrderedNeverReachesCycle(g: Edges, n: NodeId)
    requires g.Valid() && n in KahnOrder(g)
    ensures !ReachesCycle(g, n)
  {
    var o := KahnOrder(g);
    KahnOrderSpec(g);
    forall p, c | LeadsTo(g, p, c, n) ensures false {
      OrderedChain(g, o, p);
      OrderedChain(g, o, c);
    }
  }

  lemma ChainCons(g: Edges, n: NodeId, rest: seq<NodeId>)
    requires IsChain(g, rest) && n in g.vals && rest[0] in g.vals[n]
    ensures IsChain(g, [n] + rest)
  {
    var p := [n] + rest;
    forall i | 0 <= i < |p| - 1 ensures p[i+1] in g.vals[p[i]] {
      if i > 0 { assert rest[i] in g.vals[rest[i-1]]; }
    }
  }

  /** From a stuck node one can walk along stuck nodes for any length. */
  lemma {:induction false} StuckWalk(g: Edges, n: NodeId, k: nat) returns (p: seq<NodeId>)
    requires g.Valid() && Closed(g)
    requires n in g.vals && n !in KahnOrder(g)
    ensures IsChain(g, p) && p[0] == n && |p| == k + 1
    decreases k
  {
    if k == 0 {
      p := [n];
    } else {
      KahnOrderSpec(g);
      var i :| 0 <= i < |g.vals[n]| && g.vals[n][i] !in KahnOrder(g);
      var d := g.vals[n][i];
      assert d in g.vals[n];
      var rest := StuckWalk(g, d, k - 1);
      p := [n] + rest;
      ChainCons(g, n, rest);
    }
  }

  lemma StuckReachesCycle(g: Edges, n: NodeId)
    requires g.Valid() && Closed(g)
    requires n in g.vals && n !in KahnOrder(g)
    ensures ReachesCycle(g, n)
  {
    var p := StuckWalk(g, n, |g.vals.Keys|);
    Pigeonhole(p, g.vals.Keys);
    var i, j :| 0 <= i < j < |p| && p[i] == p[j];
    assert LeadsTo(g, p[0..i+1], p[i..j+1], n);
  }

  /**
   * Kahn's algorithm leaves out exactly the nodes on or downstream of a cycle,
   * and it places every node exactly when there is no cycle.
   */
  lemma KahnSoundAndComplete(g: Edges)
    requires g.Valid() && Closed(g)
    ensures forall n :: n in g.vals ==> (n !in KahnOrder(g) <==> ReachesCycle(g, n))
    ensures |KahnOrder(g)| == |g.keys| <==> Acyclic(g)
    ensures Acyclic(g) ==> multiset(KahnOrder(g)) == multiset(g.keys)
  {
    var o := KahnOrder(g);
    KahnOrderSpec(g);
    forall n | n in g.vals ensures n !in o <==> ReachesCycle(g, n) {
      if n in o { OrderedNeverReachesCycle(g, n); } else { StuckReachesCycle(g, n); }
    }
    DistinctWithin(o, g.keys);
    if |o| == |g.keys| {
      forall c ensures !IsCycle(g, c) {
        if IsCycle(g, c) {
          assert c[0] in ToSet(o);
          OrderedChain(g, o, c);
          assert false;
        }
      }
    } else {
      assert exists n :: n in g.keys && n !in o by {
        if forall n :: n in g.keys ==> n in o { DistinctWithin(g.keys, o); }
      }
      var n :| n in g.keys && n !in o;
      StuckReachesCycle(g, n);
      var p, c :| LeadsTo(g, p, c, n);
      assert IsCycle(g, c);
    }
    if Acyclic(g) {
      assert ToSet(o) == ToSet(g.keys);
      SameSetSameMultiset(o, g.keys);
    }
  }

  lemma DistinctMultiset(s: seq<NodeId>)
    requires Distinct(s)
    ensures forall x :: multiset(s)[x] == if x in s then 1 else 0
  {
    if s != [] {
      var n := |s| - 1;
      DistinctMultiset(s[..n]);
      assert s == s[..n] + [s[n]];
    }
  }

  lemma SameSetSameMultiset(a: seq<NodeId>, b: seq<NodeId>)
    requires Distinct(a) && Distinct(b) && ToSet(a) == ToSet(b)
    ensures multiset(a) == multiset(b)
  {
    DistinctMultiset(a);
    DistinctMultiset(b);
    forall x ensures multiset(a)[x] == multiset(b)[x] {
      assert x in a <==> x in ToSet(a);
      assert x in b <==> x in ToSet(b);
    }
  }

  // ------------------------------------------------------------------
  // The order depends on dependency sets only
  // ------------------------------------------------------------------

  /** Same nodes in the same order, same dependencies up to order and repeats. */
  ghost predicate SameDependencies(g: Edges, h: Edges) {
    && g.keys == h.keys && g.vals.Keys == h.vals.Keys
    && forall n :: n in g.vals ==> ToSet(g.vals[n]) == ToSet(h.vals[n])
  }

  lemma SameDependenciesPointwise(g: Edges, h: Edges, n: NodeId, done: seq<NodeId>, c: NodeId)
    requires SameDependencies(g, h) && n in g.vals
    ensures AllIn(g.vals[n], done) == AllIn(h.vals[n], done)
    ensures c in g.vals[n] <==> c in h.vals[n]
    ensures g.vals[n] == [] <==> h.vals[n] == []
  {
    forall d ensures d in g.vals[n] <==> d in h.vals[n] {
      assert d in ToSet(g.vals[n]) <==> d in ToSet(h.vals[n]);
    }
    if g.vals[n] != [] { assert g.vals[n][0] in h.vals[n]; }
    if h.vals[n] != [] { assert h.vals[n][0] in g.vals[n]; }
    assert AllIn(g.vals[n], done) <==> forall d :: d in g.vals[n] ==> d in done;
    assert AllIn(h.vals[n], done) <==> forall d :: d in h.vals[n] ==> d in done;
  }

  lemma {:induction false} SameKahnFrom(g: Edges, h: Edges, order: seq<NodeId>, queue: seq<NodeId>)
    requires SameDependencies(g, h)
    requires KahnState(g, order, queue) && KahnState(h, order, queue)
    ensures KahnFrom(g, order, queue) == KahnFrom(h, order, queue)
    decreases |g.keys| - |order|
  {
    if queue != [] {
      var c := queue[0];
      KahnStep(g, order, queue);
      KahnStep(h, order, queue);
      var f := (n: NodeId) => n in g.vals && c in g.vals[n] && AllIn(g.vals[n], order + [c]);
      var f' := (n: NodeId) => n in h.vals && c in h.vals[n] && AllIn(h.vals[n], order + [c]);
      forall n | n in g.keys ensures f(n) == f'(n) {
        SameDependenciesPointwise(g, h, n, order + [c], c);
      }
      FilterCongruent(g.keys, f, f');
      SameKahnFrom(g, h, order + [c], queue[1..] + Released(g, order, c));
    }
  }

  /** Execution order does not see the order or repetition of `dependsOn`. */
  lemma KahnOrderIgnoresRepeats(g: Edges, h: Edges)
    requires g.Valid() && h.Valid() && SameDependencies(g, h)
    ensures KahnOrder(g) == KahnOrder(h)
  {
    KahnStart(g);
    KahnStart(h);
    var f := (n: NodeId) => n in g.vals && g.vals[n] == [];
    var f' := (n: NodeId) => n in h.vals && h.vals[n] == [];
    forall n | n in g.keys ensures f(n) == f'(n) {
      SameDependenciesPointwise(g, h, n, [], n);
    }
    FilterCongruent(g.keys, f, f');
    SameKahnFrom(g, h, [], Sources(g));
  }

  // ------------------------------------------------------------------
  // Growing and shrinking a graph
  // ------------------------------------------------------------------

  ghost predicate IsDag(g: Edges) {
    g.Valid() && Closed(g) && Acyclic(g)
  }

  /** A chain of the grown graph that starts at an old node is an old chain. */
  lemma {:induction false} OldChain(g: Edges, id: NodeId, deps: seq<NodeId>, p: seq<NodeId>)
    requires Closed(g) && id !in g.vals
    requires IsChain(g.Set(id, deps), p) && p[0] in g.vals
    ensures IsChain(g, p)
  {
    if |p| > 1 {
      var h := g.Set(id, deps);
      assert p[1] in h.vals[p[0]];
      assert IsChain(h, p[1..]);
      OldChain(g, id, deps, p[1..]);
      forall i | 0 <= i < |p| - 1 ensures p[i+1] in g.vals[p[i]] {
        if i > 0 { assert p[1..][i] in g.vals[p[1..][i-1]]; }
      }
    }
  }

  /** The node just added lies on no cycle, because nothing leads back to it. */
  lemma OldCycle(g: Edges, id: NodeId, deps: seq<NodeId>, c: seq<NodeId>)
    requires Closed(g) && id !in g.vals && id !in deps
    requires forall d :: d in deps ==> d in g.vals
    requires IsCycle(g.Set(id, deps), c)
    ensures IsCycle(g, c)
  {
    assert c[1] in g.Set(id, deps).vals[c[0]];
    OldChain(g, id, deps, c[1..]);
    assert c[|c|-1] == c[1..][|c|-2];
    OldChain(g, id, deps, c);
  }

  /**
   * Nothing can depend on a node that is not there yet, so adding one to a
   * valid graph can only fail by a bad dependency, never by a cycle.
   */
  lemma AddingNodeNeverCloses(g: Edges, id: NodeId, deps: seq<NodeId>)
    requires IsDag(g) && id !in g.vals
    ensures IsDag(g.Set(id, deps)) <==> forall d :: d in deps ==> d in g.vals
  {
    var h := g.Set(id, deps);
    if forall d :: d in deps ==> d in g.vals {
      forall n, d | n in h.vals && d in h.vals[n] ensures d in h.vals {}
      forall c ensures !IsCycle(h, c) {
        if IsCycle(h, c) { OldCycle(g, id, deps, c); }
      }
    } else {
      var d :| d in deps && d !in g.vals;
      assert d in h.vals[id];
      if d == id { assert IsCycle(h, [id, id]); } else { assert d !in h.vals; }
    }
  }

  function Without(ds: seq<NodeId>, id: NodeId): (r: seq<NodeId>) {
    Filter(ds, (d: NodeId) => d != id)
  }

  /** Deletes a node and every reference to it. */
  function RemoveNode(g: Edges, id: NodeId): Edges {
    MapValues(g.Delete(id), (ds: seq<NodeId>) => Without(ds, id))
  }

  lemma RemovedEdge(g: Edges, id: NodeId, n: NodeId)
    requires n in RemoveNode(g, id).vals
    ensures n in g.vals && n != id
    ensures forall d :: d in RemoveNode(g, id).vals[n] <==> d in g.vals[n] && d != id
  {
    FilterMember(g.vals[n], (d: NodeId) => d != id);
  }

  /** Removing any node of a valid graph leaves a valid graph. */
  lemma RemovingNodeKeepsDag(g: Edges, id: NodeId)
    requires IsDag(g)
    ensures IsDag(RemoveNode(g, id))
  {
    var h := RemoveNode(g, id);
    forall n, d | n in h.vals && d in h.vals[n] ensures d in h.vals {
      RemovedEdge(g, id, n);
    }
    forall c ensures !IsCycle(h, c) {
      if IsCycle(h, c) {
        forall i | 0 <= i < |c| - 1 ensures c[i+1] in g.vals[c[i]] {
          assert c[i+1] in h.vals[c[i]];
          RemovedEdge(g, id, c[i]);
        }
        assert IsCycle(g, c);
      }
    }
  }
}
