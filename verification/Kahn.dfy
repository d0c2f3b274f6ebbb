/** Graph validation by in-degree counting, refined from the set form in Graphs. */
module Kahn {
  import opened Seqs
  import opened JsMaps
  import opened Graphs

  // ------------------------------------------------------------------
  // Validation
  // ------------------------------------------------------------------

  /** What validation returns, or the error it throws. */
  datatype Verdict =
    | Ordered(order: seq<NodeId>)
    | SelfDependency(node: NodeId)
    | MissingDependency(node: NodeId, dep: NodeId)
    | Cyclic(stuck: seq<NodeId>)

  function FirstBadDependency(g: Edges, n: NodeId, ds: seq<NodeId>): Option<Verdict> {
    if ds == [] then None
    else if ds[0] == n then Some(SelfDependency(n))
    else if !g.Has(ds[0]) then Some(MissingDependency(n, ds[0]))
    else FirstBadDependency(g, n, ds[1..])
  }

  function FirstBadNode(g: Edges, keys: seq<NodeId>): Option<Verdict>
    requires forall n :: n in keys ==> n in g.vals
  {
    if keys == [] then None
    else
      var bad := FirstBadDependency(g, keys[0], g.vals[keys[0]]);
      if bad.Some? then bad else FirstBadNode(g, keys[1..])
  }

  /** The outcome of validation, by finished sets instead of counters. */
  ghost function Judge(g: Edges): Verdict
    requires g.Valid()
  {
    var bad := FirstBadNode(g, g.keys);
    if bad.Some? then bad.value
    else
      var order := KahnOrder(g);
      if |order| == |g.keys| then Ordered(order)
      else Cyclic(Filter(g.keys, (n: NodeId) => n !in order))
  }

  lemma {:induction false} FirstBadDependencySpec(g: Edges, n: NodeId, ds: seq<NodeId>)
    ensures FirstBadDependency(g, n, ds).None? <==> forall d :: d in ds ==> d != n && d in g.vals
    ensures FirstBadDependency(g, n, ds).Some? ==>
              match FirstBadDependency(g, n, ds).value
              case SelfDependency(m) => m == n && n in ds
              case MissingDependency(m, d) => m == n && d in ds && d !in g.vals
              case _ => false
  {
    if ds != [] {
      FirstBadDependencySpec(g, n, ds[1..]);
      assert ds[0] in ds;
      assert forall d :: d in ds <==> d == ds[0] || d in ds[1..];
    }
  }

  lemma {:induction false} FirstBadNodeSpec(g: Edges, keys: seq<NodeId>)
    requires forall n :: n in keys ==> n in g.vals
    ensures FirstBadNode(g, keys).None? <==>
            forall n, d :: n in keys && d in g.vals[n] ==> d != n && d in g.vals
    ensures FirstBadNode(g, keys).Some? ==>
              match FirstBadNode(g, keys).value
              case SelfDependency(n) => n in keys && n in g.vals[n]
              case MissingDependency(n, d) => n in keys && d in g.vals[n] && d !in g.vals
              case _ => false
  {
    if keys != [] {
      FirstBadDependencySpec(g, keys[0], g.vals[keys[0]]);
      FirstBadNodeSpec(g, keys[1..]);
      assert keys == [keys[0]] + keys[1..];
    }
  }

  /**
   * Validation succeeds exactly on closed acyclic graphs, with a topological
   * permutation of the nodes; each failure names a real violation, and the
   * stuck nodes are exactly those on or downstream of a cycle.
   */
  lemma JudgeSoundAndComplete(g: Edges)
    requires g.Valid()
    ensures Judge(g).Ordered? <==> IsDag(g)
    ensures Judge(g).Ordered? ==>
              Topological(g, Judge(g).order) && multiset(Judge(g).order) == multiset(g.keys)
    ensures Judge(g).SelfDependency? ==> Judge(g).node in g.vals && Judge(g).node in g.vals[Judge(g).node]
    ensures Judge(g).MissingDependency? ==>
              Judge(g).node in g.vals && Judge(g).dep in g.vals[Judge(g).node] && Judge(g).dep !in g.vals
    ensures Judge(g).Cyclic? ==>
              && Closed(g) && NoSelfDependency(g) && !Acyclic(g)
              && forall n :: n in Judge(g).stuck <==> n in g.vals && ReachesCycle(g, n)
  {
    FirstBadNodeSpec(g, g.keys);
    if FirstBadNode(g, g.keys).None? {
      KahnOrderSpec(g);
      KahnSoundAndComplete(g);
      var order := KahnOrder(g);
      FilterMember(g.keys, (n: NodeId) => n !in order);
    } else {
      var n :| n in g.keys && exists d :: d in g.vals[n] && !(d != n && d in g.vals);
      var d :| d in g.vals[n] && !(d != n && d in g.vals);
      if d == n { assert IsCycle(g, [n, n]); }
    }
  }

  /** Two graphs that differ in dependency order and repeats validate alike. */
  lemma SameDependenciesSameOrder(g: Edges, h: Edges)
    requires g.Valid() && h.Valid() && SameDependencies(g, h)
    ensures Judge(g).Ordered? <==> Judge(h).Ordered?
    ensures Judge(g).Ordered? ==> Judge(g) == Judge(h)
  {
    KahnOrderIgnoresRepeats(g, h);
    FirstBadNodeSpec(g, g.keys);
    FirstBadNodeSpec(h, h.keys);
    forall n, d | n in g.keys ensures d in g.vals[n] <==> d in h.vals[n] {
      SameDependenciesPointwise(g, h, n, [], d);
    }
    JudgeSoundAndComplete(g);
    JudgeSoundAndComplete(h);
  }

  // ------------------------------------------------------------------
  // In-degree counters
  // ------------------------------------------------------------------

  function Occurs(ds: seq<NodeId>, c: NodeId): nat {
    if ds == [] then 0 else Occurs(ds[..|ds|-1], c) + if ds[|ds|-1] == c then 1 else 0
  }

  /** How many entries of `ds`, with repeats, are not done yet. */
  function Unmet(ds: seq<NodeId>, done: seq<NodeId>): nat {
    if ds == [] then 0 else Unmet(ds[..|ds|-1], done) + if ds[|ds|-1] in done then 0 else 1
  }

  lemma {:induction false} UnmetStep(ds: seq<NodeId>, done: seq<NodeId>, c: NodeId)
    requires c !in done
    ensures Unmet(ds, done) == Unmet(ds, done + [c]) + Occurs(ds, c)
    ensures Occurs(ds, c) > 0 <==> c in ds
  {
    if ds != [] {
      UnmetStep(ds[..|ds|-1], done, c);
      assert ds == ds[..|ds|-1] + [ds[|ds|-1]];
    }
  }

  lemma {:induction false} UnmetZero(ds: seq<NodeId>, done: seq<NodeId>)
    ensures Unmet(ds, done) == 0 <==> AllIn(ds, done)
    ensures AllIn(ds, done) <==> forall d :: d in ds ==> d in done
  {
    if ds != [] {
      UnmetZero(ds[..|ds|-1], done);
      assert ds == ds[..|ds|-1] + [ds[|ds|-1]];
    }
  }

  lemma {:induction false} UnmetNone(ds: seq<NodeId>)
    ensures Unmet(ds, []) == |ds|
  {
    if ds != [] { UnmetNone(ds[..|ds|-1]); }
  }

  function Copies(n: NodeId, k: nat): seq<NodeId> {
    if k == 0 then [] else Copies(n, k - 1) + [n]
  }

  /** The adjacency list of `d` after the first `i` nodes have been entered. */
  function Dependents(g: Edges, d: NodeId, i: nat): seq<NodeId>
    requires i <= |g.keys| && g.Valid()
  {
    if i == 0 then []
    else Dependents(g, d, i - 1) + Copies(g.keys[i-1], Occurs(g.vals[g.keys[i-1]], d))
  }

  lemma DependentsOne(g: Edges, d: NodeId, i: nat)
    requires 0 < i <= |g.keys| && g.Valid()
    ensures Dependents(g, d, i) == Dependents(g, d, i - 1) + Copies(g.keys[i-1], Occurs(g.vals[g.keys[i-1]], d))
  {
  }

  lemma {:induction false} DependentsAreNodes(g: Edges, d: NodeId, i: nat)
    requires i <= |g.keys| && g.Valid()
    ensures forall n :: n in Dependents(g, d, i) ==> n in g.vals
  {
    if i > 0 {
      DependentsAreNodes(g, d, i - 1);
      CopiesMembers(g.keys[i-1], Occurs(g.vals[g.keys[i-1]], d));
    }
  }

  lemma {:induction false} CopiesMembers(n: NodeId, k: nat)
    ensures forall m :: m in Copies(n, k) ==> m == n
  {
    if k > 0 { CopiesMembers(n, k - 1); }
  }

  lemma {:induction false} OccursConcat(a: seq<NodeId>, b: seq<NodeId>, c: NodeId)
    ensures Occurs(a + b, c) == Occurs(a, c) + Occurs(b, c)
  {
    if b == [] {
      assert a + b == a;
    } else {
      assert (a + b)[..|a + b| - 1] == a + b[..|b|-1];
      OccursConcat(a, b[..|b|-1], c);
    }
  }

  lemma {:induction false} OccursCopies(n: NodeId, k: nat, c: NodeId)
    ensures Occurs(Copies(n, k), c) == if c == n then k else 0
  {
    if k > 0 {
      assert Copies(n, k)[..|Copies(n, k)|-1] == Copies(n, k - 1);
      OccursCopies(n, k - 1, c);
    }
  }

  /** A node stands in an adjacency list once for each of its entries. */
  lemma {:induction false} DependentsOccurs(g: Edges, d: NodeId, i: nat, j: nat)
    requires g.Valid() && i <= |g.keys| && j < |g.keys|
    ensures Occurs(Dependents(g, d, i), g.keys[j]) == if j < i then Occurs(g.vals[g.keys[j]], d) else 0
  {
    if i > 0 {
      var n, key := g.keys[i-1], g.keys[j];
      var before, copies := Dependents(g, d, i - 1), Occurs(g.vals[n], d);
      DependentsOccurs(g, d, i - 1, j);
      DependentsOne(g, d, i);
      assert Occurs(Dependents(g, d, i), key) == Occurs(before + Copies(n, copies), key);
      OccursConcat(before, Copies(n, copies), key);
      OccursCopies(n, copies, key);
      assert n == key <==> i - 1 == j;
    }
  }

  /** Nodes whose counter reaches zero while the edges to `ns` are relaxed. */
  function Pushed(ns: seq<NodeId>, degree: map<NodeId, int>): seq<NodeId> {
    if ns == [] then []
    else
      var n := ns[|ns|-1];
      var front := Pushed(ns[..|ns|-1], degree);
      if n in degree && degree[n] == Occurs(ns, n) then front + [n] else front
  }

  lemma PushedOne(ns: seq<NodeId>, n: NodeId, degree: map<NodeId, int>)
    ensures Pushed(ns + [n], degree)
            == if n in degree && degree[n] == Occurs(ns, n) + 1 then Pushed(ns, degree) + [n] else Pushed(ns, degree)
  {
    var all := ns + [n];
    assert all[..|all|-1] == ns;
  }

  /** One more entry for `n` at the end. */
  lemma PushedOneMore(ns: seq<NodeId>, copies: seq<NodeId>, n: NodeId, degree: map<NodeId, int>)
    requires n in degree && Occurs(ns, n) == 0
    ensures Pushed(ns + (copies + [n]), degree)
            == if degree[n] == Occurs(copies, n) + 1 then Pushed(ns + copies, degree) + [n]
               else Pushed(ns + copies, degree)
  {
    assert ns + (copies + [n]) == (ns + copies) + [n];
    OccursConcat(ns, copies, n);
    PushedOne(ns + copies, n, degree);
  }

  /** Relaxing all copies of an edge releases its node when they were the last. */
  lemma {:induction false} PushedCopies(ns: seq<NodeId>, n: NodeId, k: nat, degree: map<NodeId, int>)
    requires n in degree && degree[n] >= k && Occurs(ns, n) == 0
    ensures Pushed(ns + Copies(n, k), degree)
            == if k > 0 && degree[n] == k then Pushed(ns, degree) + [n] else Pushed(ns, degree)
  {
    if k == 0 {
      assert ns + Copies(n, 0) == ns;
    } else {
      var copies, before := Copies(n, k - 1), Pushed(ns, degree);
      assert Pushed(ns + copies, degree) == before by { PushedCopies(ns, n, k - 1, degree); }
      assert Occurs(copies, n) == k - 1 by { OccursCopies(n, k - 1, n); }
      assert Copies(n, k) == copies + [n];
      PushedOneMore(ns, copies, n, degree);
    }
  }

  /** Each counter holds the number of unmet dependency entries. */
  ghost predicate CountsUnmet(g: Edges, degree: map<NodeId, int>, done: seq<NodeId>) {
    degree.Keys == g.vals.Keys && forall n :: n in g.vals ==> degree[n] == Unmet(g.vals[n], done)
  }

  /** Nodes among the first `i` that finishing `c` releases. */
  function ReleasedUpTo(g: Edges, done: seq<NodeId>, c: NodeId, i: nat): seq<NodeId>
    requires i <= |g.keys|
  {
    Filter(g.keys[..i], (n: NodeId) => n in g.vals && c in g.vals[n] && AllIn(g.vals[n], done + [c]))
  }

  lemma ReleasedOne(g: Edges, done: seq<NodeId>, c: NodeId, i: nat)
    requires 0 < i <= |g.keys|
    ensures var n := g.keys[i-1];
            ReleasedUpTo(g, done, c, i) == ReleasedUpTo(g, done, c, i - 1)
              + if n in g.vals && c in g.vals[n] && AllIn(g.vals[n], done + [c]) then [n] else []
  {
    assert g.keys[..i][..i-1] == g.keys[..i-1];
  }

  lemma {:induction false} PushedDependents(g: Edges, c: NodeId, i: nat, done: seq<NodeId>, degree: map<NodeId, int>)
    requires g.Valid() && i <= |g.keys| && c !in done && CountsUnmet(g, degree, done)
    ensures Pushed(Dependents(g, c, i), degree) == ReleasedUpTo(g, done, c, i)
  {
    if i > 0 {
      var n := g.keys[i-1];
      PushedDependents(g, c, i - 1, done, degree);
      DependentsOccurs(g, c, i - 1, i - 1);
      UnmetStep(g.vals[n], done, c);
      UnmetZero(g.vals[n], done + [c]);
      PushedCopies(Dependents(g, c, i - 1), n, Occurs(g.vals[n], c), degree);
      ReleasedOne(g, done, c, i);
    }
  }

  /** Relaxing the whole adjacency list of `c` is one step of the set form. */
  lemma RelaxRefinesRelease(g: Edges, c: NodeId, done: seq<NodeId>, degree: map<NodeId, int>, degree': map<NodeId, int>)
    requires g.Valid() && c !in done && CountsUnmet(g, degree, done)
    requires degree'.Keys == degree.Keys
    requires forall n :: n in degree ==> degree'[n] == degree[n] - Occurs(Dependents(g, c, |g.keys|), n)
    ensures Pushed(Dependents(g, c, |g.keys|), degree) == Released(g, done, c)
    ensures CountsUnmet(g, degree', done + [c])
  {
    PushedDependents(g, c, |g.keys|, done, degree);
    assert g.keys[..|g.keys|] == g.keys;
    forall n | n in g.vals ensures degree'[n] == Unmet(g.vals[n], done + [c]) {
      DependentsOccurs(g, c, |g.keys|, Index(g.keys, n));
      UnmetStep(g.vals[n], done, c);
    }
  }

  method CheckReferences(g: Edges) returns (bad: Option<Verdict>)
    requires g.Valid()
    ensures bad == FirstBadNode(g, g.keys)
  {
    for i := 0 to |g.keys|
      invariant FirstBadNode(g, g.keys) == FirstBadNode(g, g.keys[i..])
    {
      var n := g.keys[i];
      var ds := g.Get(n);
      assert g.keys[i..][1..] == g.keys[i+1..];
      for j := 0 to |ds|
        invariant FirstBadDependency(g, n, ds) == FirstBadDependency(g, n, ds[j..])
      {
        assert ds[j..][1..] == ds[j+1..];
        if ds[j] == n {
          return Some(SelfDependency(n));
        }
        if !g.Has(ds[j]) {
          return Some(MissingDependency(n, ds[j]));
        }
      }
    }
    return None;
  }

  /** Enters one node into the adjacency lists of its dependencies. */
  method EnterNode(n: NodeId, ds: seq<NodeId>, adjacency: map<NodeId, seq<NodeId>>)
    returns (degree: int, adjacency': map<NodeId, seq<NodeId>>)
    requires forall d :: d in ds ==> d in adjacency
    ensures degree == |ds|
    ensures adjacency'.Keys == adjacency.Keys
    ensures forall d :: d in adjacency ==> adjacency'[d] == adjacency[d] + Copies(n, Occurs(ds, d))
  {
    degree, adjacency' := 0, adjacency;
    for j := 0 to |ds|
      invariant degree == j
      invariant adjacency'.Keys == adjacency.Keys
      invariant forall d :: d in adjacency ==> adjacency'[d] == adjacency[d] + Copies(n, Occurs(ds[..j], d))
    {
      assert ds[..j+1][..j] == ds[..j];
      assert ds[j] in ds;
      degree := degree + 1;
      adjacency' := adjacency'[ds[j] := adjacency'[ds[j]] + [n]];
    }
    assert ds[..|ds|] == ds;
  }

  /** Counters after the first `i` nodes have been entered. */
  function Entered(g: Edges, i: nat): map<NodeId, int>
    requires g.Valid() && i <= |g.keys|
  {
    if i == 0 then map n | n in g.vals :: 0
    else Entered(g, i - 1)[g.keys[i-1] := |g.vals[g.keys[i-1]]|]
  }

  lemma {:induction false} EnteredAt(g: Edges, i: nat, j: nat)
    requires g.Valid() && i <= |g.keys| && j < |g.keys|
    ensures Entered(g, i).Keys == g.vals.Keys
    ensures Entered(g, i)[g.keys[j]] == if j < i then |g.vals[g.keys[j]]| else 0
  {
    if i > 0 {
      EnteredAt(g, i - 1, j);
      assert g.keys[i-1] == g.keys[j] <==> i - 1 == j;
    }
  }

  lemma EnteredCountsUnmet(g: Edges)
    requires g.Valid()
    ensures CountsUnmet(g, Entered(g, |g.keys|), [])
  {
    var degree := Entered(g, |g.keys|);
    forall n | n in g.vals ensures n in degree && degree[n] == Unmet(g.vals[n], []) {
      EnteredAt(g, |g.keys|, Index(g.keys, n));
      UnmetNone(g.vals[n]);
    }
    if |g.keys| > 0 { EnteredAt(g, |g.keys|, 0); }
  }

  /** Adjacency lists after the first `i` nodes have been entered. */
  function Adjacency(g: Edges, i: nat): map<NodeId, seq<NodeId>>
    requires g.Valid() && i <= |g.keys|
  {
    map d | d in g.vals :: Dependents(g, d, i)
  }

  /** One round of edge counting: the counter and lists after node `i`. */
  method CountNode(g: Edges, i: nat, inDegree: map<NodeId, int>, adjacency: map<NodeId, seq<NodeId>>)
    returns (inDegree': map<NodeId, int>, adjacency': map<NodeId, seq<NodeId>>)
    requires g.Valid() && Closed(g) && i < |g.keys|
    requires inDegree == Entered(g, i) && adjacency == Adjacency(g, i)
    ensures inDegree' == Entered(g, i + 1) && adjacency' == Adjacency(g, i + 1)
  {
    var n := g.keys[i];
    var degree;
    degree, adjacency' := EnterNode(n, g.vals[n], adjacency);
    inDegree' := inDegree[n := degree];
  }

  method CountEdges(g: Edges) returns (inDegree: map<NodeId, int>, adjacency: map<NodeId, seq<NodeId>>)
    requires g.Valid() && Closed(g)
    ensures CountsUnmet(g, inDegree, [])
    ensures adjacency == Adjacency(g, |g.keys|)
  {
    inDegree := map n | n in g.vals :: 0;
    adjacency := map n | n in g.vals :: [];
    for i := 0 to |g.keys|
      invariant inDegree == Entered(g, i) && adjacency == Adjacency(g, i)
    {
      inDegree, adjacency := CountNode(g, i, inDegree, adjacency);
    }
    EnteredCountsUnmet(g);
  }

  method FindSources(g: Edges, inDegree: map<NodeId, int>) returns (queue: seq<NodeId>)
    requires g.Valid() && CountsUnmet(g, inDegree, [])
    ensures queue == Sources(g)
  {
    queue := [];
    for i := 0 to |g.keys|
      invariant queue == Filter(g.keys[..i], (n: NodeId) => n in g.vals && g.vals[n] == [])
    {
      UnmetNone(g.vals[g.keys[i]]);
      assert g.keys[..i+1][..i] == g.keys[..i];
      if inDegree[g.keys[i]] == 0 {
        queue := queue + [g.keys[i]];
      }
    }
    assert g.keys[..|g.keys|] == g.keys;
  }

  method RelaxAll(neighbors: seq<NodeId>, degree: map<NodeId, int>, queue: seq<NodeId>)
    returns (degree': map<NodeId, int>, queue': seq<NodeId>)
    requires forall n :: n in neighbors ==> n in degree
    ensures degree'.Keys == degree.Keys
    ensures forall n :: n in degree ==> degree'[n] == degree[n] - Occurs(neighbors, n)
    ensures queue' == queue + Pushed(neighbors, degree)
  {
    degree', queue' := degree, queue;
    for k := 0 to |neighbors|
      invariant degree'.Keys == degree.Keys
      invariant forall n :: n in degree ==> degree'[n] == degree[n] - Occurs(neighbors[..k], n)
      invariant queue' == queue + Pushed(neighbors[..k], degree)
    {
      assert neighbors[..k+1][..k] == neighbors[..k];
      assert neighbors[k] in neighbors;
      var next := degree'[neighbors[k]] - 1;
      degree' := degree'[neighbors[k] := next];
      if next == 0 {
        queue' := queue' + [neighbors[k]];
      }
    }
    assert neighbors[..|neighbors|] == neighbors;
  }

  lemma QueueHeadIsNew(g: Edges, order: seq<NodeId>, queue: seq<NodeId>)
    requires KahnState(g, order, queue) && queue != []
    ensures queue[0] !in order && queue[0] in g.vals
  {
    var all := order + queue;
    assert all[|order|] == queue[0];
    assert forall i :: 0 <= i < |order| ==> order[i] == all[i] && all[i] != queue[0];
  }

  /** Counter-based Kahn validation; also the form used by event replay. */
  method ValidateTaskGraph(g: Edges) returns (v: Verdict)
    requires g.Valid()
    ensures v == Judge(g)
  {
    var bad := CheckReferences(g);
    if bad.Some? {
      return bad.value;
    }
    FirstBadNodeSpec(g, g.keys);
    var inDegree, adjacency := CountEdges(g);
    var queue := FindSources(g, inDegree);
    KahnStart(g);
    var order: seq<NodeId> := [];
    while queue != []
      invariant KahnState(g, order, queue) && KahnFrom(g, order, queue) == KahnOrder(g)
      invariant CountsUnmet(g, inDegree, order)
      decreases |g.keys| - |order|
    {
      KahnStep(g, order, queue);
      var current := queue[0];
      QueueHeadIsNew(g, order, queue);
      DependentsAreNodes(g, current, |g.keys|);
      var relaxed, queue' := RelaxAll(adjacency[current], inDegree, queue[1..]);
      RelaxRefinesRelease(g, current, order, inDegree, relaxed);
      order, inDegree, queue := order + [current], relaxed, queue';
    }
    if |order| != |g.keys| {
      return Cyclic(Filter(g.keys, (n: NodeId) => n !in order));
    }
    return Ordered(order);
  }
}
