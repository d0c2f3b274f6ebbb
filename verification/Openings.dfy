/**
 * How a task starts: created, started, and its initial plan announced node by
 * node. Other callers may replan at the two awaits before the plan is
 * announced; this says exactly when replay survives that.
 */
module Openings {
  import opened Seqs
  import opened JsMaps
  import opened Graphs
  import opened TaskGraphs
  import E = Events
  import opened TaskProjection
  import opened ReplayAgreement
  import opened RuntimeModel

  /** The task, its title and its root node. */
  datatype Origin = Origin(task: E.TaskId, title: string, root: NodeId)
  {
    function RootSpec(): NodeSpec {
      NodeSpec(root, None, title, [])
    }

    /** The one-node graph, and the first event. */
    function Created(): Live {
      Live(Graph(JsMap([root], map[root := NewNode(RootSpec())]), [root]), [E.TaskCreated(task, title, [root])])
    }

    /** What adding the root to an empty graph gives. */
    lemma CreatedByAdding()
      ensures Created().graph == Graph(Empty(), []).Inserted(RootSpec())
    {
      assert [] + [root] == [root];
    }
  }

  // ------------------------------------------------------------------
  // Before the plan is announced
  // ------------------------------------------------------------------

  /** What may happen then. A commit names only nodes its replan has added. */
  predicate EarlyStep(o: Origin, l: Live, step: Step) {
    match step
    case Add(spec) => MayAdd(l.graph, spec)
    case Commit(added, _) => forall id :: id in added ==> Announced(l.log, o.task, id)
    case Say(body) => body == E.TaskStarted(o.task)
    case _ => false
  }

  ghost predicate EarlyFits(o: Origin, states: seq<Live>, steps: seq<Step>, i: nat)
    requires |states| == |steps| + 1 && i < |states|
  {
    if i == 0 then states[0] == o.Created()
    else EarlyStep(o, states[i-1], steps[i-1]) && states[i] == Next(states[i-1], o.task, steps[i-1])
  }

  ghost predicate IsEarly(o: Origin, states: seq<Live>, steps: seq<Step>) {
    |states| == |steps| + 1 && forall i :: 0 <= i < |states| ==> EarlyFits(o, states, steps, i)
  }

  /** No commit removes the root. */
  predicate Spares(steps: seq<Step>, root: NodeId) {
    forall i :: 0 <= i < |steps| && steps[i].Commit? ==> root !in steps[i].removed
  }

  /** Early steps lead here; `spared` says whether they left the root in place. */
  ghost predicate EarlyReached(o: Origin, l: Live, spared: bool) {
    exists states, steps ::
      IsEarly(o, states, steps) && states[|states|-1] == l && spared == Spares(steps, o.root)
  }

  lemma CreatedReached(o: Origin)
    ensures EarlyReached(o, o.Created(), true)
  {
    var states: seq<Live>, steps: seq<Step> := [o.Created()], [];
    assert EarlyFits(o, states, steps, 0);
    assert IsEarly(o, states, steps) && Spares(steps, o.root) && states[|states|-1] == o.Created();
  }

  lemma EarlyStepReaches(o: Origin, l: Live, spared: bool, step: Step)
    requires EarlyReached(o, l, spared) && EarlyStep(o, l, step)
    ensures EarlyReached(o, Next(l, o.task, step), spared && (step.Commit? ==> o.root !in step.removed))
  {
    var states, steps :|
      IsEarly(o, states, steps) && states[|states|-1] == l && spared == Spares(steps, o.root);
    var longer, more := states + [Next(l, o.task, step)], steps + [step];
    forall i | 0 <= i < |longer| ensures EarlyFits(o, longer, more, i) {
      if i < |states| {
        assert EarlyFits(o, states, steps, i);
        assert longer[i] == states[i];
        if i > 0 { assert longer[i-1] == states[i-1] && more[i-1] == steps[i-1]; }
      }
    }
    SparesSnoc(steps, step, o.root);
    assert IsEarly(o, longer, more);
  }

  lemma SparesSnoc(steps: seq<Step>, step: Step, root: NodeId)
    ensures Spares(steps + [step], root) <==> Spares(steps, root) && (step.Commit? ==> root !in step.removed)
  {
    var more := steps + [step];
    assert more[|steps|] == step;
    assert forall i :: 0 <= i < |steps| ==> more[i] == steps[i];
  }

  function NodeAnnouncement(task: E.TaskId, node: TaskNode): E.Body {
    E.SubtaskCreated(task, node.id, None, node.goal, node.dependsOn, Some(E.Runtime(Pending)))
  }

  /** The announcements of the first `n` nodes. */
  function Announcements(task: E.TaskId, nodes: Nodes, n: nat): seq<E.Body>
    requires n <= |nodes.keys| && forall k :: k in nodes.keys ==> nodes.Has(k)
  {
    if n == 0 then []
    else Announcements(task, nodes, n - 1) + [NodeAnnouncement(task, nodes.Get(nodes.keys[n-1]))]
  }

  ghost predicate Listed(nodes: Nodes) {
    forall k :: k in nodes.keys ==> nodes.Has(k)
  }

  /** The plan announced as it stands. */
  ghost function Opened(o: Origin, l: Live): Live
    requires Listed(l.graph.nodes)
  {
    Live(l.graph, l.log + Announcements(o.task, l.graph.nodes, |l.graph.nodes.keys|))
  }

  // ------------------------------------------------------------------
  // A plan without its root
  // ------------------------------------------------------------------

  /** The replayed plan as it would be had the root been announced first. */
  function WithRoot(o: Origin, p: Plan): Plan {
    var q := PlanNode(o.root, None, o.title, E.Runtime(Pending), [], None, None);
    p.(nodes := JsMap([o.root] + p.nodes.keys, p.nodes.vals[o.root := q]))
  }

  lemma {:induction false} RemoveBehind(first: NodeId, ids: seq<NodeId>, id: NodeId)
    requires first != id
    ensures RemoveAll([first] + ids, id) == [first] + RemoveAll(ids, id)
  {
    var s := [first] + ids;
    if ids == [] {
      assert s[..0] == [];
    } else {
      var n := |ids| - 1;
      RemoveBehind(first, ids[..n], id);
      assert s[..|s|-1] == [first] + ids[..n] && s[|s|-1] == ids[n];
      var front := RemoveAll(ids[..n], id);
      assert [first] + front + [ids[n]] == [first] + (front + [ids[n]]);
    }
  }

  lemma RemoveOther(o: Origin, p: Plan, id: NodeId)
    requires id != o.root
    ensures RemoveOne(WithRoot(o, p), id) == WithRoot(o, RemoveOne(p, id))
  {
    RemoveBehind(o.root, p.nodes.keys, id);
    RemoveOtherVals(o, p, id);
  }

  lemma RemoveOtherVals(o: Origin, p: Plan, id: NodeId)
    requires id != o.root
    ensures RemoveOne(WithRoot(o, p), id).nodes.vals == WithRoot(o, RemoveOne(p, id)).nodes.vals
  {
    assert RemoveAll([], id) == [];
  }

  lemma RemoveRoot(o: Origin, p: Plan)
    requires o.root !in p.nodes.keys && o.root !in p.nodes.vals
    ensures RemoveOne(WithRoot(o, p), o.root) == RemoveOne(p, o.root)
  {
    RemoveAllSpec(p.nodes.keys, o.root);
    RemoveFront(o.root, p.nodes.keys);
    var l, r := RemoveOne(WithRoot(o, p), o.root), RemoveOne(p, o.root);
    assert l.nodes.vals == r.nodes.vals;
  }

  lemma {:induction false} RemoveFront(first: NodeId, ids: seq<NodeId>)
    ensures RemoveAll([first] + ids, first) == RemoveAll(ids, first)
  {
    var s := [first] + ids;
    if ids == [] {
      assert s[..0] == [];
    } else {
      RemoveFront(first, ids[..|ids|-1]);
      assert s[..|s|-1] == [first] + ids[..|ids|-1];
    }
  }

  ghost predicate Rootless(o: Origin, p: Plan) {
    o.root !in p.nodes.keys && o.root !in p.nodes.vals
  }

  lemma RemovedStaysRootless(o: Origin, p: Plan, id: NodeId)
    requires Rootless(o, p)
    ensures Rootless(o, RemoveOne(p, id))
  {
    RemoveAllSpec(p.nodes.keys, id);
  }

  lemma {:induction false} RemoveOthers(o: Origin, p: Plan, ids: seq<NodeId>)
    requires Rootless(o, p)
    ensures Rootless(o, RemoveMany(p, ids))
    ensures RemoveMany(WithRoot(o, p), ids)
            == if o.root in ids then RemoveMany(p, ids) else WithRoot(o, RemoveMany(p, ids))
    decreases |ids|
  {
    if ids != [] {
      RemovedStaysRootless(o, p, ids[0]);
      RemoveOthers(o, RemoveOne(p, ids[0]), ids[1..]);
      if ids[0] == o.root { RemoveRoot(o, p); } else { RemoveOther(o, p, ids[0]); }
    }
  }

  lemma {:induction false} AddOthers(o: Origin, p: Plan, added: seq<E.AddedNode>)
    requires Rootless(o, p) && forall i :: 0 <= i < |added| ==> added[i].id != o.root
    ensures Rootless(o, AddMany(p, added))
    ensures AddMany(WithRoot(o, p), added) == WithRoot(o, AddMany(p, added))
    decreases |added|
  {
    if added != [] {
      var p1 := AddOne(p, added[0]);
      assert AddOne(WithRoot(o, p), added[0]).nodes.vals == WithRoot(o, p1).nodes.vals;
      assert [o.root] + p.nodes.keys + [added[0].id] == [o.root] + (p.nodes.keys + [added[0].id]);
      AddOthers(o, p1, added[1..]);
    }
  }

  lemma {:induction false} SurvivorIds(g: Graph, added: seq<NodeId>)
    requires NodeIdsMatch(g)
    ensures forall i :: 0 <= i < |Survivors(g, added)| ==> Survivors(g, added)[i].id in added
  {
    if added != [] {
      SurvivorIds(g, added[..|added|-1]);
      assert added == added[..|added|-1] + [added[|added|-1]];
    }
  }

  lemma AnnounceOther(o: Origin, p: Plan, spec: NodeSpec)
    requires Rootless(o, p) && spec.id != o.root && o.root in p.roots
    ensures var b := Announcement(o.task, spec);
            PlanStep(WithRoot(o, p), b) == WithRoot(o, PlanStep(p, b)) && Rootless(o, PlanStep(p, b))
  {
    var b := Announcement(o.task, spec);
    assert PlanStep(WithRoot(o, p), b).nodes.vals == WithRoot(o, PlanStep(p, b)).nodes.vals;
    assert [o.root] + p.nodes.keys + [spec.id] == [o.root] + (p.nodes.keys + [spec.id]);
  }

  // ------------------------------------------------------------------
  // What early steps keep
  // ------------------------------------------------------------------

  ghost predicate AllPending(g: Graph) {
    forall k :: k in g.nodes.vals ==> g.nodes.vals[k].status == Pending
  }

  /** The root is there as it was put, and not announced yet. */
  ghost predicate RootStands(o: Origin, l: Live) {
    && l.graph.nodes.Has(o.root) && l.graph.nodes.Get(o.root) == NewNode(o.RootSpec())
    && o.root in l.graph.roots && !Announced(l.log, o.task, o.root)
    && Rootless(o, Replay(l.log, o.task))
    && Agrees(l.graph, WithRoot(o, Replay(l.log, o.task)))
  }

  ghost predicate EarlyState(o: Origin, l: Live, spared: bool) {
    && GraphOk(l.graph) && AllPending(l.graph)
    && if spared then RootStands(o, l) else Agrees(l.graph, Replay(l.log, o.task))
  }

  lemma CreatedReplay(o: Origin)
    ensures var p := Replay(o.Created().log, o.task); p.nodes == Empty<NodeId, PlanNode>() && p.roots == [o.root]
  {
    var log := o.Created().log;
    assert log == [] + [log[0]];
    ReplaySnoc([], log[0], o.task);
    assert PushNew([], [o.root]) == PushNew([o.root], []) by {
      assert [o.root][1..] == [];
      assert [] + [o.root] == [o.root];
    }
  }

  lemma LoneNodesAgree(root: NodeId, n: TaskNode, p: Plan, q: PlanNode)
    requires p.nodes == JsMap([root], map[root := q]) && p.roots == [root] && NodeAgrees(n, q)
    ensures Agrees(Graph(JsMap([root], map[root := n]), [root]), p)
  {
  }

  lemma CreatedAgrees(o: Origin, p: Plan)
    requires p.nodes == Empty<NodeId, PlanNode>() && p.roots == [o.root]
    ensures Agrees(o.Created().graph, WithRoot(o, p))
  {
    var n, q := NewNode(o.RootSpec()), WithRoot(o, p).nodes.vals[o.root];
    assert NodeAgrees(n, q) by { assert Unique([]) == []; }
    assert WithRoot(o, p).nodes == JsMap([o.root], map[o.root := q]) by { assert [o.root] + [] == [o.root]; }
    LoneNodesAgree(o.root, n, WithRoot(o, p), q);
  }

  lemma CreatedState(o: Origin)
    ensures EarlyState(o, o.Created(), true)
  {
    o.CreatedByAdding();
    InsertionOutcomes(Graph(Empty(), []), o.RootSpec());
    CreatedReplay(o);
    CreatedAgrees(o, Replay(o.Created().log, o.task));
  }

  lemma EarlyAddSpared(o: Origin, l: Live, spec: NodeSpec)
    requires GraphOk(l.graph) && RootStands(o, l) && !l.graph.nodes.Has(spec.id)
    ensures RootStands(o, Live(l.graph.Inserted(spec), l.log + [Announcement(o.task, spec)]))
  {
    var b, p := Announcement(o.task, spec), Replay(l.log, o.task);
    ReplaySnoc(l.log, b, o.task);
    AnnouncedAgrees(l.graph, WithRoot(o, p), o.task, spec);
    AnnounceOther(o, p, spec);
    AnnouncedSnoc(l.log, b, o.task, o.root);
  }

  lemma EarlyAdd(o: Origin, l: Live, spec: NodeSpec, spared: bool)
    requires EarlyState(o, l, spared) && MayAdd(l.graph, spec)
    ensures EarlyState(o, Grown(l, o.task, spec), spared)
  {
    if !l.graph.nodes.Has(spec.id) {
      AddGraphOk(l.graph, spec);
      if spared {
        EarlyAddSpared(o, l, spec);
      } else {
        ReplaySnoc(l.log, Announcement(o.task, spec), o.task);
        AnnouncedAgrees(l.graph, Replay(l.log, o.task), o.task, spec);
      }
    }
  }

  lemma {:induction false} RemovedAllRoot(o: Origin, g: Graph, ids: seq<NodeId>)
    requires GraphOk(g) && o.root !in ids
    requires g.nodes.Has(o.root) && g.nodes.Get(o.root) == NewNode(o.RootSpec()) && o.root in g.roots
    ensures var h := RemovedAll(g, ids);
            h.nodes.Has(o.root) && h.nodes.Get(o.root) == NewNode(o.RootSpec()) && o.root in h.roots
    decreases |ids|
  {
    if ids != [] {
      RemovalKeepsDag(g, ids[0]);
      FilterMember(g.roots, (r: NodeId) => r != ids[0]);
      assert Without([], ids[0]) == [];
      RemovedAllRoot(o, g.Removed(ids[0]), ids[1..]);
    }
  }

  lemma {:induction false} RemovedAllPending(g: Graph, ids: seq<NodeId>)
    requires AllPending(g)
    ensures AllPending(RemovedAll(g, ids))
    decreases |ids|
  {
    if ids != [] { RemovedAllPending(g.Removed(ids[0]), ids[1..]); }
  }

  /** How a replan event changes a plan whose root is still to come. */
  lemma EarlyRevision(o: Origin, p: Plan, g: Graph, added: seq<NodeId>, removed: seq<NodeId>)
    requires Rootless(o, p) && NodeIdsMatch(g) && o.root !in added
    ensures var b := Revision(o.task, g, added, removed);
            && Rootless(o, PlanStep(p, b))
            && PlanStep(WithRoot(o, p), b) == if o.root in removed then PlanStep(p, b) else WithRoot(o, PlanStep(p, b))
  {
    SurvivorIds(g, added);
    RemoveOthers(o, p, removed);
    AddOthers(o, RemoveMany(p, removed), Survivors(g, added));
    RevisionStep(p, o.task, g, added, removed);
    RevisionStep(WithRoot(o, p), o.task, g, added, removed);
  }

  lemma EarlyCommit(o: Origin, l: Live, added: seq<NodeId>, removed: seq<NodeId>, spared: bool)
    requires EarlyState(o, l, spared) && forall id :: id in added ==> Announced(l.log, o.task, id)
    ensures EarlyState(o, Next(l, o.task, Commit(added, removed)), spared && o.root !in removed)
  {
    var g, p := RemovedAll(l.graph, removed), Replay(l.log, o.task);
    var b := Revision(o.task, g, added, removed);
    RemovedAllOk(l.graph, removed);
    RemovedAllPending(l.graph, removed);
    ReplaySnoc(l.log, b, o.task);
    if spared {
      CommitAgreement(l.graph, WithRoot(o, p), o.task, added, removed);
      EarlyRevision(o, p, g, added, removed);
      AnnouncedSnoc(l.log, b, o.task, o.root);
      if o.root !in removed { RemovedAllRoot(o, l.graph, removed); }
    } else {
      CommitAgreement(l.graph, p, o.task, added, removed);
    }
  }

  lemma EarlySay(o: Origin, l: Live, spared: bool)
    requires EarlyState(o, l, spared)
    ensures EarlyState(o, Next(l, o.task, Say(E.TaskStarted(o.task))), spared)
  {
    var b := E.TaskStarted(o.task);
    ReplaySnoc(l.log, b, o.task);
    AnnouncedSnoc(l.log, b, o.task, o.root);
  }

  lemma EarlyStepKeeps(o: Origin, l: Live, step: Step, spared: bool)
    requires EarlyState(o, l, spared) && EarlyStep(o, l, step)
    ensures EarlyState(o, Next(l, o.task, step), spared && (step.Commit? ==> o.root !in step.removed))
  {
    match step
    case Add(spec) => EarlyAdd(o, l, spec, spared);
    case Commit(added, removed) => EarlyCommit(o, l, added, removed, spared);
    case Say(_) => EarlySay(o, l, spared);
  }

  lemma {:induction false} EarlyKeeps(o: Origin, states: seq<Live>, steps: seq<Step>, i: nat)
    requires IsEarly(o, states, steps) && i < |states|
    ensures EarlyState(o, states[i], Spares(steps[..i], o.root))
  {
    assert EarlyFits(o, states, steps, i);
    if i == 0 {
      CreatedState(o);
    } else {
      EarlyKeeps(o, states, steps, i - 1);
      EarlyStepKeeps(o, states[i-1], steps[i-1], Spares(steps[..i-1], o.root));
      SparesSnoc(steps[..i-1], steps[i-1], o.root);
      assert steps[..i] == steps[..i-1] + [steps[i-1]];
    }
  }

  lemma EarlyIsKept(o: Origin, l: Live, spared: bool)
    requires EarlyReached(o, l, spared)
    ensures EarlyState(o, l, spared)
  {
    var states, steps :|
      IsEarly(o, states, steps) && states[|states|-1] == l && spared == Spares(steps, o.root);
    EarlyKeeps(o, states, steps, |steps|);
    assert steps[..|steps|] == steps;
  }

  // ------------------------------------------------------------------
  // Announcing the plan
  // ------------------------------------------------------------------

  /** Nodes without dependencies are roots, which fails once one has lost its last dependency. */
  ghost predicate Rooted(g: Graph) {
    forall k :: k in g.nodes.vals && g.nodes.vals[k].dependsOn == [] ==> k in g.roots
  }

  /** The replayed roots after the first `n` announcements. */
  function Gathered(g: Graph, n: nat): seq<NodeId>
    requires n <= |g.nodes.keys| && forall k :: k in g.nodes.keys ==> g.nodes.Has(k)
  {
    if n == 0 then g.roots
    else
      var k, r := g.nodes.keys[n-1], Gathered(g, n - 1);
      if g.nodes.Get(k).dependsOn == [] && k !in r then r + [k] else r
  }

  lemma {:induction false} GatheredMembers(g: Graph, n: nat)
    requires Listed(g.nodes) && n <= |g.nodes.keys|
    ensures forall j :: 0 <= j < n && g.nodes.Get(g.nodes.keys[j]).dependsOn == [] ==> g.nodes.keys[j] in Gathered(g, n)
  {
    if n > 0 { GatheredMembers(g, n - 1); }
  }

  lemma {:induction false} GatheredNothing(g: Graph, n: nat)
    requires g.nodes.Valid() && Rooted(g) && n <= |g.nodes.keys|
    ensures Gathered(g, n) == g.roots
  {
    if n > 0 { GatheredNothing(g, n - 1); }
  }

  lemma GatheredIff(g: Graph)
    requires g.nodes.Valid()
    ensures Gathered(g, |g.nodes.keys|) == g.roots <==> Rooted(g)
  {
    GatheredMembers(g, |g.nodes.keys|);
    if Rooted(g) { GatheredNothing(g, |g.nodes.keys|); }
    forall k | k in g.nodes.vals && g.nodes.vals[k].dependsOn == [] ensures k in Gathered(g, |g.nodes.keys|) {
      assert g.nodes.keys[Index(g.nodes.keys, k)] == k;
    }
  }

  /** The plan after `n` announcements agrees up to roots with a graph whose nodes all wait. */
  ghost predicate AnnouncedUpTo(g: Graph, p: Plan, n: nat)
    requires n <= |g.nodes.keys| && Listed(g.nodes)
  {
    && p.roots == Gathered(g, n) && Agrees(g, p.(roots := g.roots))
  }

  lemma AnnounceKnown(g: Graph, p: Plan, task: E.TaskId, n: nat)
    requires g.Valid() && AllPending(g) && NodeIdsMatch(g) && n < |g.nodes.keys| && AnnouncedUpTo(g, p, n)
    ensures var node := g.nodes.Get(g.nodes.keys[n]);
            AnnouncedUpTo(g, PlanStep(p, NodeAnnouncement(task, node)), n + 1)
  {
    var k := g.nodes.keys[n];
    UniqueMembers(g.nodes.Get(k).dependsOn);
    var q := p.(roots := g.roots);
    var n := g.nodes.Get(k);
    var node := PlanNode(k, None, n.goal, E.Runtime(Pending), Unique(n.dependsOn), None, None);
    NodeChanges(g, q, k, node);
  }

  lemma NodeChanges(g: Graph, p: Plan, id: NodeId, q: PlanNode)
    requires Agrees(g, p) && g.nodes.Has(id) && NodeAgrees(g.nodes.Get(id), q)
    ensures Agrees(g, p.(nodes := p.nodes.Set(id, q)))
  {
  }

  lemma AnnouncementsLast(log: seq<E.Body>, task: E.TaskId, nodes: Nodes, n: nat)
    requires Listed(nodes) && n < |nodes.keys|
    ensures log + Announcements(task, nodes, n + 1)
            == (log + Announcements(task, nodes, n)) + [NodeAnnouncement(task, nodes.Get(nodes.keys[n]))]
  {
  }

  lemma {:induction false} OnlyAnnouncements(task: E.TaskId, nodes: Nodes, n: nat)
    requires Listed(nodes) && n <= |nodes.keys|
    ensures forall b :: b in Announcements(task, nodes, n) ==> b.SubtaskCreated?
  {
    if n > 0 { OnlyAnnouncements(task, nodes, n - 1); }
  }

  lemma AnnouncementsSnoc(log: seq<E.Body>, task: E.TaskId, nodes: Nodes, n: nat)
    requires Listed(nodes) && n < |nodes.keys|
    ensures var node := nodes.Get(nodes.keys[n]);
            var b := NodeAnnouncement(task, node);
            Replay(log + Announcements(task, nodes, n + 1), task)
            == PlanStep(Replay(log + Announcements(task, nodes, n), task), b)
  {
    AnnouncementsLast(log, task, nodes, n);
    ReplaySnoc(log + Announcements(task, nodes, n), NodeAnnouncement(task, nodes.Get(nodes.keys[n])), task);
  }

  lemma AnnounceOne(g: Graph, log: seq<E.Body>, task: E.TaskId, n: nat)
    requires g.Valid() && AllPending(g) && NodeIdsMatch(g) && n < |g.nodes.keys|
    requires AnnouncedUpTo(g, Replay(log + Announcements(task, g.nodes, n), task), n)
    ensures AnnouncedUpTo(g, Replay(log + Announcements(task, g.nodes, n + 1), task), n + 1)
  {
    AnnouncementsSnoc(log, task, g.nodes, n);
    AnnounceKnown(g, Replay(log + Announcements(task, g.nodes, n), task), task, n);
  }

  lemma {:induction false} AnnounceAll(g: Graph, log: seq<E.Body>, task: E.TaskId, n: nat)
    requires g.Valid() && AllPending(g) && NodeIdsMatch(g) && n <= |g.nodes.keys|
    requires Agrees(g, Replay(log, task))
    ensures AnnouncedUpTo(g, Replay(log + Announcements(task, g.nodes, n), task), n)
  {
    if n == 0 {
      var p := Replay(log, task);
      assert log + [] == log && p.(roots := g.roots) == p;
    } else {
      AnnounceAll(g, log, task, n - 1);
      AnnounceOne(g, log, task, n - 1);
    }
  }

  /** Announcing nodes of which all but the first are known puts the first last. */
  lemma {:induction false} LastKeys(log: seq<E.Body>, task: E.TaskId, nodes: Nodes, n: nat)
    requires Listed(nodes) && 1 <= n <= |nodes.keys|
    requires forall k :: k in nodes.keys ==> nodes.Get(k).id == k
    requires var p := Replay(log, task).nodes;
             nodes.keys[1..] == p.keys && nodes.keys[0] !in p.vals && forall k :: k in p.keys ==> k in p.vals
    ensures var p, q := Replay(log, task).nodes, Replay(log + Announcements(task, nodes, n), task).nodes;
            q.keys == p.keys + [nodes.keys[0]] && forall k :: k in nodes.keys ==> k in q.vals
  {
    AnnouncementsSnoc(log, task, nodes, n - 1);
    if n == 1 {
      assert log + [] == log;
      assert nodes.keys == [nodes.keys[0]] + nodes.keys[1..];
    } else {
      LastKeys(log, task, nodes, n - 1);
    }
  }

  /** A lone root, announced, agrees. */
  lemma LoneRootAgrees(o: Origin, l: Live)
    requires EarlyState(o, l, true) && l.graph.nodes.keys == [o.root]
    ensures Agrees(l.graph, Replay(Opened(o, l).log, o.task))
  {
    var p := Replay(l.log, o.task);
    assert p.nodes.keys == [] by { assert l.graph.nodes.keys == [o.root] + p.nodes.keys; }
    AnnouncementsSnoc(l.log, o.task, l.graph.nodes, 0);
    assert l.log + [] == l.log;
    assert Unique([]) == [];
    var q := Replay(Opened(o, l).log, o.task);
    assert q.nodes.vals == WithRoot(o, p).nodes.vals && q.nodes.keys == WithRoot(o, p).nodes.keys && q.roots == p.roots;
    SameNodesAgree(l.graph, WithRoot(o, p), q);
  }

  lemma SameNodesAgree(g: Graph, p: Plan, q: Plan)
    requires Agrees(g, p) && q.nodes == p.nodes && q.roots == p.roots
    ensures Agrees(g, q)
  {
  }

  lemma RootlessKeys(o: Origin, p: Plan)
    requires Rootless(o, p) && WithRoot(o, p).nodes.Valid()
    ensures forall k :: k in p.nodes.keys ==> k in p.nodes.vals
  {
    forall k | k in p.nodes.keys ensures k in p.nodes.vals {
      assert k in WithRoot(o, p).nodes.keys;
    }
  }

  lemma SparedAgreement(o: Origin, l: Live)
    requires EarlyState(o, l, true)
    ensures Agrees(l.graph, Replay(Opened(o, l).log, o.task)) <==> l.graph.nodes.keys == [o.root]
    ensures l.graph.nodes.keys == [o.root] ==> Rooted(l.graph)
  {
    var g, p := l.graph, Replay(l.log, o.task);
    assert g.nodes.keys == [o.root] + p.nodes.keys;
    if g.nodes.keys == [o.root] {
      LoneRootAgrees(o, l);
      assert forall k :: k in g.nodes.vals ==> k in g.nodes.keys;
    } else {
      assert g.nodes.keys[0] == o.root && g.nodes.keys[1..] == p.nodes.keys;
      RootlessKeys(o, p);
      LastKeys(l.log, o.task, g.nodes, |g.nodes.keys|);
      assert p.nodes.keys[0] in p.nodes.keys;
    }
  }

  lemma UnsparedAgreement(o: Origin, l: Live)
    requires EarlyState(o, l, false)
    ensures Agrees(l.graph, Replay(Opened(o, l).log, o.task)) <==> Rooted(l.graph)
  {
    AnnounceAll(l.graph, l.log, o.task, |l.graph.nodes.keys|);
    GatheredIff(l.graph);
  }

  /**
   * When replay survives replans that come before the plan is announced:
   * exactly when, with the root still there, no node they added survives, and,
   * with the root removed, no surviving node has lost its last dependency.
   */
  lemma OpeningAgreement(o: Origin, l: Live, spared: bool)
    requires EarlyReached(o, l, spared)
    ensures Listed(l.graph.nodes)
    ensures Agrees(l.graph, Replay(Opened(o, l).log, o.task)) <==>
              (spared ==> l.graph.nodes.keys == [o.root]) && Rooted(l.graph)
  {
    EarlyIsKept(o, l, spared);
    if spared { SparedAgreement(o, l); } else { UnsparedAgreement(o, l); }
  }
}
