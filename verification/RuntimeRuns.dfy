/** Runs of the live runtime, and what its stored events tell about them. */
module RuntimeRuns {
  import opened Seqs
  import opened JsMaps
  import opened Graphs
  import opened Kahn
  import opened TaskGraphs
  import E = Events
  import opened EventStream
  import opened TaskProjection
  import opened TaskContents
  import opened ReplayAgreement
  import opened RuntimeModel
  import opened Openings

  // ------------------------------------------------------------------
  // Agreement over runs
  // ------------------------------------------------------------------

  ghost predicate Steps(task: E.TaskId, states: seq<Live>, steps: seq<Step>) {
    && |states| == |steps| + 1
    && forall i :: 0 <= i < |steps| ==> Plain(steps[i]) && states[i+1] == Next(states[i], task, steps[i])
  }

  lemma {:induction false} MeetingKeepsInStep(task: E.TaskId, states: seq<Live>, steps: seq<Step>, i: nat)
    requires Steps(task, states, steps) && InStep(states[0], task) && i < |states|
    requires forall j :: 0 <= j < i ==> Meets(states[j].graph, steps[j])
    ensures InStep(states[i], task) && states[0].log <= states[i].log
  {
    if i > 0 {
      MeetingKeepsInStep(task, states, steps, i - 1);
      StepKeepsInStep(states[i-1], task, steps[i-1]);
      LogPrefix(states[i-1], task, steps[i-1]);
    }
  }

  lemma {:induction false} AgreeingMeets(task: E.TaskId, states: seq<Live>, steps: seq<Step>, i: nat)
    requires Steps(task, states, steps) && InStep(states[0], task) && i < |states|
    requires forall j :: 0 <= j < |states| ==> Agrees(states[j].graph, Replay(states[j].log, task))
    ensures forall j :: 0 <= j < i ==> Meets(states[j].graph, steps[j])
  {
    if i > 0 {
      AgreeingMeets(task, states, steps, i - 1);
      MeetingKeepsInStep(task, states, steps, i - 1);
      assert Agrees(states[i].graph, Replay(states[i].log, task));
      assert states[i] == Next(states[i-1], task, steps[i-1]);
      StepAgreement(states[i-1], task, steps[i-1]);
    }
  }

  /**
   * Replay agrees with the live graph throughout a run exactly when every add
   * is refused or depends on existing nodes only, every replan ends before a
   * node it added has finished, and no finished node is cancelled.
   */
  lemma AgreementThroughout(task: E.TaskId, states: seq<Live>, steps: seq<Step>)
    requires Steps(task, states, steps) && InStep(states[0], task)
    ensures (forall j :: 0 <= j < |states| ==> Agrees(states[j].graph, Replay(states[j].log, task))) <==>
            (forall j :: 0 <= j < |steps| ==> Meets(states[j].graph, steps[j]))
  {
    if forall j :: 0 <= j < |steps| ==> Meets(states[j].graph, steps[j]) {
      forall j | 0 <= j < |states| ensures Agrees(states[j].graph, Replay(states[j].log, task)) {
        MeetingKeepsInStep(task, states, steps, j);
      }
    }
    if forall j :: 0 <= j < |states| ==> Agrees(states[j].graph, Replay(states[j].log, task)) {
      AgreeingMeets(task, states, steps, |steps|);
    }
  }

  // ------------------------------------------------------------------
  // A replan without awaits
  // ------------------------------------------------------------------

  /** The nodes of a replan added one after the other, none of them known. */
  ghost function Grow(l: Live, task: E.TaskId, specs: seq<NodeSpec>): Live
    decreases |specs|
  {
    if specs == [] then l else Grow(Grown(l, task, specs[0]), task, specs[1..])
  }

  ghost predicate AllNew(l: Live, task: E.TaskId, specs: seq<NodeSpec>)
    decreases |specs|
  {
    specs == [] || (!l.graph.nodes.Has(specs[0].id) && AllNew(Grown(l, task, specs[0]), task, specs[1..]))
  }

  function Ids(specs: seq<NodeSpec>): (ids: seq<NodeId>)
    ensures |ids| == |specs| && forall i :: 0 <= i < |ids| ==> ids[i] == specs[i].id
  {
    seq(|specs|, i requires 0 <= i < |specs| => specs[i].id)
  }

  lemma {:induction false} GrowKeeps(l: Live, task: E.TaskId, specs: seq<NodeSpec>, k: NodeId)
    requires l.graph.nodes.Has(k)
    ensures Grow(l, task, specs).graph.nodes.Has(k)
    ensures Grow(l, task, specs).graph.nodes.Get(k) == l.graph.nodes.Get(k)
    decreases |specs|
  {
    if specs != [] { GrowKeeps(Grown(l, task, specs[0]), task, specs[1..], k); }
  }

  lemma {:induction false} GrownArePending(l: Live, task: E.TaskId, specs: seq<NodeSpec>, i: nat)
    requires AllNew(l, task, specs) && i < |specs|
    ensures var n := Grow(l, task, specs).graph.nodes; n.Has(specs[i].id) && n.Get(specs[i].id).status == Pending
    decreases |specs|
  {
    var l1 := Grown(l, task, specs[0]);
    if i == 0 { GrowKeeps(l1, task, specs[1..], specs[0].id); } else { GrownArePending(l1, task, specs[1..], i - 1); }
  }

  /** With nothing between its adds and its commit, a replan may always commit. */
  lemma AtomicReplanCommits(l: Live, task: E.TaskId, specs: seq<NodeSpec>, removed: seq<NodeId>)
    requires AllNew(l, task, specs)
    ensures MayCommit(Grow(l, task, specs).graph, Ids(specs), removed)
  {
    var g := Grow(l, task, specs).graph;
    forall id | id in Ids(specs) && id in RemovedAll(g, removed).nodes.vals
      ensures RemovedAll(g, removed).nodes.vals[id].status == Pending
    {
      var i := Index(Ids(specs), id);
      GrownArePending(l, task, specs, i);
      RemovedStatus(g, removed, id);
    }
  }

  ghost predicate AllMayAdd(l: Live, task: E.TaskId, specs: seq<NodeSpec>)
    decreases |specs|
  {
    specs == [] || (MayAdd(l.graph, specs[0]) && AllMayAdd(Grown(l, task, specs[0]), task, specs[1..]))
  }

  lemma {:induction false} GrowKeepsInStep(l: Live, task: E.TaskId, specs: seq<NodeSpec>)
    requires InStep(l, task) && AllMayAdd(l, task, specs)
    ensures InStep(Grow(l, task, specs), task)
    decreases |specs|
  {
    if specs != [] {
      StepKeepsInStep(l, task, Add(specs[0]));
      GrowKeepsInStep(Grown(l, task, specs[0]), task, specs[1..]);
    }
  }

  /** So an atomic replan with new nodes on existing dependencies keeps replay in agreement, whatever it removes. */
  lemma AtomicReplanAgrees(l: Live, task: E.TaskId, specs: seq<NodeSpec>, removed: seq<NodeId>)
    requires InStep(l, task) && AllNew(l, task, specs) && AllMayAdd(l, task, specs)
    ensures InStep(Next(Grow(l, task, specs), task, Commit(Ids(specs), removed)), task)
  {
    GrowKeepsInStep(l, task, specs);
    AtomicReplanCommits(l, task, specs, removed);
    StepKeepsInStep(Grow(l, task, specs), task, Commit(Ids(specs), removed));
  }

  // ------------------------------------------------------------------
  // Reachable states
  // ------------------------------------------------------------------

  /** A started task whose plan is announced, with replay in agreement. */
  ghost predicate IsOpening(o: Origin, l: Live) {
    exists early, spared :: OpensFrom(o, early, spared, l)
  }

  ghost predicate OpensFrom(o: Origin, early: Live, spared: bool, l: Live) {
    && EarlyReached(o, early, spared) && Listed(early.graph.nodes)
    && (spared ==> early.graph.nodes.keys == [o.root]) && Rooted(early.graph)
    && l == Opened(o, early)
  }

  /** The first state opens the task, every other follows from the one before. */
  ghost predicate Fits(o: Origin, states: seq<Live>, steps: seq<Step>, i: nat)
    requires |states| == |steps| + 1 && i < |states|
  {
    if i == 0 then IsOpening(o, states[0])
    else Allowed(states[i-1], o.task, steps[i-1]) && states[i] == Next(states[i-1], o.task, steps[i-1])
  }

  ghost predicate IsRun(o: Origin, states: seq<Live>, steps: seq<Step>) {
    |states| == |steps| + 1 && forall i :: 0 <= i < |states| ==> Fits(o, states, steps, i)
  }

  /** Some run of allowed steps leads here. */
  ghost predicate Reached(o: Origin, l: Live) {
    exists states, steps :: IsRun(o, states, steps) && states[|states|-1] == l
  }

  lemma OpeningReached(o: Origin, l: Live)
    requires IsOpening(o, l)
    ensures Reached(o, l)
  {
    assert IsRun(o, [l], []);
  }

  lemma StepReaches(o: Origin, l: Live, step: Step)
    requires Reached(o, l) && Allowed(l, o.task, step)
    ensures Reached(o, Next(l, o.task, step))
  {
    var states: seq<Live>, steps: seq<Step> :| IsRun(o, states, steps) && states[|states|-1] == l;
    var longer, more := states + [Next(l, o.task, step)], steps + [step];
    forall i | 0 <= i < |longer| ensures Fits(o, longer, more, i) {
      if i < |states| {
        assert Fits(o, states, steps, i);
        assert longer[i] == states[i];
        if i > 0 { assert longer[i-1] == states[i-1] && more[i-1] == steps[i-1]; }
      }
    }
    assert IsRun(o, longer, more);
  }

  // ------------------------------------------------------------------
  // Openings are good
  // ------------------------------------------------------------------

  /** Before the plan is announced no node has started, and the first event is the task's. */
  ghost predicate Unstarted(o: Origin, log: seq<E.Body>) {
    CreatedFirst(o, log) && forall b :: b in log ==> !b.NodeStarted?
  }

  /** The first event creates the task, and no other does. */
  ghost predicate CreatedFirst(o: Origin, log: seq<E.Body>) {
    && log != [] && log[0] == E.TaskCreated(o.task, o.title, [o.root])
    && forall i :: 0 < i < |log| ==> !log[i].TaskCreated?
  }

  lemma StepCreatesNothing(o: Origin, l: Live, step: Step)
    requires CreatedFirst(o, l.log) && Plain(step)
    ensures CreatedFirst(o, Next(l, o.task, step).log)
  {
    LogGrowth(l, o.task, step);
  }

  lemma {:induction false} EarlyUnstarted(o: Origin, states: seq<Live>, steps: seq<Step>, i: nat)
    requires IsEarly(o, states, steps) && i < |states|
    ensures Unstarted(o, states[i].log)
  {
    assert EarlyFits(o, states, steps, i);
    if i > 0 {
      EarlyUnstarted(o, states, steps, i - 1);
      LogGrowth(states[i-1], o.task, steps[i-1]);
    }
  }

  lemma {:induction false} AnnouncementsAnnounce(log: seq<E.Body>, task: E.TaskId, nodes: Nodes, n: nat, j: nat)
    requires Listed(nodes) && j < n <= |nodes.keys| && nodes.Get(nodes.keys[j]).id == nodes.keys[j]
    ensures Announced(log + Announcements(task, nodes, n), task, nodes.keys[j])
    ensures forall b :: b in Announcements(task, nodes, n) ==> !b.NodeStarted?
  {
    AnnouncementsLast(log, task, nodes, n - 1);
    AnnouncedSnoc(log + Announcements(task, nodes, n - 1), NodeAnnouncement(task, nodes.Get(nodes.keys[n-1])), task,
                  nodes.keys[j]);
    if j < n - 1 {
      AnnouncementsAnnounce(log, task, nodes, n - 1, j);
    } else if n > 1 {
      OnlyAnnouncements(task, nodes, n - 1);
    }
  }

  lemma {:induction false} NotRunning(log: seq<E.Body>, task: E.TaskId, id: NodeId)
    requires forall b :: b in log ==> !b.NodeStarted?
    ensures !Running(log, task, id)
  {
    if log != [] {
      assert log == log[..|log|-1] + [log[|log|-1]];
      NotRunning(log[..|log|-1], task, id);
    }
  }

  lemma OpeningUnstarted(o: Origin, early: Live, spared: bool, l: Live)
    requires OpensFrom(o, early, spared, l)
    ensures Unstarted(o, l.log)
  {
    var states: seq<Live>, steps: seq<Step> :|
      IsEarly(o, states, steps) && states[|states|-1] == early && spared == Spares(steps, o.root);
    EarlyUnstarted(o, states, steps, |steps|);
    OnlyAnnouncements(o.task, early.graph.nodes, |early.graph.nodes.keys|);
    var more := Announcements(o.task, early.graph.nodes, |early.graph.nodes.keys|);
    forall i | |early.log| <= i < |l.log| ensures !l.log[i].TaskCreated? { assert l.log[i] in more; }
  }

  lemma OpeningKnown(o: Origin, early: Live, spared: bool, l: Live)
    requires OpensFrom(o, early, spared, l) && GraphOk(l.graph)
    ensures LogKnows(l, o.task) && StartsSound(l.log, o.task)
  {
    OpeningUnstarted(o, early, spared, l);
    var nodes := l.graph.nodes;
    forall id | id in nodes.vals ensures Knows(l.log, o.task, id, nodes.vals[id].status) {
      var j := Index(nodes.keys, id);
      AnnouncementsAnnounce(early.log, o.task, nodes, |nodes.keys|, j);
      NotRunning(l.log, o.task, id);
    }
    forall i | 0 <= i < |l.log| ensures !l.log[i].NodeStarted? { assert l.log[i] in l.log; }
  }

  lemma OpeningIsGood(o: Origin, l: Live)
    requires IsOpening(o, l)
    ensures Good(l, o.task) && Unstarted(o, l.log)
  {
    var early, spared :| OpensFrom(o, early, spared, l);
    EarlyIsKept(o, early, spared);
    OpeningAgreement(o, early, spared);
    OpeningUnstarted(o, early, spared, l);
    OpeningKnown(o, early, spared, l);
  }

  // ------------------------------------------------------------------
  // Runs are good
  // ------------------------------------------------------------------

  lemma {:induction false} RunKeepsGood(o: Origin, states: seq<Live>, steps: seq<Step>, i: nat)
    requires IsRun(o, states, steps) && i < |states|
    ensures Good(states[i], o.task) && CreatedFirst(o, states[i].log)
  {
    assert Fits(o, states, steps, i);
    if i == 0 {
      OpeningIsGood(o, states[0]);
    } else {
      RunKeepsGood(o, states, steps, i - 1);
      StepKeepsGood(states[i-1], o.task, steps[i-1]);
      StepCreatesNothing(o, states[i-1], steps[i-1]);
    }
  }

  lemma ReachedIsGood(o: Origin, l: Live)
    requires Reached(o, l)
    ensures Good(l, o.task) && CreatedFirst(o, l.log)
  {
    var states: seq<Live>, steps: seq<Step> :| IsRun(o, states, steps) && states[|states|-1] == l;
    RunKeepsGood(o, states, steps, |states| - 1);
  }

  // ------------------------------------------------------------------
  // Stored events
  // ------------------------------------------------------------------

  /** The stored events of a log: numbered in order, in one conversation. */
  ghost predicate Stored(events: seq<E.AIEvent>, log: seq<E.Body>) {
    && |events| == |log|
    && forall i :: 0 <= i < |events| ==>
         && events[i].body == log[i] && events[i].sequence == i && Supported(events[i])
         && events[i].conversationId == events[0].conversationId
  }

  lemma StoredInOrder(events: seq<E.AIEvent>, log: seq<E.Body>)
    requires Stored(events, log)
    ensures DistinctKeys(events) && Sorted(events) && Sort(events) == events && Bodies(events) == log
  {
    SortedIsFixed(events);
  }

  /** A store that holds the task's events, in any order and among any others. */
  ghost predicate Keeps(store: seq<E.AIEvent>, events: seq<E.AIEvent>, task: E.TaskId) {
    && (forall i :: 0 <= i < |store| ==> Supported(store[i]))
    && multiset(OwnEvents(store, task)) == multiset(OwnEvents(events, task))
  }

  lemma {:induction false} FilterDistinctKeys(events: seq<E.AIEvent>, keep: E.AIEvent -> bool)
    requires DistinctKeys(events)
    ensures DistinctKeys(Filter(events, keep))
  {
    if events != [] {
      var n := |events| - 1;
      FilterDistinctKeys(events[..n], keep);
      FilterMember(events[..n], keep);
      var front := Filter(events[..n], keep);
      forall i | 0 <= i < |front| ensures !SameKey(front[i], events[n]) {
        assert front[i] in front;
        var j := Index(events[..n], front[i]);
        assert events[j] == front[i];
      }
    }
  }

  /** The own events of such a store, sorted, are those of the log, in order. */
  lemma OwnEventsOfStore(store: seq<E.AIEvent>, events: seq<E.AIEvent>, log: seq<E.Body>, task: E.TaskId)
    requires Stored(events, log) && Keeps(store, events, task)
    ensures OwnEvents(Sort(store), task) == OwnEvents(events, task)
  {
    var keep := (e: E.AIEvent) => TaskOf(e.body) == Some(task);
    StoredInOrder(events, log);
    FilterSort(store, keep);
    FilterSort(events, keep);
    FilterDistinctKeys(events, keep);
    var a, b := Filter(store, keep), Filter(events, keep);
    assert Sort(b) == b;
    SortSpec(a);
    SortSpec(b);
    SortedUnique(b, Sort(a));
  }

  lemma StoreReplays(store: seq<E.AIEvent>, events: seq<E.AIEvent>, log: seq<E.Body>, task: E.TaskId)
    requires Stored(events, log) && Keeps(store, events, task)
    ensures Replay(Bodies(Sort(store)), task) == Replay(log, task)
    ensures OwnEvents(Sort(store), task) == OwnEvents(events, task)
    ensures PrepareEventStream(store) == Stream(Sort(store))
  {
    OwnEventsOfStore(store, events, log, task);
    StoredInOrder(events, log);
    ReplayOwnEvents(Sort(store), task);
    ReplayOwnEvents(events, task);
  }

  lemma OwnEventExists(events: seq<E.AIEvent>, log: seq<E.Body>, task: E.TaskId, b: E.Body)
    requires Stored(events, log) && b in log && TaskOf(b) == Some(task)
    ensures OwnEvents(events, task) != []
  {
    FilterMember(events, (e: E.AIEvent) => TaskOf(e.body) == Some(task));
    var i := Index(log, b);
    assert events[i] in events;
    assert events[i] in OwnEvents(events, task);
  }

  /** Where replay agrees, a store of the task's events projects to the live graph. */
  lemma StoreProjects(o: Origin, l: Live, events: seq<E.AIEvent>, store: seq<E.AIEvent>)
    requires InStep(l, o.task) && CreatedFirst(o, l.log)
    requires Stored(events, l.log) && Keeps(store, events, o.task)
    ensures var r := Project(store, o.task);
            && r.Projected? && r.plan == Replay(l.log, o.task) && r.plan.title == Some(o.title)
            && Agrees(l.graph, r.plan) && Judge(EdgesOf(l.graph.nodes)) == Ordered(r.order)
  {
    StoreReplays(store, events, l.log, o.task);
    TitleIsLast(l.log, o.task, 0);
    OwnEventExists(events, l.log, o.task, E.TaskCreated(o.task, o.title, [o.root]));
    AgreementGivesSameOrder(l.graph, Replay(l.log, o.task));
  }

  lemma {:induction false} StepsCreateNothing(o: Origin, states: seq<Live>, steps: seq<Step>, i: nat)
    requires Steps(o.task, states, steps) && CreatedFirst(o, states[0].log) && i < |states|
    ensures CreatedFirst(o, states[i].log)
  {
    if i > 0 {
      StepsCreateNothing(o, states, steps, i - 1);
      StepCreatesNothing(o, states[i-1], steps[i-1]);
    }
  }

  /**
   * Replay agreement: from the opening of a task on, after any adds, commits,
   * node segments and other events that meet their conditions, in whatever
   * order and under whatever ids, projecting any store that holds the task's
   * events, in any order and among those of other tasks and conversations,
   * succeeds and gives the live graph: same nodes in the same order, same
   * dependency sets, roots, goals and execution order, the same completed
   * nodes with the same results, and the same failed nodes with the same
   * errors. The title is the task's, and the status the last one announced.
   */
  lemma ReplayRebuildsLiveGraph(o: Origin, states: seq<Live>, steps: seq<Step>, events: seq<E.AIEvent>,
                                store: seq<E.AIEvent>)
    requires Steps(o.task, states, steps) && IsOpening(o, states[0])
    requires forall j :: 0 <= j < |steps| ==> Meets(states[j].graph, steps[j])
    requires Stored(events, states[|steps|].log) && Keeps(store, events, o.task)
    ensures var l, r := states[|steps|], Project(store, o.task);
            && r.Projected? && r.plan.title == Some(o.title) && LastSaid(l.log, o.task, r.plan.status)
            && Agrees(l.graph, r.plan) && Judge(EdgesOf(l.graph.nodes)) == Ordered(r.order)
  {
    OpeningIsGood(o, states[0]);
    MeetingKeepsInStep(o.task, states, steps, |steps|);
    StepsCreateNothing(o, states, steps, |steps|);
    var l := states[|steps|];
    StoreProjects(o, l, events, store);
    StatusIsSaid(l.log, o.task);
  }

  // ------------------------------------------------------------------
  // Starts
  // ------------------------------------------------------------------

  lemma {:induction false} StillRunning(log: seq<E.Body>, task: E.TaskId, id: NodeId, i: nat)
    requires i < |log| && log[i] == E.NodeStarted(task, id)
    requires forall k :: i < k < |log| ==> !Renews(log[k], task, id)
    ensures Running(log, task, id)
  {
    var n := |log| - 1;
    if i < n {
      assert !Renews(log[n], task, id);
      StillRunning(log[..n], task, id, i);
    }
  }

  /** In a sound log a node starts again only after it was blocked or announced anew. */
  lemma StartsApart(log: seq<E.Body>, task: E.TaskId, id: NodeId, i: nat, j: nat)
    requires StartsSound(log, task) && i < j < |log|
    requires log[i] == E.NodeStarted(task, id) && log[j] == E.NodeStarted(task, id)
    ensures exists k :: i < k < j && Renews(log[k], task, id)
  {
    assert SoundStart(log[..j], task, id);
    if forall k :: i < k < j ==> !Renews(log[k], task, id) {
      StillRunning(log[..j], task, id, i);
    }
  }

  lemma AnnouncedOnce(log: seq<E.Body>, task: E.TaskId, id: NodeId, i: nat, k: nat)
    requires Fresh(log, task) && i <= k < |log| && Announced(log[..i], task, id)
    ensures !Announces(log[k], task, id)
  {
    var b :| b in log[..i] && Announces(b, task, id);
    assert log[..i] <= log[..k];
    assert b in log[..k];
    assert NewAt(log, task, k);
  }

  lemma SoundlyApart(log: seq<E.Body>, task: E.TaskId, id: NodeId, i: nat, j: nat)
    requires Fresh(log, task) && StartsSound(log, task) && i < j < |log|
    requires log[i] == E.NodeStarted(task, id) && log[j] == E.NodeStarted(task, id)
    ensures SoundStart(log[..i], task, id) && SoundStart(log[..j], task, id)
    ensures exists k :: i < k < j && log[k].TaskBlocked? && log[k].taskId == task && log[k].node == Some(id)
  {
    StartsApart(log, task, id, i, j);
    var k :| i < k < j && Renews(log[k], task, id);
    AnnouncedOnce(log, task, id, i, k);
  }

  /**
   * Without reuse of ids a node starts only when its dependencies have
   * completed, and a second time only after a block: at most once without
   * resume.
   */
  lemma SecondStartNeedsBlock(o: Origin, l: Live, id: NodeId, i: nat, j: nat)
    requires Reached(o, l) && Fresh(l.log, o.task) && i < j < |l.log|
    requires l.log[i] == E.NodeStarted(o.task, id) && l.log[j] == E.NodeStarted(o.task, id)
    ensures SoundStart(l.log[..i], o.task, id) && SoundStart(l.log[..j], o.task, id)
    ensures exists k :: i < k < j && l.log[k].TaskBlocked? && l.log[k].taskId == o.task && l.log[k].node == Some(id)
  {
    ReachedIsGood(o, l);
    SoundlyApart(l.log, o.task, id, i, j);
  }

  /** Every add that is not refused uses an id the log has not announced. */
  ghost predicate NewIds(task: E.TaskId, states: seq<Live>, steps: seq<Step>)
    requires |states| == |steps| + 1
  {
    forall i :: 0 <= i < |steps| && steps[i].Add? && !states[i].graph.nodes.Has(steps[i].spec.id) ==>
      !Announced(states[i].log, task, steps[i].spec.id)
  }

  /** In a run that uses no id again, each id is announced at most once. */
  lemma {:induction false} NewIdsStayFresh(o: Origin, states: seq<Live>, steps: seq<Step>, i: nat)
    requires IsRun(o, states, steps) && NewIds(o.task, states, steps) && i < |states|
    requires Fresh(states[0].log, o.task)
    ensures Fresh(states[i].log, o.task)
  {
    if i > 0 {
      var l, step := states[i-1], steps[i-1];
      NewIdsStayFresh(o, states, steps, i - 1);
      assert Fits(o, states, steps, i);
      LogGrowth(l, o.task, step);
      var b := Appended(l, o.task, step);
      if b.Some? { FreshSnoc(l.log, b.value, o.task); }
    }
  }
}
