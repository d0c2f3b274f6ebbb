/**
 * What the driver reports: how node runs end, what a round does, and what
 * the rounds of a drive have done from each of their boundaries.
 */
module DriverRounds {
  import opened Seqs
  import opened JsMaps
  import opened Graphs
  import opened Kahn
  import opened TaskGraphs
  import E = Events
  import opened TaskProjection
  import opened ReplayAgreement
  import opened RuntimeModel
  import opened Openings
  import opened RuntimeRuns
  import opened RuntimeProgress

  // ------------------------------------------------------------------
  // How one node run ends
  // ------------------------------------------------------------------

  datatype NodeOutcome = NodeDone | NodeBroken | NodeHeld | NodeDropped | NodeThrew(message: string)

  /** What each outcome says of the node and of the log since `base`; a run that threw has left the node as it was. */
  ghost predicate Ended(r: NodeOutcome, base: Live, l: Live, task: E.TaskId, aborted: bool, id: NodeId)
    requires base.log <= l.log
  {
    match r
    case NodeDone => Holds(base, l, task, id, Completed)
    case NodeBroken => Holds(base, l, task, id, Failed) && !Smooth(Since(base, l))
    case NodeHeld => Holds(base, l, task, id, Blocked) && !Smooth(Since(base, l))
    case NodeDropped => Holds(base, l, task, id, Cancelled) && (aborted || SaidCancelled(Since(base, l)))
    case NodeThrew(_) => Holds(base, l, task, id, Active)
  }

  /** The same once the run is over: it throws only if a replan removed the node. */
  ghost predicate Left(r: NodeOutcome, base: Live, l: Live, task: E.TaskId, aborted: bool, id: NodeId)
    requires base.log <= l.log
  {
    if r.NodeThrew? then RemovedIn(Since(base, l), task, id) else Ended(r, base, l, task, aborted, id)
  }

  function StatusOf(r: NodeOutcome): NodeStatus {
    match r
    case NodeBroken => Failed
    case NodeHeld => Blocked
    case NodeDropped => Cancelled
    case _ => Completed
  }

  lemma RoughStep(base: Live, l: Live, task: E.TaskId, step: Step)
    requires base.log <= l.log && (step.Break? || step.Block?) && l.graph.nodes.Has(step.id)
    ensures base.log <= Next(l, task, step).log && !Smooth(Since(base, Next(l, task, step)))
  {
    var m := Next(l, task, step);
    var b := m.log[|l.log|];
    SaidSince(base, l, m, b);
    SeenIsRough(Since(base, m), b);
  }

  /** A run that was not cancelled leaves no node active or cancelled. */
  lemma RestAfterRun(r: NodeOutcome, base: Live, l: Live, task: E.TaskId, aborted: bool, id: NodeId)
    requires AtRest(base.graph) && Progress(base, l, task, Some(id)) && Ended(r, base, l, task, aborted, id)
    requires !r.NodeDropped? && (r.NodeThrew? ==> !l.graph.nodes.Has(id))
    ensures AtRest(l.graph)
  {
    RestRemains(base, l, task, Some(id));
  }

  /** What an await adds to a node run that is over. */
  lemma LeftRemains(r: NodeOutcome, base: Live, l: Live, m: Live, task: E.TaskId, wasAborted: bool, aborted: bool,
                    id: NodeId)
    requires Starting(base, task, Some(id)) && Progress(base, l, task, Some(id))
    requires Left(r, base, l, task, wasAborted, id) && Progress(l, m, task, None) && (wasAborted ==> aborted)
    ensures base.log <= m.log && Left(r, base, m, task, aborted, id)
  {
    SplitSince(base, l, m);
    SplitRemoved(base, l, m, task);
    if !r.NodeThrew? { HoldsRemains(base, l, m, task, id, StatusOf(r)); }
  }

  /** All that an await adds to a node run that is over. */
  lemma RunIsOver(r: NodeOutcome, base: Live, l: Live, m: Live, task: E.TaskId, wasAborted: bool, aborted: bool,
                  id: NodeId)
    requires Starting(base, task, Some(id)) && AtRest(base.graph) && Progress(base, l, task, Some(id))
    requires Ended(r, base, l, task, wasAborted, id) && (r.NodeThrew? ==> !l.graph.nodes.Has(id))
    requires base.graph.nodes.Has(id) && Progress(l, m, task, None) && (wasAborted ==> aborted)
    requires Seen(Since(base, l), E.NodeStarted(task, id))
    ensures base.log <= m.log && Left(r, base, m, task, aborted, id) && (!r.NodeDropped? ==> AtRest(m.graph))
    ensures Seen(Since(base, m), E.NodeStarted(task, id))
  {
    LeftRemains(r, base, l, m, task, wasAborted, aborted, id);
    SplitSeen(base, l, m, E.NodeStarted(task, id));
    if !r.NodeDropped? {
      RestAfterRun(r, base, l, task, wasAborted, id);
      RestRemains(l, m, task, None);
    }
  }

  // ------------------------------------------------------------------
  // What a drive may report
  // ------------------------------------------------------------------

  datatype DriveOutcome = DriveCompleted | DriveFailed | DriveBlocked | DriveThrew(message: string)

  ghost predicate HasBlocked(nodes: Nodes) {
    exists k :: k in nodes.vals && nodes.vals[k].status == Blocked
  }

  ghost predicate AllCompleted(g: Graph) {
    forall k :: k in g.nodes.vals ==> g.nodes.vals[k].status == Completed
  }

  /**
   * A completed drive has no failed node and, unless its rounds ran out, only
   * completed ones. A failed drive has a failed node, or was aborted, or met
   * the word "cancelled", or saw a node removed. A blocked drive has a blocked
   * node or saw a node removed; one that threw saw a node removed.
   */
  ghost predicate Reports(outcome: DriveOutcome, base: Live, l: Live, task: E.TaskId, aborted: bool, ranOut: bool)
    requires base.log <= l.log
  {
    match outcome
    case DriveCompleted => !HasFailed(l.graph.nodes) && (AllCompleted(l.graph) || ranOut)
    case DriveFailed =>
      HasFailed(l.graph.nodes) || aborted || SaidCancelled(Since(base, l)) || Shrunk(Since(base, l), task)
    case DriveBlocked => HasBlocked(l.graph.nodes) || Shrunk(Since(base, l), task)
    case DriveThrew(_) => Shrunk(Since(base, l), task)
  }

  lemma ReportsEarlier(outcome: DriveOutcome, a: Live, b: Live, l: Live, task: E.TaskId, aborted: bool, ranOut: bool)
    requires a.log <= b.log && b.log <= l.log && Reports(outcome, b, l, task, aborted, ranOut)
    ensures Reports(outcome, a, l, task, aborted, ranOut)
  {
    SplitSince(a, b, l);
    SplitRemoved(a, b, l, task);
  }

  /** What the driver reports when it stops at this node. */
  function ReportFor(r: NodeOutcome): DriveOutcome {
    match r
    case NodeHeld => DriveBlocked
    case NodeThrew(message) => DriveThrew(message)
    case _ => DriveFailed
  }

  lemma NodeReports(r: NodeOutcome, base: Live, l: Live, task: E.TaskId, aborted: bool, id: NodeId)
    requires Progress(base, l, task, Some(id)) && base.graph.nodes.Has(id)
    requires Left(r, base, l, task, aborted, id) && !r.NodeDone?
    ensures Reports(ReportFor(r), base, l, task, aborted, false) && (aborted || !Smooth(Since(base, l)))
  {
    if RemovedIn(Since(base, l), task, id) { RemovalIsRough(Since(base, l), task, id); }
    if SaidCancelled(Since(base, l)) { CancelledIsRough(Since(base, l)); }
  }

  lemma RemovalIsRough(s: Stretch, task: E.TaskId, id: NodeId)
    requires RemovedIn(s, task, id)
    ensures Shrunk(s, task) && !Quiet(s)
  {
    var i :| RemovedAt(s, task, id, i);
    assert !QuietAt(s, i);
  }

  /** Nothing ready, nothing blocked, something open: some node failed. */
  lemma StallIsExplained(g: Graph)
    requires GraphOk(g) && AtRest(g) && Ready(g.nodes) == []
    requires !AllTerminal(g.nodes) && !HasBlocked(g.nodes)
    ensures HasFailed(g.nodes)
  {
    StallNeedsCasualty(g.nodes);
    var k :| Dead(g.nodes, k);
  }

  // ------------------------------------------------------------------
  // Rounds of the driver
  // ------------------------------------------------------------------

  /** Same nodes, same dependencies. */
  ghost predicate SameShape(g: Graph, h: Graph) {
    && g.nodes.keys == h.nodes.keys && g.nodes.vals.Keys == h.nodes.vals.Keys
    && forall k :: k in g.nodes.vals ==> h.nodes.vals[k].dependsOn == g.nodes.vals[k].dependsOn
  }

  /** Every node is waiting or done. */
  ghost predicate Clean(g: Graph) {
    forall k :: k in g.nodes.vals ==> g.nodes.vals[k].status == Pending || g.nodes.vals[k].status == Completed
  }

  ghost predicate StartsChain(g: Graph, k: NodeId, length: nat) {
    exists c :: IsChainFrom(g, k, length, c)
  }

  ghost predicate IsChainFrom(g: Graph, k: NodeId, length: nat, c: seq<NodeId>) {
    IsChain(EdgesOf(g.nodes), c) && c[0] == k && |c| == length
  }

  /** No dependency chain is longer than the budget of rounds. */
  ghost predicate WithinBudget(g: Graph, budget: nat) {
    forall c :: ChainFits(g, budget, c)
  }

  ghost predicate ChainFits(g: Graph, budget: nat, c: seq<NodeId>) {
    IsChain(EdgesOf(g.nodes), c) ==> |c| <= budget
  }

  /** After so many smooth rounds an unfinished node still has a longer chain below it. */
  ghost predicate Behind(g: Graph, rounds: nat) {
    forall k :: k in g.nodes.vals && g.nodes.vals[k].status != Completed ==> StartsChain(g, k, rounds + 1)
  }

  lemma NothingIsBehind(g: Graph)
    ensures Behind(g, 0)
  {
    forall k | k in g.nodes.vals ensures StartsChain(g, k, 1) {
      assert IsChainFrom(g, k, 1, [k]);
    }
  }

  /** What one round of smooth node runs has done to the graph when it ends. */
  ghost predicate RoundDone(g: Graph, h: Graph) {
    && SameShape(g, h)
    && (forall k :: k in g.nodes.vals && g.nodes.vals[k].status == Completed ==> h.nodes.vals[k].status == Completed)
    && (forall k :: IsReady(g.nodes, k) ==> h.nodes.Has(k) && h.nodes.Get(k).status == Completed)
  }

  lemma RoundAdvances(g: Graph, h: Graph, rounds: nat)
    requires Clean(g) && Behind(g, rounds) && RoundDone(g, h) && Closed(EdgesOf(g.nodes))
    ensures Behind(h, rounds + 1)
  {
    forall k | k in h.nodes.vals && h.nodes.vals[k].status != Completed ensures StartsChain(h, k, rounds + 2) {
      assert g.nodes.vals[k].status == Pending && !IsReady(g.nodes, k);
      var i :| 0 <= i < |g.nodes.vals[k].dependsOn| &&
               !(var d := g.nodes.vals[k].dependsOn[i]; g.nodes.Has(d) && g.nodes.Get(d).status == Completed);
      var d := g.nodes.vals[k].dependsOn[i];
      assert d in EdgesOf(g.nodes).vals[k];
      var c :| IsChainFrom(g, d, rounds + 1, c);
      ChainCons(EdgesOf(g.nodes), k, c);
      assert IsChainFrom(h, k, rounds + 2, [k] + c);
    }
  }

  /** On a smooth stretch from a clean graph only completion is reported. */
  ghost predicate SmoothlyDone(outcome: DriveOutcome, base: Live, l: Live, aborted: bool)
    requires base.log <= l.log
  {
    Smooth(Since(base, l)) && !aborted && Clean(base.graph) ==> outcome == DriveCompleted && AllCompleted(l.graph)
  }

  lemma CleanNeverStalls(l: Live)
    requires GraphOk(l.graph) && Clean(l.graph) && Ready(l.graph.nodes) == []
    ensures AllTerminal(l.graph.nodes)
  {
    StallNeedsCasualty(l.graph.nodes);
  }

  // ------------------------------------------------------------------
  // A round, node by node
  // ------------------------------------------------------------------

  ghost predicate StillReady(l: Live, task: E.TaskId, ready: seq<NodeId>, i: nat) {
    Fresh(l.log, task) ==>
      forall j :: i <= j < |ready| && ready[j] in l.graph.nodes.vals ==> IsReady(l.graph.nodes, ready[j])
  }

  /** The node was started, or a replan removed it first. */
  ghost predicate Ran(s: Stretch, task: E.TaskId, id: NodeId) {
    Seen(s, E.NodeStarted(task, id)) || RemovedIn(s, task, id)
  }

  ghost predicate KeptCompleted(g: Graph, h: Graph) {
    forall k :: k in g.nodes.vals && g.nodes.vals[k].status == Completed ==>
      k in h.nodes.vals && h.nodes.vals[k].status == Completed
  }

  ghost predicate DoneUpTo(l: Live, ready: seq<NodeId>, i: nat)
    requires i <= |ready|
  {
    forall j :: 0 <= j < i ==> ready[j] in l.graph.nodes.vals && l.graph.nodes.vals[ready[j]].status == Completed
  }

  /** After the first `i` ready nodes of a round that began at `start`. */
  ghost predicate RoundSoFar(start: Live, l: Live, task: E.TaskId, aborted: bool, ready: seq<NodeId>, i: nat)
    requires i <= |ready|
  {
    && start.log <= l.log && StillReady(l, task, ready, i) && Departed(start, l, task)
    && (forall j :: 0 <= j < i ==> Ran(Since(start, l), task, ready[j]))
    && (Quiet(Since(start, l)) ==> SameShape(start.graph, l.graph))
    && (Smooth(Since(start, l)) && !aborted && Clean(start.graph) ==>
          Clean(l.graph) && KeptCompleted(start.graph, l.graph) && DoneUpTo(l, ready, i))
  }

  /** A repeat-free list of nodes that were there when the round began. */
  ghost predicate Scheduled(start: Live, task: E.TaskId, ready: seq<NodeId>) {
    && (Fresh(start.log, task) ==> LogKnows(start, task)) && Distinct(ready)
    && forall j :: 0 <= j < |ready| ==> ready[j] in start.graph.nodes.vals
  }

  lemma RoundStarts(o: Origin, start: Live, aborted: bool, ready: seq<NodeId>)
    requires Reached(o, start) && ready == Ready(start.graph.nodes)
    ensures Scheduled(start, o.task, ready) && RoundSoFar(start, start, o.task, aborted, ready, 0)
  {
    ReachedIsGood(o, start);
    ReadyAreReady(start.graph.nodes, ready);
  }

  lemma ReadyAreReady(nodes: Nodes, ready: seq<NodeId>)
    requires nodes.Valid() && ready == Ready(nodes)
    ensures Distinct(ready) && forall j :: 0 <= j < |ready| ==> IsReady(nodes, ready[j])
  {
    ReadyMembers(nodes);
    forall j | 0 <= j < |ready| ensures IsReady(nodes, ready[j]) {
      assert ready[j] in ready;
    }
  }

  lemma SmoothStep(start: Live, l: Live, n: Live, ready: seq<NodeId>, i: nat)
    requires i < |ready| && SameBut(l.graph, n.graph, Some(ready[i]))
    requires ready[i] in n.graph.nodes.vals && n.graph.nodes.vals[ready[i]].status == Completed
    requires Clean(l.graph) && KeptCompleted(start.graph, l.graph) && DoneUpTo(l, ready, i)
    ensures Clean(n.graph) && KeptCompleted(start.graph, n.graph) && DoneUpTo(n, ready, i + 1)
  {
    assert forall k :: k in l.graph.nodes.vals && k != ready[i] ==> Some(k) != Some(ready[i]);
  }

  lemma ReadyRemains(start: Live, l: Live, n: Live, task: E.TaskId, ready: seq<NodeId>, i: nat)
    requires i < |ready| && Scheduled(start, task, ready) && start.log <= l.log
    requires StillReady(l, task, ready, i) && Progress(l, n, task, Some(ready[i]))
    ensures StillReady(n, task, ready, i + 1)
  {
    if Fresh(n.log, task) {
      FreshPrefix(l.log, n.log, task);
      FreshPrefix(start.log, l.log, task);
      forall j | i + 1 <= j < |ready| && ready[j] in n.graph.nodes.vals ensures IsReady(n.graph.nodes, ready[j]) {
        assert Knows(start.log, task, ready[j], start.graph.nodes.vals[ready[j]].status);
        assert Announced(l.log, task, ready[j]);
      }
    }
  }

  lemma RanMore(start: Live, l: Live, n: Live, task: E.TaskId, id: NodeId)
    requires start.log <= l.log && l.log <= n.log
    requires Ran(Since(start, l), task, id) || Seen(Since(l, n), E.NodeStarted(task, id))
    ensures Ran(Since(start, n), task, id)
  {
    SplitSeen(start, l, n, E.NodeStarted(task, id));
    SplitRemovedOne(start, l, n, task, id);
  }

  lemma ShapeTwice(g: Graph, h: Graph, k: Graph, busy: Option<NodeId>)
    requires SameShape(g, h) && SameBut(h, k, busy)
    ensures SameShape(g, k)
  {
  }

  lemma DepartedTwice(a: Live, b: Live, c: Live, task: E.TaskId)
    requires a.log <= b.log && b.log <= c.log && Departed(a, b, task) && Departed(b, c, task)
    ensures Departed(a, c, task)
  {
    SplitRemoved(a, b, c, task);
  }

  lemma RoundGrows(start: Live, l: Live, n: Live, task: E.TaskId, wasAborted: bool, aborted: bool,
                   ready: seq<NodeId>, i: nat)
    requires i < |ready| && ready[i] in start.graph.nodes.vals && (wasAborted ==> aborted) && l.log <= n.log
    requires RoundSoFar(start, l, task, wasAborted, ready, i)
    requires StillReady(n, task, ready, i + 1) && Departed(l, n, task)
    requires Quiet(Since(l, n)) ==> SameBut(l.graph, n.graph, Some(ready[i]))
    requires Ran(Since(start, l), task, ready[i]) || Seen(Since(l, n), E.NodeStarted(task, ready[i]))
    requires Smooth(Since(l, n)) && !aborted && ready[i] in l.graph.nodes.vals ==>
               ready[i] in n.graph.nodes.vals && n.graph.nodes.vals[ready[i]].status == Completed
    ensures RoundSoFar(start, n, task, aborted, ready, i + 1)
  {
    SplitSince(start, l, n);
    DepartedTwice(start, l, n, task);
    forall j | 0 <= j < i + 1 ensures Ran(Since(start, n), task, ready[j]) {
      RanMore(start, l, n, task, ready[j]);
    }
    if Quiet(Since(start, n)) { ShapeTwice(start.graph, l.graph, n.graph, Some(ready[i])); }
    if Smooth(Since(start, n)) && !aborted && Clean(start.graph) { SmoothStep(start, l, n, ready, i); }
  }

  lemma RoundStep(start: Live, l: Live, n: Live, task: E.TaskId, wasAborted: bool, aborted: bool,
                  ready: seq<NodeId>, i: nat)
    requires i < |ready| && Scheduled(start, task, ready) && (wasAborted ==> aborted)
    requires RoundSoFar(start, l, task, wasAborted, ready, i) && Progress(l, n, task, Some(ready[i]))
    requires Ran(Since(start, l), task, ready[i]) || Seen(Since(l, n), E.NodeStarted(task, ready[i]))
    requires Smooth(Since(l, n)) && !aborted && ready[i] in l.graph.nodes.vals ==>
               ready[i] in n.graph.nodes.vals && n.graph.nodes.vals[ready[i]].status == Completed
    ensures RoundSoFar(start, n, task, aborted, ready, i + 1)
  {
    ReadyRemains(start, l, n, task, ready, i);
    RoundGrows(start, l, n, task, wasAborted, aborted, ready, i);
  }

  /** What the run of one ready node does to the round, and what the driver may say if it stops there. */
  lemma NodeRan(start: Live, l: Live, n: Live, task: E.TaskId, aborted: bool, ready: seq<NodeId>, i: nat,
                r: NodeOutcome)
    requires i < |ready| && Scheduled(start, task, ready) && RoundSoFar(start, l, task, false, ready, i)
    requires Progress(l, n, task, Some(ready[i]))
    requires ready[i] in l.graph.nodes.vals ==>
               Left(r, l, n, task, aborted, ready[i]) && Seen(Since(l, n), E.NodeStarted(task, ready[i]))
    requires ready[i] !in l.graph.nodes.vals ==> r.NodeBroken?
    ensures start.log <= n.log && RoundSoFar(start, n, task, aborted, ready, i + 1)
    ensures !r.NodeDone? ==>
              Reports(ReportFor(r), start, n, task, aborted, false) && (aborted || !Smooth(Since(start, n)))
  {
    var id := ready[i];
    SplitSince(start, l, n);
    if id in l.graph.nodes.vals {
      if !r.NodeDone? {
        NodeReports(r, l, n, task, aborted, id);
        ReportsEarlier(ReportFor(r), start, l, n, task, aborted, false);
      } else {
        DoneMeansCompleted(l, n, task, id);
      }
    } else {
      RemovalIsRough(Since(start, l), task, id);
      SplitRemoved(start, l, n, task);
    }
    RoundStep(start, l, n, task, false, aborted, ready, i);
  }

  lemma DoneMeansCompleted(l: Live, n: Live, task: E.TaskId, id: NodeId)
    requires Progress(l, n, task, Some(id)) && id in l.graph.nodes.vals && Holds(l, n, task, id, Completed)
    ensures Smooth(Since(l, n)) ==> id in n.graph.nodes.vals && n.graph.nodes.vals[id].status == Completed
  {
    if RemovedIn(Since(l, n), task, id) { RemovalIsRough(Since(l, n), task, id); }
  }

  lemma RoundIsDone(start: Live, l: Live, task: E.TaskId, aborted: bool, ready: seq<NodeId>)
    requires start.graph.nodes.Valid() && ready == Ready(start.graph.nodes)
    requires RoundSoFar(start, l, task, aborted, ready, |ready|)
    requires Smooth(Since(start, l)) && !aborted && Clean(start.graph)
    ensures RoundDone(start.graph, l.graph) && Clean(l.graph)
  {
    ReadyMembers(start.graph.nodes);
    forall k | IsReady(start.graph.nodes, k) ensures l.graph.nodes.Has(k) && l.graph.nodes.Get(k).status == Completed {
      assert k in ready;
      assert ready[Index(ready, k)] == k;
    }
  }

  // ------------------------------------------------------------------
  // Rounds, one after the other
  // ------------------------------------------------------------------

  /** After so many rounds that began at `base`. */
  ghost predicate RoundsSoFar(base: Live, l: Live, aborted: bool, rounds: nat) {
    && base.log <= l.log
    && (Smooth(Since(base, l)) && !aborted && Clean(base.graph) ==>
          SameShape(base.graph, l.graph) && Clean(l.graph) && Behind(l.graph, rounds))
  }

  lemma RoundsStart(l: Live, aborted: bool)
    ensures RoundsSoFar(l, l, aborted, 0)
  {
    NothingIsBehind(l.graph);
  }

  lemma RoundsStep(base: Live, start: Live, l: Live, task: E.TaskId, wasAborted: bool, aborted: bool, rounds: nat)
    requires GraphOk(start.graph) && (wasAborted ==> aborted)
    requires RoundsSoFar(base, start, wasAborted, rounds)
    requires RoundSoFar(start, l, task, aborted, Ready(start.graph.nodes), |Ready(start.graph.nodes)|)
    ensures RoundsSoFar(base, l, aborted, rounds + 1)
  {
    SplitSince(base, start, l);
    if Smooth(Since(base, l)) && !aborted && Clean(base.graph) {
      RoundIsDone(start, l, task, aborted, Ready(start.graph.nodes));
      RoundAdvances(start.graph, l.graph, rounds);
    }
  }

  lemma LongChain(g: Graph, h: Graph, k: NodeId, rounds: nat, c: seq<NodeId>)
    requires SameShape(g, h) && IsChainFrom(h, k, rounds + 1, c)
    ensures !ChainFits(g, rounds, c)
  {
    assert EdgesOf(g.nodes).vals == EdgesOf(h.nodes).vals;
  }

  /** All rounds used up on a clean graph within budget: everything is completed. */
  lemma RoundsSuffice(base: Live, l: Live, aborted: bool, rounds: nat)
    requires RoundsSoFar(base, l, aborted, rounds) && Smooth(Since(base, l)) && !aborted
    requires Clean(base.graph) && WithinBudget(base.graph, rounds)
    ensures AllCompleted(l.graph)
  {
    forall k | k in l.graph.nodes.vals ensures l.graph.nodes.vals[k].status == Completed {
      if l.graph.nodes.vals[k].status != Completed {
        var c :| IsChainFrom(l.graph, k, rounds + 1, c);
        LongChain(base.graph, l.graph, k, rounds, c);
      }
    }
  }

  // ------------------------------------------------------------------
  // Round boundaries
  // ------------------------------------------------------------------

  /** A whole round lies between: each node that was ready ran or was removed. */
  ghost predicate RoundBetween(a: Live, b: Live, task: E.TaskId) {
    a.log <= b.log && forall k :: IsReady(a.graph.nodes, k) ==> Ran(Since(a, b), task, k)
  }

  /** The states at which the rounds of a drive began, the last of them perhaps not a whole round. */
  ghost predicate Marked(marks: seq<Live>, l: Live, task: E.TaskId) {
    && marks != [] && (forall i :: 0 <= i < |marks| ==> marks[i].log <= l.log)
    && forall i :: 0 < i < |marks| ==> RoundBetween(marks[i-1], marks[i], task)
  }

  /** From each boundary, what the rounds since then have done. */
  ghost predicate MarksSoFar(marks: seq<Live>, l: Live, aborted: bool) {
    forall i :: 0 <= i < |marks| ==> MarkAt(marks, l, aborted, i)
  }

  ghost predicate MarkAt(marks: seq<Live>, l: Live, aborted: bool, i: nat)
    requires i < |marks|
  {
    RoundsSoFar(marks[i], l, aborted, |marks| - 1 - i)
  }

  lemma MarksStart(l: Live, task: E.TaskId, aborted: bool)
    ensures Marked([l], l, task) && MarksSoFar([l], l, aborted)
  {
    RoundsStart(l, aborted);
  }

  lemma RoundIsBetween(start: Live, l: Live, task: E.TaskId, aborted: bool)
    requires GraphOk(start.graph)
    requires RoundSoFar(start, l, task, aborted, Ready(start.graph.nodes), |Ready(start.graph.nodes)|)
    ensures RoundBetween(start, l, task)
  {
    var ready := Ready(start.graph.nodes);
    ReadyMembers(start.graph.nodes);
    forall k | IsReady(start.graph.nodes, k) ensures Ran(Since(start, l), task, k) {
      assert ready[Index(ready, k)] == k;
    }
  }

  lemma OneMoreMark(marks: seq<Live>, start: Live, l: Live, task: E.TaskId)
    requires Marked(marks, start, task) && marks[|marks|-1] == start && RoundBetween(start, l, task)
    ensures Marked(marks + [l], l, task)
  {
    var more := marks + [l];
    forall i | 0 < i < |more| ensures RoundBetween(more[i-1], more[i], task) {
      if i < |marks| {
        assert RoundBetween(marks[i-1], marks[i], task);
        assert more[i-1] == marks[i-1] && more[i] == marks[i];
      }
    }
  }

  lemma OneMoreRound(marks: seq<Live>, start: Live, l: Live, task: E.TaskId, wasAborted: bool, aborted: bool)
    requires marks != [] && marks[|marks|-1] == start && MarksSoFar(marks, start, wasAborted)
    requires GraphOk(start.graph) && (wasAborted ==> aborted)
    requires RoundSoFar(start, l, task, aborted, Ready(start.graph.nodes), |Ready(start.graph.nodes)|)
    ensures MarksSoFar(marks + [l], l, aborted)
  {
    var more := marks + [l];
    forall i | 0 <= i < |more| ensures MarkAt(more, l, aborted, i) {
      if i < |marks| {
        assert MarkAt(marks, start, wasAborted, i);
        RoundsStep(marks[i], start, l, task, wasAborted, aborted, |marks| - 1 - i);
      } else {
        RoundsStart(l, aborted);
      }
    }
  }

  /** One more round, one more boundary. */
  lemma MarksStep(marks: seq<Live>, start: Live, l: Live, task: E.TaskId, wasAborted: bool, aborted: bool)
    requires Marked(marks, start, task) && marks[|marks|-1] == start && MarksSoFar(marks, start, wasAborted)
    requires GraphOk(start.graph) && (wasAborted ==> aborted)
    requires RoundSoFar(start, l, task, aborted, Ready(start.graph.nodes), |Ready(start.graph.nodes)|)
    ensures Marked(marks + [l], l, task) && MarksSoFar(marks + [l], l, aborted)
  {
    RoundIsBetween(start, l, task, aborted);
    OneMoreMark(marks, start, l, task);
    OneMoreRound(marks, start, l, task, wasAborted, aborted);
  }

  /** What a drive has shown: its report, and completion from each boundary that leaves rounds enough. */
  ghost predicate Shown(outcome: DriveOutcome, marks: seq<Live>, l: Live, task: E.TaskId, aborted: bool, budget: nat) {
    && Marked(marks, l, task) && |marks| <= budget + 1
    && Reports(outcome, marks[0], l, task, aborted, true)
    && forall i :: 0 <= i < |marks| && WithinBudget(marks[i].graph, budget - i) ==>
         SmoothlyDone(outcome, marks[i], l, aborted)
  }

  /** A drive that stops in a round has shown it. */
  lemma StoppedIsShown(outcome: DriveOutcome, marks: seq<Live>, l: Live, task: E.TaskId, wasAborted: bool,
                       aborted: bool, budget: nat)
    requires marks != [] && |marks| <= budget + 1 && (wasAborted ==> aborted)
    requires var start := marks[|marks|-1];
             && Marked(marks, start, task) && MarksSoFar(marks, start, wasAborted) && start.log <= l.log
             && Reports(outcome, start, l, task, aborted, false) && SmoothlyDone(outcome, start, l, aborted)
    ensures Shown(outcome, marks, l, task, aborted, budget) && Reports(outcome, marks[0], l, task, aborted, false)
  {
    var start := marks[|marks|-1];
    ReportsEarlier(outcome, marks[0], start, l, task, aborted, false);
    forall i | 0 <= i < |marks| ensures SmoothlyDone(outcome, marks[i], l, aborted) {
      assert MarkAt(marks, start, wasAborted, i);
      SplitSince(marks[i], start, l);
    }
  }

  /** So has one whose rounds run out. */
  lemma RanOutIsShown(outcome: DriveOutcome, marks: seq<Live>, l: Live, task: E.TaskId, aborted: bool, budget: nat)
    requires |marks| == budget + 1 && Marked(marks, l, task) && MarksSoFar(marks, l, aborted)
    requires outcome == if HasFailed(l.graph.nodes) then DriveFailed else DriveCompleted
    ensures Shown(outcome, marks, l, task, aborted, budget)
  {
    forall i | 0 <= i < |marks| && WithinBudget(marks[i].graph, budget - i)
      ensures SmoothlyDone(outcome, marks[i], l, aborted)
    {
      if Smooth(Since(marks[i], l)) && !aborted && Clean(marks[i].graph) {
        assert MarkAt(marks, l, aborted, i);
        RoundsSuffice(marks[i], l, aborted, budget - i);
      }
    }
  }

  /** What an await leaves of it. */
  lemma ShownRemains(outcome: DriveOutcome, marks: seq<Live>, l: Live, m: Live, task: E.TaskId, wasAborted: bool,
                     aborted: bool, budget: nat)
    requires Shown(outcome, marks, l, task, wasAborted, budget) && Progress(l, m, task, None)
    requires wasAborted ==> aborted
    ensures Shown(outcome, marks, m, task, aborted, budget)
  {
    SplitSince(marks[0], l, m);
    SplitRemoved(marks[0], l, m, task);
    ReportRemains(outcome, marks[0], l, m, task, wasAborted, aborted);
    forall i | 0 <= i < |marks| && WithinBudget(marks[i].graph, budget - i)
      ensures SmoothlyDone(outcome, marks[i], m, aborted)
    {
      SplitSince(marks[i], l, m);
    }
  }

  lemma ReportRemains(outcome: DriveOutcome, base: Live, l: Live, m: Live, task: E.TaskId, wasAborted: bool,
                      aborted: bool)
    requires base.log <= l.log && Reports(outcome, base, l, task, wasAborted, true) && Progress(l, m, task, None)
    requires wasAborted ==> aborted
    ensures base.log <= m.log && Reports(outcome, base, m, task, aborted, true)
  {
    SplitSince(base, l, m);
    SplitRemoved(base, l, m, task);
    if !Shrunk(Since(base, m), task) {
      forall k | k in l.graph.nodes.vals
        ensures k in m.graph.nodes.vals && m.graph.nodes.vals[k].status == l.graph.nodes.vals[k].status
      {
        assert !RemovedIn(Since(l, m), task, k);
      }
    }
  }
}
