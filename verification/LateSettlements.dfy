/**
 * When a settlement fails to end its task: one that arrives while the task is
 * parked is remembered until the next launch, and hides the ones after it.
 */
module LateSettlements {
  import opened Seqs
  import opened JsMaps
  import opened BackgroundTasks
  import opened SchedulerModel
  import opened SchedulerProperties
  import opened SchedulerOutcomes
  import opened SchedulerRuns

  // ------------------------------------------------------------------
  // Reading a run
  // ------------------------------------------------------------------

  /** The step reports the end of a delegate run of a task that is parked. */
  predicate ArrivesParked(s: State, step: Step, id: TaskId) {
    && (step.Settled? || step.Rejected?) && step.id == id
    && s.entries.Has(id) && IsParked(s.entries.Get(id).status)
  }

  /** The step calls the delegate to run the task. */
  predicate LaunchedBy(s: State, s': State, id: TaskId) {
    multiset(s'.launches)[id] > multiset(s.launches)[id]
  }

  /** Since the last launch of its delegate run the task was reported ended while it was parked. */
  ghost predicate EndedWhileParked(s: State, lim: Limits, steps: seq<Step>, id: TaskId)
    requires Invariant(s)
  {
    exists i :: 0 <= i < |steps| && LastWord(s, lim, steps, id, i)
  }

  ghost predicate LastWord(s: State, lim: Limits, steps: seq<Step>, id: TaskId, i: nat)
    requires Invariant(s) && i < |steps|
  {
    && ArrivesParked(Run(s, lim, steps[..i]), steps[i], id)
    && forall j :: i < j < |steps| ==> !LaunchedBy(Run(s, lim, steps[..j]), Run(s, lim, steps[..j+1]), id)
  }

  lemma {:induction false} LastWordSnoc(s: State, lim: Limits, steps: seq<Step>, step: Step, id: TaskId, i: nat)
    requires Invariant(s) && i < |steps|
    ensures LastWord(s, lim, steps + [step], id, i) <==>
            LastWord(s, lim, steps, id, i) && !LaunchedBy(Run(s, lim, steps), Run(s, lim, steps + [step]), id)
  {
    var more := steps + [step];
    forall j | 0 <= j <= |steps| ensures more[..j] == steps[..j] {}
    assert more[..|steps|+1] == more && steps[..|steps|] == steps;
    if LastWord(s, lim, more, id, i) {
      assert !LaunchedBy(Run(s, lim, more[..|steps|]), Run(s, lim, more[..|steps|+1]), id);
      forall j | i < j < |steps| ensures !LaunchedBy(Run(s, lim, steps[..j]), Run(s, lim, steps[..j+1]), id) {
        assert !LaunchedBy(Run(s, lim, more[..j]), Run(s, lim, more[..j+1]), id);
      }
    }
    if LastWord(s, lim, steps, id, i) && !LaunchedBy(Run(s, lim, steps), Run(s, lim, more), id) {
      forall j | i < j < |more| ensures !LaunchedBy(Run(s, lim, more[..j]), Run(s, lim, more[..j+1]), id) {
        if j < |steps| { assert !LaunchedBy(Run(s, lim, steps[..j]), Run(s, lim, steps[..j+1]), id); }
      }
    }
  }

  /** One more step: it parks the news, forgets it by launching, or leaves things as they are. */
  lemma ParkedSnoc(s: State, lim: Limits, steps: seq<Step>, step: Step, id: TaskId)
    requires Invariant(s)
    ensures var (before, after) := (Run(s, lim, steps), Run(s, lim, steps + [step]));
            EndedWhileParked(s, lim, steps + [step], id) <==>
              || ArrivesParked(before, step, id)
              || (EndedWhileParked(s, lim, steps, id) && !LaunchedBy(before, after, id))
  {
    var more := steps + [step];
    forall i | 0 <= i < |steps|
      ensures LastWord(s, lim, more, id, i) <==>
              LastWord(s, lim, steps, id, i) && !LaunchedBy(Run(s, lim, steps), Run(s, lim, more), id)
    {
      LastWordSnoc(s, lim, steps, step, id, i);
    }
    assert more[..|steps|] == steps && more[|steps|] == step;
    assert LastWord(s, lim, more, id, |steps|) <==> ArrivesParked(Run(s, lim, steps), step, id);
  }

  // ------------------------------------------------------------------
  // What a step does to the flag
  // ------------------------------------------------------------------

  /** An entry after a launch or a pass: as it was, or running anew, or failed. */
  ghost predicate Relaunched(e: Entry, e': Entry) {
    e' == e || (e.status == Queued && e'.attempt == e.attempt + 1 && (e'.status == Failed || e' == Started(e)))
  }

  lemma LaunchEntry(s: State, lim: Limits, id: TaskId, throws: set<TaskId>, k: TaskId)
    requires s.entries.Has(id) && s.entries.Has(k)
    ensures var s' := Launch(s, lim, id, throws);
            s'.entries.Has(k) && Relaunched(s.entries.Get(k), s'.entries.Get(k))
  {
    if k != id { LaunchFrame(s, lim, id, throws, k); }
  }

  lemma {:induction false} PassEntry(s: State, lim: Limits, ids: seq<TaskId>, throws: set<TaskId>, k: TaskId)
    requires s.entries.Valid() && s.entries.Has(k) && forall id :: id in ids ==> s.entries.Has(id)
    ensures var s' := Pass(s, lim, ids, throws);
            s'.entries.Valid() && s'.entries.Has(k) && Relaunched(s.entries.Get(k), s'.entries.Get(k))
    decreases |ids|
  {
    if ids != [] {
      var s1 := Launch(s, lim, ids[0], throws);
      LaunchEntry(s, lim, ids[0], throws, k);
      LaunchCounts(s, lim, ids[0], throws, Slots);
      PassTail(s, s1, ids);
      PassEntry(s1, lim, ids[1..], throws, k);
    }
  }

  /** How the flag of a task that lives on has moved. */
  ghost predicate FlagMoves(s: State, s': State, id: TaskId, reported: bool) {
    s'.entries.Has(id) && !IsTerminal(s'.entries.Get(id).status) ==>
      if s.entries.Has(id) then
        var e, e' := s.entries.Get(id), s'.entries.Get(id);
        !IsTerminal(e.status) && e'.settled == (reported || (e.settled && e'.attempt == e.attempt))
      else !s'.entries.Get(id).settled
  }

  lemma PassFlag(s: State, lim: Limits, throws: set<TaskId>, id: TaskId)
    requires Invariant(s)
    ensures FlagMoves(s, Pass(s, lim, s.entries.keys, throws), id, false)
  {
    if s.entries.Has(id) {
      assert BooksOk(s, id);
      PassEntry(s, lim, s.entries.keys, throws, id);
    } else {
      assert id !in Pass(s, lim, s.entries.keys, throws).entries.vals.Keys;
    }
  }

  lemma ReportFlag(s: State, lim: Limits, step: Step, id: TaskId)
    requires Invariant(s) && (step.Settled? || step.Rejected?)
    ensures FlagMoves(s, Next(s, lim, step), id, ArrivesParked(s, step, id))
  {
    assert BooksOk(s, id);
  }

  lemma InsertFlag(s: State, lim: Limits, step: Step, id: TaskId)
    requires s.entries.Valid() && (step.Start? || step.Recover?)
    ensures FlagMoves(s, Next(s, lim, step), id, false)
  {
  }

  lemma ParkFlag(s: State, lim: Limits, step: Step, id: TaskId)
    requires s.entries.Valid() && (step.Pause? || step.Resume?)
    ensures FlagMoves(s, Next(s, lim, step), id, false)
  {
  }

  lemma AnswerFlag(s: State, lim: Limits, step: Step, id: TaskId)
    requires s.entries.Valid() && (step.Respond? || step.PermissionWaiting? || step.PermissionResolved?)
    ensures FlagMoves(s, Next(s, lim, step), id, false)
  {
  }

  /** A parked report sets a live entry's flag, a launch clears it, nothing else touches it. */
  lemma FlagAfter(s: State, lim: Limits, step: Step, id: TaskId)
    requires Invariant(s)
    ensures FlagMoves(s, Next(s, lim, step), id, ArrivesParked(s, step, id))
  {
    match step
    case Schedule(throws) => PassFlag(s, lim, throws, id);
    case Cancel(t, p, text) => CancelFlag(s, t, p, text, id);
    case Settled(_, _, _) => ReportFlag(s, lim, step, id);
    case Rejected(_) => ReportFlag(s, lim, step, id);
    case Start(_, _) => InsertFlag(s, lim, step, id);
    case Recover(_, _) => InsertFlag(s, lim, step, id);
    case Pause(_, _) => ParkFlag(s, lim, step, id);
    case Resume(_, _) => ParkFlag(s, lim, step, id);
    case _ => AnswerFlag(s, lim, step, id);
  }

  lemma CancelFlag(s: State, t: RawTask, p: RawProject, text: Text, id: TaskId)
    requires Invariant(s)
    ensures FlagMoves(s, CancelHead(s, t, p, text).0, id, false)
  {
    CancelOutcome(s, t, p, text);
    var (s', head) := CancelHead(s, t, p, text);
    if head.Await? && id != t.id { assert Stays(s, s', id); }
  }

  /** Attempts and launches move together. */
  lemma LaunchRaisesAttempt(s: State, lim: Limits, step: Step, id: TaskId)
    requires Invariant(s) && s.entries.Has(id)
    ensures var s' := Next(s, lim, step);
            && s'.entries.Has(id) && s.entries.Get(id).attempt <= s'.entries.Get(id).attempt
            && (LaunchedBy(s, s', id) <==> s'.entries.Get(id).attempt > s.entries.Get(id).attempt)
  {
    var s' := Next(s, lim, step);
    StepKeeps(s, lim, step);
    assert BooksOk(s, id) && BooksOk(s', id) && TaskEvolves(s, s', id);
    StartsGrow(s.log, s'.log, id);
  }

  lemma {:induction false} StartsGrow(log: seq<Emission>, more: seq<Emission>, id: TaskId)
    requires log <= more
    ensures StartNotices(log, id) <= StartNotices(more, id)
    decreases |more|
  {
    if |log| < |more| {
      StartsGrow(log, more[..|more|-1], id);
    } else {
      assert log == more;
    }
  }

  // ------------------------------------------------------------------
  // Over runs
  // ------------------------------------------------------------------

  /** The flag of a live entry is the history of its parked reports. */
  ghost predicate FlagTells(lim: Limits, steps: seq<Step>, id: TaskId)
    requires Invariant(Initial())
  {
    var s, ended := Run(Initial(), lim, steps), EndedWhileParked(Initial(), lim, steps, id);
    && (!s.entries.Has(id) ==> !ended)
    && (s.entries.Has(id) && !IsTerminal(s.entries.Get(id).status) ==> (s.entries.Get(id).settled <==> ended))
  }

  lemma EmptyIsFine()
    ensures Invariant(Initial())
  {
    forall id ensures BooksOk(Initial(), id) {}
  }

  lemma FlagTellsSnoc(lim: Limits, steps: seq<Step>, step: Step, id: TaskId)
    requires Invariant(Initial()) && FlagTells(lim, steps, id)
    ensures FlagTells(lim, steps + [step], id)
  {
    var s := Run(Initial(), lim, steps);
    RunSnoc(Initial(), lim, steps, step);
    ParkedSnoc(Initial(), lim, steps, step, id);
    FlagAfter(s, lim, step, id);
    if s.entries.Has(id) { LaunchRaisesAttempt(s, lim, step, id); }
  }

  lemma {:induction false} FlagTellsHistory(lim: Limits, steps: seq<Step>, id: TaskId)
    requires Invariant(Initial())
    ensures FlagTells(lim, steps, id)
    decreases |steps|
  {
    if steps != [] {
      var front := steps[..|steps|-1];
      FlagTellsHistory(lim, front, id);
      FlagTellsSnoc(lim, front, steps[|steps|-1], id);
      assert steps == front + [steps[|steps|-1]];
    }
  }

  /**
   * Over every run from an empty manager: the report that ends a running task's
   * delegate run ends the task exactly when no report came in while the task
   * was parked since that run was launched; otherwise it changes nothing. A
   * task it ends ends as the run did, and a rejected one as failed, with the
   * one matching notice and no other effect.
   */
  lemma SettlementEndsIff(lim: Limits, steps: seq<Step>, id: TaskId, outcome: Outcome, runId: TaskId)
    ensures Invariant(Initial())
    ensures var (s, ended) := (Run(Initial(), lim, steps), EndedWhileParked(Initial(), lim, steps, id));
            s.entries.Has(id) && s.entries.Get(id).status == Running ==>
            var (settled, rejected) := (Settle(s, id, outcome, runId), Reject(s, id));
            && (IsTerminal(settled.entries.Get(id).status) <==> !ended)
            && (IsTerminal(rejected.entries.Get(id).status) <==> !ended)
            && if ended then settled == s && rejected == s
               else && Ends(s, rejected, id, Failed, FailedNotice)
                    && match outcome
                       case RunCompleted => Ends(s, settled, id, Completed, CompletedNotice)
                       case RunFailed => Ends(s, settled, id, Failed, FailedNotice)
                       case RunCancelled => Ends(s, settled, id, Cancelled, CancelledNotice)
  {
    EmptyIsFine();
    FlagTellsHistory(lim, steps, id);
    LifecycleOverRuns(Initial(), lim, steps);
    var s := Run(Initial(), lim, steps);
    if s.entries.Has(id) && s.entries.Get(id).status == Running {
      assert BooksOk(s, id);
      SettlementOutcome(s, id, outcome, runId);
      RejectionOutcome(s, id);
    }
  }

  // ------------------------------------------------------------------
  // A run that gets there, and the way out
  // ------------------------------------------------------------------

  /** The manager knows this one task. */
  ghost predicate Alone(s: State, id: TaskId, e: Entry) {
    Invariant(s) && s.entries == JsMap([id], map[id := e])
  }

  lemma AloneCounts(s: State, id: TaskId, e: Entry, t: Tally)
    requires Alone(s, id, e)
    ensures Count(s, t) == One(CountsIn(t, e))
  {
    var keys := s.entries.keys;
    assert keys == [id] && keys[..|keys|-1] == [];
    assert CountAmong(keys[..|keys|-1], s.entries.vals, t) == 0;
  }

  lemma AloneLaunch(s: State, lim: Limits, id: TaskId, e: Entry)
    requires Alone(s, id, e) && e.status == Queued && lim.maxTasks > 0 && lim.maxPerProject > 0
    ensures Alone(Next(s, lim, Schedule({})), id, Started(e))
  {
    AloneCounts(s, id, e, Slots);
    AloneCounts(s, id, e, SlotsOf(e.project));
    StepKeeps(s, lim, Schedule({}));
    var keys := s.entries.keys;
    assert keys == [id] && keys[1..] == [];
    assert Launch(s, lim, id, {}) == Begin(s, id);
    assert Pass(s, lim, keys, {}) == Begin(s, id);
    assert map[id := e][id := Started(e)] == map[id := Started(e)];
  }

  /** Steps other than scheduling, on the one task. */
  function Alter(e: Entry, step: Step): Entry {
    match step
    case Pause(_, _) => e.(status := Paused, pauseRequested := true)
    case Resume(_, _) => e.(status := Queued, pauseRequested := false)
    case PermissionWaiting(_, _, _) => e.(status := WaitingPermission, pendingPermission := true)
    case PermissionResolved(_, _, _) => e.(status := Running, pendingPermission := false)
    case Settled(_, _, runId) =>
      if e.settled then e
      else if e.status == Running then e.(runtimeTaskId := Some(runId), status := Completed, settled := true)
      else e.(runtimeTaskId := Some(runId), settled := true)
    case _ => e
  }

  /** The step goes through on this entry. */
  predicate Suits(e: Entry, id: TaskId, step: Step) {
    var t, p := TaskKey(id), ProjectKey(e.project);
    match step
    case Pause(t', p') => t' == t && p' == p && e.status == Running
    case Resume(t', p') => t' == t && p' == p && e.status == Paused
    case PermissionWaiting(t', p', text) => t' == t && p' == p && text == Absent && e.status == Running
    case PermissionResolved(t', p', text) => t' == t && p' == p && text == Absent && e.status == WaitingPermission
    case Settled(id', outcome, _) =>
      id' == id && outcome == RunCompleted && (e.status == Running || e.status == WaitingPermission)
    case _ => false
  }

  lemma AloneStep(s: State, lim: Limits, id: TaskId, e: Entry, step: Step)
    requires Alone(s, id, e) && Suits(e, id, step)
    ensures Alone(Next(s, lim, step), id, Alter(e, step))
  {
    StepKeeps(s, lim, step);
    assert map[id := e][id := Alter(e, step)] == map[id := Alter(e, step)];
  }

  /** The run: launched, waiting for permission, reported ended there, permitted. */
  function Stranding(id: TaskId, project: ProjectId, runId: TaskId): seq<Step> {
    var t, p := TaskKey(id), ProjectKey(project);
    [] + [Start(ValidInput(project), id)] + [Schedule({})] + [PermissionWaiting(t, p, Absent)]
      + [Settled(id, RunCompleted, runId)] + [PermissionResolved(t, p, Absent)]
  }

  /** The way out: paused, resumed, launched again, reported ended again. */
  function Rescue(id: TaskId, project: ProjectId, runId: TaskId): seq<Step> {
    var t, p := TaskKey(id), ProjectKey(project);
    [] + [Pause(t, p)] + [Resume(t, p)] + [Schedule({})] + [Settled(id, RunCompleted, runId)]
  }

  lemma AloneStart(lim: Limits, id: TaskId, project: ProjectId)
    requires Invariant(Initial()) && lim.maxTasks > 0 && lim.maxPerProject > 0
    ensures Alone(Next(Initial(), lim, Start(ValidInput(project), id)), id, FreshEntry(project, Queued, 0))
  {
    StepKeeps(Initial(), lim, Start(ValidInput(project), id));
    assert [] + [id] == [id];
  }

  lemma StrandingRuns(lim: Limits, id: TaskId, project: ProjectId, runId: TaskId) returns (e: Entry)
    requires Invariant(Initial()) && lim.maxTasks > 0 && lim.maxPerProject > 0
    ensures e.project == project && e.status == Running && e.settled
    ensures Alone(Run(Initial(), lim, Stranding(id, project, runId)), id, e)
  {
    var t, p := TaskKey(id), ProjectKey(project);
    var s0 := Initial();
    var r1 := [] + [Start(ValidInput(project), id)];
    var r2, ask := r1 + [Schedule({})], PermissionWaiting(t, p, Absent);
    var r3, report := r2 + [ask], Settled(id, RunCompleted, runId);
    var r4, permit := r3 + [report], PermissionResolved(t, p, Absent);
    RunSnoc(s0, lim, [], Start(ValidInput(project), id));
    RunSnoc(s0, lim, r1, Schedule({}));
    RunSnoc(s0, lim, r2, ask);
    RunSnoc(s0, lim, r3, report);
    RunSnoc(s0, lim, r4, permit);
    AloneStart(lim, id, project);
    var e1 := FreshEntry(project, Queued, 0);
    AloneLaunch(Run(s0, lim, r1), lim, id, e1);
    var e2 := Started(e1);
    AloneStep(Run(s0, lim, r2), lim, id, e2, ask);
    var e3 := Alter(e2, ask);
    AloneStep(Run(s0, lim, r3), lim, id, e3, report);
    var e4 := Alter(e3, report);
    AloneStep(Run(s0, lim, r4), lim, id, e4, permit);
    e := Alter(e4, permit);
  }

  /**
   * Such a run exists as soon as one task may run: a task that is reported
   * ended while it waits for permission, and is then permitted, stays running
   * whatever its delegate reports. Pausing and resuming it, which launches it
   * again, is a way out: the report of that second run completes it.
   */
  lemma LateSettlementStrands(lim: Limits, id: TaskId, project: ProjectId, runId: TaskId, again: TaskId)
    requires lim.maxTasks > 0 && lim.maxPerProject > 0
    ensures Invariant(Initial())
    ensures var s := Run(Initial(), lim, Stranding(id, project, runId));
            && s.entries.Has(id) && s.entries.Get(id).status == Running
            && (forall outcome, r :: Settle(s, id, outcome, r) == s) && Reject(s, id) == s
    ensures var out := Run(Initial(), lim, Stranding(id, project, runId) + Rescue(id, project, again));
            out.entries.Has(id) && out.entries.Get(id).status == Completed
  {
    EmptyIsFine();
    var e := StrandingRuns(lim, id, project, runId);
    var s := Run(Initial(), lim, Stranding(id, project, runId));
    RunsOn(Initial(), lim, Stranding(id, project, runId), Rescue(id, project, again));
    RescueRuns(s, lim, id, e, again);
  }

  lemma RescueRuns(s: State, lim: Limits, id: TaskId, e: Entry, runId: TaskId)
    requires Alone(s, id, e) && e.status == Running && lim.maxTasks > 0 && lim.maxPerProject > 0
    ensures var out := Run(s, lim, Rescue(id, e.project, runId));
            out.entries.Has(id) && out.entries.Get(id).status == Completed
  {
    var t, p := TaskKey(id), ProjectKey(e.project);
    var r1 := [] + [Pause(t, p)];
    var r2 := r1 + [Resume(t, p)];
    var r3, report := r2 + [Schedule({})], Settled(id, RunCompleted, runId);
    RunSnoc(s, lim, [], Pause(t, p));
    RunSnoc(s, lim, r1, Resume(t, p));
    RunSnoc(s, lim, r2, Schedule({}));
    RunSnoc(s, lim, r3, report);
    AloneStep(s, lim, id, e, Pause(t, p));
    var e1 := Alter(e, Pause(t, p));
    AloneStep(Run(s, lim, r1), lim, id, e1, Resume(t, p));
    var e2 := Alter(e1, Resume(t, p));
    AloneLaunch(Run(s, lim, r2), lim, id, e2);
    AloneStep(Run(s, lim, r3), lim, id, Started(e2), report);
  }
}
