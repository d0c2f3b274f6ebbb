/** Main results about the scheduler: slots, fairness, queue bound, runs, recovery. */
module SchedulerRuns {
  import opened Seqs
  import opened JsMaps
  import opened BackgroundTasks
  import opened SchedulerModel
  import opened SchedulerProperties

  // ------------------------------------------------------------------
  // Lifecycle of every step
  // ------------------------------------------------------------------

  /** No slot count grows. */
  ghost predicate NoNewSlots(s: State, s': State) {
    forall t: Tally :: t != Waiting ==> Count(s', t) <= Count(s, t)
  }

  /** Replacing one entry by one that holds no more slots raises no slot count. */
  lemma WriteTakesNoSlot(s: State, s': State, id: TaskId, e': Entry)
    requires s.entries.Valid() && s.entries.Has(id) && s'.entries == s.entries.Set(id, e')
    requires e'.project == s.entries.Get(id).project
    requires HoldsSlot(e'.status) ==> HoldsSlot(s.entries.Get(id).status)
    ensures NoNewSlots(s, s')
  {
    forall t: Tally | t != Waiting ensures Count(s', t) <= Count(s, t) {
      CountSet(s.entries, id, e', t);
    }
  }

  lemma UpdateStep(s: State, s': State, id: TaskId, e': Entry, notice: Notice)
    requires Invariant(s) && s.entries.Has(id) && s' == WriteAndEmit(s, id, e', notice)
    requires notice != StartedNotice && GoodUpdate(s.entries.Get(id), e', notice)
    requires HoldsSlot(e'.status) ==> HoldsSlot(s.entries.Get(id).status)
    ensures Invariant(s') && Evolves(s, s') && NoNewSlots(s, s')
  {
    UpdateKeeps(s, id, e', notice);
    WriteTakesNoSlot(s, s', id, e');
  }

  lemma PauseKeeps(s: State, t: RawTask, p: RawProject)
    requires Invariant(s)
    ensures var s' := PauseHead(s, t, p).0;
            Invariant(s') && Evolves(s, s') && NoNewSlots(s, s')
  {
    var s' := PauseHead(s, t, p).0;
    var found := Lookup(s, t, p);
    if s' != s {
      LiveEntry(s, t.id);
      var e' := found.entry.(status := Paused, pauseRequested := true);
      UpdateStep(s, s', t.id, e', PausedNotice);
    }
  }

  lemma ResumeKeeps(s: State, t: RawTask, p: RawProject)
    requires Invariant(s)
    ensures var s' := ResumeHead(s, t, p).0;
            Invariant(s') && Evolves(s, s') && NoNewSlots(s, s')
  {
    var s' := ResumeHead(s, t, p).0;
    var found := Lookup(s, t, p);
    if s' != s {
      LiveEntry(s, t.id);
      var e' := found.entry.(status := Queued, pauseRequested := false);
      UpdateStep(s, s', t.id, e', ResumedNotice);
    }
  }

  lemma RespondKeeps(s: State, t: RawTask, p: RawProject, text: Text)
    requires Invariant(s)
    ensures var s' := RespondHead(s, t, p, text).0;
            Invariant(s') && Evolves(s, s') && NoNewSlots(s, s')
  {
    var s' := RespondHead(s, t, p, text).0;
    var found := Lookup(s, t, p);
    if s' != s {
      LiveEntry(s, t.id);
      var e' := found.entry.(status := Running, pendingInput := false);
      UpdateStep(s, s', t.id, e', ResumedNotice);
    }
  }

  lemma PermissionWaitingKeeps(s: State, t: RawTask, p: RawProject, text: Text)
    requires Invariant(s)
    ensures var s' := PermissionWaitingHead(s, t, p, text).0;
            Invariant(s') && Evolves(s, s') && NoNewSlots(s, s')
  {
    var s' := PermissionWaitingHead(s, t, p, text).0;
    var found := Lookup(s, t, p);
    if s' != s {
      LiveEntry(s, t.id);
      var e' := found.entry.(status := WaitingPermission, pendingPermission := true);
      UpdateStep(s, s', t.id, e', WaitingPermissionNotice);
    }
  }

  lemma PermissionResolvedKeeps(s: State, t: RawTask, p: RawProject, text: Text)
    requires Invariant(s)
    ensures var s' := PermissionResolvedHead(s, t, p, text).0;
            Invariant(s') && Evolves(s, s') && NoNewSlots(s, s')
  {
    var s' := PermissionResolvedHead(s, t, p, text).0;
    var found := Lookup(s, t, p);
    if s' != s {
      LiveEntry(s, t.id);
      var e' := found.entry.(status := Running, pendingPermission := false);
      UpdateStep(s, s', t.id, e', ResumedNotice);
    }
  }

  lemma CancelQueuedKeeps(s: State, id: TaskId)
    requires Invariant(s) && s.entries.Has(id) && s.entries.Get(id).status == Queued
    ensures var e' := s.entries.Get(id).(status := Cancelled, cancelRequested := true, settled := true);
            var s' := WriteAndEmit(s, id, e', CancelledNotice);
            Invariant(s') && Evolves(s, s') && NoNewSlots(s, s')
  {
    LiveEntry(s, id);
    var e' := s.entries.Get(id).(status := Cancelled, cancelRequested := true, settled := true);
    UpdateStep(s, WriteAndEmit(s, id, e', CancelledNotice), id, e', CancelledNotice);
  }

  lemma CancelLiveKeeps(s: State, id: TaskId, project: ProjectId, reason: Text)
    requires Invariant(s) && s.entries.Has(id) && s.entries.Get(id).project == project
    requires var e := s.entries.Get(id); !IsTerminal(e.status) && e.status != Queued
    requires reason == Absent || reason == Clean
    ensures var s' := CancelHead(s, TaskKey(id), ProjectKey(project), reason).0;
            Invariant(s') && Evolves(s, s') && NoNewSlots(s, s')
  {
    LiveEntry(s, id);
    CancelShape(s, id, project, reason);
    CancelKeeps(s, id, project, reason);
    WriteTakesNoSlot(s, CancelHead(s, TaskKey(id), ProjectKey(project), reason).0, id,
                     CancelledEntry(s.entries.Get(id)));
  }

  lemma CancelStepKeeps(s: State, t: RawTask, p: RawProject, text: Text)
    requires Invariant(s)
    ensures var s' := CancelHead(s, t, p, text).0;
            Invariant(s') && Evolves(s, s') && NoNewSlots(s, s')
  {
    var s' := CancelHead(s, t, p, text).0;
    if s' != s {
      var found := Lookup(s, t, p);
      if found.entry.status == Queued {
        CancelQueuedKeeps(s, t.id);
      } else {
        CancelLiveKeeps(s, t.id, p.project, text);
      }
    }
  }

  lemma SettleKeeps(s: State, id: TaskId, outcome: Outcome, runId: TaskId)
    requires Invariant(s)
    ensures var s' := Settle(s, id, outcome, runId);
            Invariant(s') && Evolves(s, s') && NoNewSlots(s, s')
  {
    var s' := Settle(s, id, outcome, runId);
    if s' != s {
      LiveEntry(s, id);
      var e1 := s.entries.Get(id).(runtimeTaskId := Some(runId));
      if IsParked(e1.status) || e1.status == Queued {
        var e' := if IsParked(e1.status) then e1.(settled := true) else e1;
        assert s' == Write(s, id, e');
        QuietWriteKeeps(s, id, e');
        WriteTakesNoSlot(s, s', id, e');
      } else {
        var (status, notice) := match outcome
          case RunCompleted => (Completed, CompletedNotice)
          case RunFailed => (Failed, FailedNotice)
          case RunCancelled => (Cancelled, CancelledNotice);
        var e' := e1.(status := status, settled := true);
        UpdateStep(s, s', id, e', notice);
      }
    }
  }

  lemma RejectKeeps(s: State, id: TaskId)
    requires Invariant(s)
    ensures var s' := Reject(s, id);
            Invariant(s') && Evolves(s, s') && NoNewSlots(s, s')
  {
    var s' := Reject(s, id);
    if s' != s {
      LiveEntry(s, id);
      var e := s.entries.Get(id);
      if IsParked(e.status) {
        assert s' == Write(s, id, e.(settled := true));
        QuietWriteKeeps(s, id, e.(settled := true));
        WriteTakesNoSlot(s, s', id, e.(settled := true));
      } else {
        var e' := e.(status := Failed, settled := true);
        UpdateStep(s, s', id, e', FailedNotice);
      }
    }
  }

  lemma HeadKeeps(s: State, lim: Limits, step: Step)
    requires Invariant(s) && !step.Schedule? && !step.Recover? && !step.Start?
    ensures Invariant(Next(s, lim, step)) && Evolves(s, Next(s, lim, step)) && NoNewSlots(s, Next(s, lim, step))
  {
    match step
    case Pause(t, p) => PauseKeeps(s, t, p);
    case Resume(t, p) => ResumeKeeps(s, t, p);
    case Cancel(t, p, text) => CancelStepKeeps(s, t, p, text);
    case Respond(t, p, text) => RespondKeeps(s, t, p, text);
    case PermissionWaiting(t, p, text) => PermissionWaitingKeeps(s, t, p, text);
    case PermissionResolved(t, p, text) => PermissionResolvedKeeps(s, t, p, text);
    case Settled(id, outcome, runId) => SettleKeeps(s, id, outcome, runId);
    case Rejected(id) => RejectKeeps(s, id);
  }

  lemma RecoverItemKeeps(s: State, item: Persisted, seen: set<TaskId>)
    requires Invariant(s)
    ensures Invariant(RecoverItem(s, item, seen)) && Evolves(s, RecoverItem(s, item, seen))
  {
    EvolvesReflexive(s);
    var b := BucketOf(item, seen);
    if b != InRejected && b != InAbandoned && !s.entries.Has(item.id) {
      InsertKeeps(s, item.id, FreshEntry(item.project, RestoredStatus(item), item.attempt), RecoveredNotice);
    }
  }

  /**
   * Every step keeps the books and only moves entries along legal edges:
   * terminal entries are frozen, terminal notices are at most one a task,
   * attempts count launches.
   */
  lemma StepKeeps(s: State, lim: Limits, step: Step)
    requires Invariant(s)
    ensures Invariant(Next(s, lim, step)) && Evolves(s, Next(s, lim, step))
  {
    match step
    case Start(input, id) =>
      EvolvesReflexive(s);
      if StartHead(s, lim, input, id).1.Await? {
        InsertKeeps(s, id, FreshEntry(input.project, Queued, 0), QueuedNotice);
      }
    case Schedule(throws) => PassKeeps(s, lim, s.entries.keys, throws);
    case Recover(item, seen) => RecoverItemKeeps(s, item, seen);
    case _ => HeadKeeps(s, lim, step);
  }

  ghost function Run(s: State, lim: Limits, steps: seq<Step>): State
    requires Invariant(s)
    decreases |steps|
  {
    if steps == [] then s
    else
      StepKeeps(s, lim, steps[0]);
      Run(Next(s, lim, steps[0]), lim, steps[1..])
  }

  /**
   * Over any interleaving: a task has exactly one terminal notice when it has
   * ended and none before, its cancel intent is passed on at most once, no
   * entry is ever seen in `Cancelling`, and every status change was legal.
   */
  lemma {:induction false} LifecycleOverRuns(s: State, lim: Limits, steps: seq<Step>)
    requires Invariant(s)
    ensures var s' := Run(s, lim, steps);
            && Invariant(s') && Evolves(s, s')
            && ChangesLegal(s'.changes)
            && forall id :: id in s'.entries.vals ==>
                 && s'.entries.vals[id].status != Cancelling
                 && TerminalNotices(s'.log, id) == One(IsTerminal(s'.entries.vals[id].status))
                 && multiset(s'.cancels)[id] <= 1
    decreases |steps|
  {
    if steps == [] {
      EvolvesReflexive(s);
      forall id | id in s.entries.vals ensures BooksOk(s, id) {}
    } else {
      var s1 := Next(s, lim, steps[0]);
      StepKeeps(s, lim, steps[0]);
      LifecycleOverRuns(s1, lim, steps[1..]);
      EvolvesTransitive(s, s1, Run(s1, lim, steps[1..]));
    }
  }

  /** Any started entry's attempts are the launches of its delegate. */
  lemma AttemptsAreLaunches(s: State, lim: Limits, steps: seq<Step>, id: TaskId)
    requires Invariant(s) && id in s.entries.vals
    ensures var s' := Run(s, lim, steps);
            && id in s'.entries.vals
            && s'.entries.vals[id].attempt + multiset(s.launches)[id]
               == s.entries.vals[id].attempt + multiset(s'.launches)[id]
  {
    var s' := Run(s, lim, steps);
    LifecycleOverRuns(s, lim, steps);
    assert BooksOk(s, id) && BooksOk(s', id) && TaskEvolves(s, s', id);
  }

  // ------------------------------------------------------------------
  // Slots
  // ------------------------------------------------------------------

  function Cap(lim: Limits, t: Tally): int {
    match t
    case Slots => lim.maxTasks
    case SlotsOf(_) => lim.maxPerProject
    case Waiting => 0
  }

  function Max(a: int, b: int): int { if a < b then b else a }

  predicate Launches(s: State, lim: Limits, id: TaskId)
    requires s.entries.Has(id)
  {
    s.entries.Get(id).status == Queued && CanLaunch(s, lim, s.entries.Get(id).project)
  }

  /** A launch is one write: running, or failed when the delegate throws. */
  lemma LaunchIsOneWrite(s: State, lim: Limits, id: TaskId, throws: set<TaskId>)
    requires s.entries.Has(id)
    ensures var s' := Launch(s, lim, id, throws);
            if Launches(s, lim, id) then
              && s'.entries == s.entries.Set(id, s'.entries.Get(id))
              && s'.entries.Get(id).project == s.entries.Get(id).project
              && (s'.entries.Get(id).status == Running || s'.entries.Get(id).status == Failed)
            else s' == s
  {
    if Launches(s, lim, id) {
      var e := s.entries.Get(id);
      var s1 := Begin(s, id);
      assert s1.entries == s.entries.Set(id, Started(e));
      if id in throws {
        var failed := Started(e).(status := Failed, settled := true);
        assert s1.entries.Set(id, failed).vals == s.entries.Set(id, failed).vals;
      }
    }
  }

  /** What a launch does to each count. */
  lemma LaunchCounts(s: State, lim: Limits, id: TaskId, throws: set<TaskId>, t: Tally)
    requires s.entries.Valid() && s.entries.Has(id)
    ensures Launch(s, lim, id, throws).entries.Valid()
    ensures t != Waiting ==> Count(s, t) <= Count(Launch(s, lim, id, throws), t) <= Max(Count(s, t), Cap(lim, t))
    ensures Count(Launch(s, lim, id, throws), Waiting) + One(Launches(s, lim, id)) == Count(s, Waiting)
  {
    LaunchIsOneWrite(s, lim, id, throws);
    if Launches(s, lim, id) {
      var e' := Launch(s, lim, id, throws).entries.Get(id);
      CountSet(s.entries, id, e', t);
      CountSet(s.entries, id, e', Waiting);
    }
  }

  /** Launching touches the launched entry only, and only if it is queued. */
  lemma LaunchFrame(s: State, lim: Limits, id: TaskId, throws: set<TaskId>, k: TaskId)
    requires s.entries.Has(id) && s.entries.Has(k)
    ensures Launch(s, lim, id, throws).entries.Has(k)
    ensures k != id || s.entries.Get(k).status != Queued ==>
              Launch(s, lim, id, throws).entries.Get(k) == s.entries.Get(k)
    ensures Launch(s, lim, id, throws).entries.Get(k).project == s.entries.Get(k).project
    ensures Launch(s, lim, id, throws).entries.Get(k).status == Queued ==>
              s.entries.Get(k).status == Queued && Launch(s, lim, id, throws).entries.Get(k) == s.entries.Get(k)
  {
  }

  lemma {:induction false} PassFrame(s: State, lim: Limits, ids: seq<TaskId>, throws: set<TaskId>, k: TaskId)
    requires s.entries.Valid() && s.entries.Has(k) && forall id :: id in ids ==> s.entries.Has(id)
    ensures var s' := Pass(s, lim, ids, throws);
            && s'.entries.Valid() && s'.entries.Has(k)
            && s'.entries.Get(k).project == s.entries.Get(k).project
            && (s.entries.Get(k).status != Queued || k !in ids ==> s'.entries.Get(k) == s.entries.Get(k))
            && (s'.entries.Get(k).status == Queued ==> s.entries.Get(k).status == Queued)
    decreases |ids|
  {
    if ids != [] {
      var s1 := Launch(s, lim, ids[0], throws);
      LaunchCounts(s, lim, ids[0], throws, Slots);
      LaunchFrame(s, lim, ids[0], throws, k);
      PassTail(s, s1, ids);
      PassFrame(s1, lim, ids[1..], throws, k);
      assert k in ids[1..] ==> k in ids;
    }
  }

  lemma {:induction false} PassCounts(s: State, lim: Limits, ids: seq<TaskId>, throws: set<TaskId>, t: Tally)
    requires s.entries.Valid() && forall id :: id in ids ==> s.entries.Has(id)
    ensures t != Waiting ==> Count(s, t) <= Count(Pass(s, lim, ids, throws), t) <= Max(Count(s, t), Cap(lim, t))
    ensures Count(Pass(s, lim, ids, throws), Waiting) <= Count(s, Waiting)
    decreases |ids|
  {
    if ids != [] {
      LaunchCounts(s, lim, ids[0], throws, t);
      PassTail(s, Launch(s, lim, ids[0], throws), ids);
      PassCounts(Launch(s, lim, ids[0], throws), lim, ids[1..], throws, t);
    }
  }

  lemma StartTakesNoSlot(s: State, lim: Limits, input: StartInput, id: TaskId, t: Tally)
    requires s.entries.Valid() && t != Waiting
    ensures Count(StartHead(s, lim, input, id).0, t) == Count(s, t)
  {
    if StartHead(s, lim, input, id).1.Await? {
      CountSet(s.entries, id, FreshEntry(input.project, Queued, 0), t);
    }
  }

  lemma HeadRespectsCaps(s: State, lim: Limits, step: Step, t: Tally)
    requires Invariant(s) && !step.Schedule? && !step.Recover? && !step.Start? && t != Waiting
    ensures Count(Next(s, lim, step), t) <= Count(s, t)
  {
    HeadKeeps(s, lim, step);
  }

  /**
   * No step other than recovery raises a slot count that is at or above its
   * cap, and none takes it over the cap.
   */
  lemma StepRespectsCaps(s: State, lim: Limits, step: Step, t: Tally)
    requires Invariant(s) && !step.Recover? && t != Waiting
    ensures Count(Next(s, lim, step), t) <= Max(Count(s, t), Cap(lim, t))
  {
    match step
    case Start(input, id) => StartTakesNoSlot(s, lim, input, id, t);
    case Schedule(throws) => PassCounts(s, lim, s.entries.keys, throws, t);
    case _ => HeadRespectsCaps(s, lim, step, t);
  }

  /**
   * Slot safety: from an empty manager, whatever is interleaved, slots never
   * exceed the global or the per-project cap.
   */
  lemma {:induction false} CapsOverRuns(s: State, lim: Limits, steps: seq<Step>, t: Tally)
    requires Invariant(s) && t != Waiting
    requires forall i :: 0 <= i < |steps| ==> !steps[i].Recover?
    ensures Count(Run(s, lim, steps), t) <= Max(Count(s, t), Cap(lim, t))
    decreases |steps|
  {
    if steps != [] {
      StepKeeps(s, lim, steps[0]);
      StepRespectsCaps(s, lim, steps[0], t);
      CapsOverRuns(Next(s, lim, steps[0]), lim, steps[1..], t);
    }
  }

  lemma EmptyManagerStaysWithinCaps(lim: Limits, steps: seq<Step>, t: Tally)
    requires t != Waiting && forall i :: 0 <= i < |steps| ==> !steps[i].Recover?
    ensures Invariant(Initial())
    ensures Count(Run(Initial(), lim, steps), t) <= Max(0, Cap(lim, t))
  {
    forall id ensures BooksOk(Initial(), id) {}
    CapsOverRuns(Initial(), lim, steps, t);
  }

  // ------------------------------------------------------------------
  // The scheduling pass
  // ------------------------------------------------------------------

  /** What cannot launch before a pass cannot launch after it. */
  lemma PassKeepsBlocked(s: State, lim: Limits, ids: seq<TaskId>, throws: set<TaskId>, project: ProjectId)
    requires s.entries.Valid() && forall id :: id in ids ==> s.entries.Has(id)
    requires !CanLaunch(s, lim, project)
    ensures !CanLaunch(Pass(s, lim, ids, throws), lim, project)
  {
    PassCounts(s, lim, ids, throws, Slots);
    PassCounts(s, lim, ids, throws, SlotsOf(project));
  }

  lemma {:induction false} PassFixpointAt(s: State, lim: Limits, ids: seq<TaskId>, throws: set<TaskId>, k: TaskId)
    requires s.entries.Valid() && k in ids && forall id :: id in ids ==> s.entries.Has(id)
    ensures var s' := Pass(s, lim, ids, throws);
            s'.entries.Has(k) && (s'.entries.Get(k).status == Queued ==> !CanLaunch(s', lim, s.entries.Get(k).project))
    decreases |ids|
  {
    var s1, project := Launch(s, lim, ids[0], throws), s.entries.Get(k).project;
    LaunchIsOneWrite(s, lim, ids[0], throws);
    PassTail(s, s1, ids);
    if k == ids[0] {
      PassFrame(s1, lim, ids[1..], throws, k);
      if !Launches(s, lim, k) && s.entries.Get(k).status == Queued {
        PassKeepsBlocked(s1, lim, ids[1..], throws, project);
      }
    } else {
      PassFixpointAt(s1, lim, ids[1..], throws, k);
    }
  }

  /** After one pass nothing queued could still be launched. */
  lemma PassReachesFixpoint(s: State, lim: Limits, throws: set<TaskId>)
    requires s.entries.Valid()
    ensures var s' := Pass(s, lim, s.entries.keys, throws);
            forall id :: id in s'.entries.vals && s'.entries.vals[id].status == Queued ==>
              !CanLaunch(s', lim, s'.entries.vals[id].project)
    ensures var s' := Pass(s, lim, s.entries.keys, throws); Pass(s', lim, s.entries.keys, throws) == s'
  {
    var s' := Pass(s, lim, s.entries.keys, throws);
    forall id | id in s'.entries.vals && s'.entries.vals[id].status == Queued
      ensures !CanLaunch(s', lim, s'.entries.vals[id].project)
    {
      assert id in s'.entries.vals.Keys;
      PassFixpointAt(s, lim, s.entries.keys, throws, id);
      PassFrame(s, lim, s.entries.keys, throws, id);
    }
    if s.entries.keys != [] { PassFrame(s, lim, s.entries.keys, throws, s.entries.keys[0]); }
    PassNothing(s', lim, s.entries.keys, throws);
  }

  lemma {:induction false} PassNothing(s: State, lim: Limits, ids: seq<TaskId>, throws: set<TaskId>)
    requires forall id :: id in ids ==> s.entries.Has(id)
    requires forall id :: id in s.entries.vals && s.entries.vals[id].status == Queued ==>
               !CanLaunch(s, lim, s.entries.vals[id].project)
    ensures Pass(s, lim, ids, throws) == s
    decreases |ids|
  {
    if ids != [] { PassNothing(s, lim, ids[1..], throws); }
  }

  lemma {:induction false} FullManagerLaunchesNothing(s: State, lim: Limits, ids: seq<TaskId>, throws: set<TaskId>)
    requires forall id :: id in ids ==> s.entries.Has(id)
    requires Count(s, Slots) >= lim.maxTasks
    ensures Pass(s, lim, ids, throws) == s
    decreases |ids|
  {
    if ids != [] { FullManagerLaunchesNothing(s, lim, ids[1..], throws); }
  }

  /**
   * FIFO fairness: a younger entry is launched past an older one that stays
   * queued only if the older one's project is at its cap.
   */
  lemma {:induction false} PassIsFair(s: State, lim: Limits, ids: seq<TaskId>, throws: set<TaskId>, i: nat, j: nat)
    requires s.entries.Valid() && Distinct(ids) && forall id :: id in ids ==> s.entries.Has(id)
    requires i < j < |ids|
    requires s.entries.Get(ids[j]).status == Queued
    ensures var s' := Pass(s, lim, ids, throws);
            && s'.entries.Has(ids[i]) && s'.entries.Has(ids[j])
            && (s'.entries.Get(ids[i]).status == Queued && s'.entries.Get(ids[j]).status != Queued ==>
                 Count(s', SlotsOf(s.entries.Get(ids[i]).project)) >= lim.maxPerProject)
    decreases |ids|
  {
    if i == 0 {
      OldestIsPassedOnlyAtProjectCap(s, lim, ids, throws, ids[j]);
    } else {
      var s1, rest := Launch(s, lim, ids[0], throws), ids[1..];
      assert rest[i-1] == ids[i] && rest[j-1] == ids[j] && ids[0] != ids[j];
      LaunchFrame(s, lim, ids[0], throws, ids[i]);
      LaunchFrame(s, lim, ids[0], throws, ids[j]);
      LaunchCounts(s, lim, ids[0], throws, Slots);
      PassTail(s, s1, ids);
      assert Distinct(rest);
      PassIsFair(s1, lim, rest, throws, i - 1, j - 1);
    }
  }

  lemma OldestIsPassedOnlyAtProjectCap(s: State, lim: Limits, ids: seq<TaskId>, throws: set<TaskId>, younger: TaskId)
    requires s.entries.Valid() && forall id :: id in ids ==> s.entries.Has(id)
    requires ids != [] && younger in ids && s.entries.Get(younger).status == Queued
    ensures var s' := Pass(s, lim, ids, throws);
            && s'.entries.Has(ids[0]) && s'.entries.Has(younger)
            && (s'.entries.Get(ids[0]).status == Queued && s'.entries.Get(younger).status != Queued ==>
                 Count(s', SlotsOf(s.entries.Get(ids[0]).project)) >= lim.maxPerProject)
  {
    var s1, project := Launch(s, lim, ids[0], throws), s.entries.Get(ids[0]).project;
    PassFrame(s, lim, ids, throws, ids[0]);
    PassFrame(s, lim, ids, throws, younger);
    LaunchIsOneWrite(s, lim, ids[0], throws);
    PassTail(s, s1, ids);
    PassFrame(s1, lim, ids[1..], throws, ids[0]);
    PassCounts(s, lim, ids, throws, SlotsOf(project));
    if Count(s, Slots) >= lim.maxTasks {
      FullManagerLaunchesNothing(s, lim, ids, throws);
    }
  }

  lemma {:induction false} PassMakesProgress(s: State, lim: Limits, ids: seq<TaskId>, throws: set<TaskId>, k: TaskId)
    requires s.entries.Valid() && k in ids && forall id :: id in ids ==> s.entries.Has(id)
    requires s.entries.Get(k).status == Queued && CanLaunch(s, lim, s.entries.Get(k).project)
    ensures Count(Pass(s, lim, ids, throws), Waiting) < Count(s, Waiting)
    decreases |ids|
  {
    var s1 := Launch(s, lim, ids[0], throws);
    LaunchCounts(s, lim, ids[0], throws, Slots);
    LaunchIsOneWrite(s, lim, ids[0], throws);
    PassTail(s, s1, ids);
    if Launches(s, lim, ids[0]) {
      PassCounts(s1, lim, ids[1..], throws, Slots);
    } else {
      PassMakesProgress(s, lim, ids[1..], throws, k);
    }
  }

  /**
   * A start that nothing interrupts leaves at most `maxQueue` entries waiting,
   * or as many as there were.
   */
  lemma StartBoundsQueue(s: State, lim: Limits, input: StartInput, id: TaskId, throws: set<TaskId>)
    requires s.entries.Valid()
    ensures var s1 := StartHead(s, lim, input, id).0;
            Count(Pass(s1, lim, s1.entries.keys, throws), Waiting) <= Max(lim.maxQueue, Count(s, Waiting))
  {
    var (s1, head) := StartHead(s, lim, input, id);
    PassCounts(s1, lim, s1.entries.keys, throws, Slots);
    if head.Await? {
      QueueingCounts(s, lim, id, input.project);
      if CanLaunch(s, lim, input.project) {
        PassMakesProgress(s1, lim, s1.entries.keys, throws, id);
      }
    }
  }

  lemma QueueingCounts(s: State, lim: Limits, id: TaskId, project: ProjectId)
    requires s.entries.Valid() && !s.entries.Has(id)
    ensures var s1 := Insert(s, id, FreshEntry(project, Queued, 0), QueuedNotice);
            Count(s1, Waiting) == Count(s, Waiting) + 1 && CanLaunch(s1, lim, project) == CanLaunch(s, lim, project)
  {
    var e := FreshEntry(project, Queued, 0);
    CountSet(s.entries, id, e, Waiting);
    CountSet(s.entries, id, e, Slots);
    CountSet(s.entries, id, e, SlotsOf(project));
  }

  // ------------------------------------------------------------------
  // Recovery
  // ------------------------------------------------------------------

  /** Every record that recovery would restore is already known. */
  ghost predicate Covered(s: State, items: seq<Persisted>, seen: set<TaskId>)
    decreases |items|
  {
    items == [] ||
    (var b := BucketOf(items[0], seen);
     && (b == InResumed || b == InAwaitingApproval ==> s.entries.Has(items[0].id))
     && Covered(s, items[1..], SeenAfter(items[0], seen)))
  }

  lemma {:induction false} CoveredGrows(s: State, s': State, items: seq<Persisted>, seen: set<TaskId>)
    requires Covered(s, items, seen) && s.entries.vals.Keys <= s'.entries.vals.Keys
    ensures Covered(s', items, seen)
    decreases |items|
  {
    if items != [] {
      if items[0].Parsed? && s.entries.Has(items[0].id) { assert items[0].id in s.entries.vals.Keys; }
      CoveredGrows(s, s', items[1..], SeenAfter(items[0], seen));
    }
  }

  lemma {:induction false} RecoveryKeeps(s: State, items: seq<Persisted>, seen: set<TaskId>)
    requires Invariant(s)
    ensures var s' := RecoverAll(s, items, seen);
            && Invariant(s') && Evolves(s, s') && s.entries.vals.Keys <= s'.entries.vals.Keys
            && s'.launches == s.launches && s'.cancels == s.cancels && s'.changes == s.changes
            && Covered(s', items, seen)
            && forall id :: id in s'.entries.vals ==>
                 if id in s.entries.vals then s'.entries.vals[id] == s.entries.vals[id]
                 else s'.entries.vals[id].status == Queued || IsParked(s'.entries.vals[id].status)
    decreases |items|
  {
    EvolvesReflexive(s);
    if items != [] {
      var s1 := RecoverItem(s, items[0], seen);
      var seen1 := SeenAfter(items[0], seen);
      RecoverItemKeeps(s, items[0], seen);
      RecoveryKeeps(s1, items[1..], seen1);
      var s' := RecoverAll(s1, items[1..], seen1);
      EvolvesTransitive(s, s1, s');
      assert s.entries.vals.Keys <= s1.entries.vals.Keys;
      forall id | id in s'.entries.vals
        ensures if id in s.entries.vals then s'.entries.vals[id] == s.entries.vals[id]
                else s'.entries.vals[id].status == Queued || IsParked(s'.entries.vals[id].status)
      {
        if id in s1.entries.vals { assert s'.entries.vals[id] == s1.entries.vals[id]; }
      }
      var b := BucketOf(items[0], seen);
      if b == InResumed || b == InAwaitingApproval { assert items[0].id in s1.entries.vals.Keys; }
    }
  }

  lemma {:induction false} CoveredRecoveryIsIdle(s: State, items: seq<Persisted>, seen: set<TaskId>)
    requires Covered(s, items, seen)
    ensures RecoverAll(s, items, seen) == s
    decreases |items|
  {
    if items != [] { CoveredRecoveryIsIdle(s, items[1..], SeenAfter(items[0], seen)); }
  }

  /** The tasks seen in the first `n` records. */
  function SeenUpTo(items: seq<Persisted>, n: nat): set<TaskId>
    requires n <= |items|
  {
    if n == 0 then {} else SeenAfter(items[n-1], SeenUpTo(items, n - 1))
  }

  /** A run in which the records are recovered in order, with any other steps in between. */
  ghost predicate Recovers(steps: seq<Step>, items: seq<Persisted>, seen: set<TaskId>)
    decreases |steps|
  {
    items == []
    || (steps != [] && steps[0] == Recover(items[0], seen)
        && Recovers(steps[1..], items[1..], SeenAfter(items[0], seen)))
    || (steps != [] && Recovers(steps[1..], items, seen))
  }

  lemma {:induction false} RecoversLonger(steps: seq<Step>, more: seq<Step>, items: seq<Persisted>, seen: set<TaskId>)
    requires Recovers(steps, items, seen)
    ensures Recovers(steps + more, items, seen)
    decreases |steps|
  {
    if items != [] {
      assert (steps + more)[1..] == steps[1..] + more;
      if steps[0] == Recover(items[0], seen) && Recovers(steps[1..], items[1..], SeenAfter(items[0], seen)) {
        RecoversLonger(steps[1..], more, items[1..], SeenAfter(items[0], seen));
      } else {
        RecoversLonger(steps[1..], more, items, seen);
      }
    }
  }

  /** Recovering one more record extends such a run. */
  lemma RecoversSnoc(steps: seq<Step>, items: seq<Persisted>, i: nat)
    requires i < |items| && Recovers(steps, items[..i], {})
    ensures Recovers(steps + [Recover(items[i], SeenUpTo(items, i))], items[..i+1], {})
  {
    RecoversOneMore(steps, items, 0, i);
  }

  lemma {:induction false} RecoversOneMore(steps: seq<Step>, items: seq<Persisted>, from: nat, i: nat)
    requires from <= i < |items| && Recovers(steps, items[from..i], SeenUpTo(items, from))
    ensures Recovers(steps + [Recover(items[i], SeenUpTo(items, i))], items[from..i+1], SeenUpTo(items, from))
    decreases |steps|
  {
    var last, seen := Recover(items[i], SeenUpTo(items, i)), SeenUpTo(items, from);
    var more := steps + [last];
    assert items[from..i+1][0] == items[from] && items[from..i+1][1..] == items[from+1..i+1];
    if steps == [] {
      assert from == i && more[1..] == [] && items[i+1..i+1] == [];
    } else {
      assert more[1..] == steps[1..] + [last];
      if from == i {
        RecoversOneMore(steps[1..], items, from, i);
      } else {
        assert items[from..i][1..] == items[from+1..i];
        if steps[0] == Recover(items[from], seen) && Recovers(steps[1..], items[from+1..i], SeenUpTo(items, from + 1)) {
          RecoversOneMore(steps[1..], items, from + 1, i);
        } else {
          RecoversOneMore(steps[1..], items, from, i);
        }
      }
    }
  }

  lemma KeysRemain(s: State, lim: Limits, steps: seq<Step>, id: TaskId)
    requires Invariant(s) && s.entries.Has(id)
    ensures Run(s, lim, steps).entries.Has(id)
  {
    LifecycleOverRuns(s, lim, steps);
    assert TaskEvolves(s, Run(s, lim, steps), id);
  }

  /** After such a run every record is covered. */
  lemma {:induction false} RecoveringCovers(s: State, lim: Limits, steps: seq<Step>, items: seq<Persisted>,
                                            seen: set<TaskId>)
    requires Invariant(s) && Recovers(steps, items, seen)
    ensures Covered(Run(s, lim, steps), items, seen)
    decreases |steps|
  {
    if items != [] {
      var s1 := Next(s, lim, steps[0]);
      StepKeeps(s, lim, steps[0]);
      if steps[0] == Recover(items[0], seen) && Recovers(steps[1..], items[1..], SeenAfter(items[0], seen)) {
        RecoveringCovers(s1, lim, steps[1..], items[1..], SeenAfter(items[0], seen));
        var b := BucketOf(items[0], seen);
        if b == InResumed || b == InAwaitingApproval { KeysRemain(s1, lim, steps[1..], items[0].id); }
      } else {
        RecoveringCovers(s1, lim, steps[1..], items, seen);
      }
    }
  }

  lemma {:induction false} CoveredRecordIsIdle(s: State, items: seq<Persisted>, front: seq<Persisted>, k: nat)
    requires |front| <= k < |front| + |items| && Covered(s, items, SeenUpTo(front + items, |front|))
    ensures RecoverItem(s, (front + items)[k], SeenUpTo(front + items, k)) == s
    decreases |items|
  {
    if k > |front| {
      assert front + items == (front + [items[0]]) + items[1..];
      CoveredRecordIsIdle(s, items[1..], front + [items[0]], k);
    }
  }

  lemma RunCons(s: State, lim: Limits, step: Step, rest: seq<Step>)
    requires Invariant(s)
    ensures Invariant(Next(s, lim, step)) && Run(s, lim, [step] + rest) == Run(Next(s, lim, step), lim, rest)
  {
    StepKeeps(s, lim, step);
    assert ([step] + rest)[1..] == rest;
  }

  lemma {:induction false} RunsOn(s: State, lim: Limits, first: seq<Step>, more: seq<Step>)
    requires Invariant(s)
    ensures Invariant(Run(s, lim, first)) && Run(s, lim, first + more) == Run(Run(s, lim, first), lim, more)
    decreases |first|
  {
    if first == [] {
      assert first + more == more;
    } else {
      RunCons(s, lim, first[0], first[1..]);
      RunCons(s, lim, first[0], first[1..] + more);
      assert first == [first[0]] + first[1..];
      assert first + more == [first[0]] + (first[1..] + more);
      RunsOn(Next(s, lim, first[0]), lim, first[1..], more);
    }
  }

  lemma RunSnoc(s: State, lim: Limits, steps: seq<Step>, step: Step)
    requires Invariant(s)
    ensures Invariant(Run(s, lim, steps))
    ensures Run(s, lim, steps + [step]) == Next(Run(s, lim, steps), lim, step)
  {
    RunsOn(s, lim, steps, [step]);
    StepKeeps(Run(s, lim, steps), lim, step);
    assert [step][1..] == [];
  }

  /**
   * Recovery is idempotent under any interleaving. Once its records have been
   * recovered, however many other steps came in between and after, recovering
   * any of them again in its place changes nothing; nor does the whole again.
   */
  lemma RecoveryIsIdempotent(s: State, lim: Limits, first: seq<Step>, more: seq<Step>, items: seq<Persisted>, k: nat)
    requires Invariant(s) && Recovers(first, items, {}) && k < |items|
    ensures var later := Run(s, lim, first + more);
            RecoverItem(later, items[k], SeenUpTo(items, k)) == later && RecoverAll(later, items, {}) == later
  {
    var recovered, later := Run(s, lim, first), Run(s, lim, first + more);
    RunsOn(s, lim, first, more);
    RecoveringCovers(s, lim, first, items, {});
    forall id | id in recovered.entries.vals.Keys ensures id in later.entries.vals.Keys {
      KeysRemain(recovered, lim, more, id);
    }
    CoveredGrows(recovered, later, items, {});
    assert [] + items == items;
    CoveredRecordIsIdle(later, items, [], k);
    CoveredRecoveryIsIdle(later, items, {});
  }

  /** The four counts of a summary add up to the number of records. */
  lemma {:induction false} SummaryIsTotal(items: seq<Persisted>, seen: set<TaskId>, acc: Summary)
    ensures Summarize(items, seen, acc).Total() == acc.Total() + |items|
    decreases |items|
  {
    if items != [] {
      SummaryIsTotal(items[1..], SeenAfter(items[0], seen), acc.Plus(BucketOf(items[0], seen)));
    }
  }

  // ------------------------------------------------------------------
  // Where the code promises less
  // ------------------------------------------------------------------

  predicate Restores(s: State, item: Persisted, seen: set<TaskId>) {
    (BucketOf(item, seen) == InResumed || BucketOf(item, seen) == InAwaitingApproval) && !s.entries.Has(item.id)
  }

  /**
   * Recovery takes slots without asking: it raises the slot count, at the cap
   * or not, exactly when it restores a waiting entry.
   */
  lemma RecoveryIgnoresCaps(s: State, item: Persisted, seen: set<TaskId>)
    requires s.entries.Valid()
    ensures Count(RecoverItem(s, item, seen), Slots)
            == Count(s, Slots)
               + One(Restores(s, item, seen) && (item.status == WaitingInput || item.status == WaitingPermission))
  {
    if Restores(s, item, seen) {
      var e := FreshEntry(item.project, RestoredStatus(item), item.attempt);
      CountSet(s.entries, item.id, e, Slots);
      assert RecoverItem(s, item, seen).entries == s.entries.Set(item.id, e);
    } else {
      assert RecoverItem(s, item, seen) == s;
    }
  }
}
