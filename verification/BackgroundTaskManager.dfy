/**
 * The background task manager. Public operations run here up to their first
 * await and answer with the `Head` that says what follows; `Schedule` is the
 * pass they run afterwards. Each is proved to be its step of SchedulerModel,
 * to keep the books, to move entries along legal edges only, and to stay
 * within the slots.
 */
module BackgroundTaskManagers {
  import opened Seqs
  import opened JsMaps
  import opened BackgroundTasks
  import opened SchedulerModel
  import opened SchedulerProperties
  import opened SchedulerOutcomes
  import opened SchedulerRuns

  class BackgroundTaskManager {
    const limits: Limits
    var entries: JsMap<TaskId, Entry>
    var sequence: nat
    var published: seq<Emission>
    var delegateRuns: seq<TaskId>
    var delegateCancels: seq<TaskId>
    ghost var changes: seq<Change>

    ghost function View(): State
      reads this
    {
      State(entries, published, changes, delegateRuns, delegateCancels)
    }

    ghost predicate WellFormed()
      reads this
    {
      entries.Valid() && sequence == |published|
    }

    /** Between operations the books of every task are in order. */
    ghost predicate Valid()
      reads this
    {
      WellFormed() && Invariant(View())
    }

    /**
     * Entries stay where they are and keep their project, a terminal entry is
     * frozen, a status moves along legal changes, attempts count launches; and
     * no slot count grows.
     */
    twostate predicate Develops()
      reads this
    {
      Evolves(old(View()), View()) && NoNewSlots(old(View()), View())
    }

    /** No slot count grows past its cap. */
    twostate predicate StaysWithinCaps()
      reads this
    {
      forall t: Tally :: t != Waiting ==> Count(View(), t) <= Max(Count(old(View()), t), Cap(limits, t))
    }

    constructor (limits: Limits)
      ensures Valid() && View() == Initial() && this.limits == limits
    {
      this.limits := limits;
      entries := Empty();
      sequence, published, delegateRuns, delegateCancels, changes := 0, [], [], [], [];
      new;
      forall id ensures BooksOk(View(), id) {}
    }

    // ----------------------------------------------------------------
    // Counting
    // ----------------------------------------------------------------

    method ActiveCount() returns (count: nat)
      requires WellFormed()
      ensures count == Count(View(), Slots)
    {
      count := 0;
      for i := 0 to |entries.keys|
        invariant count == CountAmong(entries.keys[..i], entries.vals, Slots)
      {
        assert entries.keys[..i+1][..i] == entries.keys[..i];
        if HoldsSlot(entries.Get(entries.keys[i]).status) {
          count := count + 1;
        }
      }
      assert entries.keys[..|entries.keys|] == entries.keys;
    }

    method ActiveCountForProject(project: ProjectId) returns (count: nat)
      requires WellFormed()
      ensures count == Count(View(), SlotsOf(project))
    {
      count := 0;
      for i := 0 to |entries.keys|
        invariant count == CountAmong(entries.keys[..i], entries.vals, SlotsOf(project))
      {
        assert entries.keys[..i+1][..i] == entries.keys[..i];
        var entry := entries.Get(entries.keys[i]);
        if entry.project == project && HoldsSlot(entry.status) {
          count := count + 1;
        }
      }
      assert entries.keys[..|entries.keys|] == entries.keys;
    }

    method QueuedCount() returns (count: nat)
      requires WellFormed()
      ensures count == Count(View(), Waiting)
    {
      count := 0;
      for i := 0 to |entries.keys|
        invariant count == CountAmong(entries.keys[..i], entries.vals, Waiting)
      {
        assert entries.keys[..i+1][..i] == entries.keys[..i];
        if entries.Get(entries.keys[i]).status == Queued {
          count := count + 1;
        }
      }
      assert entries.keys[..|entries.keys|] == entries.keys;
    }

    method HasFreeSlot(project: ProjectId) returns (b: bool)
      requires WellFormed()
      ensures b == CanLaunch(View(), limits, project)
    {
      var active := ActiveCount();
      if active >= limits.maxTasks {
        return false;
      }
      var activeInProject := ActiveCountForProject(project);
      return activeInProject < limits.maxPerProject;
    }

    // ----------------------------------------------------------------
    // Elementary effects
    // ----------------------------------------------------------------

    method SetEntry(id: TaskId, entry: Entry)
      requires WellFormed() && entries.Has(id)
      modifies this`entries, this`changes
      ensures WellFormed() && View() == Write(old(View()), id, entry)
    {
      ghost var from := entries.Get(id).status;
      if from != entry.status {
        changes := changes + [Change(id, from, entry.status)];
      }
      entries := entries.Set(id, entry);
    }

    method Publish(id: TaskId, notice: Notice)
      requires WellFormed() && entries.Has(id)
      modifies this`sequence, this`published
      ensures WellFormed() && View() == Emit(old(View()), id, notice)
    {
      published := published + [Emission(sequence, id, notice, entries.Get(id).status)];
      sequence := sequence + 1;
    }

    method Find(task: RawTask, project: RawProject) returns (found: Answer)
      requires WellFormed()
      ensures found == Lookup(View(), task, project)
    {
      if task.MalformedTask? {
        return Err(ValidationError);
      }
      if !entries.Has(task.id) {
        return Err(NotFound);
      }
      if project.MalformedProject? {
        return Err(ValidationError);
      }
      var entry := entries.Get(task.id);
      if entry.project != project.project {
        return Err(ProjectMismatch);
      }
      return Ok(entry);
    }

    // ----------------------------------------------------------------
    // Operations
    // ----------------------------------------------------------------

    method Start(input: StartInput, freshId: TaskId) returns (head: Head)
      requires Valid()
      modifies this
      ensures Valid() && Develops()
      ensures head.Await? <==>
                && input.ValidInput? && !old(entries).Has(freshId)
                && (CanLaunch(old(View()), limits, input.project) || Count(old(View()), Waiting) < limits.maxQueue)
      ensures if head.Await? then Enters(old(View()), View(), freshId, input.project, Queued, 0, QueuedNotice)
              else View() == old(View())
      ensures (View(), head) == StartHead(old(View()), limits, input, freshId)
    {
      StartOutcome(View(), limits, input, freshId);
      StepKeeps(View(), limits, SchedulerModel.Start(input, freshId));
      forall t: Tally | t != Waiting ensures Count(StartHead(View(), limits, input, freshId).0, t) == Count(View(), t) {
        StartTakesNoSlot(View(), limits, input, freshId, t);
      }
      match input
      case InvalidInput => return Done(Err(ValidationError));
      case SecretInput => return Done(Err(SecretRefused));
      case DangerousProject => return Done(Err(ValidationError));
      case ValidInput(project) =>
        var free := HasFreeSlot(project);
        if !free {
          var queued := QueuedCount();
          if queued >= limits.maxQueue {
            return Done(Err(QueueFull));
          }
        }
        if entries.Has(freshId) {
          return Done(Err(TaskActive));
        }
        entries := entries.Set(freshId, Entry(project, Queued, 0, false, false, false, false, false, false, None));
        Publish(freshId, QueuedNotice);
        return Await(freshId, true);
    }

    method Pause(task: RawTask, project: RawProject) returns (head: Head)
      requires Valid()
      modifies this
      ensures Valid() && Develops()
      ensures head.Await? <==>
                && Addressed(old(View()), task, project)
                && var now := old(entries).Get(task.id).status;
                   now == Running || now == WaitingPermission || now == WaitingInput
      ensures if head.Await? then Moves(old(View()), View(), task.id, Paused, PausedNotice)
              else View() == old(View())
      ensures (View(), head) == PauseHead(old(View()), task, project)
    {
      PauseOutcome(View(), task, project);
      PauseKeeps(View(), task, project);
      var found := Find(task, project);
      if found.Err? {
        return Done(found);
      }
      var entry := found.entry;
      if entry.status == Paused {
        return Done(Ok(entry));
      }
      if IsTerminal(entry.status) || entry.status == Queued || entry.status == Cancelling {
        return Done(Err(InvalidTransition));
      }
      if !IsLegal(entry.status, Paused) {
        return Done(Err(InvalidTransition));
      }
      SetEntry(task.id, entry.(status := Paused, pauseRequested := true));
      Publish(task.id, PausedNotice);
      return Await(task.id, true);
    }

    method Resume(task: RawTask, project: RawProject) returns (head: Head)
      requires Valid()
      modifies this
      ensures Valid() && Develops()
      ensures head.Await? <==>
                Addressed(old(View()), task, project) && old(entries).Get(task.id).status == Paused
      ensures if head.Await? then Moves(old(View()), View(), task.id, Queued, ResumedNotice)
              else View() == old(View())
      ensures (View(), head) == ResumeHead(old(View()), task, project)
    {
      ResumeOutcome(View(), task, project);
      ResumeKeeps(View(), task, project);
      var found := Find(task, project);
      if found.Err? {
        return Done(found);
      }
      if found.entry.status != Paused {
        return Done(Err(InvalidTransition));
      }
      SetEntry(task.id, found.entry.(status := Queued, pauseRequested := false));
      Publish(task.id, ResumedNotice);
      return Await(task.id, true);
    }

    method PropagateCancel(id: TaskId)
      requires WellFormed() && entries.Has(id)
      modifies this`entries, this`delegateCancels
      ensures WellFormed() && View() == Propagate(old(View()), id)
    {
      delegateCancels := delegateCancels + [id];
      entries := entries.Set(id, entries.Get(id).(aborted := true));
    }

    method FinishCancel(id: TaskId)
      requires WellFormed() && entries.Has(id)
      modifies this
      ensures WellFormed()
      ensures var cancelled := old(entries).Get(id).(status := Cancelled, settled := true);
              View() == WriteAndEmit(old(View()), id, cancelled, CancelledNotice)
    {
      SetEntry(id, entries.Get(id).(status := Cancelled, settled := true));
      Publish(id, CancelledNotice);
    }

    method Cancel(task: RawTask, project: RawProject, reason: Text) returns (head: Head)
      requires Valid()
      modifies this
      ensures Valid() && Develops()
      ensures head.Await? <==>
                && Addressed(old(View()), task, project)
                && !IsTerminal(old(entries).Get(task.id).status) && Passes(reason)
      ensures if head.Await? then
                && Moves(old(View()), View(), task.id, Cancelled, CancelledNotice)
                && delegateCancels == old(delegateCancels)
                                      + (if old(entries).Get(task.id).status == Queued then [] else [task.id])
              else View() == old(View())
      ensures (View(), head) == CancelHead(old(View()), task, project, reason)
    {
      CancelOutcome(View(), task, project, reason);
      CancelStepKeeps(View(), task, project, reason);
      var found := Find(task, project);
      if found.Err? {
        return Done(found);
      }
      var entry := found.entry;
      if entry.status == Cancelled {
        return Done(Ok(entry));
      }
      if IsTerminal(entry.status) {
        return Done(Err(InvalidTransition));
      }
      if reason == NotAString {
        return Done(Err(ValidationError));
      }
      if reason == Secret {
        return Done(Err(SecretRefused));
      }
      if entry.status == Queued {
        SetEntry(task.id, entry.(status := Cancelled, cancelRequested := true, settled := true));
        Publish(task.id, CancelledNotice);
        return Await(task.id, true);
      }
      if entry.status == Running {
        SetEntry(task.id, entry.(status := Cancelling, cancelRequested := true));
      } else {
        if !IsLegal(entry.status, Cancelled) {
          return Done(Err(InvalidTransition));
        }
        SetEntry(task.id, entry.(cancelRequested := true));
      }
      PropagateCancel(task.id);
      FinishCancel(task.id);
      return Await(task.id, true);
    }

    method RespondInput(task: RawTask, project: RawProject, response: Text) returns (head: Head)
      requires Valid()
      modifies this
      ensures Valid() && Develops()
      ensures head.Await? <==>
                && Addressed(old(View()), task, project)
                && old(entries).Get(task.id).status == WaitingInput && response == Clean
      ensures if head.Await? then Moves(old(View()), View(), task.id, Running, ResumedNotice)
              else View() == old(View())
      ensures (View(), head) == RespondHead(old(View()), task, project, response)
    {
      RespondOutcome(View(), task, project, response);
      RespondKeeps(View(), task, project, response);
      if response == Absent || response == NotAString {
        return Done(Err(ValidationError));
      }
      if response == Secret {
        return Done(Err(SecretRefused));
      }
      var found := Find(task, project);
      if found.Err? {
        return Done(found);
      }
      if found.entry.status != WaitingInput {
        return Done(Err(InvalidTransition));
      }
      SetEntry(task.id, found.entry.(status := Running, pendingInput := false));
      Publish(task.id, ResumedNotice);
      return Await(task.id, false);
    }

    method NotifyPermissionWaiting(task: RawTask, project: RawProject, detail: Text) returns (head: Head)
      requires Valid()
      modifies this
      ensures Valid() && Develops()
      ensures head.Await? <==>
                && Addressed(old(View()), task, project)
                && old(entries).Get(task.id).status == Running && Passes(detail)
      ensures if head.Await? then
                Moves(old(View()), View(), task.id, WaitingPermission, WaitingPermissionNotice)
              else View() == old(View())
      ensures (View(), head) == PermissionWaitingHead(old(View()), task, project, detail)
    {
      PermissionWaitingOutcome(View(), task, project, detail);
      PermissionWaitingKeeps(View(), task, project, detail);
      var found := Find(task, project);
      if found.Err? {
        return Done(found);
      }
      var entry := found.entry;
      if entry.status == WaitingPermission {
        return Done(Ok(entry));
      }
      if entry.status != Running {
        return Done(Err(InvalidTransition));
      }
      if detail == NotAString {
        return Done(Err(ValidationError));
      }
      if detail == Secret {
        return Done(Err(SecretRefused));
      }
      SetEntry(task.id, entry.(status := WaitingPermission, pendingPermission := true));
      Publish(task.id, WaitingPermissionNotice);
      return Await(task.id, false);
    }

    method NotifyPermissionResolved(task: RawTask, project: RawProject, detail: Text) returns (head: Head)
      requires Valid()
      modifies this
      ensures Valid() && Develops()
      ensures head.Await? <==>
                && Addressed(old(View()), task, project)
                && old(entries).Get(task.id).status == WaitingPermission && Passes(detail)
      ensures if head.Await? then Moves(old(View()), View(), task.id, Running, ResumedNotice)
              else View() == old(View())
      ensures (View(), head) == PermissionResolvedHead(old(View()), task, project, detail)
    {
      PermissionResolvedOutcome(View(), task, project, detail);
      PermissionResolvedKeeps(View(), task, project, detail);
      var found := Find(task, project);
      if found.Err? {
        return Done(found);
      }
      var entry := found.entry;
      if entry.status != WaitingPermission {
        return Done(Err(InvalidTransition));
      }
      if detail == NotAString {
        return Done(Err(ValidationError));
      }
      if detail == Secret {
        return Done(Err(SecretRefused));
      }
      SetEntry(task.id, entry.(status := Running, pendingPermission := false));
      Publish(task.id, ResumedNotice);
      return Await(task.id, false);
    }

    // ----------------------------------------------------------------
    // Scheduling
    // ----------------------------------------------------------------

    /** `throws` holds the tasks whose delegate call throws synchronously. */
    method Schedule(throws: set<TaskId>)
      requires Valid()
      modifies this
      ensures Valid() && Evolves(old(View()), View()) && StaysWithinCaps()
      ensures forall id :: id in entries.vals && entries.vals[id].status == Queued ==>
                !CanLaunch(View(), limits, entries.vals[id].project)
      ensures View() == Pass(old(View()), limits, old(entries.keys), throws)
    {
      ghost var before := View();
      PassKeeps(before, limits, entries.keys, throws);
      PassReachesFixpoint(before, limits, throws);
      forall t: Tally | t != Waiting
        ensures Count(Pass(before, limits, entries.keys, throws), t) <= Max(Count(before, t), Cap(limits, t))
      {
        PassCounts(before, limits, entries.keys, throws, t);
      }
      var snapshot := entries.keys;
      for i := 0 to |snapshot|
        invariant Valid() && entries.keys == snapshot
        invariant forall id :: id in snapshot[i..] ==> entries.Has(id)
        invariant Pass(old(View()), limits, snapshot, throws) == Pass(View(), limits, snapshot[i..], throws)
      {
        var id := snapshot[i];
        assert snapshot[i..][0] == id && snapshot[i..][1..] == snapshot[i+1..];
        TryLaunch(id, throws);
      }
    }

    method TryLaunch(id: TaskId, throws: set<TaskId>)
      requires Valid() && entries.Has(id)
      modifies this
      ensures Valid() && entries.keys == old(entries.keys)
      ensures Evolves(old(View()), View()) && StaysWithinCaps()
      ensures if old(entries).Get(id).status == Queued && CanLaunch(old(View()), limits, old(entries).Get(id).project)
              then && delegateRuns == old(delegateRuns) + [id] && entries.Has(id)
                   && entries.Get(id).status == (if id in throws then Failed else Running)
              else View() == old(View())
      ensures View() == SchedulerModel.Launch(old(View()), limits, id, throws)
    {
      LaunchOutcome(View(), limits, id, throws);
      ghost var before := View();
      LaunchKeeps(before, limits, id, throws);
      forall t: Tally | t != Waiting
        ensures Count(SchedulerModel.Launch(before, limits, id, throws), t) <= Max(Count(before, t), Cap(limits, t))
      {
        LaunchCounts(before, limits, id, throws, t);
      }
      var entry := entries.Get(id);
      if entry.status != Queued {
        return;
      }
      var free := HasFreeSlot(entry.project);
      if !free {
        return;
      }
      CallDelegate(id);
      if id in throws {
        HandleLaunchThrow(id);
      }
    }

    method CallDelegate(id: TaskId)
      requires Valid() && entries.Has(id) && entries.Get(id).status == Queued
      modifies this
      ensures Valid() && Evolves(old(View()), View()) && View() == Begin(old(View()), id)
    {
      BeginKeeps(View(), id);
      var entry := entries.Get(id);
      SetEntry(id, entry.(status := Running, attempt := entry.attempt + 1, pauseRequested := false,
                          settled := false, aborted := false));
      Publish(id, StartedNotice);
      delegateRuns := delegateRuns + [id];
    }

    method HandleLaunchThrow(id: TaskId)
      requires Valid() && entries.Has(id)
      modifies this
      ensures Valid() && Evolves(old(View()), View()) && View() == LaunchThrow(old(View()), id)
    {
      LaunchThrowKeeps(View(), id);
      var entry := entries.Get(id);
      if entry.settled || IsTerminal(entry.status) {
        return;
      }
      if entry.status == Paused {
        SetEntry(id, entry.(settled := true));
        return;
      }
      if !IsLegal(entry.status, Failed) {
        return;
      }
      SetEntry(id, entry.(status := Failed, settled := true));
      Publish(id, FailedNotice);
    }

    // ----------------------------------------------------------------
    // Settlements
    // ----------------------------------------------------------------

    method HandleRuntimeSettled(id: TaskId, outcome: Outcome, runId: TaskId)
      requires Valid() && entries.Has(id)
      modifies this
      ensures Valid() && Develops() && View() == Settle(old(View()), id, outcome, runId)
      ensures !Listens(old(View()), id) ==> View() == old(View())
      ensures Listens(old(View()), id) && old(entries).Get(id).status == Running ==>
                match outcome
                case RunCompleted => Ends(old(View()), View(), id, Completed, CompletedNotice)
                case RunFailed => Ends(old(View()), View(), id, Failed, FailedNotice)
                case RunCancelled => Ends(old(View()), View(), id, Cancelled, CancelledNotice)
    {
      SettlementOutcome(View(), id, outcome, runId);
      SettleKeeps(View(), id, outcome, runId);
      var entry := entries.Get(id);
      if entry.settled || IsTerminal(entry.status) {
        return;
      }
      entry := entry.(runtimeTaskId := Some(runId));
      if IsParked(entry.status) {
        SetEntry(id, entry.(settled := true));
        return;
      }
      if entry.status == Cancelling {
        var terminal := if outcome == RunFailed then Failed else Cancelled;
        SetEntry(id, entry.(status := terminal, settled := true));
        Publish(id, if terminal == Failed then FailedNotice else CancelledNotice);
        return;
      }
      if entry.status != Running {
        SetEntry(id, entry);
        return;
      }
      match outcome {
        case RunCompleted =>
          SetEntry(id, entry.(status := Completed, settled := true));
          Publish(id, CompletedNotice);
        case RunFailed =>
          SetEntry(id, entry.(status := Failed, settled := true));
          Publish(id, FailedNotice);
        case RunCancelled =>
          SetEntry(id, entry.(status := Cancelled, settled := true));
          Publish(id, CancelledNotice);
      }
    }

    method HandleRuntimeRejected(id: TaskId)
      requires Valid() && entries.Has(id)
      modifies this
      ensures Valid() && Develops() && View() == Reject(old(View()), id)
      ensures !Listens(old(View()), id) ==> View() == old(View())
      ensures Listens(old(View()), id) && old(entries).Get(id).status == Running ==>
                if old(entries).Get(id).cancelRequested || old(entries).Get(id).aborted
                then Ends(old(View()), View(), id, Cancelled, CancelledNotice)
                else Ends(old(View()), View(), id, Failed, FailedNotice)
    {
      RejectionOutcome(View(), id);
      RejectKeeps(View(), id);
      var entry := entries.Get(id);
      if entry.settled || IsTerminal(entry.status) {
        return;
      }
      if IsParked(entry.status) {
        SetEntry(id, entry.(settled := true));
        return;
      }
      var terminal := if entry.cancelRequested || entry.aborted then Cancelled else Failed;
      if !IsLegal(entry.status, terminal) && entry.status != Cancelling {
        return;
      }
      SetEntry(id, entry.(status := terminal, settled := true));
      Publish(id, if terminal == Failed then FailedNotice else CancelledNotice);
    }

    // ----------------------------------------------------------------
    // Recovery
    // ----------------------------------------------------------------

    method RestoreOne(item: Persisted, seen: set<TaskId>) returns (bucket: Bucket)
      requires Valid()
      modifies this
      ensures Valid() && Evolves(old(View()), View()) && View() == RecoverItem(old(View()), item, seen)
      ensures if Restorable(item, seen) && !old(entries).Has(item.id) then
                && entries.Has(item.id) && ComesBackAs(item, entries.Get(item.id).status)
                && Enters(old(View()), View(), item.id, item.project, entries.Get(item.id).status, item.attempt,
                          RecoveredNotice)
              else View() == old(View())
      ensures bucket == BucketOf(item, seen)
    {
      RecoveryOutcome(View(), item, seen);
      RecoverItemKeeps(View(), item, seen);
      if item.Unparsable? || item.id in seen || item.secret {
        return InRejected;
      }
      var disposition := ClassifyRecovery(item.status, item.attempt);
      if disposition == Abandoned {
        return InAbandoned;
      }
      bucket := if disposition == Resumable then InResumed else InAwaitingApproval;
      if entries.Has(item.id) {
        return;
      }
      var status := item.status;
      if disposition == Resumable {
        status := Queued;
      } else if status == Running || status == Queued || status == Cancelling {
        status := Paused;
      }
      entries := entries.Set(item.id, Entry(item.project, status, item.attempt, false, status == Paused, false, false,
                                            status == WaitingPermission, status == WaitingInput, None));
      Publish(item.id, RecoveredNotice);
    }

    /** Another caller gets in, or a delegate run ends. */
    method Perform(step: SchedulerModel.Step)
      requires Valid()
      modifies this
      ensures Valid() && View() == Next(old(View()), limits, step)
    {
      match step {
        case Start(input, id) => var _ := Start(input, id);
        case Pause(task, project) => var _ := Pause(task, project);
        case Resume(task, project) => var _ := Resume(task, project);
        case Cancel(task, project, text) => var _ := Cancel(task, project, text);
        case Respond(task, project, text) => var _ := RespondInput(task, project, text);
        case PermissionWaiting(task, project, text) => var _ := NotifyPermissionWaiting(task, project, text);
        case PermissionResolved(task, project, text) => var _ := NotifyPermissionResolved(task, project, text);
        case Schedule(throws) => Schedule(throws);
        case Settled(id, outcome, runId) =>
          if entries.Has(id) {
            HandleRuntimeSettled(id, outcome, runId);
          }
        case Rejected(id) =>
          if entries.Has(id) {
            HandleRuntimeRejected(id);
          }
        case Recover(item, seen) => var _ := RestoreOne(item, seen);
      }
    }

    /** The await after a restored record. */
    method AwaitOthers() returns (ghost steps: seq<SchedulerModel.Step>)
      requires Valid()
      modifies this
      ensures Valid() && View() == Run(old(View()), limits, steps)
    {
      steps := [];
      var others: seq<SchedulerModel.Step> := *;
      for i := 0 to |others|
        invariant Valid() && View() == Run(old(View()), limits, steps)
      {
        RunSnoc(old(View()), limits, steps, others[i]);
        Perform(others[i]);
        steps := steps + [others[i]];
      }
    }

    /**
     * Recovers the records in order; whatever comes in between, the summary
     * depends on the records alone.
     */
    method Recover(items: seq<Persisted>) returns (summary: Summary, ghost steps: seq<SchedulerModel.Step>)
      requires Valid()
      modifies this
      ensures Valid() && Recovers(steps, items, {}) && View() == Run(old(View()), limits, steps)
      ensures Evolves(old(View()), View())
      ensures summary == Summarize(items, {}, Summary(0, 0, 0, 0)) && summary.Total() == |items|
    {
      summary, steps := Summary(0, 0, 0, 0), [];
      var seen: set<TaskId> := {};
      for i := 0 to |items|
        invariant Valid() && View() == Run(old(View()), limits, steps)
        invariant seen == SeenUpTo(items, i) && Recovers(steps, items[..i], {})
        invariant Summarize(items, {}, Summary(0, 0, 0, 0)) == Summarize(items[i..], seen, summary)
      {
        assert items[i..][0] == items[i] && items[i..][1..] == items[i+1..];
        RunSnoc(old(View()), limits, steps, SchedulerModel.Recover(items[i], seen));
        var bucket := RestoreOne(items[i], seen);
        RecoversSnoc(steps, items, i);
        steps := steps + [SchedulerModel.Recover(items[i], seen)];
        summary := summary.Plus(bucket);
        if items[i].Parsed? {
          seen := seen + {items[i].id};
        }
        ghost var others := AwaitOthers();
        RunsOn(old(View()), limits, steps, others);
        RecoversLonger(steps, others, items[..i+1], {});
        steps := steps + others;
      }
      assert items[..|items|] == items;
      SummaryIsTotal(items, {}, Summary(0, 0, 0, 0));
      LifecycleOverRuns(old(View()), limits, steps);
    }
  }
}
