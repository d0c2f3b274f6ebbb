/**
 * What each operation of the scheduler does, told from outside: when it is
 * accepted, the status it gives, the one notice it publishes, and that it
 * touches no other task.
 */
module SchedulerOutcomes {
  import opened Seqs
  import opened JsMaps
  import opened BackgroundTasks
  import opened SchedulerModel
  import opened SchedulerProperties

  /** The caller names a task the manager knows, and its project. */
  predicate Addressed(s: State, task: RawTask, project: RawProject) {
    && task.TaskKey? && s.entries.Has(task.id)
    && project == ProjectKey(s.entries.Get(task.id).project)
  }

  ghost predicate OthersStay(s: State, s': State, id: TaskId) {
    forall k :: k != id ==> Stays(s, s', k)
  }

  predicate Stays(s: State, s': State, k: TaskId) {
    (s'.entries.Has(k) <==> s.entries.Has(k)) && (s.entries.Has(k) ==> s'.entries.Get(k) == s.entries.Get(k))
  }

  predicate Publishes(s: State, s': State, id: TaskId, notice: Notice, status: Status) {
    s'.log == s.log + [Emission(|s.log|, id, notice, status)]
  }

  /** One known task moves to this status with one notice; nothing else happens. */
  ghost predicate Moves(s: State, s': State, id: TaskId, status: Status, notice: Notice) {
    && s.entries.Has(id) && s'.entries.Has(id) && s'.entries.keys == s.entries.keys && OthersStay(s, s', id)
    && s'.entries.Get(id).status == status && Publishes(s, s', id, notice, status)
    && s'.entries.Get(id).project == s.entries.Get(id).project
    && s'.entries.Get(id).attempt == s.entries.Get(id).attempt && s'.launches == s.launches
  }

  /** It moves for good. */
  ghost predicate Ends(s: State, s': State, id: TaskId, status: Status, notice: Notice) {
    Moves(s, s', id, status, notice) && s'.entries.Get(id).settled && s'.cancels == s.cancels
  }

  /** One new task enters, last in line. */
  ghost predicate Enters(s: State, s': State, id: TaskId, project: ProjectId, status: Status, attempt: nat,
                         notice: Notice)
  {
    && !s.entries.Has(id) && s'.entries.Has(id) && s'.entries.keys == s.entries.keys + [id] && OthersStay(s, s', id)
    && s'.entries.Get(id).status == status && Publishes(s, s', id, notice, status)
    && s'.entries.Get(id).project == project && s'.entries.Get(id).attempt == attempt
    && !s'.entries.Get(id).settled && !s'.entries.Get(id).cancelRequested && !s'.entries.Get(id).aborted
    && s'.launches == s.launches && s'.cancels == s.cancels
  }

  /** Free text that passes its checks. */
  predicate Passes(text: Text) {
    text == Absent || text == Clean
  }

  // ------------------------------------------------------------------
  // Operations
  // ------------------------------------------------------------------

  /** A start is accepted for valid input under a new id, while a slot is free or the queue has room. */
  lemma StartOutcome(s: State, lim: Limits, input: StartInput, id: TaskId)
    ensures var (s', head) := StartHead(s, lim, input, id);
            && (head.Await? <==>
                  && input.ValidInput? && !s.entries.Has(id)
                  && (CanLaunch(s, lim, input.project) || Count(s, Waiting) < lim.maxQueue))
            && if head.Await? then Enters(s, s', id, input.project, Queued, 0, QueuedNotice) else s' == s
  {
  }

  /** Running and waiting tasks can be paused. */
  lemma PauseOutcome(s: State, task: RawTask, project: RawProject)
    ensures var (s', head) := PauseHead(s, task, project);
            && (head.Await? <==>
                  && Addressed(s, task, project)
                  && var now := s.entries.Get(task.id).status;
                     now == Running || now == WaitingPermission || now == WaitingInput)
            && if head.Await? then Moves(s, s', task.id, Paused, PausedNotice) && s'.cancels == s.cancels else s' == s
  {
  }

  lemma ResumeOutcome(s: State, task: RawTask, project: RawProject)
    ensures var (s', head) := ResumeHead(s, task, project);
            && (head.Await? <==> Addressed(s, task, project) && s.entries.Get(task.id).status == Paused)
            && if head.Await? then Moves(s, s', task.id, Queued, ResumedNotice) && s'.cancels == s.cancels else s' == s
  {
  }

  /** Any task that has not ended can be cancelled; the delegate is told unless the task was only queued. */
  lemma CancelOutcome(s: State, task: RawTask, project: RawProject, reason: Text)
    ensures var (s', head) := CancelHead(s, task, project, reason);
            && (head.Await? <==>
                  Addressed(s, task, project) && !IsTerminal(s.entries.Get(task.id).status) && Passes(reason))
            && if head.Await? then
                 && Moves(s, s', task.id, Cancelled, CancelledNotice)
                 && s'.entries.Get(task.id).settled && s'.entries.Get(task.id).cancelRequested
                 && s'.cancels == (if s.entries.Get(task.id).status == Queued then s.cancels else s.cancels + [task.id])
                 && (s.entries.Get(task.id).status != Queued ==> s'.entries.Get(task.id).aborted)
               else s' == s
  {
  }

  lemma RespondOutcome(s: State, task: RawTask, project: RawProject, response: Text)
    ensures var (s', head) := RespondHead(s, task, project, response);
            && (head.Await? <==>
                  Addressed(s, task, project) && s.entries.Get(task.id).status == WaitingInput && response == Clean)
            && if head.Await? then
                 Moves(s, s', task.id, Running, ResumedNotice) && s'.cancels == s.cancels
                 && !s'.entries.Get(task.id).pendingInput
               else s' == s
  {
  }

  lemma PermissionWaitingOutcome(s: State, task: RawTask, project: RawProject, detail: Text)
    ensures var (s', head) := PermissionWaitingHead(s, task, project, detail);
            && (head.Await? <==>
                  Addressed(s, task, project) && s.entries.Get(task.id).status == Running && Passes(detail))
            && if head.Await? then
                 Moves(s, s', task.id, WaitingPermission, WaitingPermissionNotice) && s'.cancels == s.cancels
                 && s'.entries.Get(task.id).pendingPermission
               else s' == s
  {
  }

  lemma PermissionResolvedOutcome(s: State, task: RawTask, project: RawProject, detail: Text)
    ensures var (s', head) := PermissionResolvedHead(s, task, project, detail);
            && (head.Await? <==>
                  Addressed(s, task, project) && s.entries.Get(task.id).status == WaitingPermission && Passes(detail))
            && if head.Await? then
                 Moves(s, s', task.id, Running, ResumedNotice) && s'.cancels == s.cancels
                 && !s'.entries.Get(task.id).pendingPermission
               else s' == s
  {
  }

  // ------------------------------------------------------------------
  // Launches
  // ------------------------------------------------------------------

  /** A queued task is launched exactly when both caps leave room. */
  lemma LaunchOutcome(s: State, lim: Limits, id: TaskId, throws: set<TaskId>)
    requires s.entries.Has(id)
    ensures var s' := Launch(s, lim, id, throws);
            if s.entries.Get(id).status == Queued && CanLaunch(s, lim, s.entries.Get(id).project) then
              && OthersStay(s, s', id) && s'.launches == s.launches + [id] && s'.cancels == s.cancels
              && s'.entries.Get(id).project == s.entries.Get(id).project
              && s'.entries.Get(id).attempt == s.entries.Get(id).attempt + 1 && !s'.entries.Get(id).aborted
              && var started := s.log + [Emission(|s.log|, id, StartedNotice, Running)];
                 if id in throws then
                   && s'.entries.Get(id).status == Failed && s'.entries.Get(id).settled
                   && s'.log == started + [Emission(|started|, id, FailedNotice, Failed)]
                 else
                   s'.entries.Get(id).status == Running && !s'.entries.Get(id).settled && s'.log == started
            else s' == s
  {
  }

  // ------------------------------------------------------------------
  // Settlements
  // ------------------------------------------------------------------

  /** The report of a delegate run counts: the task is known, has not ended, and heard of no end since its launch. */
  predicate Listens(s: State, id: TaskId) {
    s.entries.Has(id) && !s.entries.Get(id).settled && !IsTerminal(s.entries.Get(id).status)
  }

  /** A running task ends as its delegate run did. */
  lemma SettlementOutcome(s: State, id: TaskId, outcome: Outcome, runId: TaskId)
    ensures !Listens(s, id) ==> Settle(s, id, outcome, runId) == s
    ensures Listens(s, id) && s.entries.Get(id).status == Running ==>
              var s' := Settle(s, id, outcome, runId);
              match outcome
              case RunCompleted => Ends(s, s', id, Completed, CompletedNotice)
              case RunFailed => Ends(s, s', id, Failed, FailedNotice)
              case RunCancelled => Ends(s, s', id, Cancelled, CancelledNotice)
    ensures Listens(s, id) && IsParked(s.entries.Get(id).status) ==> Remembers(s, Settle(s, id, outcome, runId), id)
  {
  }

  /** A rejection of a running task's run cancels it if that was asked for, and else fails it. */
  lemma RejectionOutcome(s: State, id: TaskId)
    ensures !Listens(s, id) ==> Reject(s, id) == s
    ensures Listens(s, id) && s.entries.Get(id).status == Running ==>
              if s.entries.Get(id).cancelRequested || s.entries.Get(id).aborted
              then Ends(s, Reject(s, id), id, Cancelled, CancelledNotice)
              else Ends(s, Reject(s, id), id, Failed, FailedNotice)
    ensures Listens(s, id) && IsParked(s.entries.Get(id).status) ==> Remembers(s, Reject(s, id), id)
  {
  }

  /** A parked task keeps its status and remembers the report; nothing is published. */
  ghost predicate Remembers(s: State, s': State, id: TaskId) {
    && s'.entries.Has(id) && s'.entries.keys == s.entries.keys && OthersStay(s, s', id)
    && s'.entries.Get(id).settled && s.entries.Has(id) && s'.entries.Get(id).status == s.entries.Get(id).status
    && s'.log == s.log && s'.launches == s.launches && s'.cancels == s.cancels
  }

  // ------------------------------------------------------------------
  // Other projects
  // ------------------------------------------------------------------

  /** The task and project a caller names, if the step is a caller's. */
  function NamedBy(step: Step): Option<(RawTask, RawProject)> {
    match step
    case Pause(t, p) => Some((t, p))
    case Resume(t, p) => Some((t, p))
    case Cancel(t, p, _) => Some((t, p))
    case Respond(t, p, _) => Some((t, p))
    case PermissionWaiting(t, p, _) => Some((t, p))
    case PermissionResolved(t, p, _) => Some((t, p))
    case _ => None
  }

  /** An operation that does not name a known task and its own project changes nothing. */
  lemma StrangersChangeNothing(s: State, lim: Limits, step: Step)
    requires s.entries.Valid() && NamedBy(step).Some?
    requires !Addressed(s, NamedBy(step).value.0, NamedBy(step).value.1)
    ensures Next(s, lim, step) == s
  {
    match step
    case Pause(t, p) => PauseOutcome(s, t, p);
    case Resume(t, p) => ResumeOutcome(s, t, p);
    case Cancel(t, p, text) => CancelOutcome(s, t, p, text);
    case Respond(t, p, text) => RespondOutcome(s, t, p, text);
    case PermissionWaiting(t, p, text) => PermissionWaitingOutcome(s, t, p, text);
    case PermissionResolved(t, p, text) => PermissionResolvedOutcome(s, t, p, text);
  }

  // ------------------------------------------------------------------
  // Recovery
  // ------------------------------------------------------------------

  /** A record that is restored: readable, clean, first of its id, not of an ended task. */
  predicate Restorable(item: Persisted, seen: set<TaskId>) {
    && item.Parsed? && item.id !in seen && !item.secret
    && item.status != Completed && item.status != Failed && item.status != Cancelled
  }

  /** Queued and running tasks that were launched at most once come back queued. */
  predicate ComesBackQueued(item: Persisted) {
    item.Parsed? && (item.status == Queued || item.status == Running) && item.attempt <= 1
  }

  predicate ComesBackAs(item: Persisted, status: Status) {
    if ComesBackQueued(item) then status == Queued
    else if item.Parsed? && (item.status == WaitingPermission || item.status == WaitingInput)
    then status == item.status
    else status == Paused
  }

  /** A record enters the manager exactly if it is restorable and its task is not known yet. */
  lemma RecoveryOutcome(s: State, item: Persisted, seen: set<TaskId>)
    ensures var s' := RecoverItem(s, item, seen);
            if Restorable(item, seen) && !s.entries.Has(item.id) then
              exists status ::
                ComesBackAs(item, status) && Enters(s, s', item.id, item.project, status, item.attempt, RecoveredNotice)
            else s' == s
  {
    if Restorable(item, seen) && !s.entries.Has(item.id) {
      var status := RestoredStatus(item);
      assert ComesBackAs(item, status);
      assert Enters(s, RecoverItem(s, item, seen), item.id, item.project, status, item.attempt, RecoveredNotice);
    }
  }

  /** The record goes into the batch under an id no record before it had. */
  predicate FirstOfItsId(items: seq<Persisted>, i: nat)
    requires i < |items|
  {
    items[i].Parsed? && forall j :: 0 <= j < i && items[j].Parsed? ==> items[j].id != items[i].id
  }

  lemma {:induction false} KnownStays(s: State, items: seq<Persisted>, seen: set<TaskId>, id: TaskId)
    requires s.entries.Has(id)
    ensures RecoverAll(s, items, seen).entries.Has(id)
    ensures RecoverAll(s, items, seen).entries.Get(id) == s.entries.Get(id)
    decreases |items|
  {
    if items != [] {
      RecoveryOutcome(s, items[0], seen);
      assert items[0].Parsed? ==> items[0].id == id || Stays(s, RecoverItem(s, items[0], seen), id);
      KnownStays(RecoverItem(s, items[0], seen), items[1..], SeenAfter(items[0], seen), id);
    }
  }

  /** After a batch, the task of a restorable record is there as that record says. */
  lemma {:induction false} BatchRestores(s: State, items: seq<Persisted>, seen: set<TaskId>, i: nat)
    requires i < |items| && FirstOfItsId(items, i) && Restorable(items[i], seen) && !s.entries.Has(items[i].id)
    ensures var s' := RecoverAll(s, items, seen);
            && s'.entries.Has(items[i].id) && ComesBackAs(items[i], s'.entries.Get(items[i].id).status)
            && s'.entries.Get(items[i].id).project == items[i].project
            && s'.entries.Get(items[i].id).attempt == items[i].attempt
    decreases |items|
  {
    var s1, seen1 := RecoverItem(s, items[0], seen), SeenAfter(items[0], seen);
    RecoveryOutcome(s, items[0], seen);
    if i == 0 {
      KnownStays(s1, items[1..], seen1, items[0].id);
    } else {
      assert items[0].Parsed? ==> items[0].id != items[i].id;
      assert Stays(s, s1, items[i].id);
      BatchRestores(s1, items[1..], seen1, i - 1);
    }
  }
}
