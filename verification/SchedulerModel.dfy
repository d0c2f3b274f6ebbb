/**
 * The background scheduler as a transition system. Every operation is an
 * atomic head, up to its first await; the scheduling pass that follows it, and
 * settlements of delegate runs, are steps of their own, so that runs of this
 * system are the interleavings of the manager.
 */
module SchedulerModel {
  import opened Seqs
  import opened JsMaps
  import opened BackgroundTasks

  datatype TaskId = TaskId(raw: string)
  datatype ProjectId = ProjectId(raw: string)

  datatype Limits = Limits(maxTasks: int, maxPerProject: int, maxQueue: int)

  datatype Entry = Entry(
    project: ProjectId, status: Status, attempt: nat, settled: bool,
    pauseRequested: bool, cancelRequested: bool, aborted: bool,
    pendingPermission: bool, pendingInput: bool, runtimeTaskId: Option<TaskId>)

  datatype Notice =
    | QueuedNotice | StartedNotice | WaitingPermissionNotice | PausedNotice | ResumedNotice
    | CompletedNotice | FailedNotice | CancelledNotice | RecoveredNotice

  datatype Emission = Emission(sequence: nat, task: TaskId, notice: Notice, status: Status)

  datatype Change = Change(task: TaskId, from: Status, to: Status)

  /**
   * `log` is what was handed to the event sink; `launches` and `cancels` are
   * the calls made on the delegate; `changes` is the history of status writes.
   */
  datatype State = State(
    entries: JsMap<TaskId, Entry>, log: seq<Emission>, changes: seq<Change>,
    launches: seq<TaskId>, cancels: seq<TaskId>)

  function Initial(): State {
    State(Empty(), [], [], [], [])
  }

  // ------------------------------------------------------------------
  // Inputs and answers
  // ------------------------------------------------------------------

  datatype ErrorCode =
    | NotFound | ProjectMismatch | InvalidTransition | QueueFull | TaskActive | SecretRefused | ValidationError

  datatype Answer = Ok(entry: Entry) | Err(code: ErrorCode)

  /** What a head leaves to do: answer now, or await and then maybe schedule. */
  datatype Head = Done(answer: Answer) | Await(id: TaskId, thenSchedule: bool)

  /** Identifiers as callers pass them; shape checks reduce to `Malformed`. */
  datatype RawTask = MalformedTask | TaskKey(id: TaskId)
  datatype RawProject = MalformedProject | ProjectKey(project: ProjectId)

  /** Optional free text after its type and secret checks. */
  datatype Text = Absent | NotAString | Secret | Clean

  datatype StartInput = InvalidInput | SecretInput | DangerousProject | ValidInput(project: ProjectId)

  datatype Outcome = RunCompleted | RunFailed | RunCancelled

  /** A persisted record after schema parsing. */
  datatype Persisted = Unparsable | Parsed(id: TaskId, project: ProjectId, status: Status, attempt: nat, secret: bool)

  // ------------------------------------------------------------------
  // Counting
  // ------------------------------------------------------------------

  /** What the manager counts: worker slots, slots of a project, queued entries. */
  datatype Tally = Slots | SlotsOf(project: ProjectId) | Waiting

  predicate CountsIn(t: Tally, e: Entry) {
    match t
    case Slots => HoldsSlot(e.status)
    case SlotsOf(p) => e.project == p && HoldsSlot(e.status)
    case Waiting => e.status == Queued
  }

  function CountAmong(keys: seq<TaskId>, vals: map<TaskId, Entry>, t: Tally): nat {
    if keys == [] then 0
    else
      var k := keys[|keys|-1];
      CountAmong(keys[..|keys|-1], vals, t) + if k in vals && CountsIn(t, vals[k]) then 1 else 0
  }

  function Count(s: State, t: Tally): nat {
    CountAmong(s.entries.keys, s.entries.vals, t)
  }

  predicate CanLaunch(s: State, lim: Limits, project: ProjectId) {
    Count(s, Slots) < lim.maxTasks && Count(s, SlotsOf(project)) < lim.maxPerProject
  }

  // ------------------------------------------------------------------
  // Elementary writes
  // ------------------------------------------------------------------

  /** Replaces an entry; a changed status goes into the history. */
  function Write(s: State, id: TaskId, e: Entry): State
    requires s.entries.Has(id)
  {
    var from := s.entries.Get(id).status;
    s.(entries := s.entries.Set(id, e),
       changes := if from == e.status then s.changes else s.changes + [Change(id, from, e.status)])
  }

  function Emit(s: State, id: TaskId, notice: Notice): State
    requires s.entries.Has(id)
  {
    s.(log := s.log + [Emission(|s.log|, id, notice, s.entries.Get(id).status)])
  }

  function WriteAndEmit(s: State, id: TaskId, e: Entry, notice: Notice): State
    requires s.entries.Has(id)
  {
    Emit(Write(s, id, e), id, notice)
  }

  function Insert(s: State, id: TaskId, e: Entry, notice: Notice): State {
    Emit(s.(entries := s.entries.Set(id, e)), id, notice)
  }

  function Lookup(s: State, task: RawTask, project: RawProject): Answer {
    match task
    case MalformedTask => Err(ValidationError)
    case TaskKey(id) =>
      if !s.entries.Has(id) then Err(NotFound)
      else
        match project
        case MalformedProject => Err(ValidationError)
        case ProjectKey(p) => if s.entries.Get(id).project != p then Err(ProjectMismatch) else Ok(s.entries.Get(id))
  }

  // ------------------------------------------------------------------
  // Heads of the operations
  // ------------------------------------------------------------------

  function FreshEntry(project: ProjectId, status: Status, attempt: nat): Entry {
    Entry(project, status, attempt, false, status == Paused, false, false,
          status == WaitingPermission, status == WaitingInput, None)
  }

  function StartHead(s: State, lim: Limits, input: StartInput, id: TaskId): (State, Head) {
    match input
    case InvalidInput => (s, Done(Err(ValidationError)))
    case SecretInput => (s, Done(Err(SecretRefused)))
    case DangerousProject => (s, Done(Err(ValidationError)))
    case ValidInput(project) =>
      if !CanLaunch(s, lim, project) && Count(s, Waiting) >= lim.maxQueue then (s, Done(Err(QueueFull)))
      else if s.entries.Has(id) then (s, Done(Err(TaskActive)))
      else (Insert(s, id, FreshEntry(project, Queued, 0), QueuedNotice), Await(id, true))
  }

  function PauseHead(s: State, task: RawTask, project: RawProject): (State, Head) {
    var found := Lookup(s, task, project);
    if found.Err? then (s, Done(found))
    else
      var e := found.entry;
      if e.status == Paused then (s, Done(Ok(e)))
      else if IsTerminal(e.status) || e.status == Queued || e.status == Cancelling then
        (s, Done(Err(InvalidTransition)))
      else if !IsLegal(e.status, Paused) then (s, Done(Err(InvalidTransition)))
      else (WriteAndEmit(s, task.id, e.(status := Paused, pauseRequested := true), PausedNotice), Await(task.id, true))
  }

  function ResumeHead(s: State, task: RawTask, project: RawProject): (State, Head) {
    var found := Lookup(s, task, project);
    if found.Err? then (s, Done(found))
    else
      var e := found.entry;
      if e.status != Paused then (s, Done(Err(InvalidTransition)))
      else
        (WriteAndEmit(s, task.id, e.(status := Queued, pauseRequested := false), ResumedNotice), Await(task.id, true))
  }

  /** One downward cancel intent: the delegate is told and the signal aborted. */
  function Propagate(s: State, id: TaskId): State
    requires s.entries.Has(id)
  {
    s.(cancels := s.cancels + [id],
       entries := s.entries.Set(id, s.entries.Get(id).(aborted := true)))
  }

  function CancelHead(s: State, task: RawTask, project: RawProject, reason: Text): (State, Head) {
    var found := Lookup(s, task, project);
    if found.Err? then (s, Done(found))
    else
      var e := found.entry;
      if e.status == Cancelled then (s, Done(Ok(e)))
      else if IsTerminal(e.status) then (s, Done(Err(InvalidTransition)))
      else if reason == NotAString then (s, Done(Err(ValidationError)))
      else if reason == Secret then (s, Done(Err(SecretRefused)))
      else if e.status == Queued then
        (WriteAndEmit(s, task.id, e.(status := Cancelled, cancelRequested := true, settled := true), CancelledNotice),
         Await(task.id, true))
      else if e.status == Running then
        var s1 := Propagate(Write(s, task.id, e.(status := Cancelling, cancelRequested := true)), task.id);
        (WriteAndEmit(s1, task.id, s1.entries.Get(task.id).(status := Cancelled, settled := true), CancelledNotice),
         Await(task.id, true))
      else if !IsLegal(e.status, Cancelled) then (s, Done(Err(InvalidTransition)))
      else
        var s1 := Propagate(Write(s, task.id, e.(cancelRequested := true)), task.id);
        (WriteAndEmit(s1, task.id, s1.entries.Get(task.id).(status := Cancelled, settled := true), CancelledNotice),
         Await(task.id, true))
  }

  /** `response` covers the string, length and secret checks done before lookup. */
  function RespondHead(s: State, task: RawTask, project: RawProject, response: Text): (State, Head) {
    if response == Absent || response == NotAString then (s, Done(Err(ValidationError)))
    else if response == Secret then (s, Done(Err(SecretRefused)))
    else
      var found := Lookup(s, task, project);
      if found.Err? then (s, Done(found))
      else if found.entry.status != WaitingInput then (s, Done(Err(InvalidTransition)))
      else (WriteAndEmit(s, task.id, found.entry.(status := Running, pendingInput := false), ResumedNotice),
            Await(task.id, false))
  }

  function PermissionWaitingHead(s: State, task: RawTask, project: RawProject, detail: Text): (State, Head) {
    var found := Lookup(s, task, project);
    if found.Err? then (s, Done(found))
    else
      var e := found.entry;
      if e.status == WaitingPermission then (s, Done(Ok(e)))
      else if e.status != Running then (s, Done(Err(InvalidTransition)))
      else if detail == NotAString then (s, Done(Err(ValidationError)))
      else if detail == Secret then (s, Done(Err(SecretRefused)))
      else
        (WriteAndEmit(s, task.id, e.(status := WaitingPermission, pendingPermission := true), WaitingPermissionNotice),
         Await(task.id, false))
  }

  function PermissionResolvedHead(s: State, task: RawTask, project: RawProject, detail: Text): (State, Head) {
    var found := Lookup(s, task, project);
    if found.Err? then (s, Done(found))
    else
      var e := found.entry;
      if e.status != WaitingPermission then (s, Done(Err(InvalidTransition)))
      else if detail == NotAString then (s, Done(Err(ValidationError)))
      else if detail == Secret then (s, Done(Err(SecretRefused)))
      else (WriteAndEmit(s, task.id, e.(status := Running, pendingPermission := false), ResumedNotice),
            Await(task.id, false))
  }

  // ------------------------------------------------------------------
  // Scheduling
  // ------------------------------------------------------------------

  /** A delegate that throws instead of returning a promise fails the launch. */
  function LaunchThrow(s: State, id: TaskId): (r: State)
    requires s.entries.Has(id)
    ensures r.entries.keys == s.entries.keys && r.entries.vals.Keys == s.entries.vals.Keys
  {
    var e := s.entries.Get(id);
    if e.settled || IsTerminal(e.status) then s
    else if e.status == Paused then Write(s, id, e.(settled := true))
    else if !IsLegal(e.status, Failed) then s
    else WriteAndEmit(s, id, e.(status := Failed, settled := true), FailedNotice)
  }

  function Started(e: Entry): Entry {
    e.(status := Running, attempt := e.attempt + 1, pauseRequested := false, settled := false, aborted := false)
  }

  /** The entry starts running, says so, and the delegate is called. */
  function Begin(s: State, id: TaskId): (r: State)
    requires s.entries.Has(id)
    ensures r.entries.keys == s.entries.keys && r.entries.vals.Keys == s.entries.vals.Keys
  {
    var s1 := WriteAndEmit(s, id, Started(s.entries.Get(id)), StartedNotice);
    s1.(launches := s1.launches + [id])
  }

  function Launch(s: State, lim: Limits, id: TaskId, throws: set<TaskId>): (r: State)
    requires s.entries.Has(id)
    ensures r.entries.keys == s.entries.keys && r.entries.vals.Keys == s.entries.vals.Keys
  {
    if s.entries.Get(id).status != Queued || !CanLaunch(s, lim, s.entries.Get(id).project) then s
    else if id in throws then LaunchThrow(Begin(s, id), id)
    else Begin(s, id)
  }

  lemma PassTail(s: State, s1: State, ids: seq<TaskId>)
    requires ids != [] && forall id :: id in ids ==> s.entries.Has(id)
    requires s1.entries.vals.Keys == s.entries.vals.Keys
    ensures forall id :: id in ids[1..] ==> s1.entries.Has(id)
  {
    forall id | id in ids[1..] ensures s1.entries.Has(id) {
      assert id in ids && id in s.entries.vals.Keys;
    }
  }

  /** One left-to-right pass over the entries. */
  function Pass(s: State, lim: Limits, ids: seq<TaskId>, throws: set<TaskId>): (r: State)
    requires forall id :: id in ids ==> s.entries.Has(id)
    ensures r.entries.keys == s.entries.keys && r.entries.vals.Keys == s.entries.vals.Keys
    decreases |ids|
  {
    if ids == [] then s
    else
      var s1 := Launch(s, lim, ids[0], throws);
      PassTail(s, s1, ids);
      Pass(s1, lim, ids[1..], throws)
  }

  // ------------------------------------------------------------------
  // Settlements
  // ------------------------------------------------------------------

  function Settle(s: State, id: TaskId, outcome: Outcome, runId: TaskId): State {
    if !s.entries.Has(id) then s
    else
      var e := s.entries.Get(id);
      if e.settled || IsTerminal(e.status) then s
      else
        var e1 := e.(runtimeTaskId := Some(runId));
        if IsParked(e.status) then Write(s, id, e1.(settled := true))
        else if e.status == Cancelling then
          var terminal := if outcome == RunFailed then Failed else Cancelled;
          WriteAndEmit(s, id, e1.(status := terminal, settled := true),
                       if outcome == RunFailed then FailedNotice else CancelledNotice)
        else if e.status != Running then Write(s, id, e1)
        else
          match outcome
          case RunCompleted => WriteAndEmit(s, id, e1.(status := Completed, settled := true), CompletedNotice)
          case RunFailed => WriteAndEmit(s, id, e1.(status := Failed, settled := true), FailedNotice)
          case RunCancelled => WriteAndEmit(s, id, e1.(status := Cancelled, settled := true), CancelledNotice)
  }

  function Reject(s: State, id: TaskId): State {
    if !s.entries.Has(id) then s
    else
      var e := s.entries.Get(id);
      if e.settled || IsTerminal(e.status) then s
      else if IsParked(e.status) then Write(s, id, e.(settled := true))
      else
        var terminal := if e.cancelRequested || e.aborted then Cancelled else Failed;
        if !IsLegal(e.status, terminal) && e.status != Cancelling then s
        else WriteAndEmit(s, id, e.(status := terminal, settled := true),
                          if terminal == Failed then FailedNotice else CancelledNotice)
  }

  // ------------------------------------------------------------------
  // Recovery
  // ------------------------------------------------------------------

  datatype Bucket = InResumed | InAwaitingApproval | InAbandoned | InRejected

  function BucketOf(item: Persisted, seen: set<TaskId>): Bucket {
    if item.Unparsable? || item.id in seen || item.secret then InRejected
    else
      match ClassifyRecovery(item.status, item.attempt)
      case Abandoned => InAbandoned
      case Resumable => InResumed
      case RequiresApproval => InAwaitingApproval
  }

  function RestoredStatus(item: Persisted): Status
    requires item.Parsed?
  {
    if ClassifyRecovery(item.status, item.attempt) == Resumable then Queued
    else if item.status == Running || item.status == Queued || item.status == Cancelling then Paused
    else item.status
  }

  function RecoverItem(s: State, item: Persisted, seen: set<TaskId>): State {
    var b := BucketOf(item, seen);
    if b == InRejected || b == InAbandoned || s.entries.Has(item.id) then s
    else Insert(s, item.id, FreshEntry(item.project, RestoredStatus(item), item.attempt), RecoveredNotice)
  }

  function SeenAfter(item: Persisted, seen: set<TaskId>): set<TaskId> {
    if item.Parsed? then seen + {item.id} else seen
  }

  function RecoverAll(s: State, items: seq<Persisted>, seen: set<TaskId>): State
    decreases |items|
  {
    if items == [] then s
    else RecoverAll(RecoverItem(s, items[0], seen), items[1..], SeenAfter(items[0], seen))
  }

  datatype Summary = Summary(resumed: nat, awaitingApproval: nat, abandoned: nat, rejected: nat)
  {
    function Plus(b: Bucket): Summary {
      match b
      case InResumed => this.(resumed := resumed + 1)
      case InAwaitingApproval => this.(awaitingApproval := awaitingApproval + 1)
      case InAbandoned => this.(abandoned := abandoned + 1)
      case InRejected => this.(rejected := rejected + 1)
    }

    function Total(): nat {
      resumed + awaitingApproval + abandoned + rejected
    }
  }

  /** The summary, from the input alone. */
  function Summarize(items: seq<Persisted>, seen: set<TaskId>, acc: Summary): Summary {
    if items == [] then acc
    else Summarize(items[1..], SeenAfter(items[0], seen), acc.Plus(BucketOf(items[0], seen)))
  }

  // ------------------------------------------------------------------
  // Steps and runs
  // ------------------------------------------------------------------

  datatype Step =
    | Start(input: StartInput, id: TaskId)
    | Pause(task: RawTask, project: RawProject)
    | Resume(task: RawTask, project: RawProject)
    | Cancel(task: RawTask, project: RawProject, text: Text)
    | Respond(task: RawTask, project: RawProject, text: Text)
    | PermissionWaiting(task: RawTask, project: RawProject, text: Text)
    | PermissionResolved(task: RawTask, project: RawProject, text: Text)
    | Schedule(throws: set<TaskId>)
    | Settled(id: TaskId, outcome: Outcome, runId: TaskId)
    | Rejected(id: TaskId)
    | Recover(item: Persisted, seen: set<TaskId>)

  function Next(s: State, lim: Limits, step: Step): State
    requires s.entries.Valid()
  {
    match step
    case Start(input, id) => StartHead(s, lim, input, id).0
    case Pause(t, p) => PauseHead(s, t, p).0
    case Resume(t, p) => ResumeHead(s, t, p).0
    case Cancel(t, p, text) => CancelHead(s, t, p, text).0
    case Respond(t, p, text) => RespondHead(s, t, p, text).0
    case PermissionWaiting(t, p, text) => PermissionWaitingHead(s, t, p, text).0
    case PermissionResolved(t, p, text) => PermissionResolvedHead(s, t, p, text).0
    case Schedule(throws) => Pass(s, lim, s.entries.keys, throws)
    case Settled(id, outcome, runId) => Settle(s, id, outcome, runId)
    case Rejected(id) => Reject(s, id)
    case Recover(item, seen) => RecoverItem(s, item, seen)
  }
}
