/** What every step, and so every interleaved run, of the scheduler keeps. */
module SchedulerProperties {
  import opened Seqs
  import opened JsMaps
  import opened BackgroundTasks
  import opened SchedulerModel

  // ------------------------------------------------------------------
  // Counting
  // ------------------------------------------------------------------

  function One(b: bool): nat { if b then 1 else 0 }

  lemma {:induction false} CountElsewhere(keys: seq<TaskId>, vals: map<TaskId, Entry>, vals': map<TaskId, Entry>,
                                          t: Tally)
    requires forall k :: k in keys ==> (k in vals <==> k in vals') && (k in vals ==> vals[k] == vals'[k])
    ensures CountAmong(keys, vals, t) == CountAmong(keys, vals', t)
  {
    if keys != [] {
      assert keys[|keys|-1] in keys;
      CountElsewhere(keys[..|keys|-1], vals, vals', t);
    }
  }

  lemma {:induction false} CountUpdate(keys: seq<TaskId>, vals: map<TaskId, Entry>, id: TaskId, e: Entry, t: Tally)
    requires Distinct(keys) && id in keys && id in vals
    ensures CountAmong(keys, vals[id := e], t) + One(CountsIn(t, vals[id]))
            == CountAmong(keys, vals, t) + One(CountsIn(t, e))
  {
    var n := |keys| - 1;
    if keys[n] == id {
      assert forall k :: k in keys[..n] ==> k != id;
      CountElsewhere(keys[..n], vals, vals[id := e], t);
    } else {
      assert id in keys[..n] by { assert keys == keys[..n] + [keys[n]]; }
      CountUpdate(keys[..n], vals, id, e, t);
    }
  }

  /** Inserting or replacing one entry moves each count by at most that entry. */
  lemma CountSet(m: JsMap<TaskId, Entry>, id: TaskId, e: Entry, t: Tally)
    requires m.Valid()
    ensures var m' := m.Set(id, e);
            CountAmong(m'.keys, m'.vals, t) + (if m.Has(id) then One(CountsIn(t, m.Get(id))) else 0)
            == CountAmong(m.keys, m.vals, t) + One(CountsIn(t, e))
  {
    if m.Has(id) {
      CountUpdate(m.keys, m.vals, id, e, t);
    } else {
      var m' := m.Set(id, e);
      assert m'.keys[..|m'.keys|-1] == m.keys;
      CountElsewhere(m.keys, m.vals, m'.vals, t);
    }
  }

  // ------------------------------------------------------------------
  // The invariant
  // ------------------------------------------------------------------

  predicate IsTerminalNotice(n: Notice) {
    n == CompletedNotice || n == FailedNotice || n == CancelledNotice
  }

  /** The status an emission may carry. */
  predicate Fits(n: Notice, s: Status) {
    match n
    case QueuedNotice => s == Queued
    case StartedNotice => s == Running
    case WaitingPermissionNotice => s == WaitingPermission
    case PausedNotice => s == Paused
    case ResumedNotice => s == Queued || s == Running
    case CompletedNotice => s == Completed
    case FailedNotice => s == Failed
    case CancelledNotice => s == Cancelled
    case RecoveredNotice => s == Queued || IsParked(s)
  }

  function TerminalNotices(log: seq<Emission>, id: TaskId): nat {
    if log == [] then 0
    else TerminalNotices(log[..|log|-1], id)
         + One(log[|log|-1].task == id && IsTerminalNotice(log[|log|-1].notice))
  }

  function StartNotices(log: seq<Emission>, id: TaskId): nat {
    if log == [] then 0
    else StartNotices(log[..|log|-1], id) + One(log[|log|-1].task == id && log[|log|-1].notice == StartedNotice)
  }

  ghost predicate EntryOk(e: Entry) {
    && e.status != Cancelling
    && (IsTerminal(e.status) ==> e.settled)
    && (e.cancelRequested || e.aborted ==> e.status == Cancelled)
  }

  /** The books of one task: its entry, its notices, its delegate calls. */
  ghost predicate BooksOk(s: State, id: TaskId) {
    var terminal := id in s.entries.vals && IsTerminal(s.entries.vals[id].status);
    var cancelled := id in s.entries.vals && s.entries.vals[id].status == Cancelled;
    && (id in s.entries.vals ==> EntryOk(s.entries.vals[id]))
    && TerminalNotices(s.log, id) == One(terminal)
    && multiset(s.launches)[id] == StartNotices(s.log, id)
    && multiset(s.cancels)[id] <= One(cancelled)
  }

  ghost predicate LogOk(log: seq<Emission>) {
    forall i :: 0 <= i < |log| ==> log[i].sequence == i && Fits(log[i].notice, log[i].status)
  }

  ghost predicate ChangesLegal(changes: seq<Change>) {
    forall i :: 0 <= i < |changes| ==> IsLegal(changes[i].from, changes[i].to)
  }

  ghost predicate Invariant(s: State) {
    s.entries.Valid() && LogOk(s.log) && ChangesLegal(s.changes) && forall id :: BooksOk(s, id)
  }

  /** Follows the recorded changes of one task; None if they do not connect. */
  function Follow(changes: seq<Change>, id: TaskId, from: Status): Option<Status> {
    if changes == [] then Some(from)
    else
      var before := Follow(changes[..|changes|-1], id, from);
      var c := changes[|changes|-1];
      if c.task != id then before
      else if before == Some(c.from) then Some(c.to)
      else None
  }

  lemma {:induction false} FollowConcat(a: seq<Change>, b: seq<Change>, id: TaskId, from: Status, mid: Status)
    requires Follow(a, id, from) == Some(mid)
    ensures Follow(a + b, id, from) == Follow(b, id, mid)
  {
    if b == [] {
      assert a + b == a;
    } else {
      assert (a + b)[..|a+b|-1] == a + b[..|b|-1];
      FollowConcat(a, b[..|b|-1], id, from, mid);
    }
  }

  /** `tail` holds the changes and `starts` the started notices in between. */
  ghost predicate EntryEvolves(id: TaskId, e: Entry, e': Entry, tail: seq<Change>, starts: int) {
    && e'.project == e.project
    && (IsTerminal(e.status) ==> e' == e)
    && Follow(tail, id, e.status) == Some(e'.status)
    && e'.attempt == e.attempt + starts
  }

  ghost predicate TaskEvolves(s: State, s': State, id: TaskId)
    requires |s.changes| <= |s'.changes|
  {
    id in s.entries.vals ==>
      && id in s'.entries.vals
      && EntryEvolves(id, s.entries.vals[id], s'.entries.vals[id], s'.changes[|s.changes|..],
                      StartNotices(s'.log, id) - StartNotices(s.log, id))
  }

  /**
   * How entries may develop: they stay, in place, in their project; a terminal
   * entry is frozen; a status moves along the recorded changes; attempts grow
   * by the number of started notices.
   */
  ghost predicate Evolves(s: State, s': State) {
    && s.entries.keys <= s'.entries.keys
    && s.changes <= s'.changes && s.log <= s'.log
    && forall id :: TaskEvolves(s, s', id)
  }

  lemma EvolvesTransitive(a: State, b: State, c: State)
    requires Evolves(a, b) && Evolves(b, c)
    ensures Evolves(a, c)
  {
    var ab, bc := b.changes[|a.changes|..], c.changes[|b.changes|..];
    assert c.changes[|a.changes|..] == ab + bc;
    forall id ensures TaskEvolves(a, c, id) {
      assert TaskEvolves(a, b, id) && TaskEvolves(b, c, id);
      if id in a.entries.vals {
        FollowConcat(ab, bc, id, a.entries.vals[id].status, b.entries.vals[id].status);
      }
    }
  }

  lemma EvolvesReflexive(s: State)
    ensures Evolves(s, s)
  {
    assert s.changes[|s.changes|..] == [];
    forall id ensures TaskEvolves(s, s, id) {}
  }

  /** The step from `s` to `s'` writes entry `id` and emits `x` about it. */
  ghost predicate OneWrite(s: State, s': State, id: TaskId, e': Entry, x: Emission, changes: seq<Change>) {
    && s'.entries == s.entries.Set(id, e')
    && s'.log == s.log + [x] && x.task == id
    && s'.changes == s.changes + changes
  }

  lemma OneWriteEvolves(s: State, s': State, id: TaskId, e': Entry, x: Emission, changes: seq<Change>, k: TaskId)
    requires OneWrite(s, s', id, e', x, changes)
    requires id in s.entries.vals ==>
               && !IsTerminal(s.entries.vals[id].status) && e'.project == s.entries.vals[id].project
               && e'.attempt == s.entries.vals[id].attempt + One(x.notice == StartedNotice)
    requires k in s.entries.vals ==>
               Follow(changes, k, s.entries.vals[k].status)
               == Some(if k == id then e'.status else s.entries.vals[k].status)
    ensures TaskEvolves(s, s', k)
  {
    assert s'.changes[|s.changes|..] == changes;
  }

  /** One legal status change of a live entry together with its emission. */
  ghost predicate GoodUpdate(e: Entry, e': Entry, notice: Notice) {
    && !IsTerminal(e.status) && IsLegal(e.status, e'.status)
    && e'.project == e.project
    && e'.attempt == e.attempt + One(notice == StartedNotice)
    && EntryOk(e') && Fits(notice, e'.status)
  }

  /** Recorded changes that take `id` from one status to another, and no other task anywhere. */
  ghost predicate Leads(changes: seq<Change>, id: TaskId, from: Status, to: Status) {
    forall k, st :: (k == id ==> st == from) ==> Follow(changes, k, st) == Some(if k == id then to else st)
  }

  lemma OneWriteKeeps(s: State, s': State, id: TaskId, e': Entry, x: Emission, changes: seq<Change>)
    requires Invariant(s) && s.entries.Has(id) && OneWrite(s, s', id, e', x, changes)
    requires !IsTerminal(s.entries.Get(id).status) && e'.project == s.entries.Get(id).project
    requires e'.attempt == s.entries.Get(id).attempt + One(x.notice == StartedNotice)
    requires EntryOk(e') && (IsTerminal(e'.status) <==> IsTerminalNotice(x.notice))
    requires x.sequence == |s.log| && Fits(x.notice, x.status)
    requires ChangesLegal(changes) && Leads(changes, id, s.entries.Get(id).status, e'.status)
    requires s'.launches == if x.notice == StartedNotice then s.launches + [id] else s.launches
    requires s'.cancels == s.cancels || (s'.cancels == s.cancels + [id] && e'.status == Cancelled)
    ensures Invariant(s') && Evolves(s, s')
  {
    forall k ensures BooksOk(s', k) {
      assert BooksOk(s, k);
    }
    forall k ensures TaskEvolves(s, s', k) {
      OneWriteEvolves(s, s', id, e', x, changes, k);
    }
  }

  lemma UpdateKeeps(s: State, id: TaskId, e': Entry, notice: Notice)
    requires Invariant(s) && s.entries.Has(id)
    requires GoodUpdate(s.entries.Get(id), e', notice)
    ensures var s1 := WriteAndEmit(s, id, e', notice);
            var s' := if notice == StartedNotice then s1.(launches := s1.launches + [id]) else s1;
            Invariant(s') && Evolves(s, s')
  {
    var s1 := WriteAndEmit(s, id, e', notice);
    var s' := if notice == StartedNotice then s1.(launches := s1.launches + [id]) else s1;
    var c := Change(id, s.entries.Get(id).status, e'.status);
    forall k, st ensures Follow([c], k, st) == if k != id then Some(st) else if st == c.from then Some(c.to) else None {
    }
    OneWriteKeeps(s, s', id, e', Emission(|s.log|, id, notice, e'.status), [c]);
  }

  /** A write that keeps status, project, attempt and the absence of cancel marks. */
  lemma QuietWriteKeeps(s: State, id: TaskId, e': Entry)
    requires Invariant(s) && s.entries.Has(id) && EntryOk(e')
    requires var e := s.entries.Get(id);
             !IsTerminal(e.status) && e'.status == e.status && e'.project == e.project && e'.attempt == e.attempt
    ensures Invariant(Write(s, id, e')) && Evolves(s, Write(s, id, e'))
  {
    var s' := Write(s, id, e');
    assert s'.changes[|s.changes|..] == [];
    forall k ensures BooksOk(s', k) && TaskEvolves(s, s', k) { assert BooksOk(s, k); }
  }

  lemma InsertKeeps(s: State, id: TaskId, e: Entry, notice: Notice)
    requires Invariant(s) && !s.entries.Has(id)
    requires EntryOk(e) && !IsTerminal(e.status) && Fits(notice, e.status)
    requires notice == QueuedNotice || notice == RecoveredNotice
    ensures Invariant(Insert(s, id, e, notice)) && Evolves(s, Insert(s, id, e, notice))
  {
    var s' := Insert(s, id, e, notice);
    var x := Emission(|s.log|, id, notice, e.status);
    assert OneWrite(s, s', id, e, x, []);
    forall k ensures BooksOk(s', k) && TaskEvolves(s, s', k) {
      assert BooksOk(s, k);
      OneWriteEvolves(s, s', id, e, x, [], k);
    }
  }

  // ------------------------------------------------------------------
  // Each step
  // ------------------------------------------------------------------

  lemma LaunchThrowKeeps(s: State, id: TaskId)
    requires Invariant(s) && s.entries.Has(id)
    ensures Invariant(LaunchThrow(s, id)) && Evolves(s, LaunchThrow(s, id))
  {
    var e := s.entries.Get(id);
    EvolvesReflexive(s);
    assert BooksOk(s, id);
    if !e.settled && !IsTerminal(e.status) {
      if e.status == Paused {
        QuietWriteKeeps(s, id, e.(settled := true));
      } else if IsLegal(e.status, Failed) {
        UpdateKeeps(s, id, e.(status := Failed, settled := true), FailedNotice);
      }
    }
  }

  lemma BeginKeeps(s: State, id: TaskId)
    requires Invariant(s) && s.entries.Has(id) && s.entries.Get(id).status == Queued
    ensures Invariant(Begin(s, id)) && Evolves(s, Begin(s, id))
  {
    var e := s.entries.Get(id);
    LiveEntry(s, id);
    assert GoodUpdate(e, Started(e), StartedNotice);
    UpdateKeeps(s, id, Started(e), StartedNotice);
  }

  lemma LiveEntry(s: State, id: TaskId)
    requires Invariant(s) && s.entries.Has(id)
    ensures EntryOk(s.entries.Get(id))
  {
    assert BooksOk(s, id);
  }

  lemma LaunchKeeps(s: State, lim: Limits, id: TaskId, throws: set<TaskId>)
    requires Invariant(s) && s.entries.Has(id)
    ensures Invariant(Launch(s, lim, id, throws)) && Evolves(s, Launch(s, lim, id, throws))
  {
    if s.entries.Get(id).status == Queued {
      BeginKeeps(s, id);
      if id in throws {
        LaunchThrowKeeps(Begin(s, id), id);
        EvolvesTransitive(s, Begin(s, id), LaunchThrow(Begin(s, id), id));
      }
    }
    EvolvesReflexive(s);
  }

  lemma {:induction false} PassKeeps(s: State, lim: Limits, ids: seq<TaskId>, throws: set<TaskId>)
    requires Invariant(s) && forall id :: id in ids ==> s.entries.Has(id)
    ensures Invariant(Pass(s, lim, ids, throws)) && Evolves(s, Pass(s, lim, ids, throws))
    decreases |ids|
  {
    if ids == [] {
      EvolvesReflexive(s);
    } else {
      var s1 := Launch(s, lim, ids[0], throws);
      LaunchKeeps(s, lim, ids[0], throws);
      PassTail(s, s1, ids);
      PassKeeps(s1, lim, ids[1..], throws);
      EvolvesTransitive(s, s1, Pass(s1, lim, ids[1..], throws));
    }
  }

  function CancelChanges(id: TaskId, from: Status): seq<Change> {
    if from == Running then [Change(id, Running, Cancelling)] + [Change(id, Cancelling, Cancelled)]
    else [] + [Change(id, from, Cancelled)]
  }

  function CancelledEntry(e: Entry): Entry {
    e.(status := Cancelled, cancelRequested := true, aborted := true, settled := true)
  }

  lemma CancelShape(s: State, id: TaskId, project: ProjectId, reason: Text)
    requires s.entries.Has(id) && s.entries.Get(id).project == project
    requires var e := s.entries.Get(id);
             !IsTerminal(e.status) && e.status != Queued && e.status != Cancelling && !e.cancelRequested
    requires reason == Absent || reason == Clean
    ensures var s' := CancelHead(s, TaskKey(id), ProjectKey(project), reason).0;
            && OneWrite(s, s', id, CancelledEntry(s.entries.Get(id)), Emission(|s.log|, id, CancelledNotice, Cancelled),
                        CancelChanges(id, s.entries.Get(id).status))
            && s'.launches == s.launches && s'.cancels == s.cancels + [id]
  {
    var e := s.entries.Get(id);
    var s' := CancelHead(s, TaskKey(id), ProjectKey(project), reason).0;
    assert s'.entries.vals == s.entries.vals[id := CancelledEntry(e)];
    assert s'.changes == s.changes + CancelChanges(id, e.status);
  }

  /** Cancelling a live unqueued task: at most two legal changes, one intent. */
  lemma CancelKeeps(s: State, id: TaskId, project: ProjectId, reason: Text)
    requires Invariant(s) && s.entries.Has(id) && s.entries.Get(id).project == project
    requires var e := s.entries.Get(id); !IsTerminal(e.status) && e.status != Queued
    requires reason == Absent || reason == Clean
    ensures var s' := CancelHead(s, TaskKey(id), ProjectKey(project), reason).0;
            Invariant(s') && Evolves(s, s')
  {
    var e := s.entries.Get(id);
    var s' := CancelHead(s, TaskKey(id), ProjectKey(project), reason).0;
    assert BooksOk(s, id);
    CancelShape(s, id, project, reason);
    forall k, st | k == id ==> st == e.status
      ensures Follow(CancelChanges(id, e.status), k, st) == Some(if k == id then Cancelled else st)
    {
      CancelPath(id, e.status, k, st);
    }
    OneWriteKeeps(s, s', id, CancelledEntry(e), Emission(|s.log|, id, CancelledNotice, Cancelled),
                  CancelChanges(id, e.status));
  }

  lemma CancelPath(id: TaskId, from: Status, k: TaskId, status: Status)
    requires k == id ==> status == from
    ensures Follow([] + [Change(id, from, Cancelled)], k, status) == Some(if k == id then Cancelled else status)
    ensures Follow([Change(id, from, Cancelling)] + [Change(id, Cancelling, Cancelled)], k, status)
            == Some(if k == id then Cancelled else status)
  {
    var mid := if k == id then Cancelling else status;
    FollowConcat([Change(id, from, Cancelling)], [Change(id, Cancelling, Cancelled)], k, status, mid);
    assert [] + [Change(id, from, Cancelled)] == [Change(id, from, Cancelled)];
  }
}
