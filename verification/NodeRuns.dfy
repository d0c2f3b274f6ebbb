/**
 * The vocabulary of one node run: what the tool host and the model may answer,
 * what the runtime makes of it, and how the history of a run, turn by turn and
 * call by call, leads to its outcome.
 */
module NodeRuns {
  import opened Seqs
  import opened Graphs
  import opened TaskGraphs
  import E = Events
  import opened EventStream
  import opened RuntimeModel
  import opened RuntimeRuns
  import opened RuntimeProgress
  import opened DriverRounds

  datatype ToolCall = ToolCall(id: E.ToolCallId, name: string, payload: string)

  /** What the tool host answers to one invocation, and how a failure's message reads. */
  datatype Reply =
    | Text(text: string)
    | Error(message: string, looksTransient: bool, isDenial: bool)
    | Exception(message: string, looksTransient: bool, isDenial: bool)

  /** The replies to the invocations one call has made. */
  datatype Tried = Untried | Once(first: Reply) | Twice(first: Reply, second: Reply)
  {
    function Count(): nat {
      match this case Untried => 0 case Once(_) => 1 case Twice(_, _) => 2
    }

    function And(reply: Reply): Tried
      requires Count() < 2
    {
      if Untried? then Once(reply) else Twice(first, reply)
    }
  }

  /** What the model answers: a transcript with the calls it asks for, or an error. */
  datatype Turn = Turn(transcript: string, calls: seq<ToolCall>) | TurnThrew(message: string)

  /** What a blocked node holds: the calls to replay before asking the model again. */
  datatype Checkpoint = Checkpoint(calls: seq<ToolCall>, transcript: string)

  /** What a node run does with the outside: it asks the model, or uses a tool. */
  datatype Act = Asked(seen: string, turn: Turn) | Used(call: ToolCall, outcome: string)

  /** What the gateway said of a call. */
  datatype Judgement = Judgement(call: ToolCall, blocked: bool)

  /** How a tool outcome may end a node run. */
  datatype Kind = ByBlock | ByCancel | ByFailure

  /**
   * Where a node run stands: calls are due from `next` on, the model asked for nothing more,
   * a tool outcome ended the run, or the model threw. A run that strays from
   * the order of turns and calls is astray.
   */
  datatype Talk =
    | Going(transcript: string, calls: seq<ToolCall>, next: nat)
    | Said(transcript: string)
    | Stopped(call: ToolCall, kind: Kind, transcript: string)
    | Lost(message: string)
    | Astray

  function Joined(transcript: string, line: string): string {
    if transcript == "" then line else transcript + "\n" + line
  }

  function OrNothing(transcript: string): string {
    if transcript == "" then "(no output)" else transcript
  }

  function Continued(transcript: string, said: string): string {
    if said == "" then transcript else Joined(transcript, said)
  }

  /** The words among tool outcomes that end a node run. */
  function KindOf(outcome: string): Option<Kind> {
    if outcome == "blocked" then Some(ByBlock)
    else if outcome == "cancelled" then Some(ByCancel)
    else if outcome == "failed" then Some(ByFailure) else None
  }

  /** Whether a tool outcome ends the node. */
  predicate Ending(outcome: string) {
    KindOf(outcome).Some?
  }

  /** The line a tool outcome leaves in the transcript. */
  function LineFor(call: ToolCall, outcome: string): string {
    if outcome == "failed-transient" then "[Tool " + call.name + " retried]"
    else "[Tool " + call.name + " result: " + outcome + "]"
  }

  /** No call is due, and this is the transcript. */
  predicate NoneDue(t: Talk, transcript: string) {
    t.Going? && t.transcript == transcript && t.next == |t.calls|
  }

  /**
   * The model is asked when no call is due, with the transcript so far; the
   * calls it asks for are used in order, and each outcome that ends nothing
   * goes into the transcript.
   */
  function After(t: Talk, act: Act): Talk {
    if !t.Going? then Astray
    else match act
      case Asked(seen, turn) =>
        if !NoneDue(t, seen) then Astray
        else if turn.TurnThrew? then Lost(turn.message)
        else if turn.calls == [] then Said(Continued(t.transcript, turn.transcript))
        else Going(Continued(t.transcript, turn.transcript), turn.calls, 0)
      case Used(call, outcome) =>
        if t.next >= |t.calls| || t.calls[t.next] != call then Astray
        else if Ending(outcome) then Stopped(call, KindOf(outcome).value, t.transcript)
        else Going(Joined(t.transcript, LineFor(call, outcome)), t.calls, t.next + 1)
  }

  lemma AfterUse(transcript: string, calls: seq<ToolCall>, i: nat, outcome: string)
    requires i < |calls|
    ensures After(Going(transcript, calls, i), Used(calls[i], outcome))
            == if Ending(outcome) then Stopped(calls[i], KindOf(outcome).value, transcript)
               else Going(Joined(transcript, LineFor(calls[i], outcome)), calls, i + 1)
  {
  }

  /** One act, and where the run stands after it. */
  datatype Stage = Stage(act: Act, talk: Talk)

  /** A node run: where it began, what it did, and where it stands. */
  datatype Story = Story(start: Talk, run: seq<Stage>, talk: Talk)

  ghost predicate FollowsAt(s: Story, i: nat) {
    i < |s.run| ==> s.run[i].talk == After(if i == 0 then s.start else s.run[i-1].talk, s.run[i].act)
  }

  /** Each act follows from the ones before it, and this is where they lead. */
  ghost predicate Scripted(s: Story) {
    && s.talk == (if s.run == [] then s.start else s.run[|s.run|-1].talk)
    && forall i: nat :: FollowsAt(s, i)
  }

  function Begun(start: Talk): Story {
    Story(start, [], start)
  }

  /** One act more. */
  function Told(s: Story, act: Act): Story {
    var talk := After(s.talk, act);
    Story(s.start, s.run + [Stage(act, talk)], talk)
  }

  lemma ToldIsScripted(s: Story, act: Act)
    requires Scripted(s)
    ensures Scripted(Told(s, act))
  {
    forall i: nat ensures FollowsAt(Told(s, act), i) {
      assert FollowsAt(s, i);
      if i < |s.run| { assert i > 0 ==> Told(s, act).run[i-1] == s.run[i-1]; }
    }
  }

  /** Where the run stands before an act. */
  function TalkAt(s: Story, i: nat): Talk
    requires i <= |s.run|
  {
    if i == 0 then s.start else s.run[i-1].talk
  }

  lemma {:induction false} AstrayStays(s: Story, i: nat)
    requires Scripted(s) && i <= |s.run| && TalkAt(s, i).Astray?
    ensures s.talk.Astray?
    decreases |s.run| - i
  {
    if i < |s.run| {
      assert FollowsAt(s, i);
      AstrayStays(s, i + 1);
    }
  }

  /** Act `i`, if there is one, uses this call. */
  predicate Uses(s: Story, i: nat, call: ToolCall) {
    i < |s.run| ==> s.run[i].act.Used? && s.run[i].act.call == call
  }

  lemma DueIsUsed(t: Talk, act: Act)
    requires t.Going? && t.next < |t.calls| && !After(t, act).Astray?
    ensures act.Used? && act.call == t.calls[t.next]
    ensures After(t, act).Stopped? || SameCalls(After(t, act), t.calls, t.next + 1)
  {
  }

  predicate SameCalls(t: Talk, calls: seq<ToolCall>, next: nat) {
    t.Going? && t.calls == calls && t.next == next
  }

  lemma NextIsUsed(s: Story, i: nat, calls: seq<ToolCall>, k: nat)
    requires Scripted(s) && !s.talk.Astray? && i < |s.run|
    requires k < |calls| && SameCalls(TalkAt(s, i), calls, k)
    ensures Uses(s, i, calls[k]) && (i + 1 < |s.run| ==> SameCalls(TalkAt(s, i + 1), calls, k + 1))
  {
    assert FollowsAt(s, i);
    if s.run[i].talk.Astray? { AstrayStays(s, i + 1); }
    DueIsUsed(TalkAt(s, i), s.run[i].act);
    if i + 1 < |s.run| && s.run[i].talk.Stopped? {
      assert FollowsAt(s, i + 1);
      AstrayStays(s, i + 2);
    }
  }

  /** The calls due at some point are what the run does next, in their order, until it ends. */
  lemma {:induction false} DueInOrder(s: Story, i: nat, calls: seq<ToolCall>, k: nat)
    requires Scripted(s) && !s.talk.Astray? && k < |calls| && i + k < |s.run| && SameCalls(TalkAt(s, i), calls, 0)
    ensures SameCalls(TalkAt(s, i + k), calls, k) && Uses(s, i + k, calls[k])
  {
    if k > 0 {
      DueInOrder(s, i, calls, k - 1);
      NextIsUsed(s, i + k - 1, calls, k - 1);
    }
    NextIsUsed(s, i + k, calls, k);
  }

  /** The model is asked only when no call is due, with the transcript so far; the calls it asks for come next. */
  lemma TurnsInOrder(s: Story, i: nat)
    requires Scripted(s) && !s.talk.Astray? && i < |s.run| && s.run[i].act.Asked?
    ensures NoneDue(TalkAt(s, i), s.run[i].act.seen)
    ensures var turn := s.run[i].act.turn;
            turn.Turn? ==> forall k: nat :: k < |turn.calls| ==> Uses(s, i + 1 + k, turn.calls[k])
  {
    assert FollowsAt(s, i);
    if s.run[i].talk.Astray? { AstrayStays(s, i + 1); }
    var turn := s.run[i].act.turn;
    if turn.Turn? {
      forall k: nat | k < |turn.calls| ensures Uses(s, i + 1 + k, turn.calls[k]) {
        if i + 1 + k < |s.run| { DueInOrder(s, i + 1, turn.calls, k); }
      }
    }
  }

  /** A run that begins with calls due uses them, in order, before the model is asked. */
  lemma ReplayedFirst(s: Story, k: nat)
    requires Scripted(s) && !s.talk.Astray? && s.start.Going? && s.start.next == 0
    requires k < |s.start.calls|
    ensures Uses(s, k, s.start.calls[k])
  {
    if k < |s.run| { DueInOrder(s, 0, s.start.calls, k); }
  }

  /** Only the last act may end the run. */
  lemma EndingsAreLast(s: Story, i: nat)
    requires Scripted(s) && !s.talk.Astray? && i < |s.run| - 1
    ensures match s.run[i].act
            case Used(_, outcome) => !Ending(outcome)
            case Asked(_, turn) => turn.Turn? && turn.calls != []
  {
    assert FollowsAt(s, i) && FollowsAt(s, i + 1);
    if s.run[i+1].talk.Astray? { AstrayStays(s, i + 2); }
  }

  /** How often the model was asked. */
  function Turns(run: seq<Stage>): nat {
    if run == [] then 0 else Turns(run[..|run|-1]) + if run[|run|-1].act.Asked? then 1 else 0
  }

  lemma TurnsSnoc(run: seq<Stage>, stage: Stage)
    ensures Turns(run + [stage]) == Turns(run) + if stage.act.Asked? then 1 else 0
  {
    assert (run + [stage])[..|run|] == run;
  }

  /** The calls the gateway let through, and the calls a list of tool events starts. */
  function Passed(judged: seq<Judgement>): seq<E.ToolCallId> {
    if judged == [] then []
    else
      var front, last := Passed(judged[..|judged|-1]), judged[|judged|-1];
      if last.blocked then front else front + [last.call.id]
  }

  /** The calls whose start is among the events, in order. */
  function StartedCalls(events: seq<E.Body>): seq<E.ToolCallId> {
    if events == [] then []
    else
      var front, last := StartedCalls(events[..|events|-1]), events[|events|-1];
      if last.ToolStarted? then front + [last.toolCallId] else front
  }

  lemma PassedSnoc(judged: seq<Judgement>, last: Judgement)
    ensures Passed(judged + [last]) == if last.blocked then Passed(judged) else Passed(judged) + [last.call.id]
  {
    assert (judged + [last])[..|judged|] == judged;
  }

  lemma StartedSnoc(events: seq<E.Body>, last: E.Body)
    ensures StartedCalls(events + [last])
            == if last.ToolStarted? then StartedCalls(events) + [last.toolCallId] else StartedCalls(events)
  {
    assert (events + [last])[..|events|] == events;
  }

  /** Starts and ends alternate, and the calls started are those the gateway let through. */
  ghost predicate Accounted(events: seq<E.Body>, judged: seq<Judgement>) {
    Bracketed(events) && StartedCalls(events) == Passed(judged)
  }

  lemma OneMoreCall(events: seq<E.Body>, judged: seq<Judgement>, call: ToolCall, end: E.Body)
    requires Accounted(events, judged) && Bracket(E.ToolStarted(call.id), end)
    ensures Accounted(events + [E.ToolStarted(call.id)] + [end], judged + [Judgement(call, false)])
  {
    OneMoreBracket(events, E.ToolStarted(call.id), end);
    PassedSnoc(judged, Judgement(call, false));
    StartedSnoc(events, E.ToolStarted(call.id));
    StartedSnoc(events + [E.ToolStarted(call.id)], end);
  }

  lemma OneMoreBlock(events: seq<E.Body>, judged: seq<Judgement>, call: ToolCall)
    requires Accounted(events, judged)
    ensures Accounted(events, judged + [Judgement(call, true)])
  {
    PassedSnoc(judged, Judgement(call, true));
  }

  /** No call has failed since there were so many tool events. */
  ghost predicate Unfailed(events: seq<E.Body>, from: nat) {
    from <= |events| && forall i :: UnfailedAt(events, from, i)
  }

  predicate UnfailedAt(events: seq<E.Body>, from: nat, i: nat) {
    from <= i < |events| ==> !events[i].ToolFailed?
  }

  lemma UnfailedGrows(events: seq<E.Body>, from: nat, start: E.Body, end: E.Body)
    requires Unfailed(events, from) && !start.ToolFailed? && !end.ToolFailed?
    ensures Unfailed(events + [start] + [end], from)
  {
    forall i: nat ensures UnfailedAt(events + [start] + [end], from, i) {
      assert UnfailedAt(events, from, i);
    }
  }

  /** A tool event of the log is among its tool events, and after those of any earlier part. */
  lemma {:induction false} ToolEventAt(log: seq<E.Body>, i: nat) returns (k: nat)
    requires i < |log| && IsToolEvent(log[i])
    ensures |ToolEvents(log[..i])| <= k < |ToolEvents(log)| && ToolEvents(log)[k] == log[i]
  {
    var n := |log| - 1;
    if i == n {
      k := |ToolEvents(log[..n])|;
    } else {
      assert log[..n][..i] == log[..i];
      k := ToolEventAt(log[..n], i);
    }
  }

  lemma {:induction false} ToolEventsGrow(log: seq<E.Body>, longer: seq<E.Body>)
    requires log <= longer
    ensures |ToolEvents(log)| <= |ToolEvents(longer)|
    decreases |longer|
  {
    if |longer| == |log| { assert log == longer; } else { ToolEventsGrow(log, longer[..|longer|-1]); }
  }

  /** No tool call failed in this stretch. */
  ghost predicate NoCallFailed(s: Stretch) {
    forall i :: NoFailureAt(s, i)
  }

  predicate NoFailureAt(s: Stretch, i: nat) {
    At(s, i) ==> !s.log[i].ToolFailed?
  }

  lemma UnfailedStretch(base: Live, l: Live)
    requires base.log <= l.log && Unfailed(ToolEvents(l.log), |ToolEvents(base.log)|)
    ensures NoCallFailed(Since(base, l))
  {
    forall i: nat ensures NoFailureAt(Since(base, l), i) {
      if |base.log| <= i < |l.log| && IsToolEvent(l.log[i]) {
        var k := ToolEventAt(l.log, i);
        ToolEventsGrow(base.log, l.log[..i]);
        assert UnfailedAt(ToolEvents(l.log), |ToolEvents(base.log)|, k);
      }
    }
  }

  function Petition(call: ToolCall): string {
    "Permission approval required for tool \"" + call.name + "\""
  }

  predicate StoppedBy(t: Talk, kind: Kind) {
    t.Stopped? && t.kind == kind
  }

  ghost predicate FailedIn(s: Stretch, task: E.TaskId, id: NodeId) {
    exists error :: Seen(s, E.NodeFailed(task, id, error))
  }

  ghost predicate HeldIn(s: Stretch, task: E.TaskId, id: NodeId) {
    exists why :: Seen(s, E.TaskBlocked(task, Some(id), why))
  }

  /**
   * How a run's outcome follows from where it stands: done after the model
   * asked for nothing more, or when its turns are used up, with the transcript
   * published as the result; failed, blocked or cancelled by a tool outcome,
   * each published as such; failed when the model threw; cancelled by an abort.
   */
  ghost predicate Played(r: NodeOutcome, t: Talk, s: Stretch, task: E.TaskId, aborted: bool, id: NodeId) {
    !t.Astray? &&
    match r
    case NodeDone => (t.Said? || t.Going?) && Seen(s, E.NodeCompleted(task, id, OrNothing(t.transcript)))
    case NodeBroken =>
      (StoppedBy(t, ByFailure) && FailedIn(s, task, id)) || (t.Lost? && Seen(s, E.NodeFailed(task, id, t.message)))
    case NodeHeld => StoppedBy(t, ByBlock) && HeldIn(s, task, id)
    case NodeDropped => StoppedBy(t, ByCancel) || (aborted && (t.Going? || t.Lost?))
    case NodeThrew(_) => true
  }

  /** What a run came to is still so later. */
  lemma PlayedRemains(r: NodeOutcome, t: Talk, base: Live, l: Live, m: Live, task: E.TaskId, wasAborted: bool,
                      aborted: bool, id: NodeId)
    requires base.log <= l.log && l.log <= m.log && (wasAborted ==> aborted)
    requires Played(r, t, Since(base, l), task, wasAborted, id)
    ensures Played(r, t, Since(base, m), task, aborted, id)
  {
    match r
    case NodeDone => SplitSeen(base, l, m, E.NodeCompleted(task, id, OrNothing(t.transcript)));
    case NodeBroken =>
      if t.Lost? {
        SplitSeen(base, l, m, E.NodeFailed(task, id, t.message));
      } else {
        var error :| Seen(Since(base, l), E.NodeFailed(task, id, error));
        SplitSeen(base, l, m, E.NodeFailed(task, id, error));
      }
    case NodeHeld =>
      var why :| Seen(Since(base, l), E.TaskBlocked(task, Some(id), why));
      SplitSeen(base, l, m, E.TaskBlocked(task, Some(id), why));
    case _ =>
  }

  /** All that an await leaves of a finished run. */
  lemma ExplanationRemains(r: NodeOutcome, t: Talk, base: Live, l: Live, m: Live, task: E.TaskId, wasAborted: bool,
                           aborted: bool, id: NodeId)
    requires base.log <= l.log && l.log <= m.log && (wasAborted ==> aborted)
    requires Played(r, t, Since(base, l), task, wasAborted, id)
    requires r.NodeDone? ==> Unfailed(ToolEvents(m.log), |ToolEvents(base.log)|)
    ensures Played(r, t, Since(base, m), task, aborted, id) && (r.NodeDone? ==> NoCallFailed(Since(base, m)))
  {
    PlayedRemains(r, t, base, l, m, task, wasAborted, aborted, id);
    if r.NodeDone? { UnfailedStretch(base, m); }
  }

  /** Worth one automatic retry: a technical failure that looks transient and is no denial. */
  predicate Retryable(reply: Reply) {
    !reply.Text? && !reply.isDenial && reply.looksTransient
  }

  /**
   * How a call that got past the gateway may end, given what the tool host
   * answered: at most two invocations, the second only after a retryable reply;
   * the last one decides, or an abort seen before the next one.
   */
  ghost predicate ToolVerdict(call: E.ToolCallId, tried: Tried, end: E.Body, outcome: string, aborted: bool) {
    match tried
    case Untried => CancelledBefore(call, end, outcome, aborted)
    case Once(r) => || (Retryable(r) && CancelledBefore(call, end, outcome, aborted))
                    || Concluded(call, r, false, end, outcome, aborted)
    case Twice(r, s) => Retryable(r) && Concluded(call, s, true, end, outcome, aborted)
  }

  /** The abort was seen before the next attempt. */
  ghost predicate CancelledBefore(call: E.ToolCallId, end: E.Body, outcome: string, aborted: bool) {
    aborted && outcome == "cancelled" && end == E.ToolFailed(call, "Cancelled: Tool call cancelled")
  }

  /** The reply decided. Text is passed on as it is, even where it spells an outcome. */
  ghost predicate Concluded(call: E.ToolCallId, reply: Reply, final: bool, end: E.Body, outcome: string,
                            aborted: bool)
  {
    if reply.Text? then outcome == reply.text && end == E.ToolCompleted(call, reply.text)
    else
      || (reply.Exception? && aborted
          && outcome == "cancelled" && end == E.ToolFailed(call, "Cancelled: " + reply.message))
      || (reply.isDenial && outcome == "blocked" && end == E.ToolFailed(call, "Blocked: " + reply.message))
      || (!reply.isDenial && (final || !reply.looksTransient)
          && outcome == "failed" && end == E.ToolFailed(call, reply.message))
  }

  /** Try again, or answer with an outcome text and an end event. */
  datatype Reaction = Retry | Answer(outcome: string, end: E.Body)

  /** What the runtime makes of one reply. */
  function React(call: E.ToolCallId, reply: Reply, final: bool, aborted: bool): (r: Reaction)
    ensures r.Retry? <==> !final && Retryable(reply) && !(reply.Exception? && aborted)
    ensures r.Answer? ==> Concluded(call, reply, final, r.end, r.outcome, aborted)
    ensures r.Answer? ==> IsToolEvent(r.end) && Bracket(E.ToolStarted(call), r.end)
  {
    match reply
    case Text(text) => Answer(text, E.ToolCompleted(call, text))
    case _ =>
      var message := reply.message;
      if reply.Exception? && aborted then Answer("cancelled", E.ToolFailed(call, "Cancelled: " + message))
      else if reply.isDenial then Answer("blocked", E.ToolFailed(call, "Blocked: " + message))
      else if !final && reply.looksTransient then Retry
      else Answer("failed", E.ToolFailed(call, message))
  }

  // ------------------------------------------------------------------
  // Published events
  // ------------------------------------------------------------------

  /** Numbered by position, in the task's conversation, under the current schema. */
  ghost predicate NumberedAt(events: seq<E.AIEvent>, log: seq<E.Body>, conversationId: int, i: nat)
    requires i < |events| == |log|
  {
    && events[i].sequence == i && events[i].conversationId == conversationId
    && events[i].schemaVersion == E.CURRENT_SCHEMA_VERSION && events[i].body == log[i]
  }

  lemma NumberedIsStored(events: seq<E.AIEvent>, log: seq<E.Body>, conversationId: int)
    requires |events| == |log|
    requires forall i :: 0 <= i < |log| ==> NumberedAt(events, log, conversationId, i)
    ensures Stored(events, log)
  {
    forall i | 0 <= i < |events|
      ensures events[i].body == log[i] && events[i].sequence == i && Supported(events[i])
      ensures events[i].conversationId == events[0].conversationId
    {
      assert NumberedAt(events, log, conversationId, i) && NumberedAt(events, log, conversationId, 0);
    }
  }

  lemma NumberedSnoc(events: seq<E.AIEvent>, log: seq<E.Body>, conversationId: int, event: E.AIEvent)
    requires |events| == |log|
    requires forall i :: 0 <= i < |log| ==> NumberedAt(events, log, conversationId, i)
    requires event.sequence == |events| && event.conversationId == conversationId
    requires event.schemaVersion == E.CURRENT_SCHEMA_VERSION
    ensures forall i :: 0 <= i < |log| + 1 ==> NumberedAt(events + [event], log + [event.body], conversationId, i)
  {
    forall i | 0 <= i < |log| + 1 ensures NumberedAt(events + [event], log + [event.body], conversationId, i) {
      if i < |log| { assert NumberedAt(events, log, conversationId, i); }
    }
  }

  /** Every event published is numbered, and an abort came after so many of them. */
  ghost predicate Filed(events: seq<E.AIEvent>, log: seq<E.Body>, conversationId: int, sequence: nat,
                        aborted: bool, abortedAt: nat)
  {
    && sequence == |events| == |log| && (aborted ==> abortedAt <= |log|)
    && forall i :: 0 <= i < |log| ==> NumberedAt(events, log, conversationId, i)
  }

  lemma FiledSnoc(events: seq<E.AIEvent>, log: seq<E.Body>, conversationId: int, sequence: nat,
                  aborted: bool, abortedAt: nat, event: E.AIEvent)
    requires Filed(events, log, conversationId, sequence, aborted, abortedAt)
    requires event.sequence == sequence && event.conversationId == conversationId
    requires event.schemaVersion == E.CURRENT_SCHEMA_VERSION
    ensures Filed(events + [event], log + [event.body], conversationId, sequence + 1, aborted, abortedAt)
  {
    NumberedSnoc(events, log, conversationId, event);
  }
}
