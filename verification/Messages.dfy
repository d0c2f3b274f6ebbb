/** The message projection: one event at a time into an insertion-ordered map. */
module Messages {
  import opened Seqs
  import opened JsMaps
  import opened Events
  import opened EventStream

  datatype MessageStatus = Streaming | Completed | Failed | Cancelled

  datatype Message = Message(
    id: MessageId, conversationId: int, role: Role, content: seq<ContentPart>, status: MessageStatus,
    createdAt: int, updatedAt: int, metadata: Option<Metadata>)

  type MessageMap = JsMap<MessageId, Message>

  datatype Applied = Applied(messages: MessageMap) | MissingMessageId

  datatype Projection = Projected(messages: seq<Message>) | StreamError

  // ------------------------------------------------------------------
  // One message
  // ------------------------------------------------------------------

  /** Extends the trailing text part, or starts one. */
  function AppendText(content: seq<ContentPart>, text: string): seq<ContentPart> {
    if text == "" then content
    else if content != [] && content[|content|-1].Text? then
      content[..|content|-1] + [Text(content[|content|-1].text + text)]
    else content + [Text(text)]
  }

  function OrEmpty(o: Option<string>): string { if o.Some? then o.value else "" }

  function Merge(m: Option<Metadata>, extra: Metadata): Option<Metadata> {
    Some((if m.Some? then m.value else map[]) + extra)
  }

  function CompletionMetadata(reason: Option<string>, tokens: Option<int>): Metadata {
    (if Truthy(reason) then map["finishReason" := Str(reason.value)] else map[])
    + (if tokens.Some? then map["totalTokens" := Num(tokens.value)] else map[])
  }

  function FailureMetadata(error: string, code: Option<string>): Metadata {
    map["error" := Str(error)] + if Truthy(code) then map["code" := Str(code.value)] else map[]
  }

  function CancelMetadata(reason: Option<string>): Metadata {
    if Truthy(reason) then map["cancellationReason" := Str(reason.value)] else map[]
  }

  /** What a message becomes under one of its own events; None while absent. */
  function Reduce(current: Option<Message>, e: AIEvent): Option<Message>
    requires IsMessageBody(e.body)
  {
    var b, ts := e.body, e.timestamp;
    var blank := Message(b.messageId, e.conversationId, AssistantRole, [], Streaming, ts, ts, None);
    match b
    case MessageStarted(id, role, content) =>
      if current.Some? then Some(current.value.(status := Streaming, updatedAt := ts))
      else Some(blank.(role := role, content := if content.Some? then content.value else []))
    case MessageCreated(id, role, content) =>
      if current.Some? then Some(current.value.(role := role, content := content, status := Completed, updatedAt := ts))
      else Some(blank.(role := role, content := content, status := Completed))
    case MessageDelta(id, text) =>
      var m := if current.Some? then current.value else blank;
      Some(m.(content := AppendText(m.content, OrEmpty(text)), updatedAt := ts))
    case MessageCompleted(id, reason, tokens) =>
      if current.None? then None
      else
        var m := current.value.(status := Completed, updatedAt := ts);
        Some(if Truthy(reason) || tokens.Some? then
               m.(metadata := Merge(m.metadata, CompletionMetadata(reason, tokens)))
             else m)
    case MessageFailed(id, error, code) =>
      if current.Some? then
        Some(current.value.(status := Failed, updatedAt := ts,
                            metadata := Merge(current.value.metadata, FailureMetadata(error, code))))
      else Some(blank.(status := Failed, metadata := Some(FailureMetadata(error, code))))
    case MessageCancelled(id, reason) =>
      if current.Some? then
        var m := current.value.(status := Cancelled, updatedAt := ts);
        Some(if Truthy(reason) then m.(metadata := Merge(m.metadata, CancelMetadata(reason))) else m)
      else Some(blank.(status := Cancelled, metadata := if Truthy(reason) then Some(CancelMetadata(reason)) else None))
  }

  // ------------------------------------------------------------------
  // The map
  // ------------------------------------------------------------------

  function At(m: MessageMap, id: MessageId): Option<Message> {
    if m.Has(id) then Some(m.Get(id)) else None
  }

  predicate IsAbout(e: AIEvent, id: MessageId) {
    IsMessageBody(e.body) && e.body.messageId == id
  }

  predicate LacksId(e: AIEvent) {
    IsMessageBody(e.body) && e.body.messageId.raw == ""
  }

  function Apply(m: MessageMap, e: AIEvent): MessageMap {
    if !IsMessageBody(e.body) then m
    else
      var next := Reduce(At(m, e.body.messageId), e);
      if next.None? then m else m.Set(e.body.messageId, next.value)
  }

  function Fold(m: MessageMap, events: seq<AIEvent>): MessageMap {
    if events == [] then m else Apply(Fold(m, events[..|events|-1]), events[|events|-1])
  }

  /**
   * Applies one event. Only the message it names can change or appear, at the
   * end; every other keeps its value and its place. Other events, and the
   * completion of a message that was never begun, change nothing.
   */
  method ApplyEventToMessages(messages: MessageMap, event: AIEvent) returns (r: Applied)
    requires messages.Valid()
    ensures r == if LacksId(event) then MissingMessageId else Applied(Apply(messages, event))
    ensures r.Applied? ==> r.messages.Valid()
    ensures r.Applied? && !IsMessageBody(event.body) ==> r.messages == messages
    ensures r.Applied? ==> forall id :: !IsAbout(event, id) ==> At(r.messages, id) == At(messages, id)
    ensures r.Applied? && IsMessageBody(event.body) ==>
              var id := event.body.messageId;
              && r.messages.keys == (if messages.Has(id) || event.body.MessageCompleted? then messages.keys
                                     else messages.keys + [id])
              && (At(r.messages, id).Some? && At(r.messages, id) != At(messages, id) ==>
                    At(r.messages, id).value.updatedAt == event.timestamp)
  {
    if !IsMessageBody(event.body) {
      return Applied(messages);
    }
    var id, ts := event.body.messageId, event.timestamp;
    if id.raw == "" {
      return MissingMessageId;
    }
    match event.body
    case MessageStarted(_, role, content) =>
      if messages.Has(id) {
        return Applied(messages.Set(id, messages.Get(id).(status := Streaming, updatedAt := ts)));
      }
      var initial := if content.Some? then content.value else [];
      return Applied(messages.Set(id, Message(id, event.conversationId, role, initial, Streaming, ts, ts, None)));
    case MessageCreated(_, role, content) =>
      if messages.Has(id) {
        var message := messages.Get(id).(role := role, content := content, status := Completed, updatedAt := ts);
        return Applied(messages.Set(id, message));
      }
      return Applied(messages.Set(id, Message(id, event.conversationId, role, content, Completed, ts, ts, None)));
    case MessageDelta(_, text) =>
      var target := if messages.Has(id) then messages.Get(id)
                    else Message(id, event.conversationId, AssistantRole, [], Streaming, ts, ts, None);
      var deltaText := if text.Some? then text.value else "";
      if |deltaText| > 0 {
        var last := |target.content| - 1;
        if last >= 0 && target.content[last].Text? {
          target := target.(content := target.content[..last] + [Text(target.content[last].text + deltaText)]);
        } else {
          target := target.(content := target.content + [Text(deltaText)]);
        }
      }
      return Applied(messages.Set(id, target.(updatedAt := ts)));
    case MessageCompleted(_, reason, tokens) =>
      if !messages.Has(id) {
        return Applied(messages);
      }
      var message := messages.Get(id).(status := Completed, updatedAt := ts);
      if Truthy(reason) || tokens.Some? {
        message := message.(metadata := Merge(message.metadata, CompletionMetadata(reason, tokens)));
      }
      return Applied(messages.Set(id, message));
    case MessageFailed(_, error, code) =>
      if messages.Has(id) {
        var message := messages.Get(id);
        return Applied(messages.Set(id, message.(status := Failed, updatedAt := ts,
                                                 metadata := Merge(message.metadata, FailureMetadata(error, code)))));
      }
      return Applied(messages.Set(id, Message(id, event.conversationId, AssistantRole, [], Failed, ts, ts,
                                              Some(FailureMetadata(error, code)))));
    case MessageCancelled(_, reason) =>
      if messages.Has(id) {
        var message := messages.Get(id).(status := Cancelled, updatedAt := ts);
        if Truthy(reason) {
          message := message.(metadata := Merge(message.metadata, CancelMetadata(reason)));
        }
        return Applied(messages.Set(id, message));
      }
      return Applied(messages.Set(id, Message(id, event.conversationId, AssistantRole, [], Cancelled, ts, ts,
                                              if Truthy(reason) then Some(CancelMetadata(reason)) else None)));
  }

  function Values(m: MessageMap): seq<Message>
    requires m.Valid()
  {
    seq(|m.keys|, i requires 0 <= i < |m.keys| => m.Get(m.keys[i]))
  }

  lemma {:induction false} FoldValid(m: MessageMap, events: seq<AIEvent>)
    requires m.Valid()
    ensures Fold(m, events).Valid()
  {
    if events != [] { FoldValid(m, events[..|events|-1]); }
  }

  /** The whole projection as a function of the event list. */
  function Project(events: seq<AIEvent>): Projection {
    match PrepareEventStream(events)
    case UnsupportedSchema => StreamError
    case Stream(sorted) =>
      if exists i :: 0 <= i < |sorted| && LacksId(sorted[i]) then StreamError
      else
        FoldValid(Empty(), sorted);
        Projected(Values(Fold(Empty(), sorted)))
  }

  method ProjectMessages(events: seq<AIEvent>) returns (p: Projection)
    ensures p == Project(events)
  {
    var stream := PrepareEventStream(events);
    if stream.UnsupportedSchema? {
      return StreamError;
    }
    var sorted := stream.events;
    var messages: MessageMap := Empty();
    for i := 0 to |sorted|
      invariant messages.Valid() && messages == Fold(Empty(), sorted[..i])
      invariant forall k :: 0 <= k < i ==> !LacksId(sorted[k])
    {
      var r := ApplyEventToMessages(messages, sorted[i]);
      if r.MissingMessageId? {
        return StreamError;
      }
      assert sorted[..i+1][..i] == sorted[..i];
      messages := r.messages;
    }
    assert sorted[..|sorted|] == sorted;
    return Projected(Values(messages));
  }

  // ------------------------------------------------------------------
  // A message depends on its own events only
  // ------------------------------------------------------------------

  function Own(events: seq<AIEvent>, id: MessageId): seq<AIEvent> {
    Filter(events, (e: AIEvent) => IsAbout(e, id))
  }

  predicate AllMessages(own: seq<AIEvent>) {
    forall e :: e in own ==> IsMessageBody(e.body)
  }

  /** One message through a list of its own events. */
  function Trace(current: Option<Message>, own: seq<AIEvent>): Option<Message>
    requires AllMessages(own)
  {
    if own == [] then current else Reduce(Trace(current, own[..|own|-1]), own[|own|-1])
  }

  lemma OwnSnoc(events: seq<AIEvent>, e: AIEvent, id: MessageId)
    ensures Own(events + [e], id) == Own(events, id) + if IsAbout(e, id) then [e] else []
  {
    assert (events + [e])[..|events|] == events;
  }

  lemma OwnAreMessages(events: seq<AIEvent>, id: MessageId)
    ensures AllMessages(Own(events, id))
  {
    FilterMember(events, (e: AIEvent) => IsAbout(e, id));
  }

  /** Interleaved events of other messages, tools and tasks change nothing. */
  lemma {:induction false} MessageDependsOnOwnEvents(m: MessageMap, events: seq<AIEvent>, id: MessageId)
    ensures AllMessages(Own(events, id))
    ensures At(Fold(m, events), id) == Trace(At(m, id), Own(events, id))
  {
    OwnAreMessages(events, id);
    if events != [] {
      var before, e := events[..|events|-1], events[|events|-1];
      MessageDependsOnOwnEvents(m, before, id);
      OwnSnoc(before, e, id);
      assert events == before + [e];
      var own := Own(before, id);
      assert (own + [e])[..|own|] == own;
    }
  }

  // ------------------------------------------------------------------
  // Closed form of the content
  // ------------------------------------------------------------------

  /** All delta text of a list of events, joined. */
  function JoinDeltas(own: seq<AIEvent>): string {
    if own == [] then ""
    else
      var b := own[|own|-1].body;
      JoinDeltas(own[..|own|-1]) + if b.MessageDelta? then OrEmpty(b.deltaText) else ""
  }

  /** Whether these events bring the message into being. */
  predicate Exists(own: seq<AIEvent>) {
    own != [] && (Exists(own[..|own|-1]) || (IsMessageBody(own[|own|-1].body) && !own[|own|-1].body.MessageCompleted?))
  }

  /** The event sets the content anew. */
  predicate SetsContent(before: seq<AIEvent>, e: AIEvent) {
    e.body.MessageCreated? || (e.body.MessageStarted? && !Exists(before))
  }

  /** The content in force before deltas: that of the last created event, else of a first started event. */
  function BaseContent(own: seq<AIEvent>): seq<ContentPart> {
    if own == [] then []
    else
      var b, before := own[|own|-1].body, own[..|own|-1];
      if b.MessageCreated? then b.content
      else if b.MessageStarted? && !Exists(before) && b.startContent.Some? then b.startContent.value
      else BaseContent(before)
  }

  /** Deltas since that content was set. */
  function SinceBase(own: seq<AIEvent>): seq<AIEvent> {
    if own == [] then []
    else
      var e, before := own[|own|-1], own[..|own|-1];
      if SetsContent(before, e) then []
      else SinceBase(before) + [e]
  }

  lemma AppendTwice(content: seq<ContentPart>, a: string, b: string)
    ensures AppendText(AppendText(content, a), b) == AppendText(content, a + b)
  {
    if a == "" {
      assert a + b == b;
    } else if b == "" {
      assert a + b == a;
    } else if content != [] && content[|content|-1].Text? {
      var front, text := content[..|content|-1], content[|content|-1].text;
      GrowLast(front, text + a, b);
      assert text + a + b == text + (a + b);
    } else {
      GrowLast(content, a, b);
    }
  }

  lemma GrowLast(front: seq<ContentPart>, text: string, more: string)
    requires more != ""
    ensures AppendText(front + [Text(text)], more) == front + [Text(text + more)]
  {
    var content := front + [Text(text)];
    assert content[..|content|-1] == front;
  }

  lemma ExistsSnoc(before: seq<AIEvent>, e: AIEvent)
    ensures Exists(before + [e]) <==> (Exists(before) || (IsMessageBody(e.body) && !e.body.MessageCompleted?))
  {
    assert (before + [e])[..|before|] == before;
  }

  lemma JoinSnoc(own: seq<AIEvent>, e: AIEvent)
    ensures JoinDeltas(own + [e]) == JoinDeltas(own) + if e.body.MessageDelta? then OrEmpty(e.body.deltaText) else ""
  {
    assert (own + [e])[..|own|] == own;
  }

  /** The closed form describes the outcome of these events. */
  ghost predicate HasClosedForm(own: seq<AIEvent>)
    requires AllMessages(own)
  {
    var outcome := Trace(None, own);
    && (outcome.Some? <==> Exists(own))
    && (outcome.Some? ==> outcome.value.content == AppendText(BaseContent(own), JoinDeltas(SinceBase(own))))
    && (!Exists(own) ==> BaseContent(own) == [] && JoinDeltas(SinceBase(own)) == "")
  }

  lemma ClosedFormDelta(before: seq<AIEvent>, e: AIEvent)
    requires AllMessages(before) && e.body.MessageDelta? && HasClosedForm(before)
    ensures AllMessages(before + [e]) && HasClosedForm(before + [e])
  {
    var own := before + [e];
    assert own[..|own|-1] == before && own[|own|-1] == e;
    ExistsSnoc(before, e);
    var since := SinceBase(before);
    JoinSnoc(since, e);
    AppendTwice(BaseContent(before), JoinDeltas(since), OrEmpty(e.body.deltaText));
    assert !SetsContent(before, e);
    assert BaseContent(own) == BaseContent(before) && SinceBase(own) == since + [e];
  }

  lemma ClosedFormSet(before: seq<AIEvent>, e: AIEvent)
    requires AllMessages(before) && IsMessageBody(e.body) && SetsContent(before, e) && HasClosedForm(before)
    ensures AllMessages(before + [e]) && HasClosedForm(before + [e])
  {
    var own := before + [e];
    assert own[..|own|-1] == before && own[|own|-1] == e;
    ExistsSnoc(before, e);
    assert SinceBase(own) == [];
  }

  lemma ClosedFormKeep(before: seq<AIEvent>, e: AIEvent)
    requires AllMessages(before) && IsMessageBody(e.body) && HasClosedForm(before)
    requires !e.body.MessageDelta? && !SetsContent(before, e)
    ensures AllMessages(before + [e]) && HasClosedForm(before + [e])
  {
    var own := before + [e];
    assert own[..|own|-1] == before && own[|own|-1] == e;
    ExistsSnoc(before, e);
    var since := SinceBase(before);
    JoinSnoc(since, e);
    assert JoinDeltas(since) + "" == JoinDeltas(since);
    assert BaseContent(own) == BaseContent(before) && SinceBase(own) == since + [e];
  }

  /**
   * Closed form: the message exists once a non-completed event names it; its
   * content is the content last set, with all later delta text joined into one
   * trailing text part. Completion, failure and cancellation do not enter.
   */
  lemma {:induction false} ContentClosedForm(own: seq<AIEvent>)
    requires AllMessages(own)
    ensures HasClosedForm(own)
  {
    if own != [] {
      var n := |own| - 1;
      ContentClosedForm(own[..n]);
      assert own == own[..n] + [own[n]];
      if own[n].body.MessageDelta? { ClosedFormDelta(own[..n], own[n]); }
      else if SetsContent(own[..n], own[n]) { ClosedFormSet(own[..n], own[n]); }
      else { ClosedFormKeep(own[..n], own[n]); }
    }
  }

  // ------------------------------------------------------------------
  // Deltas may be cut anywhere
  // ------------------------------------------------------------------

  /** The same to a projection: sequence numbers and event ids may differ. */
  predicate Alike(x: AIEvent, y: AIEvent) {
    x.body == y.body && x.timestamp == y.timestamp && x.conversationId == y.conversationId
  }

  ghost predicate AllAlike(a: seq<AIEvent>, b: seq<AIEvent>) {
    |a| == |b| && forall i :: 0 <= i < |a| ==> Alike(a[i], b[i])
  }

  lemma {:induction false} FoldAlike(m: MessageMap, a: seq<AIEvent>, b: seq<AIEvent>)
    requires AllAlike(a, b)
    ensures Fold(m, a) == Fold(m, b)
  {
    if a != [] {
      FoldAlike(m, a[..|a|-1], b[..|b|-1]);
      assert Alike(a[|a|-1], b[|b|-1]);
    }
  }

  lemma {:induction false} FoldConcat(m: MessageMap, a: seq<AIEvent>, b: seq<AIEvent>)
    ensures Fold(m, a + b) == Fold(Fold(m, a), b)
  {
    if b == [] {
      assert a + b == a;
    } else {
      FoldConcat(m, a, b[..|b|-1]);
      assert (a + b)[..|a + b| - 1] == a + b[..|b|-1];
    }
  }

  lemma FoldOne(m: MessageMap, e: AIEvent)
    ensures Fold(m, [e]) == Apply(m, e)
  {
    assert [e][..0] == [];
  }

  /** The event with part of its text. */
  function Part(e: AIEvent, text: string): AIEvent
    requires e.body.MessageDelta?
  {
    e.(body := MessageDelta(e.body.messageId, Some(text)))
  }

  /** Cutting one delta in two, where nothing comes in between. */
  lemma DeltaInTwo(m: MessageMap, e: AIEvent, x: string, y: string)
    requires e.body.MessageDelta? && e.body.deltaText == Some(x + y)
    ensures Apply(Apply(m, Part(e, x)), Part(e, y)) == Apply(m, e)
  {
    var id := e.body.messageId;
    var current := At(m, id);
    AppendTwice(if current.Some? then current.value.content else [], x, y);
    var v, w := Reduce(current, Part(e, x)).value, Reduce(current, e).value;
    assert Reduce(Some(v), Part(e, y)) == Some(w);
    assert m.Set(id, v).Set(id, w).vals == m.Set(id, w).vals;
  }

  /** A delta of a message that is there commutes with every event of another. */
  lemma ApplyCommutes(m: MessageMap, e: AIEvent, z: AIEvent)
    requires e.body.MessageDelta? && m.Has(e.body.messageId) && !IsAbout(z, e.body.messageId)
    ensures Apply(Apply(m, z), e) == Apply(Apply(m, e), z)
    ensures Apply(m, z).Has(e.body.messageId) && Apply(m, e).Has(e.body.messageId)
  {
    if IsMessageBody(z.body) && Reduce(At(m, z.body.messageId), z).Some? {
      var v, w := Reduce(At(m, e.body.messageId), e).value, Reduce(At(m, z.body.messageId), z).value;
      var j, k := e.body.messageId, z.body.messageId;
      assert m.vals[k := w][j := v] == m.vals[j := v][k := w];
    }
  }

  lemma {:induction false} DeltaMovesUp(m: MessageMap, mid: seq<AIEvent>, e: AIEvent)
    requires e.body.MessageDelta? && m.Has(e.body.messageId)
    requires forall z :: z in mid ==> !IsAbout(z, e.body.messageId)
    ensures Apply(Fold(m, mid), e) == Fold(Apply(m, e), mid) && Fold(m, mid).Has(e.body.messageId)
  {
    if mid != [] {
      var front, z := mid[..|mid|-1], mid[|mid|-1];
      assert z in mid && forall u :: u in front ==> u in mid;
      DeltaMovesUp(m, front, e);
      ApplyCommutes(Fold(m, front), e, z);
    }
  }

  /** With events of other messages, tools and tasks between the two parts. */
  lemma RechunkedFold(m: MessageMap, p: seq<AIEvent>, e: AIEvent, x: string, y: string, mid: seq<AIEvent>,
                      q: seq<AIEvent>)
    requires e.body.MessageDelta? && e.body.deltaText == Some(x + y)
    requires forall z :: z in mid ==> !IsAbout(z, e.body.messageId)
    ensures Fold(m, p + [Part(e, x)] + mid + [Part(e, y)] + q) == Fold(m, p + [e] + mid + q)
  {
    var first, second, m0 := Part(e, x), Part(e, y), Fold(m, p);
    FoldConcat(m, p + [first] + mid + [second], q);
    FoldConcat(m, p + [first] + mid, [second]);
    FoldConcat(m, p + [first], mid);
    FoldConcat(m, p, [first]);
    FoldOne(m0, first);
    FoldOne(Fold(Apply(m0, first), mid), second);
    FoldConcat(m, p + [e] + mid, q);
    FoldConcat(m, p + [e], mid);
    FoldConcat(m, p, [e]);
    FoldOne(m0, e);
    DeltaMovesUp(Apply(m0, first), mid, second);
    DeltaInTwo(m0, e, x, y);
  }

  /** Whether an event without message id spoils the stream. */
  ghost predicate Spoiled(s: seq<AIEvent>) {
    exists i :: 0 <= i < |s| && LacksId(s[i])
  }

  lemma SpoiledConcat(a: seq<AIEvent>, b: seq<AIEvent>)
    ensures Spoiled(a + b) <==> Spoiled(a) || Spoiled(b)
  {
    forall i | 0 <= i < |a| && LacksId(a[i]) ensures Spoiled(a + b) { assert (a + b)[i] == a[i]; }
    forall i | 0 <= i < |b| && LacksId(b[i]) ensures Spoiled(a + b) { assert (a + b)[|a| + i] == b[i]; }
    if Spoiled(a + b) {
      var i :| 0 <= i < |a + b| && LacksId((a + b)[i]);
      if i < |a| { assert LacksId(a[i]); } else { assert LacksId(b[i - |a|]); }
    }
  }

  lemma SpoiledAlike(a: seq<AIEvent>, b: seq<AIEvent>)
    requires AllAlike(a, b)
    ensures Spoiled(a) <==> Spoiled(b)
  {
    forall i | 0 <= i < |a| ensures LacksId(a[i]) <==> LacksId(b[i]) { assert Alike(a[i], b[i]); }
  }

  lemma RechunkedSpoiled(p: seq<AIEvent>, e: AIEvent, x: string, y: string, mid: seq<AIEvent>, q: seq<AIEvent>)
    requires e.body.MessageDelta?
    ensures Spoiled(p + [Part(e, x)] + mid + [Part(e, y)] + q) <==> Spoiled(p + [e] + mid + q)
  {
    var first, second := Part(e, x), Part(e, y);
    SpoiledConcat(p + [first] + mid + [second], q);
    SpoiledConcat(p + [first] + mid, [second]);
    SpoiledConcat(p + [first], mid);
    SpoiledConcat(p, [first]);
    SpoiledConcat(p + [e] + mid, q);
    SpoiledConcat(p + [e], mid);
    SpoiledConcat(p, [e]);
    assert Spoiled([e]) <==> LacksId([e][0]);
    assert Spoiled([first]) <==> LacksId([first][0]);
    assert Spoiled([second]) <==> LacksId([second][0]);
  }

  /**
   * How a streamed answer is cut into deltas does not matter. Where one stream
   * has a delta, another may have its text in two, with events of other
   * messages, tools and tasks between the parts and all later events under
   * other sequence numbers: both project to the same messages, in the same
   * order, or both fail.
   */
  lemma RechunkingIsInvisible(a: seq<AIEvent>, b: seq<AIEvent>, p: seq<AIEvent>, e: AIEvent, x: string, y: string,
                              mid: seq<AIEvent>, q: seq<AIEvent>)
    requires e.body.MessageDelta? && e.body.deltaText == Some(x + y)
    requires forall z :: z in mid ==> !IsAbout(z, e.body.messageId)
    requires PrepareEventStream(a) == Stream(p + [e] + mid + q) && PrepareEventStream(b).Stream?
    requires AllAlike(PrepareEventStream(b).events, p + [Part(e, x)] + mid + [Part(e, y)] + q)
    ensures Project(a) == Project(b)
  {
    var sa, sb := p + [e] + mid + q, PrepareEventStream(b).events;
    var cut := p + [Part(e, x)] + mid + [Part(e, y)] + q;
    SpoiledAlike(sb, cut);
    RechunkedSpoiled(p, e, x, y, mid, q);
    assert Spoiled(sa) <==> Spoiled(sb);
    FoldAlike(Empty(), sb, cut);
    RechunkedFold(Empty(), p, e, x, y, mid, q);
  }

  // ------------------------------------------------------------------
  // Order-blindness
  // ------------------------------------------------------------------

  lemma ProjectionIsOrderBlind(a: seq<AIEvent>, b: seq<AIEvent>)
    requires multiset(a) == multiset(b) && DistinctKeys(a)
    ensures Project(a) == Project(b)
  {
    PrepareIsOrderBlind(a, b);
  }
}
