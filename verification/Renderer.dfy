/**
 * The renderer's incremental message reducer and its agreement with replay:
 * it keeps a list it searches, where the projection keeps a map.
 */
module Renderer {
  import opened Seqs
  import opened JsMaps
  import opened Events
  import opened EventStream
  import M = Messages

  datatype View = View(id: MessageId, conversationId: int, role: Role, content: seq<ContentPart>,
                       status: M.MessageStatus, createdAt: int, updatedAt: int)

  /** The index of a message, or the length of the list. */
  function FindIndex(list: seq<View>, id: MessageId): (i: nat)
    ensures i <= |list| && (i < |list| ==> list[i].id == id)
    ensures forall j :: 0 <= j < i ==> list[j].id != id
  {
    if list == [] then 0
    else if list[0].id == id then 0
    else 1 + FindIndex(list[1..], id)
  }

  /** One event into one view; None while the message is not in the list. */
  function ReduceView(current: Option<View>, e: AIEvent): Option<View>
    requires IsMessageBody(e.body)
  {
    var b, ts := e.body, e.timestamp;
    match b
    case MessageStarted(id, role, content) =>
      if current.Some? then Some(current.value.(status := M.Streaming, updatedAt := ts))
      else Some(View(id, e.conversationId, role, if content.Some? then content.value else [], M.Streaming, ts, ts))
    case MessageCreated(id, role, content) =>
      if current.Some? then
        Some(current.value.(role := role, content := content, status := M.Completed, updatedAt := ts))
      else Some(View(id, e.conversationId, role, content, M.Completed, ts, ts))
    case MessageDelta(id, text) =>
      if current.Some? && Truthy(text) then
        Some(current.value.(content := M.AppendText(current.value.content, text.value), status := M.Streaming,
                            updatedAt := ts))
      else current
    case MessageCompleted(id, _, _) =>
      if current.Some? then Some(current.value.(status := M.Completed, updatedAt := ts)) else None
    case MessageCancelled(id, _) =>
      if current.Some? then Some(current.value.(status := M.Cancelled, updatedAt := ts)) else None
    case MessageFailed(id, _, _) =>
      if current.Some? then Some(current.value.(status := M.Failed, updatedAt := ts)) else None
  }

  function Place(list: seq<View>, i: nat, v: View): seq<View>
    requires i <= |list|
  {
    if i < |list| then list[i := v] else list + [v]
  }

  /** The list after one event. */
  function Live(list: seq<View>, e: AIEvent): seq<View> {
    if !IsMessageBody(e.body) || e.body.messageId.raw == "" then list
    else
      var i := FindIndex(list, e.body.messageId);
      var next := ReduceView(if i < |list| then Some(list[i]) else None, e);
      if next.None? then list else Place(list, i, next.value)
  }

  method HandleStreamEvent(prev: seq<View>, event: AIEvent) returns (updated: seq<View>)
    ensures updated == Live(prev, event)
  {
    updated := prev;
    if !IsMessageBody(event.body) || event.body.messageId.raw == "" {
      return;
    }
    var id, ts := event.body.messageId, event.timestamp;
    var at := 0;
    while at < |updated| && updated[at].id != id
      invariant 0 <= at <= |updated|
      invariant forall j :: 0 <= j < at ==> updated[j].id != id
    {
      at := at + 1;
    }
    assert at == FindIndex(prev, id);
    var known := at < |updated|;
    match event.body
    case MessageStarted(_, role, content) =>
      if known {
        updated := updated[at := updated[at].(status := M.Streaming, updatedAt := ts)];
      } else {
        updated := updated + [View(id, event.conversationId, role, if content.Some? then content.value else [],
                                   M.Streaming, ts, ts)];
      }
    case MessageCreated(_, role, content) =>
      if known {
        var message := updated[at].(role := role, content := content, status := M.Completed, updatedAt := ts);
        updated := updated[at := message];
      } else {
        updated := updated + [View(id, event.conversationId, role, content, M.Completed, ts, ts)];
      }
    case MessageDelta(_, text) =>
      if known && Truthy(text) {
        var parts := updated[at].content;
        var last := |parts| - 1;
        if last >= 0 && parts[last].Text? {
          parts := parts[..last] + [Text(parts[last].text + text.value)];
        } else {
          parts := parts + [Text(text.value)];
        }
        updated := updated[at := updated[at].(content := parts, status := M.Streaming, updatedAt := ts)];
      } else if known {
        assert updated[at := updated[at]] == updated;
      }
    case MessageCompleted(_, _, _) =>
      if known {
        updated := updated[at := updated[at].(status := M.Completed, updatedAt := ts)];
      }
    case MessageCancelled(_, _) =>
      if known {
        updated := updated[at := updated[at].(status := M.Cancelled, updatedAt := ts)];
      }
    case MessageFailed(_, _, _) =>
      if known {
        updated := updated[at := updated[at].(status := M.Failed, updatedAt := ts)];
      }
  }

  // ------------------------------------------------------------------
  // Agreement
  // ------------------------------------------------------------------

  /** Same message up to metadata and the time of the last update. */
  predicate SameMessage(v: View, m: M.Message) {
    && v.id == m.id && v.conversationId == m.conversationId && v.role == m.role
    && v.content == m.content && v.status == m.status && v.createdAt == m.createdAt
  }

  /** Same messages in the same order. */
  ghost predicate Agree(list: seq<View>, m: M.MessageMap) {
    && m.Valid() && |list| == |m.keys|
    && forall i :: 0 <= i < |list| ==> list[i].id == m.keys[i] && SameMessage(list[i], m.vals[m.keys[i]])
  }

  /** The discipline the renderer relies on, checked before the event applies. */
  predicate InOrder(m: M.MessageMap, e: AIEvent) {
    match e.body
    case MessageDelta(id, text) => m.Has(id) && (Truthy(text) ==> m.Get(id).status == M.Streaming)
    case MessageFailed(id, _, _) => m.Has(id)
    case MessageCancelled(id, _) => m.Has(id)
    case _ => true
  }

  lemma PlaceAgrees(list: seq<View>, m: M.MessageMap, id: MessageId, v: View, msg: M.Message)
    requires Agree(list, m) && v.id == id
    ensures Agree(Place(list, FindIndex(list, id), v), m.Set(id, msg)) <==> SameMessage(v, msg)
  {
    var at, m' := FindIndex(list, id), m.Set(id, msg);
    var list' := Place(list, at, v);
    assert list'[at] == v && m'.keys[at] == id && m'.vals[id] == msg;
    forall i | 0 <= i < |list'| && i != at
      ensures list'[i].id == m'.keys[i] && SameMessage(list'[i], m'.vals[m'.keys[i]])
    {
      assert m'.keys[i] != id;
    }
  }

  lemma GrowthDisagrees(list: seq<View>, m: M.MessageMap, id: MessageId, msg: M.Message)
    requires Agree(list, m) && !m.Has(id)
    ensures !Agree(list, m.Set(id, msg))
  {
  }

  /** From agreeing states, one event keeps agreement exactly when it is in order. */
  lemma StepAgreement(list: seq<View>, m: M.MessageMap, e: AIEvent)
    requires Agree(list, m) && !M.LacksId(e)
    ensures Agree(Live(list, e), M.Apply(m, e)) <==> InOrder(m, e)
  {
    if IsMessageBody(e.body) {
      var id := e.body.messageId;
      var at := FindIndex(list, id);
      var shown := if at < |list| then Some(list[at]) else None;
      var v, msg := ReduceView(shown, e), M.Reduce(M.At(m, id), e);
      if v.Some? && msg.Some? {
        PlaceAgrees(list, m, id, v.value, msg.value);
        ReductionsMatch(shown, M.At(m, id), e);
      } else if msg.Some? {
        GrowthDisagrees(list, m, id, msg.value);
      }
    }
  }

  lemma ReductionsMatch(v: Option<View>, m: Option<M.Message>, e: AIEvent)
    requires IsMessageBody(e.body) && v.Some? == m.Some? && (v.Some? ==> SameMessage(v.value, m.value))
    requires ReduceView(v, e).Some? && M.Reduce(m, e).Some?
    ensures SameMessage(ReduceView(v, e).value, M.Reduce(m, e).value) <==>
            !(e.body.MessageDelta? && Truthy(e.body.deltaText) && m.value.status != M.Streaming)
  {
  }

  function LiveFold(list: seq<View>, events: seq<AIEvent>): seq<View> {
    if events == [] then list else Live(LiveFold(list, events[..|events|-1]), events[|events|-1])
  }

  /** Every event is in order when it arrives. */
  ghost predicate WellFormed(m: M.MessageMap, events: seq<AIEvent>) {
    forall n :: 0 <= n < |events| ==> InOrder(M.Fold(m, events[..n]), events[n])
  }

  ghost predicate AgreeThroughout(list: seq<View>, m: M.MessageMap, events: seq<AIEvent>) {
    forall n :: 0 <= n <= |events| ==> Agree(LiveFold(list, events[..n]), M.Fold(m, events[..n]))
  }

  lemma PrefixStep(list: seq<View>, m: M.MessageMap, events: seq<AIEvent>, n: nat)
    requires n < |events|
    ensures LiveFold(list, events[..n+1]) == Live(LiveFold(list, events[..n]), events[n])
    ensures M.Fold(m, events[..n+1]) == M.Apply(M.Fold(m, events[..n]), events[n])
  {
    assert events[..n+1][..n] == events[..n];
  }

  lemma {:induction false} WellFormedAgrees(list: seq<View>, m: M.MessageMap, events: seq<AIEvent>, n: nat)
    requires Agree(list, m) && n <= |events|
    requires forall i :: 0 <= i < |events| ==> !M.LacksId(events[i])
    requires WellFormed(m, events)
    ensures Agree(LiveFold(list, events[..n]), M.Fold(m, events[..n]))
    decreases n
  {
    if n > 0 {
      WellFormedAgrees(list, m, events, n - 1);
      PrefixStep(list, m, events, n - 1);
      StepAgreement(LiveFold(list, events[..n-1]), M.Fold(m, events[..n-1]), events[n-1]);
    }
  }

  /**
   * The live list and the replayed map agree, on order, role, content and
   * status, at every moment of a stream exactly when each delta, failure and
   * cancellation finds its message, and non-empty deltas find it streaming.
   */
  lemma LiveAgreesWithReplay(list: seq<View>, m: M.MessageMap, events: seq<AIEvent>)
    requires Agree(list, m)
    requires forall i :: 0 <= i < |events| ==> !M.LacksId(events[i])
    ensures AgreeThroughout(list, m, events) <==> WellFormed(m, events)
  {
    if WellFormed(m, events) {
      forall n | 0 <= n <= |events| ensures Agree(LiveFold(list, events[..n]), M.Fold(m, events[..n])) {
        WellFormedAgrees(list, m, events, n);
      }
    }
    if AgreeThroughout(list, m, events) {
      forall n | 0 <= n < |events| ensures InOrder(M.Fold(m, events[..n]), events[n]) {
        assert Agree(LiveFold(list, events[..n]), M.Fold(m, events[..n]));
        assert Agree(LiveFold(list, events[..n+1]), M.Fold(m, events[..n+1]));
        PrefixStep(list, m, events, n);
        StepAgreement(LiveFold(list, events[..n]), M.Fold(m, events[..n]), events[n]);
      }
    }
  }

  /** What the renderer shows after a sorted stream is what a reload projects. */
  lemma LiveListIsTheProjection(events: seq<AIEvent>)
    requires Sorted(events) && WellFormed(Empty(), events)
    requires forall i :: 0 <= i < |events| ==> Supported(events[i]) && !M.LacksId(events[i])
    ensures var p := M.Project(events);
            && p.Projected? && |p.messages| == |LiveFold([], events)|
            && forall i :: 0 <= i < |p.messages| ==> SameMessage(LiveFold([], events)[i], p.messages[i])
  {
    SortedIsFixed(events);
    var m: M.MessageMap := Empty();
    WellFormedAgrees([], m, events, |events|);
    assert events[..|events|] == events;
  }
}
