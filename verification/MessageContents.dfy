/**
 * What a projected message holds besides its content: status, role, times and
 * metadata are those of the last event that carries them, and messages are
 * listed in the order in which they came into being.
 */
module MessageContents {
  import opened Seqs
  import opened JsMaps
  import opened Events
  import opened EventStream
  import opened Messages

  /** Event `i` counts: it is no completion of a message that is not there yet. */
  predicate Counts(own: seq<AIEvent>, i: nat)
    requires i < |own|
  {
    !own[i].body.MessageCompleted? || Exists(own[..i])
  }

  lemma CountsLonger(own: seq<AIEvent>, i: nat)
    requires i < |own| - 1
    ensures own[..|own|-1][..i] == own[..i] && (Counts(own[..|own|-1], i) <==> Counts(own, i))
  {
  }

  /** The message is there exactly once an event other than a completion named it. */
  lemma {:induction false} TraceExists(own: seq<AIEvent>)
    requires AllMessages(own)
    ensures Trace(None, own).Some? <==> Exists(own)
  {
    if own != [] { TraceExists(own[..|own|-1]); }
  }

  // ------------------------------------------------------------------
  // Status
  // ------------------------------------------------------------------

  /** The status a message event announces; a delta announces none. */
  function StatusOf(b: Body): Option<MessageStatus> {
    match b
    case MessageStarted(_, _, _) => Some(Streaming)
    case MessageCreated(_, _, _) => Some(Completed)
    case MessageCompleted(_, _, _) => Some(Completed)
    case MessageFailed(_, _, _) => Some(Failed)
    case MessageCancelled(_, _) => Some(Cancelled)
    case _ => None
  }

  predicate SpeaksAt(own: seq<AIEvent>, i: nat)
    requires i < |own|
  {
    Counts(own, i) && StatusOf(own[i].body).Some?
  }

  /** The status is the one announced last. */
  lemma {:induction false} MessageStatusIsLast(own: seq<AIEvent>, i: nat)
    requires AllMessages(own) && i < |own| && SpeaksAt(own, i)
    requires forall j :: i < j < |own| ==> !SpeaksAt(own, j)
    ensures Trace(None, own).Some? && Some(Trace(None, own).value.status) == StatusOf(own[i].body)
  {
    var n := |own| - 1;
    TraceExists(own[..n]);
    if i < n {
      CountsLonger(own, i);
      forall j | i < j < n ensures !SpeaksAt(own[..n], j) {
        assert !SpeaksAt(own, j);
        CountsLonger(own, j);
      }
      MessageStatusIsLast(own[..n], i);
      assert !SpeaksAt(own, n);
    }
  }

  /** A message only deltas speak of is streaming. */
  lemma {:induction false} MessageStreams(own: seq<AIEvent>)
    requires AllMessages(own) && Exists(own) && forall j :: 0 <= j < |own| ==> !SpeaksAt(own, j)
    ensures Trace(None, own).Some? && Trace(None, own).value.status == Streaming
  {
    var n := |own| - 1;
    assert !SpeaksAt(own, n);
    TraceExists(own[..n]);
    if Exists(own[..n]) {
      forall j | 0 <= j < n ensures !SpeaksAt(own[..n], j) {
        assert !SpeaksAt(own, j);
        CountsLonger(own, j);
      }
      MessageStreams(own[..n]);
    }
  }

  // ------------------------------------------------------------------
  // Role and times
  // ------------------------------------------------------------------

  /** The event that brings the message into being. */
  predicate IsBirth(own: seq<AIEvent>, i: nat) {
    && i < |own| && IsMessageBody(own[i].body) && !own[i].body.MessageCompleted?
    && forall j :: 0 <= j < i ==> own[j].body.MessageCompleted?
  }

  function BirthRole(b: Body): Role {
    if b.MessageStarted? || b.MessageCreated? then b.role else AssistantRole
  }

  lemma {:induction false} NotYet(own: seq<AIEvent>)
    requires forall j :: 0 <= j < |own| ==> own[j].body.MessageCompleted?
    ensures !Exists(own)
  {
    if own != [] { NotYet(own[..|own|-1]); }
  }

  lemma {:induction false} BornExists(own: seq<AIEvent>, i: nat)
    requires i < |own| && IsMessageBody(own[i].body) && !own[i].body.MessageCompleted?
    ensures Exists(own)
  {
    if i < |own| - 1 { BornExists(own[..|own|-1], i); }
  }

  /**
   * A message keeps the conversation and the creation time of its first event,
   * and was last updated by its last one; its role is that of the last
   * created event, else of its first event.
   */
  lemma {:induction false} MessageOrigin(own: seq<AIEvent>, i: nat)
    requires AllMessages(own) && IsBirth(own, i)
    ensures Trace(None, own).Some?
    ensures var m := Trace(None, own).value;
            && m.id == own[i].body.messageId && m.conversationId == own[i].conversationId
            && m.createdAt == own[i].timestamp && m.updatedAt == own[|own|-1].timestamp
    ensures (forall j :: i < j < |own| ==> !own[j].body.MessageCreated?) ==>
              Trace(None, own).value.role == BirthRole(own[i].body)
  {
    var n := |own| - 1;
    TraceExists(own[..n]);
    if i < n {
      BornExists(own[..n], i);
      MessageOrigin(own[..n], i);
    } else {
      NotYet(own[..n]);
    }
  }

  lemma {:induction false} MessageRoleIsLast(own: seq<AIEvent>, i: nat)
    requires AllMessages(own) && i < |own| && own[i].body.MessageCreated?
    requires forall j :: i < j < |own| ==> !own[j].body.MessageCreated?
    ensures Trace(None, own).Some? && Trace(None, own).value.role == own[i].body.role
  {
    if i < |own| - 1 {
      MessageRoleIsLast(own[..|own|-1], i);
    }
  }

  // ------------------------------------------------------------------
  // Metadata
  // ------------------------------------------------------------------

  /** The value an event gives a metadata key. */
  function Told(b: Body, key: string): Option<MetaValue> {
    match b
    case MessageCompleted(_, reason, tokens) =>
      if key == "finishReason" && Truthy(reason) then Some(Str(reason.value))
      else if key == "totalTokens" && tokens.Some? then Some(Num(tokens.value)) else None
    case MessageFailed(_, error, code) =>
      if key == "error" then Some(Str(error))
      else if key == "code" && Truthy(code) then Some(Str(code.value)) else None
    case MessageCancelled(_, reason) =>
      if key == "cancellationReason" && Truthy(reason) then Some(Str(reason.value)) else None
    case _ => None
  }

  predicate TellsAt(own: seq<AIEvent>, key: string, i: nat)
    requires i < |own|
  {
    Counts(own, i) && Told(own[i].body, key).Some?
  }

  function Meta(m: Option<Message>, key: string): Option<MetaValue> {
    if m.Some? && m.value.metadata.Some? && key in m.value.metadata.value then Some(m.value.metadata.value[key])
    else None
  }

  lemma MetaStep(current: Option<Message>, e: AIEvent, key: string)
    requires IsMessageBody(e.body)
    ensures Meta(Reduce(current, e), key)
            == if (current.Some? || !e.body.MessageCompleted?) && Told(e.body, key).Some? then Told(e.body, key)
               else Meta(current, key)
  {
  }

  /** Each key holds the value told last. */
  lemma {:induction false} MetadataIsLast(own: seq<AIEvent>, key: string, i: nat)
    requires AllMessages(own) && i < |own| && TellsAt(own, key, i)
    requires forall j :: i < j < |own| ==> !TellsAt(own, key, j)
    ensures Meta(Trace(None, own), key) == Told(own[i].body, key)
  {
    var n := |own| - 1;
    TraceExists(own[..n]);
    MetaStep(Trace(None, own[..n]), own[n], key);
    if i < n {
      CountsLonger(own, i);
      forall j | i < j < n ensures !TellsAt(own[..n], key, j) {
        assert !TellsAt(own, key, j);
        CountsLonger(own, j);
      }
      MetadataIsLast(own[..n], key, i);
      assert !TellsAt(own, key, n);
    }
  }

  /** A key no event told is not there. */
  lemma {:induction false} MetadataIsTold(own: seq<AIEvent>, key: string)
    requires AllMessages(own) && forall j :: 0 <= j < |own| ==> !TellsAt(own, key, j)
    ensures Meta(Trace(None, own), key) == None
  {
    if own != [] {
      var n := |own| - 1;
      TraceExists(own[..n]);
      MetaStep(Trace(None, own[..n]), own[n], key);
      forall j | 0 <= j < n ensures !TellsAt(own[..n], key, j) {
        assert !TellsAt(own, key, j);
        CountsLonger(own, j);
      }
      MetadataIsTold(own[..n], key);
      assert !TellsAt(own, key, n);
    }
  }

  // ------------------------------------------------------------------
  // The list
  // ------------------------------------------------------------------

  /** The projection fails exactly on an unsupported schema version or a message event without message id. */
  lemma ProjectionFailsIff(events: seq<AIEvent>)
    ensures Project(events).StreamError? <==>
            exists e :: e in events && (e.schemaVersion != 1 || (IsMessageBody(e.body) && e.body.messageId.raw == ""))
  {
    RefusedIff(events);
    var sorted := Sort(events);
    forall e ensures e in sorted <==> e in events { SortHas(events, e); }
    if i :| 0 <= i < |sorted| && LacksId(sorted[i]) { assert sorted[i] in events; }
    if e :| e in events && LacksId(e) { assert e in sorted && sorted[Index(sorted, e)] == e; }
  }

  lemma {:induction false} FoldKeepsIds(events: seq<AIEvent>, id: MessageId)
    ensures At(Fold(Empty(), events), id).Some? ==> At(Fold(Empty(), events), id).value.id == id
  {
    if events != [] { FoldKeepsIds(events[..|events|-1], id); }
  }

  /** The list holds the map's values in the order of its keys. */
  lemma ListedAt(events: seq<AIEvent>, k: nat)
    requires Project(events).Projected? && k < |Project(events).messages|
    ensures var m, ms := Fold(Empty(), Sort(events)), Project(events).messages;
            && m.Valid() && |ms| == |m.keys| && ms[k].id == m.keys[k] && At(m, ms[k].id) == Some(ms[k])
  {
    var m := Fold(Empty(), Sort(events));
    FoldValid(Empty(), Sort(events));
    FoldKeepsIds(Sort(events), m.keys[k]);
  }

  /** Each listed message is the outcome of its own events. */
  lemma ListedMessage(events: seq<AIEvent>, k: nat)
    requires Project(events).Projected? && k < |Project(events).messages|
    ensures var m := Project(events).messages[k]; var own := Own(Sort(events), m.id);
            AllMessages(own) && Trace(None, own) == Some(m)
  {
    ListedAt(events, k);
    MessageDependsOnOwnEvents(Empty(), Sort(events), Project(events).messages[k].id);
  }

  /** No id is listed twice. */
  lemma ListedOnce(events: seq<AIEvent>, k: nat, l: nat)
    requires Project(events).Projected? && k < l < |Project(events).messages|
    ensures Project(events).messages[k].id != Project(events).messages[l].id
  {
    ListedAt(events, k);
    ListedAt(events, l);
  }

  /** A message is listed exactly when an event other than a completion names it. */
  lemma ListedIff(events: seq<AIEvent>, id: MessageId)
    requires Project(events).Projected?
    ensures (exists m :: m in Project(events).messages && m.id == id) <==> Exists(Own(Sort(events), id))
  {
    var sorted := Sort(events);
    FoldValid(Empty(), sorted);
    var m := Fold(Empty(), sorted);
    MessageDependsOnOwnEvents(Empty(), sorted, id);
    TraceExists(Own(sorted, id));
    FoldKeepsIds(sorted, id);
    if m.Has(id) {
      var k := Index(m.keys, id);
      assert Project(events).messages[k].id == id;
    }
    if x :| x in Project(events).messages && x.id == id {
      var k := Index(Project(events).messages, x);
      FoldKeepsIds(sorted, m.keys[k]);
    }
  }

  /** The position at which a message came into being, counted in the whole stream. */
  predicate BornAt(events: seq<AIEvent>, id: MessageId, i: nat) {
    && i < |events| && IsAbout(events[i], id) && !events[i].body.MessageCompleted?
    && forall j :: 0 <= j < i ==> IsAbout(events[j], id) ==> events[j].body.MessageCompleted?
  }

  lemma {:induction false} KeysAreBorn(events: seq<AIEvent>, id: MessageId) returns (i: nat)
    requires At(Fold(Empty(), events), id).Some?
    ensures BornAt(events, id, i)
  {
    var n := |events| - 1;
    if At(Fold(Empty(), events[..n]), id).Some? {
      i := KeysAreBorn(events[..n], id);
    } else {
      i := n;
      forall j | 0 <= j < n && IsAbout(events[j], id) ensures events[j].body.MessageCompleted? {
        if !events[j].body.MessageCompleted? { StaysListed(events[..n], id, j); }
      }
    }
  }

  lemma {:induction false} StaysListed(events: seq<AIEvent>, id: MessageId, j: nat)
    requires j < |events| && IsAbout(events[j], id) && !events[j].body.MessageCompleted?
    ensures At(Fold(Empty(), events), id).Some?
  {
    if j < |events| - 1 { StaysListed(events[..|events|-1], id, j); }
  }

  /** Messages are listed in the order in which they came into being. */
  lemma {:induction false} ListedInOrder(events: seq<AIEvent>, k: nat, l: nat, i: nat, j: nat)
    requires var keys := Fold(Empty(), events).keys;
             k < l < |keys| && BornAt(events, keys[k], i) && BornAt(events, keys[l], j)
    ensures i < j
  {
    var n := |events| - 1;
    var before, keys := Fold(Empty(), events[..n]), Fold(Empty(), events).keys;
    FoldValid(Empty(), events[..n]);
    FoldValid(Empty(), events);
    if l < |before.keys| {
      assert before.keys[k] == keys[k] && before.keys[l] == keys[l];
      var i' := KeysAreBorn(events[..n], keys[k]);
      var j' := KeysAreBorn(events[..n], keys[l]);
      SameBirth(events, keys[k], i, i');
      SameBirth(events, keys[l], j, j');
      ListedInOrder(events[..n], k, l, i, j);
    } else {
      assert keys == before.keys + [events[n].body.messageId];
      var i' := KeysAreBorn(events[..n], keys[k]);
      SameBirth(events, keys[k], i, i');
      if j < n { StaysListed(events[..n], keys[l], j); }
    }
  }

  lemma SameBirth(events: seq<AIEvent>, id: MessageId, i: nat, i': nat)
    requires events != [] && BornAt(events, id, i) && BornAt(events[..|events|-1], id, i')
    ensures i == i' && BornAt(events[..|events|-1], id, i)
  {
    var front := events[..|events|-1];
    assert IsAbout(events[i'], id) && front[i'] == events[i'];
    assert IsAbout(front[i], id) && front[i] == events[i];
  }
}
