/** The conversation projection and how it selects from a mixed stream. */
module Conversations {
  import opened Seqs
  import opened JsMaps
  import opened Events
  import opened EventStream
  import M = Messages

  const EPOCH := 0

  datatype Conversation = Conversation(
    id: int, title: Option<string>, createdAt: int, updatedAt: int, messages: seq<M.Message>,
    lastSequence: int, metadata: Option<Metadata>)

  datatype Result = Projected(conversation: Conversation) | StreamError

  /** The fields the loop carries. */
  datatype Header = Header(
    title: Option<string>, createdAt: int, updatedAt: int, lastSequence: int, metadata: Option<Metadata>)

  function Advance(h: Header, e: AIEvent): Header {
    var h1 := h.(updatedAt := e.timestamp,
                 lastSequence := if e.sequence > h.lastSequence then e.sequence else h.lastSequence);
    if !e.body.ConversationCreated? then h1
    else h1.(createdAt := e.timestamp,
             title := if Truthy(e.body.title) then e.body.title else h1.title,
             metadata := if e.body.metadata.Some? then M.Merge(h1.metadata, e.body.metadata.value) else h1.metadata)
  }

  function Headers(h: Header, events: seq<AIEvent>): Header {
    if events == [] then h else Advance(Headers(h, events[..|events|-1]), events[|events|-1])
  }

  function InConversation(events: seq<AIEvent>, id: int): seq<AIEvent> {
    Filter(events, (e: AIEvent) => e.conversationId == id)
  }

  /** The conversation of already selected, sorted, non-empty events. */
  function Assemble(events: seq<AIEvent>, id: int): Result
    requires events != []
  {
    var first := events[0];
    var h := Headers(Header(None, first.timestamp, first.timestamp, first.sequence, None), events);
    match M.Project(events)
    case StreamError => StreamError
    case Projected(messages) =>
      Projected(Conversation(id, h.title, h.createdAt, h.updatedAt, messages, h.lastSequence, h.metadata))
  }

  function Project(events: seq<AIEvent>, target: Option<int>): Result {
    match PrepareEventStream(events)
    case UnsupportedSchema => StreamError
    case Stream(sorted) =>
      if sorted == [] then
        if target.None? then StreamError
        else Projected(Conversation(target.value, None, EPOCH, EPOCH, [], -1, None))
      else
        var id := if target.Some? then target.value else sorted[0].conversationId;
        var own := InConversation(sorted, id);
        if own == [] then StreamError else Assemble(own, id)
  }

  method ProjectConversation(events: seq<AIEvent>, target: Option<int>) returns (r: Result)
    ensures r == Project(events, target)
  {
    var stream := PrepareEventStream(events);
    if stream.UnsupportedSchema? {
      return StreamError;
    }
    var sorted := stream.events;
    if |sorted| == 0 {
      if target.None? {
        return StreamError;
      }
      return Projected(Conversation(target.value, None, EPOCH, EPOCH, [], -1, None));
    }
    var id := if target.Some? then target.value else sorted[0].conversationId;
    var own := InConversation(sorted, id);
    if |own| == 0 {
      return StreamError;
    }
    var title: Option<string> := None;
    var createdAt, updatedAt, lastSequence := own[0].timestamp, own[0].timestamp, own[0].sequence;
    var metadata: Option<Metadata> := None;
    ghost var start := Header(None, own[0].timestamp, own[0].timestamp, own[0].sequence, None);
    for i := 0 to |own|
      invariant Header(title, createdAt, updatedAt, lastSequence, metadata) == Headers(start, own[..i])
    {
      assert own[..i+1][..i] == own[..i];
      var event := own[i];
      updatedAt := event.timestamp;
      if event.sequence > lastSequence {
        lastSequence := event.sequence;
      }
      if event.body.ConversationCreated? {
        createdAt := event.timestamp;
        if Truthy(event.body.title) {
          title := event.body.title;
        }
        if event.body.metadata.Some? {
          metadata := M.Merge(metadata, event.body.metadata.value);
        }
      }
    }
    assert own[..|own|] == own;
    var messages := M.ProjectMessages(own);
    if messages.StreamError? {
      return StreamError;
    }
    return Projected(Conversation(id, title, createdAt, updatedAt, messages.messages, lastSequence, metadata));
  }

  // ------------------------------------------------------------------
  // Order and selection
  // ------------------------------------------------------------------

  lemma ProjectionIsOrderBlind(a: seq<AIEvent>, b: seq<AIEvent>, target: Option<int>)
    requires multiset(a) == multiset(b) && DistinctKeys(a)
    ensures Project(a, target) == Project(b, target)
  {
    PrepareIsOrderBlind(a, b);
  }

  lemma SelectTwice(events: seq<AIEvent>, id: int)
    ensures InConversation(InConversation(events, id), id) == InConversation(events, id)
  {
    FilterMember(events, (e: AIEvent) => e.conversationId == id);
    FilterAll(InConversation(events, id), (e: AIEvent) => e.conversationId == id);
  }

  /**
   * Projecting one conversation out of a mixed stream is projecting its events
   * alone, exactly when it has any event or the mixed stream is empty: with
   * others' events only, the mixed call fails and the lone call succeeds.
   */
  lemma SelectionCommutes(events: seq<AIEvent>, id: int)
    requires forall i :: 0 <= i < |events| ==> Supported(events[i])
    ensures Project(events, Some(id)) == Project(InConversation(events, id), Some(id)) <==>
            (InConversation(events, id) != [] || events == [])
  {
    var keep := (e: AIEvent) => e.conversationId == id;
    var own := InConversation(events, id);
    FilterMember(events, keep);
    forall i | 0 <= i < |own| ensures Supported(own[i]) { assert own[i] in own; }
    FilterSort(events, keep);
    SortSpec(events);
    SortSpec(own);
    SelectTwice(Sort(events), id);
    assert InConversation(Sort(events), id) == Sort(own);
    assert InConversation(Sort(own), id) == Sort(own);
  }

  lemma {:induction false} HeadersOfSorted(h: Header, events: seq<AIEvent>)
    requires forall i, j :: 0 <= i < j < |events| ==> events[i].sequence <= events[j].sequence
    requires events != [] && h.lastSequence <= events[0].sequence
    ensures Headers(h, events).lastSequence == events[|events|-1].sequence
    ensures Headers(h, events).updatedAt == events[|events|-1].timestamp
  {
    if |events| > 1 {
      HeadersOfSorted(h, events[..|events|-1]);
    }
  }

  /** The selected sorted events of one conversation rise in sequence. */
  lemma OwnEventsRise(events: seq<AIEvent>, id: int)
    ensures var own := InConversation(Sort(events), id);
            && (forall i, j :: 0 <= i < j < |own| ==> own[i].sequence <= own[j].sequence)
            && (forall e :: e in own <==> e in events && e.conversationId == id)
  {
    var keep := (e: AIEvent) => e.conversationId == id;
    var own := InConversation(Sort(events), id);
    SortSpec(events);
    FilterMember(Sort(events), keep);
    FilterSorted(Sort(events), keep);
    forall e ensures e in Sort(events) <==> e in events {
      assert e in multiset(Sort(events)) <==> e in multiset(events);
    }
    forall i, j | 0 <= i < j < |own| ensures own[i].sequence <= own[j].sequence {
      assert own[i] in own && own[j] in own;
    }
  }

  lemma AssembledHeader(own: seq<AIEvent>, id: int)
    requires own != [] && Assemble(own, id).Projected?
    requires forall i, j :: 0 <= i < j < |own| ==> own[i].sequence <= own[j].sequence
    ensures var c := Assemble(own, id).conversation;
            && c.lastSequence == own[|own|-1].sequence && c.updatedAt == own[|own|-1].timestamp
            && forall e :: e in own ==> e.sequence <= c.lastSequence
  {
    HeadersOfSorted(Header(None, own[0].timestamp, own[0].timestamp, own[0].sequence, None), own);
    forall e | e in own ensures e.sequence <= own[|own|-1].sequence {
      assert own[Index(own, e)] == e;
    }
  }

  /** The header ends at the last event in sequence order. */
  lemma EndsAtLastEvent(events: seq<AIEvent>, id: int)
    requires Project(events, Some(id)).Projected? && InConversation(events, id) != []
    ensures var own, c := InConversation(Sort(events), id), Project(events, Some(id)).conversation;
            && own != [] && c.lastSequence == own[|own|-1].sequence && c.updatedAt == own[|own|-1].timestamp
            && forall e :: e in events && e.conversationId == id ==> e.sequence <= c.lastSequence
  {
    var own := InConversation(Sort(events), id);
    OwnEventsRise(events, id);
    FilterMember(events, (e: AIEvent) => e.conversationId == id);
    var e := InConversation(events, id)[0];
    assert e in events && e in own;
    assert Project(events, Some(id)) == Assemble(own, id);
    AssembledHeader(own, id);
  }
}
