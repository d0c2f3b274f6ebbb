/**
 * What a projected conversation holds: the messages its own events project to,
 * and a header told by its own events alone.
 */
module ConversationContents {
  import opened Seqs
  import opened Events
  import opened EventStream
  import M = Messages
  import MC = MessageContents
  import opened Conversations

  // ------------------------------------------------------------------
  // The header, told by the event that speaks last
  // ------------------------------------------------------------------

  predicate Retitles(e: AIEvent) {
    e.body.ConversationCreated? && e.body.title.Some? && e.body.title.value != ""
  }

  predicate Tells(e: AIEvent, key: string) {
    e.body.ConversationCreated? && e.body.metadata.Some? && key in e.body.metadata.value
  }

  predicate TellsSomething(e: AIEvent) {
    e.body.ConversationCreated? && e.body.metadata.Some?
  }

  function Meta(metadata: Option<Metadata>, key: string): Option<MetaValue> {
    if metadata.Some? && key in metadata.value then Some(metadata.value[key]) else None
  }

  lemma {:induction false} TitleIsLast(h: Header, own: seq<AIEvent>, i: nat)
    requires i < |own| && Retitles(own[i]) && forall j :: i < j < |own| ==> !Retitles(own[j])
    ensures Headers(h, own).title == own[i].body.title
  {
    if i < |own| - 1 { TitleIsLast(h, own[..|own|-1], i); }
  }

  lemma {:induction false} TitleStays(h: Header, own: seq<AIEvent>)
    requires forall j :: 0 <= j < |own| ==> !Retitles(own[j])
    ensures Headers(h, own).title == h.title
  {
    if own != [] { TitleStays(h, own[..|own|-1]); }
  }

  lemma {:induction false} CreationIsLast(h: Header, own: seq<AIEvent>, i: nat)
    requires i < |own| && own[i].body.ConversationCreated?
    requires forall j :: i < j < |own| ==> !own[j].body.ConversationCreated?
    ensures Headers(h, own).createdAt == own[i].timestamp
  {
    if i < |own| - 1 { CreationIsLast(h, own[..|own|-1], i); }
  }

  lemma {:induction false} CreationStays(h: Header, own: seq<AIEvent>)
    requires forall j :: 0 <= j < |own| ==> !own[j].body.ConversationCreated?
    ensures Headers(h, own).createdAt == h.createdAt
  {
    if own != [] { CreationStays(h, own[..|own|-1]); }
  }

  lemma {:induction false} MetadataIsLast(h: Header, own: seq<AIEvent>, key: string, i: nat)
    requires i < |own| && Tells(own[i], key) && forall j :: i < j < |own| ==> !Tells(own[j], key)
    ensures Meta(Headers(h, own).metadata, key) == Some(own[i].body.metadata.value[key])
  {
    if i < |own| - 1 { MetadataIsLast(h, own[..|own|-1], key, i); }
  }

  lemma {:induction false} MetadataStays(h: Header, own: seq<AIEvent>, key: string)
    requires forall j :: 0 <= j < |own| ==> !Tells(own[j], key)
    ensures Meta(Headers(h, own).metadata, key) == Meta(h.metadata, key)
  {
    if own != [] { MetadataStays(h, own[..|own|-1], key); }
  }

  lemma {:induction false} MetadataIsThere(h: Header, own: seq<AIEvent>)
    ensures Headers(h, own).metadata.Some? <==>
            h.metadata.Some? || exists j :: 0 <= j < |own| && TellsSomething(own[j])
  {
    if own != [] {
      MetadataIsThere(h, own[..|own|-1]);
      if j :| 0 <= j < |own| && TellsSomething(own[j]) {
        assert j < |own| - 1 ==> TellsSomething(own[..|own|-1][j]);
      }
    }
  }

  // ------------------------------------------------------------------
  // The conversation
  // ------------------------------------------------------------------

  /** The events of one conversation, sorted. */
  function OwnSorted(events: seq<AIEvent>, id: int): seq<AIEvent> {
    InConversation(Sort(events), id)
  }

  /** Whose conversation is projected: the target, or that of the first sorted event. */
  predicate IsSubject(events: seq<AIEvent>, target: Option<int>, id: int) {
    if target.Some? then id == target.value else events != [] && id == Sort(events)[0].conversationId
  }

  lemma SortNotEmpty(events: seq<AIEvent>)
    ensures |Sort(events)| == |events|
  {
    SortSpec(events);
  }

  /** A projection of a non-empty stream is assembled from the subject's events. */
  lemma ProjectedShape(events: seq<AIEvent>, target: Option<int>)
    requires Project(events, target).Projected? && events != []
    ensures var c := Project(events, target).conversation; var own := OwnSorted(events, c.id);
            && IsSubject(events, target, c.id) && own != [] && M.Project(own) == M.Projected(c.messages)
            && var first := own[0];
               var h := Headers(Header(None, first.timestamp, first.timestamp, first.sequence, None), own);
               c == Conversation(c.id, h.title, h.createdAt, h.updatedAt, c.messages, h.lastSequence, h.metadata)
  {
    SortNotEmpty(events);
  }

  /** Sorting and projecting the subject's events alone gives the same messages. */
  lemma OwnMessages(events: seq<AIEvent>, id: int)
    requires PrepareEventStream(events).Stream?
    ensures M.Project(OwnSorted(events, id)) == M.Project(InConversation(events, id))
  {
    var keep := (e: AIEvent) => e.conversationId == id;
    var unsorted := InConversation(events, id);
    FilterSort(events, keep);
    FilterMember(events, keep);
    forall i | 0 <= i < |unsorted| ensures Supported(unsorted[i]) { assert unsorted[i] in unsorted; }
    PrepareSorted(unsorted);
    assert OwnSorted(events, id) == Sort(unsorted);
  }

  /**
   * The messages are those the conversation's own events project to; the
   * subject is the target, or the conversation of the first sorted event.
   */
  lemma ConversationMessages(events: seq<AIEvent>, target: Option<int>)
    requires Project(events, target).Projected?
    ensures var c := Project(events, target).conversation;
            && IsSubject(events, target, c.id)
            && M.Project(InConversation(events, c.id)) == M.Projected(c.messages)
  {
    if events == [] {
      assert Sort(events) == [];
    } else {
      ProjectedShape(events, target);
      OwnMessages(events, Project(events, target).conversation.id);
    }
  }

  /** The title is the last non-empty one a creation carries. */
  lemma ConversationTitle(events: seq<AIEvent>, target: Option<int>, i: nat)
    requires Project(events, target).Projected?
    requires var own := OwnSorted(events, Project(events, target).conversation.id);
             i < |own| && Retitles(own[i]) && forall j :: i < j < |own| ==> !Retitles(own[j])
    ensures var c := Project(events, target).conversation; c.title == OwnSorted(events, c.id)[i].body.title
  {
    var own := OwnSorted(events, Project(events, target).conversation.id);
    SortNotEmpty(events);
    ProjectedShape(events, target);
    TitleIsLast(Header(None, own[0].timestamp, own[0].timestamp, own[0].sequence, None), own, i);
  }

  lemma UntitledConversation(events: seq<AIEvent>, target: Option<int>)
    requires Project(events, target).Projected?
    requires var own := OwnSorted(events, Project(events, target).conversation.id);
             forall j :: 0 <= j < |own| ==> !Retitles(own[j])
    ensures Project(events, target).conversation.title == None
  {
    if events != [] {
      var own := OwnSorted(events, Project(events, target).conversation.id);
      ProjectedShape(events, target);
      TitleStays(Header(None, own[0].timestamp, own[0].timestamp, own[0].sequence, None), own);
    }
  }

  /** It was created when its last creation says. */
  lemma ConversationCreation(events: seq<AIEvent>, target: Option<int>, i: nat)
    requires Project(events, target).Projected?
    requires var own := OwnSorted(events, Project(events, target).conversation.id);
             && i < |own| && own[i].body.ConversationCreated?
             && forall j :: i < j < |own| ==> !own[j].body.ConversationCreated?
    ensures var c := Project(events, target).conversation; c.createdAt == OwnSorted(events, c.id)[i].timestamp
  {
    var own := OwnSorted(events, Project(events, target).conversation.id);
    SortNotEmpty(events);
    ProjectedShape(events, target);
    CreationIsLast(Header(None, own[0].timestamp, own[0].timestamp, own[0].sequence, None), own, i);
  }

  /** Without one, when its first event says. */
  lemma UncreatedConversation(events: seq<AIEvent>, target: Option<int>)
    requires Project(events, target).Projected? && events != []
    requires var own := OwnSorted(events, Project(events, target).conversation.id);
             forall j :: 0 <= j < |own| ==> !own[j].body.ConversationCreated?
    ensures var c := Project(events, target).conversation; var own := OwnSorted(events, c.id);
            own != [] && c.createdAt == own[0].timestamp
  {
    var own := OwnSorted(events, Project(events, target).conversation.id);
    ProjectedShape(events, target);
    CreationStays(Header(None, own[0].timestamp, own[0].timestamp, own[0].sequence, None), own);
  }

  /** Each metadata key holds the value given last. */
  lemma ConversationMetadata(events: seq<AIEvent>, target: Option<int>, key: string, i: nat)
    requires Project(events, target).Projected?
    requires var own := OwnSorted(events, Project(events, target).conversation.id);
             i < |own| && Tells(own[i], key) && forall j :: i < j < |own| ==> !Tells(own[j], key)
    ensures var c := Project(events, target).conversation;
            Meta(c.metadata, key) == Some(OwnSorted(events, c.id)[i].body.metadata.value[key])
  {
    var own := OwnSorted(events, Project(events, target).conversation.id);
    SortNotEmpty(events);
    ProjectedShape(events, target);
    MetadataIsLast(Header(None, own[0].timestamp, own[0].timestamp, own[0].sequence, None), own, key, i);
  }

  /** No key is there that was never given, and no metadata where no creation carries any. */
  lemma ConversationMetadataIsGiven(events: seq<AIEvent>, target: Option<int>, key: string)
    requires Project(events, target).Projected?
    ensures var c := Project(events, target).conversation; var own := OwnSorted(events, c.id);
            && ((forall j :: 0 <= j < |own| ==> !Tells(own[j], key)) ==> Meta(c.metadata, key) == None)
            && (c.metadata.Some? <==> exists j :: 0 <= j < |own| && TellsSomething(own[j]))
  {
    var own := OwnSorted(events, Project(events, target).conversation.id);
    SortNotEmpty(events);
    if events != [] {
      ProjectedShape(events, target);
      var h := Header(None, own[0].timestamp, own[0].timestamp, own[0].sequence, None);
      if forall j :: 0 <= j < |own| ==> !Tells(own[j], key) { MetadataStays(h, own, key); }
      MetadataIsThere(h, own);
    }
  }

  // ------------------------------------------------------------------
  // Failures
  // ------------------------------------------------------------------

  lemma OwnSortedHas(events: seq<AIEvent>, id: int, e: AIEvent)
    ensures e in OwnSorted(events, id) <==> e in events && e.conversationId == id
  {
    FilterMember(Sort(events), (x: AIEvent) => x.conversationId == id);
    SortHas(events, e);
  }

  /** Nobody to project: an empty stream without target, or a target without events among others' events. */
  predicate NoSubject(events: seq<AIEvent>, target: Option<int>) {
    if events == [] then target.None?
    else target.Some? && forall e :: e in events ==> e.conversationId != target.value
  }

  lemma SubjectHasEvents(events: seq<AIEvent>, target: Option<int>, id: int)
    requires events != [] && IsSubject(events, target, id)
    ensures OwnSorted(events, id) == [] <==> NoSubject(events, target)
  {
    var own := OwnSorted(events, id);
    SortNotEmpty(events);
    forall e ensures e in own <==> e in events && e.conversationId == id { OwnSortedHas(events, id, e); }
    if own != [] { assert own[0] in own; }
    if target.None? { assert Sort(events)[0] in Sort(events); SortHas(events, Sort(events)[0]); }
  }

  /**
   * The projection fails exactly on an unsupported schema version anywhere in
   * the stream, without a subject, or on a message event of the subject that
   * has no message id.
   */
  lemma ProjectionFailsIff(events: seq<AIEvent>, target: Option<int>)
    ensures Project(events, target).StreamError? <==>
            || (exists e :: e in events && e.schemaVersion != 1)
            || NoSubject(events, target)
            || (exists id, e :: IsSubject(events, target, id) && Unnamed(events, id, e))
  {
    RefusedIff(events);
    SortNotEmpty(events);
    if events != [] && PrepareEventStream(events).Stream? {
      var id := if target.Some? then target.value else Sort(events)[0].conversationId;
      var own := OwnSorted(events, id);
      SubjectHasEvents(events, target, id);
      forall e ensures e in own <==> e in events && e.conversationId == id { OwnSortedHas(events, id, e); }
      MC.ProjectionFailsIff(own);
      if e :| e in own && (e.schemaVersion != 1 || Unnamed(events, id, e)) {
        assert IsSubject(events, target, id) && Unnamed(events, id, e);
      }
    }
  }

  predicate Unnamed(events: seq<AIEvent>, id: int, e: AIEvent) {
    e in events && e.conversationId == id && IsMessageBody(e.body) && e.body.messageId.raw == ""
  }
}
