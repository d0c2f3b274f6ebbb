/** Validation and canonical ordering of an event stream. */
module EventStream {
  import opened Seqs
  import opened Events

  datatype Stream = Stream(events: seq<AIEvent>) | UnsupportedSchema

  predicate Supported(e: AIEvent) {
    e.schemaVersion == CURRENT_SCHEMA_VERSION
  }

  /** By conversation, then sequence, then event id. */
  predicate Leq(a: AIEvent, b: AIEvent) {
    if a.conversationId != b.conversationId then a.conversationId < b.conversationId
    else if a.sequence != b.sequence then a.sequence < b.sequence
    else a.eventId <= b.eventId
  }

  predicate SameKey(a: AIEvent, b: AIEvent) {
    a.conversationId == b.conversationId && a.sequence == b.sequence && a.eventId == b.eventId
  }

  /** Stable insertion into a sorted stream: after everything not greater. */
  function Insert(x: AIEvent, s: seq<AIEvent>): seq<AIEvent> {
    if s == [] || Leq(s[|s|-1], x) then s + [x]
    else Insert(x, s[..|s|-1]) + [s[|s|-1]]
  }

  /** The stable sort. */
  function Sort(s: seq<AIEvent>): seq<AIEvent> {
    if s == [] then [] else Insert(s[|s|-1], Sort(s[..|s|-1]))
  }

  function PrepareEventStream(events: seq<AIEvent>): Stream {
    if forall i :: 0 <= i < |events| ==> Supported(events[i]) then Stream(Sort(events)) else UnsupportedSchema
  }

  /** A stream is refused exactly when some event has another schema version than 1. */
  lemma RefusedIff(events: seq<AIEvent>)
    ensures PrepareEventStream(events).UnsupportedSchema? <==> exists e :: e in events && e.schemaVersion != 1
  {
    if !(forall i :: 0 <= i < |events| ==> Supported(events[i])) {
      var i :| 0 <= i < |events| && !Supported(events[i]);
      assert events[i] in events && events[i].schemaVersion != 1;
    }
  }

  ghost predicate Sorted(s: seq<AIEvent>) {
    forall i, j :: 0 <= i < j < |s| ==> Leq(s[i], s[j])
  }

  ghost predicate DistinctKeys(s: seq<AIEvent>) {
    forall i, j :: 0 <= i < j < |s| ==> !SameKey(s[i], s[j])
  }

  lemma {:induction false} InsertSpec(x: AIEvent, s: seq<AIEvent>)
    requires Sorted(s)
    ensures Sorted(Insert(x, s))
    ensures multiset(Insert(x, s)) == multiset(s) + multiset{x}
  {
    if s != [] && !Leq(s[|s|-1], x) {
      var n := |s| - 1;
      assert s == s[..n] + [s[n]];
      SortedSnoc(s[..n], s[n]);
      InsertSpec(x, s[..n]);
      var front := Insert(x, s[..n]);
      forall y | y in front ensures Leq(y, s[n]) {
        assert y in multiset(front);
        if y != x { assert y in s[..n]; }
      }
      SortedSnoc(front, s[n]);
    } else {
      forall y | y in s ensures Leq(y, x) { LastIsGreatest(s, y); }
      SortedSnoc(s, x);
    }
  }

  lemma {:induction false} SortSpec(s: seq<AIEvent>)
    ensures Sorted(Sort(s)) && multiset(Sort(s)) == multiset(s) && |Sort(s)| == |s|
  {
    if s != [] {
      SortSpec(s[..|s|-1]);
      InsertSpec(s[|s|-1], Sort(s[..|s|-1]));
      assert s == s[..|s|-1] + [s[|s|-1]];
    }
    assert |multiset(Sort(s))| == |multiset(s)|;
  }

  /** Sorting first changes nothing. */
  lemma PrepareSorted(s: seq<AIEvent>)
    requires PrepareEventStream(s).Stream?
    ensures PrepareEventStream(Sort(s)) == PrepareEventStream(s)
  {
    SortSpec(s);
    SortedIsFixed(Sort(s));
    forall i | 0 <= i < |Sort(s)| ensures Supported(Sort(s)[i]) {
      assert Sort(s)[i] in Sort(s);
      SortHas(s, Sort(s)[i]);
    }
  }

  lemma SortHas(s: seq<AIEvent>, e: AIEvent)
    ensures e in Sort(s) <==> e in s
  {
    SortSpec(s);
    assert e in multiset(Sort(s)) <==> e in multiset(s);
  }

  lemma {:induction false} SortedIsFixed(s: seq<AIEvent>)
    requires Sorted(s)
    ensures Sort(s) == s
  {
    if s != [] {
      var front, last := s[..|s|-1], s[|s|-1];
      assert s == front + [last];
      SortedSnoc(front, last);
      SortedIsFixed(front);
      assert front != [] ==> front[|front|-1] in front;
    }
  }

  lemma LastIsGreatest(s: seq<AIEvent>, x: AIEvent)
    requires Sorted(s) && x in s
    ensures Leq(x, s[|s|-1])
  {
    assert s[Index(s, x)] == x;
  }

  lemma DropLast(s: seq<AIEvent>)
    requires s != []
    ensures multiset(s[..|s|-1]) == multiset(s) - multiset{s[|s|-1]}
  {
    assert s == s[..|s|-1] + [s[|s|-1]];
  }

  lemma SameGreatest(a: seq<AIEvent>, b: seq<AIEvent>)
    requires Sorted(a) && Sorted(b) && multiset(a) == multiset(b) && DistinctKeys(a) && a != []
    ensures |a| == |b| && a[|a|-1] == b[|b|-1]
  {
    assert |a| == |multiset(a)| == |multiset(b)| == |b|;
    var x, y := a[|a|-1], b[|b|-1];
    assert x in multiset(b) && y in multiset(a);
    LastIsGreatest(b, x);
    LastIsGreatest(a, y);
  }

  ghost predicate SameSorted(a: seq<AIEvent>, b: seq<AIEvent>) {
    Sorted(a) && Sorted(b) && multiset(a) == multiset(b) && DistinctKeys(a)
  }

  /** Both arrangements end in the same event; what precedes it agrees too. */
  lemma Peel(a: seq<AIEvent>, b: seq<AIEvent>) returns (front: seq<AIEvent>, front': seq<AIEvent>, last: AIEvent)
    requires SameSorted(a, b) && a != []
    ensures a == front + [last] && b == front' + [last] && SameSorted(front, front')
  {
    SameGreatest(a, b);
    DropLast(a);
    DropLast(b);
    front, front', last := a[..|a|-1], b[..|b|-1], a[|a|-1];
  }

  /** With distinct keys there is only one sorted arrangement. */
  lemma {:induction false} SortedUnique(a: seq<AIEvent>, b: seq<AIEvent>)
    requires SameSorted(a, b)
    ensures a == b
    decreases |a|
  {
    if a == [] {
      assert |multiset(b)| == |b|;
    } else {
      var front, front', last := Peel(a, b);
      SortedUnique(front, front');
    }
  }

  /**
   * Replay is order-blind: with distinct keys, every permutation of the input
   * is prepared into the same stream.
   */
  lemma PrepareIsOrderBlind(a: seq<AIEvent>, b: seq<AIEvent>)
    requires multiset(a) == multiset(b) && DistinctKeys(a)
    ensures PrepareEventStream(a) == PrepareEventStream(b)
  {
    forall x ensures x in a <==> x in b {
      assert x in multiset(a) <==> x in multiset(b);
    }
    if forall i :: 0 <= i < |a| ==> Supported(a[i]) {
      forall i | 0 <= i < |b| ensures Supported(b[i]) { assert b[i] in a; }
      SortSpec(a);
      SortSpec(b);
      SortDistinct(a);
      SortedUnique(Sort(a), Sort(b));
    } else {
      var i :| 0 <= i < |a| && !Supported(a[i]);
      assert a[i] in b;
    }
  }

  lemma DistinctKeysSnoc(s: seq<AIEvent>, x: AIEvent)
    requires DistinctKeys(s) && forall y :: y in s ==> !SameKey(y, x)
    ensures DistinctKeys(s + [x])
  {
    forall i | 0 <= i < |s| ensures !SameKey(s[i], x) { assert s[i] in s; }
  }

  lemma LastKeyIsNew(front: seq<AIEvent>, last: AIEvent)
    requires DistinctKeys(front + [last])
    ensures DistinctKeys(front)
    ensures forall y :: y in front ==> !SameKey(y, last)
  {
    var s := front + [last];
    forall i, j | 0 <= i < j < |front| ensures !SameKey(front[i], front[j]) {
      assert s[i] == front[i] && s[j] == front[j];
    }
    forall y | y in front ensures !SameKey(y, last) {
      assert s[Index(front, y)] == y && s[|front|] == last;
    }
  }

  lemma SortedSnoc(front: seq<AIEvent>, last: AIEvent)
    ensures Sorted(front + [last]) <==> Sorted(front) && forall y :: y in front ==> Leq(y, last)
  {
    var s := front + [last];
    if Sorted(s) {
      forall i, j | 0 <= i < j < |front| ensures Leq(front[i], front[j]) {
        assert s[i] == front[i] && s[j] == front[j];
      }
      forall y | y in front ensures Leq(y, last) {
        assert s[Index(front, y)] == y && s[|front|] == last;
      }
    } else if Sorted(front) && forall y :: y in front ==> Leq(y, last) {
      forall i, j | 0 <= i < j < |s| ensures Leq(s[i], s[j]) {
        if j == |front| { assert front[i] in front; }
      }
    }
  }

  lemma {:induction false} InsertDistinct(x: AIEvent, s: seq<AIEvent>)
    requires DistinctKeys(s) && forall y :: y in s ==> !SameKey(y, x)
    ensures DistinctKeys(Insert(x, s))
    ensures forall y :: y in Insert(x, s) <==> y == x || y in s
  {
    if s == [] || Leq(s[|s|-1], x) {
      DistinctKeysSnoc(s, x);
    } else {
      var n := |s| - 1;
      assert s == s[..n] + [s[n]];
      LastKeyIsNew(s[..n], s[n]);
      InsertDistinct(x, s[..n]);
      DistinctKeysSnoc(Insert(x, s[..n]), s[n]);
    }
  }

  lemma {:induction false} SortDistinct(s: seq<AIEvent>)
    requires DistinctKeys(s)
    ensures DistinctKeys(Sort(s))
    ensures forall y :: y in Sort(s) <==> y in s
  {
    if s != [] {
      var n := |s| - 1;
      assert s == s[..n] + [s[n]];
      LastKeyIsNew(s[..n], s[n]);
      SortDistinct(s[..n]);
      InsertDistinct(s[n], Sort(s[..n]));
    }
  }

  // ------------------------------------------------------------------
  // Sorting and selection commute
  // ------------------------------------------------------------------

  lemma {:induction false} FilterSorted(s: seq<AIEvent>, keep: AIEvent -> bool)
    requires Sorted(s)
    ensures Sorted(Filter(s, keep))
  {
    if s != [] {
      var n := |s| - 1;
      FilterSorted(s[..n], keep);
      FilterMember(s[..n], keep);
      var front := Filter(s[..n], keep);
      forall i | 0 <= i < |front| ensures Leq(front[i], s[n]) { assert front[i] in s[..n]; }
    }
  }

  lemma {:induction false} FilterInsert(x: AIEvent, s: seq<AIEvent>, keep: AIEvent -> bool)
    requires Sorted(s)
    ensures Filter(Insert(x, s), keep) == if keep(x) then Insert(x, Filter(s, keep)) else Filter(s, keep)
  {
    if s == [] || Leq(s[|s|-1], x) {
      KeptBelow(s, x, keep);
    } else {
      var n := |s| - 1;
      var kept := Filter(s[..n], keep);
      FilterInsert(x, s[..n], keep);
      if keep(s[n]) {
        assert (kept + [s[n]])[..|kept|] == kept;
      }
    }
  }

  lemma KeptBelow(s: seq<AIEvent>, x: AIEvent, keep: AIEvent -> bool)
    requires Sorted(s) && (s == [] || Leq(s[|s|-1], x))
    ensures var kept := Filter(s, keep); kept == [] || Leq(kept[|kept|-1], x)
  {
    var kept := Filter(s, keep);
    FilterMember(s, keep);
    if kept != [] {
      assert kept[|kept|-1] in s;
      assert s[Index(s, kept[|kept|-1])] == kept[|kept|-1];
    }
  }

  lemma {:induction false} FilterSort(s: seq<AIEvent>, keep: AIEvent -> bool)
    ensures Filter(Sort(s), keep) == Sort(Filter(s, keep))
  {
    if s != [] {
      var n := |s| - 1;
      FilterSort(s[..n], keep);
      SortSpec(s[..n]);
      FilterInsert(s[n], Sort(s[..n]), keep);
      if keep(s[n]) {
        var kept := Filter(s[..n], keep);
        assert (kept + [s[n]])[..|kept|] == kept;
      }
    }
  }
}
