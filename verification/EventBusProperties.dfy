/** Ordering, isolation and completeness of event delivery, over every run. */
module EventBusProperties {
  import opened Seqs
  import opened JsMaps
  import opened EventBusModel

  lemma IdleInvariant()
    ensures Invariant(Idle()) && Complete(Idle()) && Lossless(Idle())
  {
  }

  // ------------------------------------------------------------------
  // Each part of the invariant, step by step
  // ------------------------------------------------------------------

  lemma QueueSteps(b: Bus, step: Step)
    requires Invariant(b)
    ensures QueueOk(Next(b, step))
  {
    var b' := Next(b, step);
    match step
    case Publish(e) => PublishQueue(b, e);
    case Clear =>
      assert b'.dispatched + Numbers(b'.queue) == (b.dispatched + Numbers(b.queue))[..|b.dispatched|];
    case Advance =>
      if b.publishing && b.cursor.None? && b.queue != [] {
        assert b'.dispatched + Numbers(b'.queue) == b.dispatched + Numbers(b.queue);
      }
    case _ =>
  }

  lemma PublishQueue(b: Bus, e: Event)
    requires QueueOk(b)
    ensures QueueOk(PublishStep(b, e))
  {
    var b' := PublishStep(b, e);
    var all := b.dispatched + Numbers(b.queue);
    assert b'.dispatched + Numbers(b'.queue) == all + [|b.published|];
    forall i | 0 <= i < |all| ensures all[i] < |b.published| {
      if i >= |b.dispatched| { assert b.queue[i - |b.dispatched|].number < |b.published|; }
    }
  }

  lemma SubscriptionSteps(b: Bus, step: Step)
    requires Invariant(b)
    ensures SubscriptionsOk(Next(b, step))
  {
    match step
    case Subscribe(filter, once) => SubscribeKeeps(b, filter, once);
    case Unsubscribe(id) => DeleteKeeps(b, id);
    case Advance =>
      if b.publishing && b.cursor.Some? && b.cursor.value.index < |b.cursor.value.snapshot| {
        DeleteKeeps(b, b.cursor.value.snapshot[b.cursor.value.index].id);
      }
    case _ =>
  }

  lemma SubscribeKeeps(b: Bus, filter: Option<string>, once: bool)
    requires SubscriptionsOk(b)
    ensures SubscriptionsOk(SubscribeStep(b, filter, once))
  {
    var keys, b' := b.subscriptions.keys, SubscribeStep(b, filter, once);
    forall i | 0 <= i < |keys| ensures keys[i] < b.nextId { assert keys[i] in keys && keys[i] in b.born; }
    assert b.nextId !in b.subscriptions.vals;
    assert b'.subscriptions.keys == keys + [b.nextId];
  }

  lemma DeleteKeeps(b: Bus, id: nat)
    requires SubscriptionsOk(b)
    ensures SubscriptionsOk(UnsubscribeStep(b, id))
  {
    RemoveAllIncreasing(b.subscriptions.keys, id);
  }

  lemma {:induction false} RemoveAllIncreasing(s: seq<nat>, id: nat)
    requires Increasing(s)
    ensures Increasing(RemoveAll(s, id))
  {
    if s != [] {
      var n := |s| - 1;
      RemoveAllIncreasing(s[..n], id);
      RemoveAllSpec(s[..n], id);
      var front := RemoveAll(s[..n], id);
      forall i | 0 <= i < |front| ensures front[i] < s[n] { assert front[i] in s[..n]; }
    }
  }

  lemma CursorSteps(b: Bus, step: Step)
    requires Invariant(b)
    ensures CursorOk(Next(b, step))
  {
    if step.Advance? && b.publishing && b.cursor.None? && b.queue != [] {
      var m := b.subscriptions;
      forall i | 0 <= i < |m.keys| ensures m.keys[i] in m.vals { assert m.keys[i] in m.keys; }
    }
  }

  lemma DeliverySteps(b: Bus, step: Step)
    requires Invariant(b)
    ensures DeliveriesOk(Next(b, step))
  {
    if step.Advance? {
      if b.publishing {
        if b.cursor.None? { TakeNextKeepsDeliveries(b); }
        else if b.cursor.value.index < |b.cursor.value.snapshot| { VisitKeepsDeliveries(b); }
        else { CursorGoneKeepsDeliveries(b, Next(b, step)); }
      }
    } else if step.HandlerThrows? {
      CursorGoneKeepsDeliveries(b, HandlerThrowsStep(b).(cursor := None));
    } else {
      SameDeliveries(b, Next(b, step));
    }
  }

  /** Steps that leave the dispatch alone and bring no removed subscriber back. */
  lemma SameDeliveries(b: Bus, b': Bus)
    requires Invariant(b)
    requires b'.deliveries == b.deliveries && b'.cursor == b.cursor && b'.dispatched == b.dispatched
    requires b.published <= b'.published
    requires forall id :: id in b.born ==> id in b'.born && b'.born[id] == b.born[id]
    requires forall id :: id in b.born && id in b'.subscriptions.vals ==> id in b.subscriptions.vals
    ensures DeliveriesOk(b')
  {
    forall d | d in b.deliveries ensures BehindCursor(b', d) { assert BehindCursor(b, d); }
  }

  lemma CursorGoneKeepsDeliveries(b: Bus, b': Bus)
    requires Invariant(b) && b'.cursor.None? && b' == b.(cursor := None, publishing := b'.publishing)
    ensures DeliveriesOk(b')
  {
    forall d | d in b.deliveries ensures BehindCursor(b', d) { assert BehindCursor(b, d); }
  }

  lemma TakeNextKeepsDeliveries(b: Bus)
    requires Invariant(b) && b.cursor.None?
    ensures DeliveriesOk(TakeNext(b))
  {
    var b' := TakeNext(b);
    if b.queue != [] {
      var all := b.dispatched + Numbers(b.queue);
      assert all[|b.dispatched|] == b.queue[0].number;
      forall d | d in b.deliveries ensures BehindCursor(b', d) {
        assert BehindCursor(b, d);
        assert all[|b.dispatched|-1] == b.dispatched[|b.dispatched|-1];
      }
    }
  }

  lemma VisitKeepsDeliveries(b: Bus)
    requires Invariant(b) && b.cursor.Some? && b.cursor.value.index < |b.cursor.value.snapshot|
    ensures DeliveriesOk(Visit(b))
  {
    var b', c := Visit(b), b.cursor.value;
    var sub := c.snapshot[c.index];
    forall d | d in b.deliveries ensures BehindCursor(b', d) && Before(d, Delivery(sub.id, c.current.number)) {
      assert BehindCursor(b, d);
    }
    if b'.deliveries != b.deliveries {
      var d := Delivery(sub.id, c.current.number);
      assert b'.deliveries == b.deliveries + [d];
      assert b'.cursor.value.snapshot[c.index].id == d.subscriber && BehindCursor(b', d);
      forall i | 0 <= i < |b.deliveries| ensures b.deliveries[i] in b.deliveries {}
    }
  }

  lemma StepKeeps(b: Bus, step: Step)
    requires Invariant(b)
    ensures Invariant(Next(b, step))
  {
    QueueSteps(b, step);
    SubscriptionSteps(b, step);
    CursorSteps(b, step);
    DeliverySteps(b, step);
  }

  /** The next number is larger than any dispatched or queued one. */
  lemma LaterThanAll(b: Bus)
    requires Invariant(b)
    ensures forall n :: n in b.dispatched || n in Numbers(b.queue) ==> n < |b.published|
  {
  }

  /** A call made by the drain comes after all earlier ones and is meant for its subscriber. */
  lemma CallIsDue(b: Bus)
    requires Invariant(b)
    ensures var b' := AdvanceStep(b);
            b'.deliveries == b.deliveries ||
            (var d := b'.deliveries[|b'.deliveries|-1];
             && b'.deliveries == b.deliveries + [d]
             && (forall e :: e in b.deliveries ==> Before(e, d))
             && b.subscriptions.Has(d.subscriber) && d.number < |b.published|
             && Matches(b.subscriptions.Get(d.subscriber), b.published[d.number])
             && (b'.subscriptions.Has(d.subscriber) <==> !b.subscriptions.Get(d.subscriber).once))
  {
    var b' := AdvanceStep(b);
    if b'.deliveries != b.deliveries {
      DeliverySteps(b, Advance);
      var n := |b.deliveries|;
      assert b'.deliveries == b.deliveries + [b'.deliveries[n]];
      forall e | e in b.deliveries ensures Before(e, b'.deliveries[n]) {
        var i := Index(b.deliveries, e);
        assert b'.deliveries[i] == e;
      }
    }
  }

  // ------------------------------------------------------------------
  // Runs
  // ------------------------------------------------------------------

  ghost function Run(b: Bus, steps: seq<Step>): Bus
    requires Invariant(b)
    decreases |steps|
  {
    if steps == [] then b
    else
      StepKeeps(b, steps[0]);
      Run(Next(b, steps[0]), steps[1..])
  }

  lemma {:induction false} RunKeeps(b: Bus, steps: seq<Step>)
    requires Invariant(b)
    ensures Invariant(Run(b, steps))
    decreases |steps|
  {
    if steps != [] {
      StepKeeps(b, steps[0]);
      RunKeeps(Next(b, steps[0]), steps[1..]);
    }
  }

  /** The publication numbers a subscriber was called with, in order. */
  function Seen(ds: seq<Delivery>, id: nat): seq<nat> {
    if ds == [] then []
    else Seen(ds[..|ds|-1], id) + if ds[|ds|-1].subscriber == id then [ds[|ds|-1].number] else []
  }

  lemma {:induction false} SeenIncreasing(ds: seq<Delivery>, id: nat)
    requires DeliveriesOrdered(ds)
    ensures Increasing(Seen(ds, id))
    ensures forall n :: n in Seen(ds, id) <==> Delivery(id, n) in ds
  {
    if ds != [] {
      var m := |ds| - 1;
      SeenIncreasing(ds[..m], id);
      assert ds == ds[..m] + [ds[m]];
      var front := Seen(ds[..m], id);
      if ds[m].subscriber == id {
        forall i | 0 <= i < |front| ensures front[i] < ds[m].number {
          assert Delivery(id, front[i]) in ds[..m];
        }
      }
    }
  }

  lemma {:induction false} OnceSeenAtMostOnce(ds: seq<Delivery>, id: nat)
    requires forall i, j :: 0 <= i < j < |ds| && ds[i].subscriber == ds[j].subscriber ==> ds[i].subscriber != id
    ensures |Seen(ds, id)| <= 1
    ensures (forall d :: d in ds ==> d.subscriber != id) ==> Seen(ds, id) == []
  {
    if ds != [] {
      var m := |ds| - 1;
      OnceSeenAtMostOnce(ds[..m], id);
      if ds[m].subscriber == id {
        forall d | d in ds[..m] ensures d.subscriber != id {
          var i := Index(ds[..m], d);
          assert ds[i] == d;
        }
      }
    }
  }

  /**
   * Whatever listeners do during delivery: dispatches follow publication
   * order without repeats; each subscriber is called with an increasing, hence
   * repeat-free, subsequence of the published events that pass its filter; a
   * once subscriber is called at most once.
   */
  lemma DeliveryOrderOverRuns(steps: seq<Step>, id: nat)
    ensures Invariant(Idle())
    ensures var b := Run(Idle(), steps);
            && Increasing(b.dispatched)
            && Increasing(Seen(b.deliveries, id))
            && (forall n :: n in Seen(b.deliveries, id) ==>
                 && n in b.dispatched && n < |b.published| && id in b.born
                 && Matches(b.born[id].subscription, b.published[n]))
            && (id in b.born && b.born[id].subscription.once ==> |Seen(b.deliveries, id)| <= 1)
  {
    IdleInvariant();
    RunKeeps(Idle(), steps);
    var b := Run(Idle(), steps);
    assert b.dispatched == (b.dispatched + Numbers(b.queue))[..|b.dispatched|];
    SeenIncreasing(b.deliveries, id);
    if id in b.born && b.born[id].subscription.once {
      OnceSeenAtMostOnce(b.deliveries, id);
    }
  }

  /** A removed subscriber never comes back and is never called again. */
  lemma {:induction false} RemovedIsNeverCalled(b: Bus, steps: seq<Step>, id: nat)
    requires Invariant(b) && id in b.born && !b.subscriptions.Has(id)
    ensures !Run(b, steps).subscriptions.Has(id)
    ensures Seen(Run(b, steps).deliveries, id) == Seen(b.deliveries, id)
    decreases |steps|
  {
    if steps != [] {
      StepKeeps(b, steps[0]);
      RemovedStaysRemoved(b, steps[0], id);
      RemovedIsNeverCalled(Next(b, steps[0]), steps[1..], id);
    }
  }

  lemma RemovedStaysRemoved(b: Bus, step: Step, id: nat)
    requires Invariant(b) && id in b.born && !b.subscriptions.Has(id)
    ensures id in Next(b, step).born && !Next(b, step).subscriptions.Has(id)
    ensures Seen(Next(b, step).deliveries, id) == Seen(b.deliveries, id)
  {
    var b1 := Next(b, step);
    if step.Advance? && b1.deliveries != b.deliveries {
      assert b1.deliveries[..|b1.deliveries|-1] == b.deliveries;
    }
  }

  /** Unsubscribing ends delivery for good, and doing it twice is doing it once. */
  lemma UnsubscribeIsFinal(b: Bus, steps: seq<Step>, id: nat)
    requires Invariant(b) && id in b.born
    ensures Invariant(UnsubscribeStep(b, id))
    ensures Seen(Run(UnsubscribeStep(b, id), steps).deliveries, id) == Seen(b.deliveries, id)
    ensures UnsubscribeStep(UnsubscribeStep(b, id), id) == UnsubscribeStep(b, id)
  {
    StepKeeps(b, Unsubscribe(id));
    assert Next(b, Unsubscribe(id)) == UnsubscribeStep(b, id);
    RemovedIsNeverCalled(UnsubscribeStep(b, id), steps, id);
    DeleteTwice(b.subscriptions, id);
  }

  lemma DeleteTwice(m: JsMap<nat, Subscription>, id: nat)
    ensures m.Delete(id).Delete(id) == m.Delete(id)
  {
    RemoveAllSpec(m.keys, id);
    RemoveAllSpec(m.Delete(id).keys, id);
  }

  // ------------------------------------------------------------------
  // Nothing is lost
  // ------------------------------------------------------------------

  /** Dispatched and queued events are all the published ones, in order. */
  ghost predicate Lossless(b: Bus) {
    b.dispatched + Numbers(b.queue) == seq(|b.published|, i => i)
  }

  ghost predicate Drained(b: Bus) {
    !b.publishing ==> b.queue == [] && b.cursor.None?
  }

  /** How many dispatches have run to their end. */
  function Finished(b: Bus): int {
    if b.cursor.Some? then |b.dispatched| - 1 else |b.dispatched|
  }

  /** Live subscribers have every matching event of a finished dispatch since they came. */
  ghost predicate FinishedComplete(b: Bus) {
    forall id, p :: id in b.subscriptions.vals && id in b.born && b.born[id].since <= p < Finished(b)
      && b.dispatched[p] < |b.published| && Matches(b.born[id].subscription, b.published[b.dispatched[p]])
      ==> Delivery(id, b.dispatched[p]) in b.deliveries
  }

  /** The running dispatch has served whom it passed and has not forgotten anyone. */
  ghost predicate CurrentComplete(b: Bus) {
    b.cursor.Some? ==>
      var c := b.cursor.value;
      && (forall i :: 0 <= i < c.index && i < |c.snapshot| && c.snapshot[i].id in b.subscriptions.vals
            && Matches(c.snapshot[i], c.current.event)
            ==> Delivery(c.snapshot[i].id, c.current.number) in b.deliveries)
      && (forall id :: id in b.subscriptions.vals && id in b.born && b.born[id].since < |b.dispatched|
            ==> exists i :: 0 <= i < |c.snapshot| && c.snapshot[i].id == id)
  }

  ghost predicate Complete(b: Bus) {
    FinishedComplete(b) && CurrentComplete(b)
  }

  lemma LosslessSteps(b: Bus, step: Step)
    requires Invariant(b) && Lossless(b) && !step.Clear?
    ensures Lossless(Next(b, step))
  {
    var b' := Next(b, step);
    if step.Publish? {
      assert b'.dispatched + Numbers(b'.queue) == b.dispatched + Numbers(b.queue) + [|b.published|];
      assert seq(|b'.published|, i => i) == seq(|b.published|, i => i) + [|b.published|];
    } else if step.Advance? && b.publishing && b.cursor.None? && b.queue != [] {
      assert b'.dispatched + Numbers(b'.queue) == b.dispatched + Numbers(b.queue);
    }
  }

  lemma CompleteSteps(b: Bus, step: Step)
    requires Invariant(b) && Complete(b) && !step.HandlerThrows?
    ensures Complete(Next(b, step))
  {
    match step
    case Publish(e) =>
    case Subscribe(filter, once) => SubscribeComplete(b, filter, once);
    case Unsubscribe(id) =>
    case Clear =>
    case Advance =>
      if b.publishing {
        if b.cursor.None? { TakeNextComplete(b); }
        else if b.cursor.value.index < |b.cursor.value.snapshot| { VisitComplete(b); }
        else { FinishComplete(b); }
      }
  }

  lemma SubscribeComplete(b: Bus, filter: Option<string>, once: bool)
    requires Invariant(b) && Complete(b)
    ensures Complete(SubscribeStep(b, filter, once))
  {
  }

  lemma TakeNextComplete(b: Bus)
    requires Invariant(b) && Complete(b) && b.cursor.None?
    ensures Complete(TakeNext(b))
  {
    if b.queue != [] {
      var b' := TakeNext(b);
      var c := b'.cursor.value;
      forall id | id in b.subscriptions.vals ensures exists i :: 0 <= i < |c.snapshot| && c.snapshot[i].id == id {
        var i := Index(b.subscriptions.keys, id);
        assert c.snapshot[i].id == id;
      }
      assert forall p :: 0 <= p < |b.dispatched| ==> b'.dispatched[p] == b.dispatched[p];
    }
  }

  lemma VisitComplete(b: Bus)
    requires Invariant(b) && Complete(b)
    requires b.cursor.Some? && b.cursor.value.index < |b.cursor.value.snapshot|
    ensures Complete(Visit(b))
  {
    VisitCompletesCurrent(b);
    VisitKeepsFinished(b);
  }

  lemma VisitKeepsFinished(b: Bus)
    requires FinishedComplete(b)
    requires b.cursor.Some? && b.cursor.value.index < |b.cursor.value.snapshot|
    ensures FinishedComplete(Visit(b))
  {
    assert forall d :: d in b.deliveries ==> d in Visit(b).deliveries;
  }

  lemma VisitCompletesCurrent(b: Bus)
    requires CurrentComplete(b)
    requires b.cursor.Some? && b.cursor.value.index < |b.cursor.value.snapshot|
    ensures CurrentComplete(Visit(b))
  {
    var b', c := Visit(b), b.cursor.value;
    assert forall d :: d in b.deliveries ==> d in b'.deliveries;
    var sub := c.snapshot[c.index];
    if sub.id in b'.subscriptions.vals && Matches(sub, c.current.event) {
      assert b'.deliveries[|b.deliveries|] == Delivery(sub.id, c.current.number);
    }
  }

  lemma FinishComplete(b: Bus)
    requires Invariant(b) && Complete(b)
    requires b.cursor.Some? && b.cursor.value.index == |b.cursor.value.snapshot|
    ensures Complete(b.(cursor := None))
  {
    var c := b.cursor.value;
    var p := |b.dispatched| - 1;
    forall id | id in b.subscriptions.vals && id in b.born && b.born[id].since <= p
                && Matches(b.born[id].subscription, c.current.event)
      ensures Delivery(id, c.current.number) in b.deliveries
    {
      var i :| 0 <= i < |c.snapshot| && c.snapshot[i].id == id;
      assert c.snapshot[i] == b.born[id].subscription;
    }
  }

  /**
   * While nobody clears the bus and no error handler throws: every published
   * event is dispatched exactly once in order, the queue is empty when the
   * draining publish returns, and each live subscriber has been called with
   * every matching event dispatched since it subscribed.
   */
  lemma {:induction false} NothingIsLost(b: Bus, steps: seq<Step>)
    requires Invariant(b) && Complete(b) && Drained(b)
    requires forall i :: 0 <= i < |steps| ==> !steps[i].HandlerThrows?
    ensures var b' := Run(b, steps);
            && Complete(b') && Drained(b')
            && (Lossless(b) && (forall i :: 0 <= i < |steps| ==> !steps[i].Clear?) ==>
                 Lossless(b') && (!b'.publishing ==> b'.dispatched == seq(|b'.published|, i => i)))
    decreases |steps|
  {
    if steps == [] {
      if !b.publishing { assert b.dispatched + Numbers(b.queue) == b.dispatched; }
    } else {
      StepKeeps(b, steps[0]);
      CompleteSteps(b, steps[0]);
      if Lossless(b) && !steps[0].Clear? { LosslessSteps(b, steps[0]); }
      NothingIsLost(Next(b, steps[0]), steps[1..]);
    }
  }
}
