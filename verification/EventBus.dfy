/**
 * The in-process event bus. `Publish` queues and marks the drain as running;
 * `Advance` runs the drain from one listener call to the next. Every method is
 * a step of EventBusModel and keeps its invariant, so EventBusProperties
 * speaks about all its runs.
 */
module EventBuses {
  import opened Seqs
  import opened JsMaps
  import opened EventBusModel
  import opened EventBusProperties

  class EventBus {
    var nextSubscriptionId: nat
    var subscriptions: JsMap<nat, Subscription>
    var isPublishing: bool
    var queue: seq<Ticket>
    var cursor: Option<Cursor>
    var publicationCount: nat
    ghost var published: seq<Event>
    ghost var dispatched: seq<nat>
    ghost var deliveries: seq<Delivery>
    ghost var born: map<nat, Birth>

    ghost function View(): Bus
      reads this
    {
      Bus(subscriptions, nextSubscriptionId, queue, isPublishing, cursor, published, dispatched, deliveries, born)
    }

    /** Dispatches and deliveries are in order, and no one was called that should not have been. */
    ghost predicate Valid()
      reads this
    {
      publicationCount == |published| && Invariant(View())
    }

    /** Everybody but `id` is as it was, and nobody has been called. */
    twostate predicate OnlySubscriberChanges(id: nat)
      reads this
    {
      && deliveries == old(deliveries) && dispatched == old(dispatched) && queue == old(queue)
      && forall k :: k != id ==>
           && (subscriptions.Has(k) <==> old(subscriptions).Has(k))
           && (subscriptions.Has(k) ==> subscriptions.Get(k) == old(subscriptions).Get(k))
    }

    constructor ()
      ensures Valid() && View() == Idle()
    {
      nextSubscriptionId, subscriptions, isPublishing := 1, Empty(), false;
      queue, cursor, publicationCount := [], None, 0;
      published, dispatched, deliveries, born := [], [], [], map[];
      new;
      IdleInvariant();
    }

    method Add(filter: Option<string>, once: bool) returns (id: nat)
      requires Valid()
      modifies this
      ensures Valid() && View() == SubscribeStep(old(View()), filter, once)
      ensures id !in old(born) && subscriptions.Has(id) && OnlySubscriberChanges(id)
    {
      StepKeeps(View(), EventBusModel.Subscribe(filter, once));
      id := nextSubscriptionId;
      nextSubscriptionId := nextSubscriptionId + 1;
      var sub := Subscription(id, filter, once);
      subscriptions := subscriptions.Set(id, sub);
      born := born[id := Birth(sub, |dispatched|)];
    }

    method Subscribe(filter: Option<string>) returns (id: nat)
      requires Valid()
      modifies this
      ensures Valid() && View() == SubscribeStep(old(View()), filter, false)
      ensures id !in old(born) && subscriptions.Has(id) && OnlySubscriberChanges(id)
    {
      id := Add(filter, false);
    }

    method Once(filter: Option<string>) returns (id: nat)
      requires Valid()
      modifies this
      ensures Valid() && View() == SubscribeStep(old(View()), filter, true)
      ensures id !in old(born) && subscriptions.Has(id) && OnlySubscriberChanges(id)
    {
      id := Add(filter, true);
    }

    /** The function that Subscribe and Once hand out. */
    method Unsubscribe(id: nat)
      requires Valid()
      modifies this
      ensures Valid() && View() == UnsubscribeStep(old(View()), id)
      ensures !subscriptions.Has(id) && OnlySubscriberChanges(id)
    {
      StepKeeps(View(), EventBusModel.Unsubscribe(id));
      subscriptions := subscriptions.Delete(id);
    }

    /** `event` is None when the argument is no event object: nothing happens. */
    method Publish(event: Option<Event>) returns (accepted: bool)
      requires Valid()
      modifies this
      ensures Valid() && accepted == event.Some?
      ensures View() == if accepted then PublishStep(old(View()), event.value) else old(View())
      ensures accepted ==> |queue| == |old(queue)| + 1 && queue[..|old(queue)|] == old(queue)
      ensures accepted ==>
                forall n :: n in old(dispatched) || n in Numbers(old(queue)) ==> n < queue[|old(queue)|].number
      ensures deliveries == old(deliveries) && subscriptions == old(subscriptions)
    {
      if event.None? {
        return false;
      }
      StepKeeps(View(), EventBusModel.Publish(event.value));
      LaterThanAll(View());
      queue := queue + [Ticket(publicationCount, event.value)];
      publicationCount := publicationCount + 1;
      published := published + [event.value];
      if !isPublishing {
        isPublishing := true;
      }
      return true;
    }

    method Clear()
      requires Valid()
      modifies this
      ensures Valid() && View() == ClearStep(old(View()))
      ensures queue == [] && (forall id :: !subscriptions.Has(id))
      ensures deliveries == old(deliveries) && cursor == old(cursor)
    {
      StepKeeps(View(), EventBusModel.Clear);
      subscriptions := Empty();
      queue := [];
    }

    /** The loops of the drain, from one listener call to the next. */
    method Dispatch() returns (call: Option<Delivery>)
      requires subscriptions.Valid()
      modifies this
      ensures publicationCount == old(publicationCount) && View() == AdvanceStep(old(View()))
      ensures deliveries == old(deliveries) + if call.Some? then [call.value] else []
      ensures call.None? ==> subscriptions == old(subscriptions)
    {
      call := None;
      if !isPublishing {
        return;
      }
      if cursor.None? {
        if |queue| == 0 {
          isPublishing := false;
          return;
        }
        var current := queue[0];
        queue := queue[1..];
        dispatched := dispatched + [current.number];
        cursor := Some(Cursor(current, Listeners(subscriptions), 0));
        return;
      }
      var c := cursor.value;
      if c.index >= |c.snapshot| {
        cursor := None;
        return;
      }
      var record := c.snapshot[c.index];
      cursor := Some(c.(index := c.index + 1));
      if !subscriptions.Has(record.id) {
        return;
      }
      if record.filter.Some? && record.filter.value != "" && record.filter.value != c.current.event.kind {
        return;
      }
      if record.once {
        subscriptions := subscriptions.Delete(record.id);
      }
      call := Some(Delivery(record.id, c.current.number));
      deliveries := deliveries + [call.value];
    }

    /**
     * Runs the drain up to the next listener call; `call` is that call. The
     * publish that started the drain has returned when `isPublishing` is false.
     * A call goes to a subscriber that is still there, with an event that passes
     * its filter, and comes after every earlier call: later in publication
     * order or, for the same event, in order of subscription. A once subscriber
     * is gone by then.
     */
    method Advance() returns (call: Option<Delivery>)
      requires Valid()
      modifies this
      ensures Valid() && View() == AdvanceStep(old(View()))
      ensures deliveries == old(deliveries) + if call.Some? then [call.value] else []
      ensures call.Some? ==>
                && (forall d :: d in old(deliveries) ==> Before(d, call.value))
                && old(subscriptions).Has(call.value.subscriber) && call.value.number < |published|
                && Matches(old(subscriptions).Get(call.value.subscriber), published[call.value.number])
                && (subscriptions.Has(call.value.subscriber) <==> !old(subscriptions).Get(call.value.subscriber).once)
      ensures call.None? ==> subscriptions == old(subscriptions)
    {
      StepKeeps(View(), EventBusModel.Advance);
      CallIsDue(View());
      call := Dispatch();
    }

    /** The listener failed and so did the error handler: publish rejects. */
    method AbandonDrain()
      requires Valid()
      modifies this
      ensures Valid() && View() == HandlerThrowsStep(old(View()))
      ensures cursor.None? && (old(cursor).Some? ==> !isPublishing)
      ensures queue == old(queue) && deliveries == old(deliveries) && subscriptions == old(subscriptions)
    {
      StepKeeps(View(), EventBusModel.HandlerThrows);
      if cursor.Some? {
        cursor := None;
        isPublishing := false;
      }
    }
  }
}
