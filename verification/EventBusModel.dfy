/**
 * The re-entrant event bus as a transition system. A drain is cut at every
 * listener call, so listeners may publish, subscribe, unsubscribe and clear in
 * between. `published`, `dispatched`, `deliveries` and `born` are history.
 */
module EventBusModel {
  import opened Seqs
  import opened JsMaps

  datatype Event = Event(kind: string, eventId: string)

  /** A queued event with its publication number. */
  datatype Ticket = Ticket(number: nat, event: Event)

  datatype Subscription = Subscription(id: nat, filter: Option<string>, once: bool)

  datatype Cursor = Cursor(current: Ticket, snapshot: seq<Subscription>, index: nat)

  datatype Delivery = Delivery(subscriber: nat, number: nat)

  /** `since` is how many events had been dispatched when it subscribed. */
  datatype Birth = Birth(subscription: Subscription, since: nat)

  datatype Bus = Bus(
    subscriptions: JsMap<nat, Subscription>, nextId: nat, queue: seq<Ticket>,
    publishing: bool, cursor: Option<Cursor>,
    published: seq<Event>, dispatched: seq<nat>, deliveries: seq<Delivery>, born: map<nat, Birth>)

  function Idle(): Bus {
    Bus(Empty(), 1, [], false, None, [], [], [], map[])
  }

  /** An absent or empty filter lets everything through. */
  predicate Matches(sub: Subscription, e: Event) {
    sub.filter == None || sub.filter == Some("") || sub.filter == Some(e.kind)
  }

  function Listeners(m: JsMap<nat, Subscription>): seq<Subscription>
    requires m.Valid()
  {
    seq(|m.keys|, i requires 0 <= i < |m.keys| => m.Get(m.keys[i]))
  }

  datatype Step =
    | Publish(event: Event)
    | Subscribe(filter: Option<string>, once: bool)
    | Unsubscribe(id: nat)
    | Clear
    | Advance
    | HandlerThrows

  function PublishStep(b: Bus, e: Event): Bus {
    b.(queue := b.queue + [Ticket(|b.published|, e)], published := b.published + [e], publishing := true)
  }

  function SubscribeStep(b: Bus, filter: Option<string>, once: bool): Bus {
    var sub := Subscription(b.nextId, filter, once);
    b.(subscriptions := b.subscriptions.Set(b.nextId, sub), nextId := b.nextId + 1,
       born := b.born[b.nextId := Birth(sub, |b.dispatched|)])
  }

  function UnsubscribeStep(b: Bus, id: nat): Bus {
    b.(subscriptions := b.subscriptions.Delete(id))
  }

  function ClearStep(b: Bus): Bus {
    b.(subscriptions := Empty(), queue := [])
  }

  /** The drain loop takes the next event and snapshots the subscribers, or ends. */
  function TakeNext(b: Bus): Bus
    requires b.subscriptions.Valid()
  {
    if b.queue == [] then b.(publishing := false)
    else
      b.(queue := b.queue[1..], dispatched := b.dispatched + [b.queue[0].number],
         cursor := Some(Cursor(b.queue[0], Listeners(b.subscriptions), 0)))
  }

  /** One turn of the dispatch loop: skip, or deliver up to the listener call. */
  function Visit(b: Bus): Bus
    requires b.cursor.Some? && b.cursor.value.index < |b.cursor.value.snapshot|
  {
    var c := b.cursor.value;
    var sub := c.snapshot[c.index];
    var moved := b.(cursor := Some(c.(index := c.index + 1)));
    if !b.subscriptions.Has(sub.id) || !Matches(sub, c.current.event) then moved
    else
      moved.(subscriptions := if sub.once then b.subscriptions.Delete(sub.id) else b.subscriptions,
             deliveries := b.deliveries + [Delivery(sub.id, c.current.number)])
  }

  function AdvanceStep(b: Bus): Bus
    requires b.subscriptions.Valid()
  {
    if !b.publishing then b
    else
      match b.cursor
      case None => TakeNext(b)
      case Some(c) => if c.index < |c.snapshot| then Visit(b) else b.(cursor := None)
  }

  /** The error handler of a failed listener throws: the drain is abandoned. */
  function HandlerThrowsStep(b: Bus): Bus {
    if b.cursor.Some? then b.(cursor := None, publishing := false) else b
  }

  function Next(b: Bus, step: Step): Bus
    requires b.subscriptions.Valid()
  {
    match step
    case Publish(e) => PublishStep(b, e)
    case Subscribe(filter, once) => SubscribeStep(b, filter, once)
    case Unsubscribe(id) => UnsubscribeStep(b, id)
    case Clear => ClearStep(b)
    case Advance => AdvanceStep(b)
    case HandlerThrows => HandlerThrowsStep(b)
  }

  // ------------------------------------------------------------------
  // Order
  // ------------------------------------------------------------------

  ghost predicate Increasing(s: seq<nat>) {
    forall i, j :: 0 <= i < j < |s| ==> s[i] < s[j]
  }

  function Numbers(queue: seq<Ticket>): seq<nat> {
    seq(|queue|, i requires 0 <= i < |queue| => queue[i].number)
  }

  /** Earlier in publication order, then in subscription order. */
  predicate Before(a: Delivery, b: Delivery) {
    a.number < b.number || (a.number == b.number && a.subscriber < b.subscriber)
  }

  ghost predicate DeliveriesOrdered(ds: seq<Delivery>) {
    forall i, j :: 0 <= i < j < |ds| ==> Before(ds[i], ds[j])
  }

  ghost predicate SubscriptionsOk(b: Bus) {
    && b.subscriptions.Valid() && b.nextId >= 1
    && Increasing(b.subscriptions.keys)
    && (forall id :: id in b.born <==> 1 <= id < b.nextId)
    && (forall id :: id in b.born ==> b.born[id].subscription.id == id && b.born[id].since <= |b.dispatched|)
    && (forall id :: id in b.subscriptions.vals ==> id in b.born && b.subscriptions.vals[id] == b.born[id].subscription)
  }

  ghost predicate QueueOk(b: Bus) {
    && Increasing(b.dispatched + Numbers(b.queue))
    && (forall i :: 0 <= i < |b.dispatched| ==> b.dispatched[i] < |b.published|)
    && (forall i :: 0 <= i < |b.queue| ==>
         b.queue[i].number < |b.published| && b.queue[i].event == b.published[b.queue[i].number])
  }

  ghost predicate CursorOk(b: Bus) {
    b.cursor.Some? ==>
      var c := b.cursor.value;
      && b.publishing && c.index <= |c.snapshot|
      && |b.dispatched| > 0 && b.dispatched[|b.dispatched|-1] == c.current.number
      && c.current.number < |b.published| && c.current.event == b.published[c.current.number]
      && (forall i :: 0 <= i < |c.snapshot| ==>
           c.snapshot[i].id in b.born && c.snapshot[i] == b.born[c.snapshot[i].id].subscription)
      && (forall i, j :: 0 <= i < j < |c.snapshot| ==> c.snapshot[i].id < c.snapshot[j].id)
  }

  /** Everything delivered so far lies before the position of the cursor. */
  ghost predicate BehindCursor(b: Bus, d: Delivery) {
    if b.cursor.Some? && d.number == b.cursor.value.current.number then
      var c := b.cursor.value;
      exists i :: 0 <= i < c.index && i < |c.snapshot| && c.snapshot[i].id == d.subscriber
    else |b.dispatched| > 0 && d.number <= b.dispatched[|b.dispatched|-1]
  }

  ghost predicate DeliveriesOk(b: Bus) {
    && DeliveriesOrdered(b.deliveries)
    && (forall d :: d in b.deliveries ==>
         && BehindCursor(b, d) && d.number in b.dispatched && d.number < |b.published|
         && d.subscriber in b.born && Matches(b.born[d.subscriber].subscription, b.published[d.number])
         && (b.born[d.subscriber].subscription.once ==> d.subscriber !in b.subscriptions.vals))
    && (forall i, j :: 0 <= i < j < |b.deliveries| && b.deliveries[i].subscriber == b.deliveries[j].subscriber
         ==> !b.born[b.deliveries[i].subscriber].subscription.once)
  }

  ghost predicate Invariant(b: Bus) {
    SubscriptionsOk(b) && QueueOk(b) && CursorOk(b) && DeliveriesOk(b)
  }
}
