/** The server-sent-events broker (apps/api/src/services/sse-broker/Broker.ts): a bounded
    ring per tenant and mode, and a bounded queue per subscriber with an overflow marker. */
module SseBroker {
  import opened Options

  datatype SseEvent = SseEvent(id: string, kind: string, data: string, ts: int, tenantId: string, livemode: bool)

  function KeyFor(tenantId: string, livemode: bool): string {
    tenantId + if livemode then ":live" else ":test"
  }

  /** Rings of different tenants or modes are never shared. */
  lemma KeyForInjective(tenant1: string, live1: bool, tenant2: string, live2: bool)
    ensures KeyFor(tenant1, live1) == KeyFor(tenant2, live2) <==> tenant1 == tenant2 && live1 == live2
  {
    var k1, k2 := KeyFor(tenant1, live1), KeyFor(tenant2, live2);
    assert k1[..|k1| - 5] == tenant1 && k2[..|k2| - 5] == tenant2;
    assert k1[|k1| - 1] == (if live1 then 'e' else 't') && k2[|k2| - 1] == (if live2 then 'e' else 't');
  }

  predicate IsEventId(id: string) {
    "evt_" <= id
  }

  /** The last `n` elements, or all of them. */
  function Last(s: seq<SseEvent>, n: nat): seq<SseEvent> {
    if |s| <= n then s else s[|s| - n..]
  }

  predicate Wants(kinds: seq<string>, e: SseEvent) {
    kinds == [] || e.kind in kinds
  }

  function Filter(events: seq<SseEvent>, kinds: seq<string>): seq<SseEvent> {
    if events == [] then []
    else
      var rest := Filter(events[..|events| - 1], kinds);
      var e := events[|events| - 1];
      if Wants(kinds, e) then rest + [e] else rest
  }

  /** A subscriber's state. */
  datatype Sub = Sub(tenantId: string, livemode: bool, kinds: seq<string>, queue: seq<SseEvent>,
                     overflowed: bool, lastSeenId: Option<string>, closed: bool)

  predicate Receives(sub: Sub, e: SseEvent) {
    !sub.closed && sub.tenantId == e.tenantId && sub.livemode == e.livemode && Wants(sub.kinds, e)
  }

  /** One subscriber's part of `publish`. */
  function Offer(sub: Sub, e: SseEvent, capacity: nat): Sub {
    if !Receives(sub, e) then sub
    else if |sub.queue| >= capacity
    then sub.(queue := (if sub.queue == [] then [] else sub.queue[1..]) + [e], overflowed := true, lastSeenId := Some(e.id))
    else sub.(queue := sub.queue + [e], lastSeenId := Some(e.id))
  }

  /** What the iterator yields: an event, or the marker that says some were dropped. */
  datatype Item = Delivered(event: SseEvent) | Overflow(marker: SseEvent)

  function Marker(sub: Sub, now: int): SseEvent {
    match sub.lastSeenId
    case None => SseEvent("evt_overflow", "stream.overflow", "", now, sub.tenantId, sub.livemode)
    case Some(id) => SseEvent(id, "stream.overflow", id, now, sub.tenantId, sub.livemode)
  }

  /** The next item, if the iterator need not wait, and the state after it. */
  function Pull(sub: Sub, now: int): (Sub, Option<Item>) {
    if sub.closed then (sub, None)
    else if sub.overflowed then (sub.(overflowed := false), Some(Overflow(Marker(sub, now))))
    else if sub.queue != [] then (sub.(queue := sub.queue[1..]), Some(Delivered(sub.queue[0])))
    else (sub, None)
  }

  /** How much of the ring a new subscriber skips. */
  function Skip(ring: seq<SseEvent>, afterId: Option<string>): (n: nat)
    ensures n <= |ring|
  {
    if afterId.None? || afterId.value == "" then |ring| else IndexOf(ring, afterId.value) + 1
  }

  /** findIndex: the first position of the id, or -1. */
  function IndexOf(ring: seq<SseEvent>, id: string): (i: int)
    ensures -1 <= i < |ring|
    ensures i >= 0 ==> ring[i].id == id
    ensures forall j :: 0 <= j < (if i < 0 then |ring| else i) ==> ring[j].id != id
  {
    if ring == [] then -1
    else if ring[0].id == id then 0
    else
      var i := IndexOf(ring[1..], id);
      if i < 0 then -1 else i + 1
  }

  function NewSub(ring: seq<SseEvent>, tenantId: string, livemode: bool, kinds: seq<string>, afterId: Option<string>): Sub {
    Sub(tenantId, livemode, kinds, Filter(ring[Skip(ring, afterId)..], kinds), false, None, false)
  }

  function RingOf(rings: map<string, seq<SseEvent>>, key: string): seq<SseEvent> {
    if key in rings then rings[key] else []
  }

  // ---- the broker as objects

  class Subscriber {
    const tenantId: string
    const livemode: bool
    const kinds: seq<string>
    var queue: seq<SseEvent>
    var overflowed: bool
    var lastSeenId: Option<string>
    var closed: bool

    ghost function View(): Sub
      reads this
    {
      Sub(tenantId, livemode, kinds, queue, overflowed, lastSeenId, closed)
    }

    constructor (tenantId: string, livemode: bool, kinds: seq<string>)
      ensures View() == Sub(tenantId, livemode, kinds, [], false, None, false)
    {
      this.tenantId, this.livemode, this.kinds := tenantId, livemode, kinds;
      queue, overflowed, lastSeenId, closed := [], false, None, false;
    }

    method Backlog(events: seq<SseEvent>)
      requires queue == []
      modifies this
      ensures View() == old(View()).(queue := Filter(events, kinds))
    {
      for i := 0 to |events|
        invariant View() == old(View()).(queue := Filter(events[..i], kinds))
      {
        assert events[..i + 1][..i] == events[..i];
        if kinds == [] || events[i].kind in kinds {
          queue := queue + [events[i]];
        }
      }
      assert events[..|events|] == events;
    }

    method Receive(e: SseEvent, capacity: nat)
      modifies this
      ensures View() == Offer(old(View()), e, capacity)
    {
      if closed || tenantId != e.tenantId || livemode != e.livemode {
        return;
      }
      if kinds != [] && e.kind !in kinds {
        return;
      }
      if |queue| >= capacity {
        if queue != [] {
          queue := queue[1..];
        }
        overflowed := true;
      }
      queue := queue + [e];
      lastSeenId := Some(e.id);
    }

    /** One turn of the iterator's loop; None stands for waiting, or for the end when closed. */
    method Next(now: int) returns (item: Option<Item>)
      modifies this
      ensures (View(), item) == Pull(old(View()), now)
    {
      if closed {
        return None;
      }
      if overflowed {
        overflowed := false;
        var id := if lastSeenId.Some? then lastSeenId.value else "evt_overflow";
        var data := if lastSeenId.Some? then lastSeenId.value else "";
        return Some(Overflow(SseEvent(id, "stream.overflow", data, now, tenantId, livemode)));
      }
      if queue != [] {
        item := Some(Delivered(queue[0]));
        queue := queue[1..];
        return;
      }
      item := None;
    }
  }

  class Broker {
    const capacity: nat
    const subscriberCapacity: nat
    var rings: map<string, seq<SseEvent>>
    var subscribers: seq<Subscriber>

    /** The subscribers form a set. */
    ghost predicate Valid()
      reads this
    {
      forall i, j :: 0 <= i < j < |subscribers| ==> subscribers[i] != subscribers[j]
    }

    constructor (capacity: nat, subscriberCapacity: nat)
      ensures Valid() && rings == map[] && subscribers == []
      ensures this.capacity == capacity && this.subscriberCapacity == subscriberCapacity
    {
      this.capacity, this.subscriberCapacity := capacity, subscriberCapacity;
      rings, subscribers := map[], [];
    }

    /** `ok` is false when the id is refused; then nothing changes. */
    method Publish(e: SseEvent) returns (ok: bool)
      requires Valid()
      modifies this`rings, subscribers
      ensures ok <==> IsEventId(e.id)
      ensures ok ==> rings == old(rings)[KeyFor(e.tenantId, e.livemode) := Last(RingOf(old(rings), KeyFor(e.tenantId, e.livemode)) + [e], capacity)]
      ensures ok ==> forall i :: 0 <= i < |subscribers| ==> subscribers[i].View() == Offer(old(subscribers[i].View()), e, subscriberCapacity)
      ensures !ok ==> rings == old(rings) && forall i :: 0 <= i < |subscribers| ==> subscribers[i].View() == old(subscribers[i].View())
    {
      ok := "evt_" <= e.id;
      if !ok {
        return;
      }
      Push(KeyFor(e.tenantId, e.livemode), e);
      OfferAll(e);
    }

    method Push(key: string, e: SseEvent)
      modifies this`rings
      ensures rings == old(rings)[key := Last(RingOf(old(rings), key) + [e], capacity)]
    {
      var ring := (if key in rings then rings[key] else []) + [e];
      ghost var pushed := ring;
      while |ring| > capacity
        invariant Last(ring, capacity) == Last(pushed, capacity)
      {
        ring := ring[1..];
      }
      rings := rings[key := ring];
    }

    method OfferAll(e: SseEvent)
      requires Valid()
      modifies subscribers
      ensures forall i :: 0 <= i < |subscribers| ==> subscribers[i].View() == Offer(old(subscribers[i].View()), e, subscriberCapacity)
    {
      for i := 0 to |subscribers|
        invariant forall j :: 0 <= j < i ==> subscribers[j].View() == Offer(old(subscribers[j].View()), e, subscriberCapacity)
        invariant forall j :: i <= j < |subscribers| ==> subscribers[j].View() == old(subscribers[j].View())
      {
        subscribers[i].Receive(e, subscriberCapacity);
      }
    }

    method Subscribe(tenantId: string, livemode: bool, kinds: seq<string>, afterId: Option<string>) returns (s: Subscriber)
      requires Valid()
      modifies this`subscribers
      ensures Valid() && fresh(s) && subscribers == old(subscribers) + [s]
      ensures s.View() == NewSub(RingOf(rings, KeyFor(tenantId, livemode)), tenantId, livemode, kinds, afterId)
      ensures afterId.None? || afterId.value == "" ==> s.queue == []
    {
      var key := KeyFor(tenantId, livemode);
      var ring := if key in rings then rings[key] else [];
      var start := if afterId.Some? && afterId.value != "" then IndexOf(ring, afterId.value) + 1 else |ring|;
      s := new Subscriber(tenantId, livemode, kinds);
      s.Backlog(ring[start..]);
      subscribers := subscribers + [s];
    }

    method Close(s: Subscriber)
      requires Valid()
      modifies this`subscribers, s
      ensures Valid() && s.View() == old(s.View()).(closed := true)
      ensures forall t :: t in subscribers <==> t in old(subscribers) && t != s
    {
      s.closed := true;
      Remove(s);
    }

    method Remove(s: Subscriber)
      requires Valid()
      modifies this`subscribers
      ensures Valid()
      ensures forall t :: t in subscribers <==> t in old(subscribers) && t != s
    {
      for i := 0 to |subscribers|
        invariant subscribers == old(subscribers) && Valid()
        invariant s !in subscribers[..i]
      {
        if subscribers[i] == s {
          subscribers := subscribers[..i] + subscribers[i + 1..];
          assert forall t :: t in old(subscribers) <==> t in old(subscribers)[..i] || t == old(subscribers)[i] || t in old(subscribers)[i + 1..];
          return;
        }
      }
    }
  }
}
