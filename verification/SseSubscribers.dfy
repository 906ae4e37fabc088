/** A subscriber from its subscription on: what it starts with, what is published to it, how its
    queue is handed over, and when it loses anything. */
module SseSubscribers {
  import opened Options
  import opened SseBroker
  import opened SseDelivery

  // ---- what is published to a subscriber

  /** An event the broker accepts, of this tenant and mode and of a kind that was asked for. */
  predicate Addressed(a: Action, tenantId: string, livemode: bool, kinds: seq<string>) {
    && a.Publish? && "evt_" <= a.event.id
    && a.event.tenantId == tenantId && a.event.livemode == livemode
    && (kinds == [] || a.event.kind in kinds)
  }

  function Published(actions: seq<Action>, tenantId: string, livemode: bool, kinds: seq<string>): seq<SseEvent>
    decreases |actions|
  {
    if actions == [] then []
    else
      (if Addressed(actions[0], tenantId, livemode, kinds) then [actions[0].event] else [])
      + Published(actions[1..], tenantId, livemode, kinds)
  }

  function PublishedTo(actions: seq<Action>, sub: Sub): seq<SseEvent> {
    Published(actions, sub.tenantId, sub.livemode, sub.kinds)
  }

  predicate SameSubscription(a: Sub, b: Sub) {
    a.tenantId == b.tenantId && a.livemode == b.livemode && a.kinds == b.kinds && (a.closed ==> b.closed)
  }

  lemma StepStream(cfg: Config, s: State, a: Action, id: nat)
    requires id in s.clients
    ensures id in Step(cfg, s, a).clients
    ensures var c, c' := s.clients[id], Step(cfg, s, a).clients[id];
      && SameSubscription(c.sub, c'.sub) && c'.start == c.start
      && (!c'.sub.closed ==>
            c'.stream == c.stream + if Addressed(a, c.sub.tenantId, c.sub.livemode, c.sub.kinds) then [a.event] else [])
  {
  }

  lemma Regroup(a: seq<SseEvent>, b: seq<SseEvent>, c: seq<SseEvent>)
    ensures (a + b) + c == a + (b + c)
  {
  }

  lemma {:induction false} RunStream(cfg: Config, s: State, actions: seq<Action>, id: nat)
    requires id in s.clients
    ensures id in Run(cfg, s, actions).clients
    ensures var c, c' := s.clients[id], Run(cfg, s, actions).clients[id];
      && SameSubscription(c.sub, c'.sub) && c'.start == c.start
      && (!c'.sub.closed ==> c'.stream == c.stream + PublishedTo(actions, c.sub))
    decreases |actions|
  {
    var c := s.clients[id];
    if actions == [] {
      assert c.stream + [] == c.stream;
    } else {
      var a, s1 := actions[0], Step(cfg, s, actions[0]);
      StepStream(cfg, s, a, id);
      RunStream(cfg, s1, actions[1..], id);
      Regroup(c.stream, if Addressed(a, c.sub.tenantId, c.sub.livemode, c.sub.kinds) then [a.event] else [],
              PublishedTo(actions[1..], c.sub));
    }
  }

  lemma FreshClient(cfg: Config, s: State, a: Action)
    requires Inv(cfg, s) && a.Subscribe? && (a.afterId == None || a.afterId == Some("")) && a.id !in s.clients
    ensures var c := Step(cfg, s, a).clients[a.id];
      && c.sub == Sub(a.tenantId, a.livemode, a.kinds, [], false, None, false)
      && c.stream == [] && c.seen == [] && c.start == |RingOf(s.log, KeyFor(a.tenantId, a.livemode))|
  {
    NewClient(cfg, s, a);
    var ring := RingOf(s.rings, KeyFor(a.tenantId, a.livemode));
    assert ring[|ring|..] == [];
  }

  /** A subscriber that names no event to resume from starts empty, at the end of the log; while it
      is open its stream is exactly what is published to it from then on, in order. */
  lemma FreshSubscriberGetsWhatFollows(cfg: Config, before: seq<Action>, a: Action, after: seq<Action>)
    requires a.Subscribe? && (a.afterId == None || a.afterId == Some("")) && a.id !in Run(cfg, INITIAL, before).clients
    ensures var s := Run(cfg, INITIAL, before);
      var c := Step(cfg, s, a).clients[a.id];
      && c.sub == Sub(a.tenantId, a.livemode, a.kinds, [], false, None, false)
      && c.stream == [] && c.seen == [] && c.start == |RingOf(s.log, KeyFor(a.tenantId, a.livemode))|
    ensures var s := Run(cfg, INITIAL, before);
      var s' := Run(cfg, Step(cfg, s, a), after);
      && a.id in s'.clients
      && s'.clients[a.id].start == |RingOf(s.log, KeyFor(a.tenantId, a.livemode))|
      && (!s'.clients[a.id].sub.closed ==> s'.clients[a.id].stream == Published(after, a.tenantId, a.livemode, a.kinds))
  {
    var s := Run(cfg, INITIAL, before);
    RunKeepsInv(cfg, INITIAL, before);
    FreshClient(cfg, s, a);
    RunStream(cfg, Step(cfg, s, a), after, a.id);
    var published := Published(after, a.tenantId, a.livemode, a.kinds);
    assert [] + published == published;
  }

  lemma NotThere(log: seq<SseEvent>, from: nat, id: string)
    requires from <= |log| && forall p :: from <= p < |log| ==> log[p].id != id
    ensures IndexOf(log[from..], id) == -1
  {
    assert forall i :: 0 <= i < |log[from..]| ==> log[from..][i] == log[from + i];
  }

  lemma NotInRing(log: seq<SseEvent>, capacity: nat, id: string)
    requires id != "" && forall p :: 0 <= p < |log| && p >= |log| - capacity ==> log[p].id != id
    ensures |log| - |Last(log, capacity)| + Skip(Last(log, capacity), Some(id)) == if |log| <= capacity then 0 else |log| - capacity
  {
    LastIsSuffix(log, capacity);
    NotThere(log, |log| - |Last(log, capacity)|, id);
  }

  /** One that names an event the ring does not hold starts with the whole ring: the last events of
      its tenant and mode, up to the capacity, of the kinds it wants. */
  lemma UnknownIdReplaysTheRing(cfg: Config, before: seq<Action>, a: Action)
    requires a.Subscribe? && a.afterId.Some? && a.afterId.value != "" && a.id !in Run(cfg, INITIAL, before).clients
    requires var log := RingOf(Run(cfg, INITIAL, before).log, KeyFor(a.tenantId, a.livemode));
      forall p :: 0 <= p < |log| && p >= |log| - cfg.capacity ==> log[p].id != a.afterId.value
    ensures var s := Run(cfg, INITIAL, before);
      var log := RingOf(s.log, KeyFor(a.tenantId, a.livemode));
      var start := if |log| <= cfg.capacity then 0 else |log| - cfg.capacity;
      var c := Step(cfg, s, a).clients[a.id];
      c.start == start && c.stream == Filter(log[start..], a.kinds) && c.sub.queue == c.stream
  {
    RunKeepsInv(cfg, INITIAL, before);
    RingReplayed(cfg, Run(cfg, INITIAL, before), a);
  }

  lemma OpenStream(log: seq<SseEvent>, c: Client)
    requires StreamOk(log, c) && !c.sub.closed
    ensures c.stream == Filter(log[c.start..], c.sub.kinds)
  {
    assert log[c.start..c.stop] == log[c.start..];
  }

  lemma RingReplayed(cfg: Config, s: State, a: Action)
    requires Inv(cfg, s) && a.Subscribe? && a.afterId.Some? && a.afterId.value != "" && a.id !in s.clients
    requires var log := RingOf(s.log, KeyFor(a.tenantId, a.livemode));
      forall p :: 0 <= p < |log| && p >= |log| - cfg.capacity ==> log[p].id != a.afterId.value
    ensures var log := RingOf(s.log, KeyFor(a.tenantId, a.livemode));
      var start := if |log| <= cfg.capacity then 0 else |log| - cfg.capacity;
      var c := Step(cfg, s, a).clients[a.id];
      c.start == start && c.stream == Filter(log[start..], a.kinds) && c.sub.queue == c.stream
  {
    var key := KeyFor(a.tenantId, a.livemode);
    var log, ring := RingOf(s.log, key), RingOf(s.rings, key);
    assert ring == Last(log, cfg.capacity);
    NotInRing(log, cfg.capacity, a.afterId.value);
    NewClient(cfg, s, a);
    OpenStream(log, Step(cfg, s, a).clients[a.id]);
  }

  // ---- handing over

  function Pulls(id: nat, now: int, n: nat): seq<Action> {
    if n == 0 then [] else [PullNext(id, now)] + Pulls(id, now, n - 1)
  }

  /** Queued events as they are handed over, the first at the given position of the stream. */
  function HandedFrom(queue: seq<SseEvent>, position: nat): seq<Seen>
    decreases |queue|
  {
    if queue == [] then [] else [At(position, queue[0])] + HandedFrom(queue[1..], position + 1)
  }

  lemma RegroupSeen(a: seq<Seen>, b: seq<Seen>, c: seq<Seen>)
    ensures (a + b) + c == a + (b + c)
  {
  }

  lemma {:induction false} QueueIsHandedOver(cfg: Config, s: State, id: nat, now: int)
    requires id in s.clients && !s.clients[id].sub.closed && !s.clients[id].sub.overflowed
    requires |s.clients[id].sub.queue| <= |s.clients[id].stream|
    ensures var c := s.clients[id];
      var s' := Run(cfg, s, Pulls(id, now, |c.sub.queue|));
      && id in s'.clients && s'.clients[id].sub.queue == [] && s'.clients[id].stream == c.stream
      && s'.clients[id].seen == c.seen + HandedFrom(c.sub.queue, |c.stream| - |c.sub.queue|)
    decreases |s.clients[id].sub.queue|
  {
    var c := s.clients[id];
    if c.sub.queue == [] {
      assert c.seen + [] == c.seen;
    } else {
      var s1 := Step(cfg, s, PullNext(id, now));
      QueueIsHandedOver(cfg, s1, id, now);
      RegroupSeen(c.seen, [At(Head(c), c.sub.queue[0])], HandedFrom(c.sub.queue[1..], Head(c) + 1));
      var rest := Pulls(id, now, |c.sub.queue| - 1);
      assert Pulls(id, now, |c.sub.queue|)[1..] == rest;
    }
  }

  lemma MarkerAndQueueAreHandedOver(cfg: Config, s: State, id: nat, now: int)
    requires id in s.clients && !s.clients[id].sub.closed && |s.clients[id].sub.queue| <= |s.clients[id].stream|
    ensures var c := s.clients[id];
      var flagged := if c.sub.overflowed then 1 else 0;
      var s' := Run(cfg, s, Pulls(id, now, flagged + |c.sub.queue|));
      && id in s'.clients && s'.clients[id].sub.queue == []
      && s'.clients[id].seen == c.seen + (if c.sub.overflowed then [Gap(Marker(c.sub, now))] else [])
                                + HandedFrom(c.sub.queue, |c.stream| - |c.sub.queue|)
  {
    var c := s.clients[id];
    if c.sub.overflowed {
      assert Pulls(id, now, 1 + |c.sub.queue|)[1..] == Pulls(id, now, |c.sub.queue|);
      QueueIsHandedOver(cfg, Step(cfg, s, PullNext(id, now)), id, now);
    } else {
      assert c.seen + [] == c.seen;
      QueueIsHandedOver(cfg, s, id, now);
    }
  }

  /** A subscriber that keeps pulling is handed the marker first, if something was dropped, then
      everything in its queue, in order, up to the newest event of its stream. */
  lemma PullingEmptiesTheQueue(cfg: Config, actions: seq<Action>, id: nat, now: int)
    requires id in Run(cfg, INITIAL, actions).clients && !Run(cfg, INITIAL, actions).clients[id].sub.closed
    ensures var s := Run(cfg, INITIAL, actions); var c := s.clients[id];
      var flagged := if c.sub.overflowed then 1 else 0;
      var s' := Run(cfg, s, Pulls(id, now, flagged + |c.sub.queue|));
      && |c.sub.queue| <= |c.stream| && c.sub.queue == c.stream[|c.stream| - |c.sub.queue|..]
      && id in s'.clients && s'.clients[id].sub.queue == []
      && s'.clients[id].seen == c.seen + (if c.sub.overflowed then [Gap(Marker(c.sub, now))] else [])
                                + HandedFrom(c.sub.queue, |c.stream| - |c.sub.queue|)
  {
    var c := Reached(cfg, actions, id);
    MarkerAndQueueAreHandedOver(cfg, Run(cfg, INITIAL, actions), id, now);
  }

  /** Once closed, a subscriber is handed nothing more. */
  lemma {:induction false} ClosedSeesNoMore(cfg: Config, s: State, actions: seq<Action>, id: nat)
    requires id in s.clients && s.clients[id].sub.closed
    ensures id in Run(cfg, s, actions).clients
    ensures Run(cfg, s, actions).clients[id].seen == s.clients[id].seen && Run(cfg, s, actions).clients[id].stream == s.clients[id].stream
    decreases |actions|
  {
    if actions != [] {
      ClosedSeesNoMore(cfg, Step(cfg, s, actions[0]), actions[1..], id);
    }
  }

  // ---- room

  function Bound(cfg: Config): nat {
    var n := if cfg.subscriberCapacity < cfg.capacity then cfg.capacity else cfg.subscriberCapacity;
    if n == 0 then 1 else n
  }

  /** The flag is up only while the queue is full, and no queue outgrows its bound. */
  predicate RoomOk(cfg: Config, sub: Sub) {
    && (sub.overflowed ==> |sub.queue| >= cfg.subscriberCapacity && sub.queue != [])
    && |sub.queue| <= Bound(cfg)
  }

  ghost predicate AllRoomOk(cfg: Config, clients: map<nat, Client>) {
    forall id :: id in clients ==> RoomOk(cfg, clients[id].sub)
  }

  lemma {:induction false} FilterShortens(events: seq<SseEvent>, kinds: seq<string>)
    ensures |Filter(events, kinds)| <= |events|
    decreases |events|
  {
    if events != [] {
      FilterShortens(events[..|events| - 1], kinds);
    }
  }

  lemma OfferKeepsRoom(cfg: Config, sub: Sub, e: SseEvent)
    requires RoomOk(cfg, sub)
    ensures RoomOk(cfg, Offer(sub, e, cfg.subscriberCapacity))
  {
  }

  lemma PullKeepsRoom(cfg: Config, c: Client, now: int)
    requires RoomOk(cfg, c.sub)
    ensures RoomOk(cfg, PullClient(c, now).sub)
  {
  }

  lemma ClientKeepsRoom(cfg: Config, s: State, a: Action, id: nat)
    requires id in s.clients && RoomOk(cfg, s.clients[id].sub)
    ensures RoomOk(cfg, Step(cfg, s, a).clients[id].sub)
  {
    var c := s.clients[id];
    match a
    case Publish(e) => OfferKeepsRoom(cfg, c.sub, e);
    case PullNext(_, now) => PullKeepsRoom(cfg, c, now);
    case _ =>
  }

  lemma NewKeepsRoom(cfg: Config, s: State, a: Action)
    requires Inv(cfg, s) && a.Subscribe? && a.id !in s.clients
    ensures RoomOk(cfg, Step(cfg, s, a).clients[a.id].sub)
  {
    var key := KeyFor(a.tenantId, a.livemode);
    var ring := RingOf(s.rings, key);
    assert ring == Last(RingOf(s.log, key), cfg.capacity);
    LastIsSuffix(RingOf(s.log, key), cfg.capacity);
    FilterShortens(ring[Skip(ring, a.afterId)..], a.kinds);
  }

  lemma StepKeepsRoom(cfg: Config, s: State, a: Action)
    requires Inv(cfg, s) && AllRoomOk(cfg, s.clients)
    ensures AllRoomOk(cfg, Step(cfg, s, a).clients)
  {
    var s' := Step(cfg, s, a);
    forall id | id in s'.clients ensures RoomOk(cfg, s'.clients[id].sub) {
      if id in s.clients {
        ClientKeepsRoom(cfg, s, a, id);
      } else {
        NewKeepsRoom(cfg, s, a);
      }
    }
  }

  lemma {:induction false} RunKeepsRoom(cfg: Config, s: State, actions: seq<Action>)
    requires Inv(cfg, s) && AllRoomOk(cfg, s.clients)
    ensures AllRoomOk(cfg, Run(cfg, s, actions).clients)
    decreases |actions|
  {
    if actions != [] {
      StepKeepsRoom(cfg, s, actions[0]);
      StepKeepsInv(cfg, s, actions[0]);
      RunKeepsRoom(cfg, Step(cfg, s, actions[0]), actions[1..]);
    }
  }

  /** A marker means the queue really is full: in every run a subscriber about to be handed one has
      at least its capacity of events behind it, and no queue ever grows beyond the greater of
      the two capacities. */
  lemma MarkerOnlyWhenFull(cfg: Config, actions: seq<Action>, id: nat, now: int)
    requires id in Run(cfg, INITIAL, actions).clients
    ensures var sub := Run(cfg, INITIAL, actions).clients[id].sub;
      && (Pull(sub, now).1.Some? && Pull(sub, now).1.value.Overflow? ==> |sub.queue| >= cfg.subscriberCapacity && sub.queue != [])
      && (|sub.queue| <= 1 || |sub.queue| <= cfg.subscriberCapacity || |sub.queue| <= cfg.capacity)
  {
    RunKeepsRoom(cfg, INITIAL, actions);
    assert RoomOk(cfg, Run(cfg, INITIAL, actions).clients[id].sub);
  }
}
