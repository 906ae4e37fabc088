/** What subscribers of the broker see over every run of publishes, subscriptions, pulls
    and closes: no silent gap, no spurious marker, no event of another tenant or mode. */
module SseDelivery {
  import opened Options
  import opened SseBroker

  /** An item handed to a client, with the position of an event in the subscriber's own stream. */
  datatype Seen = At(position: nat, event: SseEvent) | Gap(marker: SseEvent)

  /** A subscriber with its history: the matching events offered to it so far, backlog
      included, and what it has been handed. `start` and `stop` delimit them in the log of its `key`. */
  datatype Client = Client(key: string, sub: Sub, stream: seq<SseEvent>, seen: seq<Seen>, start: nat, stop: nat)

  /** `log` is everything ever published under a ring's key. */
  datatype State = State(rings: map<string, seq<SseEvent>>, log: map<string, seq<SseEvent>>, clients: map<nat, Client>)

  datatype Action =
    | Publish(event: SseEvent)
    | Subscribe(id: nat, tenantId: string, livemode: bool, kinds: seq<string>, afterId: Option<string>)
    | PullNext(id: nat, now: int)
    | Close(id: nat)

  datatype Config = Config(capacity: nat, subscriberCapacity: nat)

  function OfferClient(c: Client, e: SseEvent, capacity: nat): Client {
    if Receives(c.sub, e) then c.(sub := Offer(c.sub, e, capacity), stream := c.stream + [e], stop := c.stop + 1)
    else if !c.sub.closed && c.key == KeyFor(e.tenantId, e.livemode) then c.(stop := c.stop + 1)
    else c
  }

  function PullClient(c: Client, now: int): Client {
    match Pull(c.sub, now)
    case (sub, None) => c.(sub := sub)
    case (sub, Some(Delivered(e))) => c.(sub := sub, seen := c.seen + [At(Head(c), e)])
    case (sub, Some(Overflow(m))) => c.(sub := sub, seen := c.seen + [Gap(m)])
  }

  /** The stream position of the head of the queue. */
  function Head(c: Client): nat {
    if |c.sub.queue| <= |c.stream| then |c.stream| - |c.sub.queue| else 0
  }

  function Step(cfg: Config, s: State, a: Action): State {
    match a
    case Publish(e) =>
      if !IsEventId(e.id) then s
      else
        var key := KeyFor(e.tenantId, e.livemode);
        State(s.rings[key := Last(RingOf(s.rings, key) + [e], cfg.capacity)],
              s.log[key := RingOf(s.log, key) + [e]],
              map id | id in s.clients :: OfferClient(s.clients[id], e, cfg.subscriberCapacity))
    case Subscribe(id, tenantId, livemode, kinds, afterId) =>
      if id in s.clients then s
      else
        var key := KeyFor(tenantId, livemode);
        var ring := RingOf(s.rings, key);
        var logged := |RingOf(s.log, key)|;
        var skipped := Skip(ring, afterId);
        var sub := NewSub(ring, tenantId, livemode, kinds, afterId);
        s.(clients := s.clients[id := Client(key, sub, sub.queue, [], if logged >= |ring| then logged - |ring| + skipped else 0, logged)])
    case PullNext(id, now) => if id in s.clients then s.(clients := s.clients[id := PullClient(s.clients[id], now)]) else s
    case Close(id) => if id in s.clients then s.(clients := s.clients[id := s.clients[id].(sub := s.clients[id].sub.(closed := true))]) else s
  }

  function Run(cfg: Config, s: State, actions: seq<Action>): State
    decreases |actions|
  {
    if actions == [] then s else Run(cfg, Step(cfg, s, actions[0]), actions[1..])
  }

  const INITIAL := State(map[], map[], map[])

  // ---- faithful histories

  /** The position after the last event delivered among the first n items. */
  function NextAt(seen: seq<Seen>, n: nat): nat
    requires n <= |seen|
  {
    if n == 0 then 0
    else match seen[n - 1]
      case At(p, _) => p + 1
      case Gap(_) => NextAt(seen, n - 1)
  }

  /** The markers since that event. */
  function MarkersAt(seen: seq<Seen>, n: nat): nat
    requires n <= |seen|
  {
    if n == 0 || seen[n - 1].At? then 0 else 1 + MarkersAt(seen, n - 1)
  }

  function Next(seen: seq<Seen>): nat {
    NextAt(seen, |seen|)
  }

  function Markers(seen: seq<Seen>): nat {
    MarkersAt(seen, |seen|)
  }

  lemma {:induction false} MoreSeenAt(seen: seq<Seen>, item: Seen, n: nat)
    requires n <= |seen|
    ensures NextAt(seen + [item], n) == NextAt(seen, n) && MarkersAt(seen + [item], n) == MarkersAt(seen, n)
    decreases n
  {
    if n > 0 {
      MoreSeenAt(seen, item, n - 1);
      assert (seen + [item])[n - 1] == seen[n - 1];
    }
  }

  /** Each event is the stream's event at its position; without a marker since the one
      before it is the very next one, and each marker stands for an event that was skipped. */
  ghost predicate FaithfulItem(seen: seq<Seen>, stream: seq<SseEvent>, capacity: nat, i: nat)
    requires i < |seen|
  {
    seen[i].At? ==>
      && seen[i].position < |stream| && seen[i].event == stream[seen[i].position]
      && (MarkersAt(seen, i) == 0 ==> seen[i].position == NextAt(seen, i))
      && seen[i].position >= NextAt(seen, i)
      && (capacity > 0 ==> seen[i].position >= NextAt(seen, i) + MarkersAt(seen, i))
  }

  ghost predicate Faithful(seen: seq<Seen>, stream: seq<SseEvent>, capacity: nat) {
    forall i :: 0 <= i < |seen| ==> FaithfulItem(seen, stream, capacity, i)
  }

  /** The queue is the undelivered end of the stream, and whatever lies between the last
      delivered event and the queue is announced: by a marker already handed out, or by the flag. */
  ghost predicate QueueOk(c: Client, capacity: nat) {
    && |c.sub.queue| <= |c.stream|
    && c.sub.queue == c.stream[Head(c)..]
    && Next(c.seen) <= Head(c)
    && (!c.sub.overflowed && Markers(c.seen) == 0 ==> Head(c) == Next(c.seen))
    && (capacity > 0 ==> Head(c) >= Next(c.seen) + Markers(c.seen) + if c.sub.overflowed then 1 else 0)
    && Faithful(c.seen, c.stream, capacity)
  }

  lemma MoreStreamKeepsFaithful(seen: seq<Seen>, stream: seq<SseEvent>, e: SseEvent, capacity: nat)
    requires Faithful(seen, stream, capacity)
    ensures Faithful(seen, stream + [e], capacity)
  {
    forall i | 0 <= i < |seen| ensures FaithfulItem(seen, stream + [e], capacity, i) {
      assert FaithfulItem(seen, stream, capacity, i);
    }
  }

  lemma OneMoreSeen(seen: seq<Seen>, item: Seen, stream: seq<SseEvent>, capacity: nat)
    requires Faithful(seen, stream, capacity)
    requires FaithfulItem(seen + [item], stream, capacity, |seen|)
    ensures Faithful(seen + [item], stream, capacity)
  {
    forall i | 0 <= i < |seen| ensures FaithfulItem(seen + [item], stream, capacity, i) {
      assert FaithfulItem(seen, stream, capacity, i);
      MoreSeenAt(seen, item, i);
    }
  }

  /** A full queue gives up its head, so the head moves one on in the stream. */
  lemma OfferMovesHead(c: Client, e: SseEvent, capacity: nat)
    requires |c.sub.queue| <= |c.stream| && c.sub.queue == c.stream[Head(c)..] && Receives(c.sub, e)
    ensures var c' := OfferClient(c, e, capacity);
      && c'.seen == c.seen && c'.stream == c.stream + [e]
      && |c'.sub.queue| <= |c'.stream| && c'.sub.queue == c'.stream[Head(c')..]
      && (if |c.sub.queue| < capacity then Head(c') == Head(c) && c'.sub.overflowed == c.sub.overflowed
          else Head(c') == (if c.sub.queue == [] then Head(c) else Head(c) + 1) && c'.sub.overflowed)
  {
  }

  lemma OfferKeepsQueue(c: Client, e: SseEvent, capacity: nat)
    requires QueueOk(c, capacity)
    ensures QueueOk(OfferClient(c, e, capacity), capacity)
  {
    if Receives(c.sub, e) {
      OfferMovesHead(c, e, capacity);
      MoreStreamKeepsFaithful(c.seen, c.stream, e, capacity);
    }
  }

  lemma PullKeepsQueue(c: Client, now: int, capacity: nat)
    requires QueueOk(c, capacity)
    ensures QueueOk(PullClient(c, now), capacity)
  {
    var c' := PullClient(c, now);
    if c'.seen != c.seen {
      var item := c'.seen[|c.seen|];
      MoreSeenAt(c.seen, item, |c.seen|);
      OneMoreSeen(c.seen, item, c.stream, capacity);
      if item.At? {
        assert c.sub.queue[1..] == c.stream[Head(c) + 1..];
      }
    }
  }

  // ---- streams and the log

  lemma FilterAppend(a: seq<SseEvent>, e: SseEvent, kinds: seq<string>)
    ensures Filter(a + [e], kinds) == if Wants(kinds, e) then Filter(a, kinds) + [e] else Filter(a, kinds)
  {
    assert (a + [e])[..|a|] == a;
  }

  /** A client's stream is exactly the matching part of its log from its start. */
  ghost predicate StreamOk(log: seq<SseEvent>, c: Client) {
    && c.start <= c.stop <= |log|
    && (!c.sub.closed ==> c.stop == |log|)
    && c.stream == Filter(log[c.start..c.stop], c.sub.kinds)
  }

  predicate KeyOk(c: Client) {
    c.key == KeyFor(c.sub.tenantId, c.sub.livemode)
  }

  ghost predicate ClientOk(log: seq<SseEvent>, c: Client, capacity: nat) {
    KeyOk(c) && StreamOk(log, c) && QueueOk(c, capacity)
  }

  ghost predicate ClientsOk(cfg: Config, logs: map<string, seq<SseEvent>>, clients: map<nat, Client>) {
    forall id :: id in clients ==> ClientOk(RingOf(logs, clients[id].key), clients[id], cfg.subscriberCapacity)
  }

  /** Every ring is the end of its log. */
  ghost predicate RingsOk(rings: map<string, seq<SseEvent>>, logs: map<string, seq<SseEvent>>, capacity: nat) {
    forall key :: RingOf(rings, key) == Last(RingOf(logs, key), capacity)
  }

  predicate Under(e: SseEvent, key: string) {
    KeyFor(e.tenantId, e.livemode) == key
  }

  /** The log of a key holds that tenant and mode only. */
  ghost predicate LogsOk(logs: map<string, seq<SseEvent>>) {
    forall key, i :: 0 <= i < |RingOf(logs, key)| ==> Under(RingOf(logs, key)[i], key)
  }

  ghost predicate Inv(cfg: Config, s: State) {
    RingsOk(s.rings, s.log, cfg.capacity) && LogsOk(s.log) && ClientsOk(cfg, s.log, s.clients)
  }

  lemma ReceivesIff(c: Client, e: SseEvent)
    requires KeyOk(c)
    ensures Receives(c.sub, e) <==> !c.sub.closed && c.key == KeyFor(e.tenantId, e.livemode) && Wants(c.sub.kinds, e)
  {
    KeyForInjective(c.sub.tenantId, c.sub.livemode, e.tenantId, e.livemode);
  }

  lemma FilterLonger(log: seq<SseEvent>, start: nat, e: SseEvent, kinds: seq<string>)
    requires start <= |log|
    ensures Filter((log + [e])[start..|log| + 1], kinds) ==
            if Wants(kinds, e) then Filter(log[start..|log|], kinds) + [e] else Filter(log[start..|log|], kinds)
  {
    assert (log + [e])[start..|log| + 1] == log[start..|log|] + [e];
    FilterAppend(log[start..|log|], e, kinds);
  }

  lemma LongerLog(log: seq<SseEvent>, c: Client, e: SseEvent)
    requires StreamOk(log, c) && c.sub.closed
    ensures StreamOk(log + [e], c)
  {
    assert (log + [e])[c.start..c.stop] == log[c.start..c.stop];
  }

  lemma PublishKeepsStream(log: seq<SseEvent>, c: Client, e: SseEvent, capacity: nat)
    requires StreamOk(log, c) && KeyOk(c)
    ensures StreamOk(if c.key == KeyFor(e.tenantId, e.livemode) then log + [e] else log, OfferClient(c, e, capacity))
  {
    ReceivesIff(c, e);
    if c.sub.closed {
      LongerLog(log, c, e);
    } else {
      FilterLonger(log, c.start, e, c.sub.kinds);
    }
  }

  lemma LastOfLast(log: seq<SseEvent>, e: SseEvent, capacity: nat)
    ensures Last(Last(log, capacity) + [e], capacity) == Last(log + [e], capacity)
  {
  }

  lemma PublishKeepsRings(rings: map<string, seq<SseEvent>>, logs: map<string, seq<SseEvent>>, capacity: nat, key: string, e: SseEvent)
    requires RingsOk(rings, logs, capacity)
    ensures RingsOk(rings[key := Last(RingOf(rings, key) + [e], capacity)], logs[key := RingOf(logs, key) + [e]], capacity)
  {
    LastOfLast(RingOf(logs, key), e, capacity);
    var rings', logs' := rings[key := Last(RingOf(rings, key) + [e], capacity)], logs[key := RingOf(logs, key) + [e]];
    forall k ensures RingOf(rings', k) == Last(RingOf(logs', k), capacity) {
      assert k != key ==> RingOf(rings', k) == RingOf(rings, k) && RingOf(logs', k) == RingOf(logs, k);
    }
  }

  lemma PublishKeepsLogs(logs: map<string, seq<SseEvent>>, key: string, e: SseEvent)
    requires LogsOk(logs) && Under(e, key)
    ensures LogsOk(logs[key := RingOf(logs, key) + [e]])
  {
    var logs' := logs[key := RingOf(logs, key) + [e]];
    forall k, i | 0 <= i < |RingOf(logs', k)| ensures Under(RingOf(logs', k)[i], k) {
      assert i < |RingOf(logs, k)| ==> RingOf(logs', k)[i] == RingOf(logs, k)[i];
    }
  }

  lemma RingOfAppended(logs: map<string, seq<SseEvent>>, key: string, e: SseEvent, k: string)
    ensures RingOf(logs[key := RingOf(logs, key) + [e]], k) == if k == key then RingOf(logs, k) + [e] else RingOf(logs, k)
  {
  }

  lemma PublishKeepsClient(log: seq<SseEvent>, c: Client, e: SseEvent, capacity: nat)
    requires ClientOk(log, c, capacity)
    ensures ClientOk(if c.key == KeyFor(e.tenantId, e.livemode) then log + [e] else log, OfferClient(c, e, capacity), capacity)
  {
    PublishKeepsStream(log, c, e, capacity);
    OfferKeepsQueue(c, e, capacity);
  }

  lemma PublishKeepsClients(cfg: Config, logs: map<string, seq<SseEvent>>, clients: map<nat, Client>, e: SseEvent)
    requires ClientsOk(cfg, logs, clients)
    ensures var key := KeyFor(e.tenantId, e.livemode);
      ClientsOk(cfg, logs[key := RingOf(logs, key) + [e]], map id | id in clients :: OfferClient(clients[id], e, cfg.subscriberCapacity))
  {
    var key := KeyFor(e.tenantId, e.livemode);
    forall id | id in clients
      ensures var c := OfferClient(clients[id], e, cfg.subscriberCapacity);
        ClientOk(RingOf(logs[key := RingOf(logs, key) + [e]], c.key), c, cfg.subscriberCapacity)
    {
      PublishKeepsClient(RingOf(logs, clients[id].key), clients[id], e, cfg.subscriberCapacity);
      RingOfAppended(logs, key, e, clients[id].key);
    }
  }

  lemma PublishKeepsInv(cfg: Config, s: State, e: SseEvent)
    requires Inv(cfg, s) && IsEventId(e.id)
    ensures Inv(cfg, Step(cfg, s, Publish(e)))
  {
    var key := KeyFor(e.tenantId, e.livemode);
    PublishKeepsRings(s.rings, s.log, cfg.capacity, key, e);
    PublishKeepsLogs(s.log, key, e);
    PublishKeepsClients(cfg, s.log, s.clients, e);
  }

  /** What a new client starts with. */
  lemma NewClient(cfg: Config, s: State, a: Action)
    requires a.Subscribe? && Inv(cfg, s) && a.id !in s.clients
    ensures ClientOk(RingOf(s.log, KeyFor(a.tenantId, a.livemode)), Step(cfg, s, a).clients[a.id], cfg.subscriberCapacity)
    ensures var c := Step(cfg, s, a).clients[a.id];
      var key := KeyFor(a.tenantId, a.livemode);
      && c.key == key && c.sub.kinds == a.kinds && c.sub.queue == c.stream && c.stop == |RingOf(s.log, key)|
      && c.start == |RingOf(s.log, key)| - |RingOf(s.rings, key)| + Skip(RingOf(s.rings, key), a.afterId)
  {
    var key := KeyFor(a.tenantId, a.livemode);
    var ring, log := RingOf(s.rings, key), RingOf(s.log, key);
    assert ring == Last(log, cfg.capacity);
    var c := Step(cfg, s, a).clients[a.id];
    assert ring[Skip(ring, a.afterId)..] == log[c.start..c.stop];
    assert Head(c) == 0 && c.stream[0..] == c.stream;
  }

  lemma PullKeepsClient(log: seq<SseEvent>, c: Client, now: int, capacity: nat)
    requires ClientOk(log, c, capacity)
    ensures ClientOk(log, PullClient(c, now), capacity)
  {
    PullKeepsQueue(c, now, capacity);
  }

  lemma CloseKeepsClient(log: seq<SseEvent>, c: Client, capacity: nat)
    requires ClientOk(log, c, capacity)
    ensures ClientOk(log, c.(sub := c.sub.(closed := true)), capacity)
  {
  }

  lemma UpdateKeepsClients(cfg: Config, logs: map<string, seq<SseEvent>>, clients: map<nat, Client>, id: nat, c: Client)
    requires ClientsOk(cfg, logs, clients)
    ensures ClientOk(RingOf(logs, c.key), c, cfg.subscriberCapacity) ==> ClientsOk(cfg, logs, clients[id := c])
  {
  }

  lemma SubscribeKeepsInv(cfg: Config, s: State, a: Action)
    requires a.Subscribe? && Inv(cfg, s)
    ensures Inv(cfg, Step(cfg, s, a))
  {
    if a.id !in s.clients {
      NewClient(cfg, s, a);
      UpdateKeepsClients(cfg, s.log, s.clients, a.id, Step(cfg, s, a).clients[a.id]);
    }
  }

  lemma PullKeepsInv(cfg: Config, s: State, id: nat, now: int)
    requires Inv(cfg, s)
    ensures Inv(cfg, Step(cfg, s, PullNext(id, now)))
  {
    if id in s.clients {
      PullKeepsClient(RingOf(s.log, s.clients[id].key), s.clients[id], now, cfg.subscriberCapacity);
      UpdateKeepsClients(cfg, s.log, s.clients, id, PullClient(s.clients[id], now));
    }
  }

  lemma CloseKeepsInv(cfg: Config, s: State, id: nat)
    requires Inv(cfg, s)
    ensures Inv(cfg, Step(cfg, s, Close(id)))
  {
    if id in s.clients {
      var c := s.clients[id];
      CloseKeepsClient(RingOf(s.log, c.key), c, cfg.subscriberCapacity);
      UpdateKeepsClients(cfg, s.log, s.clients, id, c.(sub := c.sub.(closed := true)));
    }
  }

  lemma StepKeepsInv(cfg: Config, s: State, a: Action)
    requires Inv(cfg, s)
    ensures Inv(cfg, Step(cfg, s, a))
  {
    match a
    case Publish(e) =>
      if IsEventId(e.id) {
        PublishKeepsInv(cfg, s, e);
      }
    case Subscribe(_, _, _, _, _) => SubscribeKeepsInv(cfg, s, a);
    case PullNext(id, now) => PullKeepsInv(cfg, s, id, now);
    case Close(id) => CloseKeepsInv(cfg, s, id);
  }

  lemma {:induction false} RunKeepsInv(cfg: Config, s: State, actions: seq<Action>)
    requires Inv(cfg, s)
    ensures Inv(cfg, Run(cfg, s, actions))
    decreases |actions|
  {
    if actions != [] {
      StepKeepsInv(cfg, s, actions[0]);
      RunKeepsInv(cfg, Step(cfg, s, actions[0]), actions[1..]);
    }
  }

  lemma Reached(cfg: Config, actions: seq<Action>, id: nat) returns (c: Client)
    requires id in Run(cfg, INITIAL, actions).clients
    ensures c == Run(cfg, INITIAL, actions).clients[id]
    ensures ClientOk(RingOf(Run(cfg, INITIAL, actions).log, c.key), c, cfg.subscriberCapacity)
  {
    RunKeepsInv(cfg, INITIAL, actions);
    c := Run(cfg, INITIAL, actions).clients[id];
  }

  // ---- the main results

  lemma NextBound(seen: seq<Seen>, stream: seq<SseEvent>, capacity: nat, i: nat, j: nat)
    requires Faithful(seen, stream, capacity) && i < j <= |seen| && seen[i].At?
    ensures NextAt(seen, j) > seen[i].position
    decreases j
  {
    if i < j - 1 {
      NextBound(seen, stream, capacity, i, j - 1);
      assert FaithfulItem(seen, stream, capacity, j - 1);
    }
  }

  /** A subscriber sees events of its own stream in publish order: positions strictly grow. */
  lemma DeliveredInOrder(cfg: Config, actions: seq<Action>, id: nat, i: nat, j: nat)
    requires id in Run(cfg, INITIAL, actions).clients
    requires var seen := Run(cfg, INITIAL, actions).clients[id].seen; i < j < |seen| && seen[i].At? && seen[j].At?
    ensures var c := Run(cfg, INITIAL, actions).clients[id];
      && c.seen[i].position < c.seen[j].position < |c.stream|
      && c.seen[i].event == c.stream[c.seen[i].position] && c.seen[j].event == c.stream[c.seen[j].position]
  {
    var c := Reached(cfg, actions, id);
    NextBound(c.seen, c.stream, cfg.subscriberCapacity, i, j);
    assert FaithfulItem(c.seen, c.stream, cfg.subscriberCapacity, i);
    assert FaithfulItem(c.seen, c.stream, cfg.subscriberCapacity, j);
  }

  /** No silent gap: two events with no marker between them are adjacent in the stream. */
  lemma NoSilentGap(cfg: Config, actions: seq<Action>, id: nat, i: nat)
    requires id in Run(cfg, INITIAL, actions).clients
    requires var seen := Run(cfg, INITIAL, actions).clients[id].seen; i + 1 < |seen| && seen[i].At? && seen[i + 1].At?
    ensures var seen := Run(cfg, INITIAL, actions).clients[id].seen; seen[i + 1].position == seen[i].position + 1
  {
    var c := Reached(cfg, actions, id);
    assert FaithfulItem(c.seen, c.stream, cfg.subscriberCapacity, i + 1);
  }

  /** The first thing a subscriber gets is the first event of its stream, or a marker. */
  lemma StartsAtTheBeginning(cfg: Config, actions: seq<Action>, id: nat)
    requires id in Run(cfg, INITIAL, actions).clients
    requires var seen := Run(cfg, INITIAL, actions).clients[id].seen; seen != [] && seen[0].At?
    ensures Run(cfg, INITIAL, actions).clients[id].seen[0].position == 0
  {
    var c := Reached(cfg, actions, id);
    assert FaithfulItem(c.seen, c.stream, cfg.subscriberCapacity, 0);
  }

  lemma RunOfMarkers(seen: seq<Seen>, i: nat, j: nat)
    requires i < j <= |seen| && seen[i].At? && forall k :: i < k < j ==> seen[k].Gap?
    ensures NextAt(seen, j) == seen[i].position + 1 && MarkersAt(seen, j) == j - i - 1
    decreases j
  {
    if i < j - 1 {
      RunOfMarkers(seen, i, j - 1);
    }
  }

  /** No spurious marker: between two delivered events separated by markers only, at least
      as many events of the stream are missing as there are markers. */
  lemma MarkersMeanLoss(cfg: Config, actions: seq<Action>, id: nat, i: nat, j: nat)
    requires cfg.subscriberCapacity > 0 && id in Run(cfg, INITIAL, actions).clients
    requires var seen := Run(cfg, INITIAL, actions).clients[id].seen;
      i < j < |seen| && seen[i].At? && seen[j].At? && forall k :: i < k < j ==> seen[k].Gap?
    ensures var seen := Run(cfg, INITIAL, actions).clients[id].seen;
      seen[j].position - seen[i].position - 1 >= j - i - 1
  {
    var c := Reached(cfg, actions, id);
    RunOfMarkers(c.seen, i, j);
    assert FaithfulItem(c.seen, c.stream, cfg.subscriberCapacity, j);
  }

  /** A subscriber that has to wait and whose last item was an event has seen its stream to the end. */
  lemma WaitingMeansCaughtUp(cfg: Config, actions: seq<Action>, id: nat, now: int)
    requires id in Run(cfg, INITIAL, actions).clients
    requires var c := Run(cfg, INITIAL, actions).clients[id]; Pull(c.sub, now).1.None? && !c.sub.closed && c.seen != [] && c.seen[|c.seen| - 1].At?
    ensures var c := Run(cfg, INITIAL, actions).clients[id]; c.seen[|c.seen| - 1].position == |c.stream| - 1
  {
    var c := Reached(cfg, actions, id);
  }

  lemma FilterMembers(events: seq<SseEvent>, kinds: seq<string>)
    ensures forall e :: e in Filter(events, kinds) <==> e in events && Wants(kinds, e)
  {
  }

  lemma LogHoldsOneTenant(cfg: Config, s: State, c: Client, e: SseEvent)
    requires Inv(cfg, s) && ClientOk(RingOf(s.log, c.key), c, cfg.subscriberCapacity) && e in c.stream
    ensures e.tenantId == c.sub.tenantId && e.livemode == c.sub.livemode && Wants(c.sub.kinds, e)
  {
    var log := RingOf(s.log, c.key);
    FilterMembers(log[c.start..c.stop], c.sub.kinds);
    var k :| 0 <= k < |log| && log[k] == e;
    assert Under(log[k], c.key);
    KeyForInjective(c.sub.tenantId, c.sub.livemode, e.tenantId, e.livemode);
  }

  /** No event crosses tenant or mode, and none of another kind is handed over. */
  lemma NoEventCrosses(cfg: Config, actions: seq<Action>, id: nat, i: nat)
    requires id in Run(cfg, INITIAL, actions).clients && i < |Run(cfg, INITIAL, actions).clients[id].seen|
    requires Run(cfg, INITIAL, actions).clients[id].seen[i].At?
    ensures var c := Run(cfg, INITIAL, actions).clients[id]; var e := c.seen[i].event;
      e.tenantId == c.sub.tenantId && e.livemode == c.sub.livemode && (c.sub.kinds == [] || e.kind in c.sub.kinds)
  {
    var c := Reached(cfg, actions, id);
    RunKeepsInv(cfg, INITIAL, actions);
    assert FaithfulItem(c.seen, c.stream, cfg.subscriberCapacity, i);
    LogHoldsOneTenant(cfg, Run(cfg, INITIAL, actions), c, c.seen[i].event);
  }

  predicate DistinctIds(log: seq<SseEvent>) {
    forall i, j :: 0 <= i < j < |log| ==> log[i].id != log[j].id
  }

  lemma {:induction false} IndexOfIs(ring: seq<SseEvent>, id: string, q: nat)
    requires q < |ring| && ring[q].id == id && forall k :: 0 <= k < q ==> ring[k].id != id
    ensures IndexOf(ring, id) == q
    decreases |ring|
  {
    if q > 0 {
      IndexOfIs(ring[1..], id, q - 1);
    }
  }

  lemma LastIsSuffix(log: seq<SseEvent>, capacity: nat)
    ensures |Last(log, capacity)| == if |log| <= capacity then |log| else capacity
    ensures Last(log, capacity) == log[|log| - |Last(log, capacity)|..]
  {
  }

  lemma SkipsUpTo(log: seq<SseEvent>, capacity: nat, afterId: string, p: nat)
    requires Retained(log, capacity, afterId, p)
    ensures |log| - |Last(log, capacity)| + Skip(Last(log, capacity), Some(afterId)) == p + 1
  {
    LastIsSuffix(log, capacity);
    IndexOfIs(Last(log, capacity), afterId, p - (|log| - |Last(log, capacity)|));
  }

  /** Resuming after an event still in the ring: the new subscriber's stream is exactly the
      matching events published after that one. */
  lemma ResumeStartsAtTheNextEvent(cfg: Config, actions: seq<Action>, a: Action, p: nat)
    requires a.Subscribe? && a.afterId.Some? && a.id !in Run(cfg, INITIAL, actions).clients
    requires Retained(RingOf(Run(cfg, INITIAL, actions).log, KeyFor(a.tenantId, a.livemode)), cfg.capacity, a.afterId.value, p)
    ensures var s := Run(cfg, INITIAL, actions);
      var log := RingOf(s.log, KeyFor(a.tenantId, a.livemode));
      var c := Step(cfg, s, a).clients[a.id];
      c.start == p + 1 && c.stream == Filter(log[p + 1..], a.kinds) && c.sub.queue == c.stream
  {
    RunKeepsInv(cfg, INITIAL, actions);
    ResumeFrom(cfg, Run(cfg, INITIAL, actions), a, p);
  }

  /** The event of this id is at position p of the log, and still in the ring. */
  predicate Retained(log: seq<SseEvent>, capacity: nat, id: string, p: nat) {
    DistinctIds(log) && p < |log| && log[p].id == id && id != "" && p >= |log| - capacity
  }

  lemma ResumeFrom(cfg: Config, s: State, a: Action, p: nat)
    requires Inv(cfg, s) && a.Subscribe? && a.afterId.Some? && a.id !in s.clients
    requires Retained(RingOf(s.log, KeyFor(a.tenantId, a.livemode)), cfg.capacity, a.afterId.value, p)
    ensures var log := RingOf(s.log, KeyFor(a.tenantId, a.livemode));
      var c := Step(cfg, s, a).clients[a.id];
      c.start == p + 1 && c.stream == Filter(log[p + 1..], a.kinds) && c.sub.queue == c.stream
  {
    var key := KeyFor(a.tenantId, a.livemode);
    var log, ring := RingOf(s.log, key), RingOf(s.rings, key);
    assert ring == Last(log, cfg.capacity);
    SkipsUpTo(log, cfg.capacity, a.afterId.value, p);
    assert ring[Skip(ring, a.afterId)..] == log[p + 1..];
  }

  /** And so it stays: whatever happens after subscribing, the stream is the matching part
      of the log from the same start, up to the present while the subscriber is open. */
  lemma StreamFollowsTheLog(cfg: Config, before: seq<Action>, after: seq<Action>, id: nat)
    requires id in Run(cfg, INITIAL, before).clients
    ensures var c0 := Run(cfg, INITIAL, before).clients[id];
      var s := Run(cfg, Run(cfg, INITIAL, before), after);
      && id in s.clients
      && (var c := s.clients[id];
          && c.key == c0.key && c.start == c0.start && c.sub.kinds == c0.sub.kinds
          && StreamOk(RingOf(s.log, c.key), c))
  {
    RunKeepsInv(cfg, INITIAL, before);
    RunKeepsInv(cfg, Run(cfg, INITIAL, before), after);
    StartStays(cfg, Run(cfg, INITIAL, before), after, id);
    var s := Run(cfg, Run(cfg, INITIAL, before), after);
    assert ClientOk(RingOf(s.log, s.clients[id].key), s.clients[id], cfg.subscriberCapacity);
  }

  lemma {:induction false} StartStays(cfg: Config, s: State, actions: seq<Action>, id: nat)
    requires id in s.clients
    ensures id in Run(cfg, s, actions).clients
    ensures var a, b := s.clients[id], Run(cfg, s, actions).clients[id];
      a.key == b.key && a.start == b.start && a.sub.kinds == b.sub.kinds
    decreases |actions|
  {
    if actions != [] {
      StartStays(cfg, Step(cfg, s, actions[0]), actions[1..], id);
    }
  }

  // ---- markers

  /** A subscriber remembers the id of the newest event offered to it; while its flag is up it
      knows one and has something queued. */
  predicate NewestOk(c: Client) {
    && (c.sub.lastSeenId.Some? ==> c.stream != [] && c.sub.lastSeenId.value == c.stream[|c.stream| - 1].id)
    && (c.sub.overflowed ==> c.sub.lastSeenId.Some? && c.sub.queue != [])
  }

  ghost predicate AllNewestOk(s: State) {
    forall id :: id in s.clients ==> NewestOk(s.clients[id])
  }

  lemma StepKeepsNewest(cfg: Config, s: State, a: Action)
    requires AllNewestOk(s)
    ensures AllNewestOk(Step(cfg, s, a))
  {
    var s' := Step(cfg, s, a);
    forall id | id in s'.clients ensures NewestOk(s'.clients[id]) {
      assert id in s.clients ==> NewestOk(s.clients[id]);
    }
  }

  lemma {:induction false} RunKeepsNewest(cfg: Config, s: State, actions: seq<Action>)
    requires AllNewestOk(s)
    ensures AllNewestOk(Run(cfg, s, actions))
    decreases |actions|
  {
    if actions != [] {
      StepKeepsNewest(cfg, s, actions[0]);
      RunKeepsNewest(cfg, Step(cfg, s, actions[0]), actions[1..]);
    }
  }

  /** A marker carries the id of the newest event of the subscriber's stream. */
  lemma MarkerNamesTheNewest(cfg: Config, actions: seq<Action>, id: nat, now: int)
    requires id in Run(cfg, INITIAL, actions).clients
    requires var sub := Run(cfg, INITIAL, actions).clients[id].sub; !sub.closed && sub.overflowed
    ensures var c := Run(cfg, INITIAL, actions).clients[id];
      && c.stream != []
      && Pull(c.sub, now).1 == Some(Overflow(SseEvent(c.stream[|c.stream| - 1].id, "stream.overflow",
                                                      c.stream[|c.stream| - 1].id, now, c.sub.tenantId, c.sub.livemode)))
  {
    RunKeepsNewest(cfg, INITIAL, actions);
    assert NewestOk(Run(cfg, INITIAL, actions).clients[id]);
  }

  /** After the last matching event nothing matches. */
  lemma {:induction false} FilterLast(events: seq<SseEvent>, kinds: seq<string>) returns (q: nat)
    requires Filter(events, kinds) != []
    ensures q < |events| && events[q] == Filter(events, kinds)[|Filter(events, kinds)| - 1]
    ensures Filter(events[q + 1..], kinds) == []
    decreases |events|
  {
    var n := |events| - 1;
    if Wants(kinds, events[n]) {
      q := n;
    } else {
      q := FilterLast(events[..n], kinds);
      assert events[q + 1..] == events[..n][q + 1..] + [events[n]];
      FilterAppend(events[..n][q + 1..], events[n], kinds);
    }
  }

  lemma NothingAfterTheNewest(log: seq<SseEvent>, c: Client, p: nat)
    requires StreamOk(log, c) && !c.sub.closed && DistinctIds(log) && p < |log|
    requires c.stream != [] && log[p].id == c.stream[|c.stream| - 1].id
    ensures Filter(log[p + 1..], c.sub.kinds) == []
  {
    var q := FilterLast(log[c.start..c.stop], c.sub.kinds);
    assert log[c.start + q].id == log[p].id;
    assert p == c.start + q;
    assert log[c.start..c.stop][q + 1..] == log[p + 1..];
  }

  function Again(c: Client, newId: nat, afterId: string): Action {
    Subscribe(newId, c.sub.tenantId, c.sub.livemode, c.sub.kinds, Some(afterId))
  }

  lemma ResumeAtTheNewest(cfg: Config, s: State, c: Client, newId: nat, p: nat)
    requires Inv(cfg, s) && ClientOk(RingOf(s.log, c.key), c, cfg.subscriberCapacity) && !c.sub.closed && newId !in s.clients && c.stream != []
    requires Retained(RingOf(s.log, c.key), cfg.capacity, c.stream[|c.stream| - 1].id, p)
    ensures Step(cfg, s, Again(c, newId, c.stream[|c.stream| - 1].id)).clients[newId].stream == []
  {
    ResumeFrom(cfg, s, Again(c, newId, c.stream[|c.stream| - 1].id), p);
    NothingAfterTheNewest(RingOf(s.log, c.key), c, p);
  }

  /** So a client that reconnects with the id of a marker gets none of the events it missed: its
      new stream starts empty, though something was queued for it. */
  lemma ResumingFromAMarkerLosesTheQueue(cfg: Config, actions: seq<Action>, id: nat, newId: nat, p: nat)
    requires id in Run(cfg, INITIAL, actions).clients && newId !in Run(cfg, INITIAL, actions).clients
    requires var s := Run(cfg, INITIAL, actions); var c := s.clients[id];
      && !c.sub.closed && c.sub.overflowed
      && Retained(RingOf(s.log, c.key), cfg.capacity, Marker(c.sub, 0).id, p)
    ensures var s := Run(cfg, INITIAL, actions); var c := s.clients[id];
      Step(cfg, s, Again(c, newId, Marker(c.sub, 0).id)).clients[newId].stream == [] && c.sub.queue != []
  {
    var c := Reached(cfg, actions, id);
    RunKeepsInv(cfg, INITIAL, actions);
    MarkerNamesTheNewest(cfg, actions, id, 0);
    RunKeepsNewest(cfg, INITIAL, actions);
    assert NewestOk(c);
    assert Marker(c.sub, 0).id == c.stream[|c.stream| - 1].id;
    ResumeAtTheNewest(cfg, Run(cfg, INITIAL, actions), c, newId, p);
  }

  // ---- resuming without loss

  lemma {:induction false} FilterConcat(a: seq<SseEvent>, b: seq<SseEvent>, kinds: seq<string>)
    ensures Filter(a + b, kinds) == Filter(a, kinds) + Filter(b, kinds)
    decreases |b|
  {
    if b == [] {
      assert a + b == a;
    } else {
      var n := |b| - 1;
      FilterConcat(a, b[..n], kinds);
      assert a + b == (a + b[..n]) + [b[n]] && b == b[..n] + [b[n]];
      FilterAppend(a + b[..n], b[n], kinds);
      FilterAppend(b[..n], b[n], kinds);
    }
  }

  /** How many events of a client's stream stand in its log up to position p. */
  function MatchingUpTo(log: seq<SseEvent>, c: Client, p: nat): nat
    requires p < |log|
  {
    if c.start <= p + 1 then |Filter(log[c.start..p + 1], c.sub.kinds)| else 0
  }

  /** Everything the client has not been handed, dropped or queued, is in the new stream. */
  ghost predicate NothingMissed(c: Client, fromNow: seq<SseEvent>) {
    forall k :: Next(c.seen) <= k < |c.stream| ==> c.stream[k] in fromNow
  }

  lemma StreamSplitsAt(log: seq<SseEvent>, c: Client, p: nat)
    requires StreamOk(log, c) && !c.sub.closed && p < |log| && c.start <= p + 1
    ensures c.stream == Filter(log[c.start..p + 1], c.sub.kinds) + Filter(log[p + 1..], c.sub.kinds)
  {
    assert log[c.start..c.stop] == log[c.start..p + 1] + log[p + 1..];
    FilterConcat(log[c.start..p + 1], log[p + 1..], c.sub.kinds);
  }

  lemma LaterStreamIsWithin(log: seq<SseEvent>, c: Client, p: nat)
    requires StreamOk(log, c) && !c.sub.closed && p < |log| && c.start > p + 1
    ensures forall e :: e in c.stream ==> e in Filter(log[p + 1..], c.sub.kinds)
  {
    assert log[p + 1..] == log[p + 1..c.start] + log[c.start..c.stop];
    FilterConcat(log[p + 1..c.start], log[c.start..c.stop], c.sub.kinds);
  }

  lemma EarlierIsNotLater(log: seq<SseEvent>, c: Client, p: nat, k: nat)
    requires DistinctIds(log) && p < |log| && c.start <= p + 1 && k < |Filter(log[c.start..p + 1], c.sub.kinds)|
    ensures Filter(log[c.start..p + 1], c.sub.kinds)[k] !in Filter(log[p + 1..], c.sub.kinds)
  {
    var e := Filter(log[c.start..p + 1], c.sub.kinds)[k];
    FilterMembers(log[c.start..p + 1], c.sub.kinds);
    FilterMembers(log[p + 1..], c.sub.kinds);
    assert e in log[c.start..p + 1];
    var x :| 0 <= x < p + 1 && log[x] == e;
    assert forall y :: p + 1 <= y < |log| ==> log[y].id != e.id;
  }

  lemma MissedIffBetween(log: seq<SseEvent>, c: Client, p: nat)
    requires StreamOk(log, c) && !c.sub.closed && DistinctIds(log) && p < |log| && Next(c.seen) <= |c.stream|
    ensures NothingMissed(c, Filter(log[p + 1..], c.sub.kinds)) <==> MatchingUpTo(log, c, p) <= Next(c.seen)
  {
    if c.start <= p + 1 {
      var upTo, later := Filter(log[c.start..p + 1], c.sub.kinds), Filter(log[p + 1..], c.sub.kinds);
      StreamSplitsAt(log, c, p);
      if |upTo| <= Next(c.seen) {
        assert forall k :: |upTo| <= k < |c.stream| ==> c.stream[k] == later[k - |upTo|];
      } else {
        EarlierIsNotLater(log, c, p, Next(c.seen));
        assert c.stream[Next(c.seen)] == upTo[Next(c.seen)];
      }
    } else {
      LaterStreamIsWithin(log, c, p);
      assert forall k :: 0 <= k < |c.stream| ==> c.stream[k] in c.stream;
    }
  }

  /** Resuming after a retained id misses nothing exactly when no event of the stream up to that
      id lies beyond the last one handed over. */
  lemma ResumeMissesNothingIff(cfg: Config, actions: seq<Action>, id: nat, newId: nat, afterId: string, p: nat)
    requires id in Run(cfg, INITIAL, actions).clients && newId !in Run(cfg, INITIAL, actions).clients
    requires var s := Run(cfg, INITIAL, actions); var c := s.clients[id];
      !c.sub.closed && Retained(RingOf(s.log, c.key), cfg.capacity, afterId, p)
    ensures var s := Run(cfg, INITIAL, actions); var c := s.clients[id];
      NothingMissed(c, Step(cfg, s, Again(c, newId, afterId)).clients[newId].stream)
      <==> MatchingUpTo(RingOf(s.log, c.key), c, p) <= Next(c.seen)
  {
    var c := Reached(cfg, actions, id);
    var s := Run(cfg, INITIAL, actions);
    RunKeepsInv(cfg, INITIAL, actions);
    ResumeFrom(cfg, s, Again(c, newId, afterId), p);
    MissedIffBetween(RingOf(s.log, c.key), c, p);
  }
}
