/** Rollups of usage events (HourlyRollup.ts) and their reconciliation (RollupReconciler.ts). */
module UsageRollups {
  import opened JsText
  import opened KeyOrder
  import opened Options
  import opened UsageMetering

  datatype Period = Period(granularity: string, start: string, end: string)

  datatype Rollup = Rollup(key: string, tenantId: string, environmentId: string, meter: string, period: Period,
                           quantity: int, eventCount: int)

  function KeyOf(e: UsageEnvelope, p: Period): string {
    e.tenantId + "|" + (e.environmentId + "|" + (e.meter + "|" + (p.granularity + "|" + (p.start + "|" + p.end))))
  }

  function Amount(e: UsageEnvelope): int {
    if e.quantity.Some? then e.quantity.value else 0
  }

  /** BigInt accepts every quantity that is going to be added. */
  predicate Readable(events: seq<UsageEnvelope>) {
    forall i :: 0 <= i < |events| ==> events[i].billable ==> events[i].quantity.Some?
  }

  // ---- what belongs to a key

  predicate Counts(e: UsageEnvelope, p: Period, key: string) {
    e.billable && KeyOf(e, p) == key
  }

  /** The sum of a weight over the billable events of a key. */
  function WeightOf(w: UsageEnvelope -> int, events: seq<UsageEnvelope>, p: Period, key: string): int {
    if events == [] then 0
    else
      var e := events[|events| - 1];
      WeightOf(w, events[..|events| - 1], p, key) + if Counts(e, p, key) then w(e) else 0
  }

  function One(e: UsageEnvelope): int {
    1
  }

  /** The keys in the order of their first events. */
  function Keys(events: seq<UsageEnvelope>, p: Period): seq<string> {
    if events == [] then []
    else
      var e, keys := events[|events| - 1], Keys(events[..|events| - 1], p);
      if e.billable && KeyOf(e, p) !in keys then keys + [KeyOf(e, p)] else keys
  }

  /** The event that opens the entry of a key. */
  function FirstOf(events: seq<UsageEnvelope>, p: Period, key: string): (e: UsageEnvelope)
    requires key in Keys(events, p)
    ensures e in events && Counts(e, p, key)
  {
    var before := events[..|events| - 1];
    if key in Keys(before, p) then FirstOf(before, p, key) else events[|events| - 1]
  }

  function RollupOf(events: seq<UsageEnvelope>, p: Period, key: string): Rollup
    requires key in Keys(events, p)
  {
    var e := FirstOf(events, p, key);
    Rollup(key, e.tenantId, e.environmentId, e.meter, p, WeightOf(Amount, events, p, key), WeightOf(One, events, p, key))
  }

  function RollupsOf(events: seq<UsageEnvelope>, p: Period, keys: seq<string>): (r: seq<Rollup>)
    requires forall k :: k in keys ==> k in Keys(events, p)
    ensures |r| == |keys| && forall i :: 0 <= i < |keys| ==> r[i] == RollupOf(events, p, keys[i])
  {
    seq(|keys|, i requires 0 <= i < |keys| => RollupOf(events, p, keys[i]))
  }

  // ---- the builder

  function SortedKeys(lt: (string, string) -> bool, events: seq<UsageEnvelope>, p: Period): (r: seq<string>)
    ensures multiset(r) == multiset(Keys(events, p))
    ensures forall k :: k in r ==> k in Keys(events, p)
  {
    var r := Sort(lt, Keys(events, p));
    assert forall k :: k in r ==> k in multiset(Keys(events, p)) by {
      assert forall k :: k in r ==> k in multiset(r);
    }
    r
  }

  function Rebuilt(lt: (string, string) -> bool, events: seq<UsageEnvelope>, p: Period): seq<Rollup> {
    RollupsOf(events, p, SortedKeys(lt, events, p))
  }

  datatype Entry = Entry(quantity: int, count: int, e: UsageEnvelope)

  /** None when BigInt throws. */
  method RebuildRollup(lt: (string, string) -> bool, events: seq<UsageEnvelope>, p: Period) returns (r: Option<seq<Rollup>>)
    ensures r == if Readable(events) then Some(Rebuilt(lt, events, p)) else None
  {
    var entries: map<string, Entry> := map[];
    var order: seq<string> := [];
    for n := 0 to |events|
      invariant Readable(events[..n])
      invariant order == Keys(events[..n], p)
      invariant forall k :: k in entries <==> k in order
      invariant forall k :: k in order ==>
        entries[k] == Entry(WeightOf(Amount, events[..n], p, k), WeightOf(One, events[..n], p, k), FirstOf(events[..n], p, k))
    {
      var e := events[n];
      assert events[..n + 1][..n] == events[..n] && events[..n + 1][n] == e;
      if !e.billable {
        continue;
      }
      if e.quantity.None? {
        return None;
      }
      var k := KeyOf(e, p);
      if k !in entries {
        NoWeightYet(Amount, events[..n], p, k);
        NoWeightYet(One, events[..n], p, k);
        order := order + [k];
      }
      var cur := if k in entries then entries[k] else Entry(0, 0, e);
      entries := entries[k := Entry(cur.quantity + e.quantity.value, cur.count + 1, cur.e)];
    }
    assert events[..|events|] == events;
    var sorted := SortedKeys(lt, events, p);
    assert order == Keys(events, p);
    var rollups := PrintRollups(entries, sorted, p);
    assert rollups == Rebuilt(lt, events, p);
    return Some(rollups);
  }

  /** entries().sort().map() */
  method PrintRollups(entries: map<string, Entry>, sorted: seq<string>, p: Period) returns (r: seq<Rollup>)
    requires forall k :: k in sorted ==> k in entries
    ensures |r| == |sorted|
    ensures forall i :: 0 <= i < |r| ==>
      var v := entries[sorted[i]];
      r[i] == Rollup(sorted[i], v.e.tenantId, v.e.environmentId, v.e.meter, p, v.quantity, v.count)
  {
    r := [];
    for i := 0 to |sorted|
      invariant |r| == i
      invariant forall j :: 0 <= j < i ==>
        var v := entries[sorted[j]];
        r[j] == Rollup(sorted[j], v.e.tenantId, v.e.environmentId, v.e.meter, p, v.quantity, v.count)
    {
      var v := entries[sorted[i]];
      r := r + [Rollup(sorted[i], v.e.tenantId, v.e.environmentId, v.e.meter, p, v.quantity, v.count)];
    }
  }

  lemma {:induction false} NoWeightYet(w: UsageEnvelope -> int, events: seq<UsageEnvelope>, p: Period, key: string)
    requires key !in Keys(events, p)
    ensures WeightOf(w, events, p, key) == 0
    decreases |events|
  {
    if events != [] {
      NoWeightYet(w, events[..|events| - 1], p, key);
    }
  }

  // ---- the reconciler

  function TotalOf(w: UsageEnvelope -> int, events: seq<UsageEnvelope>): int {
    if events == [] then 0
    else TotalOf(w, events[..|events| - 1]) + if events[|events| - 1].billable then w(events[|events| - 1]) else 0
  }

  function Quantities(rollups: seq<Rollup>): int {
    if rollups == [] then 0 else rollups[0].quantity + Quantities(rollups[1..])
  }

  function EventCounts(rollups: seq<Rollup>): int {
    if rollups == [] then 0 else rollups[0].eventCount + EventCounts(rollups[1..])
  }

  datatype Comparison = Comparison(ok: bool, expected: int, actual: int)

  /** None when BigInt throws on a raw quantity. */
  function Compare(raw: seq<UsageEnvelope>, rollups: seq<Rollup>): Option<Comparison> {
    if !Readable(raw) then None
    else
      var rawTotal, rollTotal := TotalOf(Amount, raw), Quantities(rollups);
      Some(Comparison(rawTotal == rollTotal, rawTotal, rollTotal))
  }

  // ---- conservation

  function WeightOver(w: UsageEnvelope -> int, events: seq<UsageEnvelope>, p: Period, keys: seq<string>): int {
    if keys == [] then 0 else WeightOf(w, events, p, keys[0]) + WeightOver(w, events, p, keys[1..])
  }

  lemma {:induction false} WeightOverAppend(w: UsageEnvelope -> int, events: seq<UsageEnvelope>, p: Period, keys: seq<string>, key: string)
    ensures WeightOver(w, events, p, keys + [key]) == WeightOver(w, events, p, keys) + WeightOf(w, events, p, key)
    decreases |keys|
  {
    if keys == [] {
      assert [key][1..] == [];
    } else {
      WeightOverAppend(w, events, p, keys[1..], key);
      assert (keys + [key])[1..] == keys[1..] + [key];
    }
  }

  lemma {:induction false} WeightOverInsert(w: UsageEnvelope -> int, events: seq<UsageEnvelope>, p: Period,
                                            lt: (string, string) -> bool, key: string, keys: seq<string>)
    ensures WeightOver(w, events, p, Insert(lt, key, keys)) == WeightOf(w, events, p, key) + WeightOver(w, events, p, keys)
    decreases |keys|
  {
    if keys == [] || lt(key, keys[0]) {
      assert ([key] + keys)[1..] == keys;
    } else {
      WeightOverInsert(w, events, p, lt, key, keys[1..]);
    }
  }

  lemma {:induction false} WeightOverSort(w: UsageEnvelope -> int, events: seq<UsageEnvelope>, p: Period,
                                          lt: (string, string) -> bool, keys: seq<string>)
    ensures WeightOver(w, events, p, Sort(lt, keys)) == WeightOver(w, events, p, keys)
    decreases |keys|
  {
    if keys != [] {
      WeightOverSort(w, events, p, lt, keys[1..]);
      WeightOverInsert(w, events, p, lt, keys[0], Sort(lt, keys[1..]));
    }
  }

  lemma {:induction false} KeysDistinct(events: seq<UsageEnvelope>, p: Period)
    ensures Distinct(Keys(events, p))
    decreases |events|
  {
    if events != [] {
      KeysDistinct(events[..|events| - 1], p);
    }
  }

  /** One more event adds its weight under its own key only. */
  lemma {:induction false} OneMoreEvent(w: UsageEnvelope -> int, events: seq<UsageEnvelope>, p: Period, keys: seq<string>)
    requires events != [] && Distinct(keys)
    ensures var e, before := events[|events| - 1], events[..|events| - 1];
      WeightOver(w, events, p, keys) ==
      WeightOver(w, before, p, keys) + if e.billable && KeyOf(e, p) in keys then w(e) else 0
    decreases |keys|
  {
    if keys != [] {
      OneMoreEvent(w, events, p, keys[1..]);
      assert keys == [keys[0]] + keys[1..];
      assert forall i :: 1 <= i < |keys| ==> keys[i] == keys[1..][i - 1];
    }
  }

  lemma {:induction false} KeysCoverEverything(w: UsageEnvelope -> int, events: seq<UsageEnvelope>, p: Period)
    ensures WeightOver(w, events, p, Keys(events, p)) == TotalOf(w, events)
    decreases |events|
  {
    if events != [] {
      var e, before := events[|events| - 1], events[..|events| - 1];
      var keys := Keys(before, p);
      KeysCoverEverything(w, before, p);
      KeysDistinct(before, p);
      OneMoreEvent(w, events, p, keys);
      if e.billable && KeyOf(e, p) !in keys {
        WeightOverAppend(w, events, p, keys, KeyOf(e, p));
        NoWeightYet(w, before, p, KeyOf(e, p));
      }
    }
  }

  lemma {:induction false} RollupsWeigh(events: seq<UsageEnvelope>, p: Period, keys: seq<string>)
    requires forall k :: k in keys ==> k in Keys(events, p)
    ensures Quantities(RollupsOf(events, p, keys)) == WeightOver(Amount, events, p, keys)
    ensures EventCounts(RollupsOf(events, p, keys)) == WeightOver(One, events, p, keys)
    decreases |keys|
  {
    if keys != [] {
      RollupsWeigh(events, p, keys[1..]);
      assert RollupsOf(events, p, keys)[1..] == RollupsOf(events, p, keys[1..]);
    }
  }

  // ---- the events a rollup stands for, without keys

  function Billable(events: seq<UsageEnvelope>): seq<UsageEnvelope> {
    if events == [] then []
    else
      var e, rest := events[|events| - 1], Billable(events[..|events| - 1]);
      if e.billable then rest + [e] else rest
  }

  function OfMeter(events: seq<UsageEnvelope>, tenantId: string, environmentId: string, meter: string): seq<UsageEnvelope> {
    if events == [] then []
    else
      var e, rest := events[|events| - 1], OfMeter(events[..|events| - 1], tenantId, environmentId, meter);
      if e.tenantId == tenantId && e.environmentId == environmentId && e.meter == meter then rest + [e] else rest
  }

  predicate AllReadable(events: seq<UsageEnvelope>) {
    forall i :: 0 <= i < |events| ==> events[i].quantity.Some?
  }

  function Sum(events: seq<UsageEnvelope>): int
    requires AllReadable(events)
  {
    if events == [] then 0 else Sum(events[..|events| - 1]) + events[|events| - 1].quantity.value
  }

  lemma SumAppend(events: seq<UsageEnvelope>, e: UsageEnvelope)
    requires AllReadable(events) && e.quantity.Some?
    ensures AllReadable(events + [e]) && Sum(events + [e]) == Sum(events) + e.quantity.value
  {
    assert (events + [e])[..|events|] == events;
  }

  lemma {:induction false} BillableReadable(events: seq<UsageEnvelope>)
    ensures forall e :: e in Billable(events) <==> e in events && e.billable
    ensures Readable(events) <==> AllReadable(Billable(events))
  {
    if events != [] {
      var before, last := events[..|events| - 1], events[|events| - 1];
      BillableReadable(before);
      assert events == before + [last];
      assert Readable(events) <==> Readable(before) && (last.billable ==> last.quantity.Some?);
      assert last.billable ==> Billable(events)[|Billable(before)|] == last;
      assert forall i :: 0 <= i < |Billable(before)| ==> Billable(events)[i] == Billable(before)[i];
    }
  }

  lemma {:induction false} TotalsAreSums(events: seq<UsageEnvelope>)
    requires Readable(events)
    ensures AllReadable(Billable(events)) && TotalOf(Amount, events) == Sum(Billable(events))
    ensures TotalOf(One, events) == |Billable(events)|
  {
    BillableReadable(events);
    if events != [] {
      var before, last := events[..|events| - 1], events[|events| - 1];
      TotalsAreSums(before);
      if last.billable {
        SumAppend(Billable(before), last);
      }
    }
  }

  lemma RollupsWeighAll(lt: (string, string) -> bool, events: seq<UsageEnvelope>, p: Period)
    ensures Quantities(Rebuilt(lt, events, p)) == TotalOf(Amount, events)
    ensures EventCounts(Rebuilt(lt, events, p)) == TotalOf(One, events)
  {
    RollupsWeigh(events, p, SortedKeys(lt, events, p));
    WeightOverSort(Amount, events, p, lt, Keys(events, p));
    WeightOverSort(One, events, p, lt, Keys(events, p));
    KeysCoverEverything(Amount, events, p);
    KeysCoverEverything(One, events, p);
  }

  /** Conservation: the rollups hold all billable usage and all billable events, no more. */
  lemma RollupsConserve(lt: (string, string) -> bool, events: seq<UsageEnvelope>, p: Period)
    requires Readable(events)
    ensures AllReadable(Billable(events))
    ensures Quantities(Rebuilt(lt, events, p)) == Sum(Billable(events))
    ensures EventCounts(Rebuilt(lt, events, p)) == |Billable(events)|
  {
    RollupsWeighAll(lt, events, p);
    TotalsAreSums(events);
  }

  lemma {:induction false} OneChanged(rollups: seq<Rollup>, i: nat, quantity: int)
    requires i < |rollups|
    ensures Quantities(rollups[i := rollups[i].(quantity := quantity)]) == Quantities(rollups) - rollups[i].quantity + quantity
    decreases |rollups|
  {
    var changed := rollups[i := rollups[i].(quantity := quantity)];
    if i == 0 {
      assert changed[1..] == rollups[1..];
    } else {
      OneChanged(rollups[1..], i - 1, quantity);
      assert changed[1..] == rollups[1..][i - 1 := rollups[i].(quantity := quantity)];
    }
  }

  /** Whatever can be rebuilt reconciles, also when there is nothing billable. */
  lemma RebuiltReconciles(lt: (string, string) -> bool, events: seq<UsageEnvelope>, p: Period)
    requires Readable(events)
    ensures Compare(events, Rebuilt(lt, events, p)).Some? && Compare(events, Rebuilt(lt, events, p)).value.ok
  {
    RollupsWeighAll(lt, events, p);
  }

  /** Of any rollups, wherever they come from: they reconcile with the raw events exactly when their
      quantities sum to the billable ones; there is no comparison when a billable one is unreadable. */
  lemma ReconcilesIff(raw: seq<UsageEnvelope>, rollups: seq<Rollup>)
    ensures Compare(raw, rollups).Some? <==> AllReadable(Billable(raw))
    ensures AllReadable(Billable(raw)) ==> (Compare(raw, rollups).value.ok <==> Sum(Billable(raw)) == Quantities(rollups))
  {
    BillableReadable(raw);
    if Readable(raw) {
      TotalsAreSums(raw);
    }
  }

  /** With one quantity changed it never does. */
  lemma ChangedRollupIsFound(lt: (string, string) -> bool, events: seq<UsageEnvelope>, p: Period, i: nat, quantity: int)
    requires Readable(events) && i < |Rebuilt(lt, events, p)|
    ensures var rollups := Rebuilt(lt, events, p);
      var changed := Compare(events, rollups[i := rollups[i].(quantity := quantity)]);
      changed.Some? && (changed.value.ok <==> quantity == rollups[i].quantity)
  {
    RollupsWeighAll(lt, events, p);
    OneChanged(Rebuilt(lt, events, p), i, quantity);
  }

  // ---- order does not matter

  lemma {:induction false} WeightAppend(w: UsageEnvelope -> int, a: seq<UsageEnvelope>, b: seq<UsageEnvelope>, p: Period, key: string)
    ensures WeightOf(w, a + b, p, key) == WeightOf(w, a, p, key) + WeightOf(w, b, p, key)
    decreases |b|
  {
    if b == [] {
      assert a + b == a;
    } else {
      WeightAppend(w, a, b[..|b| - 1], p, key);
      assert (a + b)[..|a + b| - 1] == a + b[..|b| - 1] && (a + b)[|a + b| - 1] == b[|b| - 1];
    }
  }

  lemma RemoveOne(a: seq<UsageEnvelope>, x: UsageEnvelope, l: seq<UsageEnvelope>, r: seq<UsageEnvelope>)
    requires multiset(a + [x]) == multiset((l + [x]) + r)
    ensures multiset(a) == multiset(l + r)
  {
    assert multiset(a + [x]) == multiset(a) + multiset{x};
    assert multiset((l + [x]) + r) == multiset(l + r) + multiset{x};
    assert multiset(a) == (multiset(a) + multiset{x}) - multiset{x};
    assert multiset(l + r) == (multiset(l + r) + multiset{x}) - multiset{x};
  }

  lemma {:induction false} WeightIgnoresOrder(w: UsageEnvelope -> int, a: seq<UsageEnvelope>, b: seq<UsageEnvelope>, p: Period, key: string)
    requires multiset(a) == multiset(b)
    ensures WeightOf(w, a, p, key) == WeightOf(w, b, p, key)
    decreases |a|
  {
    if a == [] {
      assert forall e :: e in b ==> e in multiset(b);
      assert b == [];
    } else {
      var x, a' := a[|a| - 1], a[..|a| - 1];
      assert a == a' + [x];
      assert x in multiset(b);
      var i :| 0 <= i < |b| && b[i] == x;
      var l, r := b[..i], b[i + 1..];
      assert b == (l + [x]) + r;
      RemoveOne(a', x, l, r);
      WeightIgnoresOrder(w, a', l + r, p, key);
      WeightAppend(w, l, r, p, key);
      WeightAppend(w, l, [x], p, key);
      WeightAppend(w, l + [x], r, p, key);
      WeightAppend(w, a', [x], p, key);
    }
  }

  lemma {:induction false} KeyOfEvent(events: seq<UsageEnvelope>, p: Period, e: UsageEnvelope)
    requires e in events && e.billable
    ensures KeyOf(e, p) in Keys(events, p)
    decreases |events|
  {
    var before, last := events[..|events| - 1], events[|events| - 1];
    assert events == before + [last];
    if e in before {
      KeyOfEvent(before, p, e);
    }
  }

  lemma KeysOfSameEvents(a: seq<UsageEnvelope>, b: seq<UsageEnvelope>, p: Period, key: string)
    requires multiset(a) == multiset(b) && key in Keys(a, p)
    ensures key in Keys(b, p)
  {
    var e := FirstOf(a, p, key);
    assert e in multiset(a);
    KeyOfEvent(b, p, e);
  }

  /** Ids hold no separator. */
  predicate PlainIds(events: seq<UsageEnvelope>) {
    forall i :: 0 <= i < |events| ==> NoBar(events[i].tenantId) && NoBar(events[i].environmentId) && NoBar(events[i].meter)
  }

  lemma KeyNamesItsParts(d: UsageEnvelope, e: UsageEnvelope, p: Period)
    requires NoBar(d.tenantId) && NoBar(d.environmentId) && NoBar(d.meter)
    requires NoBar(e.tenantId) && NoBar(e.environmentId) && NoBar(e.meter)
    requires KeyOf(d, p) == KeyOf(e, p)
    ensures d.tenantId == e.tenantId && d.environmentId == e.environmentId && d.meter == e.meter
  {
    var tail := p.granularity + "|" + (p.start + "|" + p.end);
    var d1, e1 := d.meter + "|" + tail, e.meter + "|" + tail;
    CutOnce(d.tenantId, d.environmentId + "|" + d1, e.tenantId, e.environmentId + "|" + e1, '|');
    CutOnce(d.environmentId, d1, e.environmentId, e1, '|');
    CutOnce(d.meter, tail, e.meter, tail, '|');
  }

  lemma SameRollup(a: seq<UsageEnvelope>, b: seq<UsageEnvelope>, p: Period, key: string)
    requires multiset(a) == multiset(b) && PlainIds(a) && PlainIds(b) && key in Keys(a, p) && key in Keys(b, p)
    ensures RollupOf(a, p, key) == RollupOf(b, p, key)
  {
    WeightIgnoresOrder(Amount, a, b, p, key);
    WeightIgnoresOrder(One, a, b, p, key);
    KeyNamesItsParts(FirstOf(a, p, key), FirstOf(b, p, key), p);
  }

  lemma {:induction false} WeightsAreSums(events: seq<UsageEnvelope>, p: Period, d: UsageEnvelope)
    requires Readable(events) && PlainIds(events) && NoBar(d.tenantId) && NoBar(d.environmentId) && NoBar(d.meter)
    ensures var own := OfMeter(Billable(events), d.tenantId, d.environmentId, d.meter);
      && AllReadable(own)
      && WeightOf(Amount, events, p, KeyOf(d, p)) == Sum(own)
      && WeightOf(One, events, p, KeyOf(d, p)) == |own|
    decreases |events|
  {
    if events != [] {
      var before, e := events[..|events| - 1], events[|events| - 1];
      var own := OfMeter(Billable(before), d.tenantId, d.environmentId, d.meter);
      WeightsAreSums(before, p, d);
      if e.billable {
        assert (Billable(before) + [e])[..|Billable(before)|] == Billable(before);
        if KeyOf(e, p) == KeyOf(d, p) {
          KeyNamesItsParts(e, d, p);
          SumAppend(own, e);
        }
      }
    }
  }

  /** Each rollup holds exactly the billable events of its own tenant, environment and meter. */
  lemma RollupHoldsItsOwn(lt: (string, string) -> bool, events: seq<UsageEnvelope>, p: Period, i: nat)
    requires Readable(events) && PlainIds(events) && i < |Rebuilt(lt, events, p)|
    ensures var r := Rebuilt(lt, events, p)[i];
      var own := OfMeter(Billable(events), r.tenantId, r.environmentId, r.meter);
      && AllReadable(own) && own != []
      && r.quantity == Sum(own) && r.eventCount == |own| && r.period == p
  {
    var keys := SortedKeys(lt, events, p);
    assert keys[i] in keys;
    var d := FirstOf(events, p, keys[i]);
    WeightsAreSums(events, p, d);
    BillableReadable(events);
    OfMeterHolds(Billable(events), d);
  }

  lemma {:induction false} OfMeterHolds(events: seq<UsageEnvelope>, d: UsageEnvelope)
    requires d in events
    ensures d in OfMeter(events, d.tenantId, d.environmentId, d.meter)
    decreases |events|
  {
    var before, last := events[..|events| - 1], events[|events| - 1];
    assert events == before + [last];
    if d != last {
      OfMeterHolds(before, d);
    }
  }

  /** And there is one for every such triple, and not two. */
  lemma OneRollupEach(lt: (string, string) -> bool, events: seq<UsageEnvelope>, p: Period, d: UsageEnvelope)
    requires PlainIds(events) && d in events && d.billable
    ensures exists i :: 0 <= i < |Rebuilt(lt, events, p)| && RollupFor(Rebuilt(lt, events, p)[i], d)
    ensures forall i, j :: 0 <= i < j < |Rebuilt(lt, events, p)| ==>
      !(RollupFor(Rebuilt(lt, events, p)[i], d) && RollupFor(Rebuilt(lt, events, p)[j], d))
  {
    var keys := SortedKeys(lt, events, p);
    KeyOfEvent(events, p, d);
    SameElements(keys, Keys(events, p), KeyOf(d, p));
    var i :| 0 <= i < |keys| && keys[i] == KeyOf(d, p);
    KeyNamesItsParts(FirstOf(events, p, keys[i]), d, p);
    assert RollupFor(Rebuilt(lt, events, p)[i], d);
    KeysDistinct(events, p);
    DistinctByCount(Keys(events, p), keys);
    forall j | 0 <= j < |keys| && RollupFor(Rebuilt(lt, events, p)[j], d) ensures keys[j] == KeyOf(d, p) {
      assert keys[j] in keys;
    }
  }

  predicate RollupFor(r: Rollup, d: UsageEnvelope) {
    r.tenantId == d.tenantId && r.environmentId == d.environmentId && r.meter == d.meter
  }

  lemma OnceIn(a: seq<string>, x: string)
    requires Distinct(a)
    ensures multiset(a)[x] <= 1
  {
    if x in a {
      var i :| 0 <= i < |a| && a[i] == x;
      assert a == a[..i] + [x] + a[i + 1..];
      assert x !in a[..i] && x !in a[i + 1..];
    }
  }

  lemma DistinctByCount(a: seq<string>, b: seq<string>)
    requires Distinct(a) && multiset(a) == multiset(b)
    ensures Distinct(b)
  {
    forall i, j | 0 <= i < j < |b| ensures b[i] != b[j] {
      OnceIn(a, b[j]);
      assert b == b[..j] + [b[j]] + b[j + 1..];
      assert b[i] in b[..j];
      assert multiset(b)[b[j]] == multiset(b[..j])[b[j]] + 1 + multiset(b[j + 1..])[b[j]];
    }
  }

  /** The order of the events does not show in the rollups. */
  lemma RollupsIgnoreOrder(lt: (string, string) -> bool, a: seq<UsageEnvelope>, b: seq<UsageEnvelope>, p: Period)
    requires StrictOrder(lt) && multiset(a) == multiset(b) && PlainIds(a) && PlainIds(b)
    ensures Rebuilt(lt, a, p) == Rebuilt(lt, b, p)
  {
    var ka, kb := SortedKeys(lt, a, p), SortedKeys(lt, b, p);
    forall k ensures k in ka <==> k in kb {
      SameElements(ka, Keys(a, p), k);
      SameElements(kb, Keys(b, p), k);
      if k in ka { KeysOfSameEvents(a, b, p, k); }
      if k in kb { KeysOfSameEvents(b, a, p, k); }
    }
    KeysDistinct(a, p);
    KeysDistinct(b, p);
    SortAscends(lt, Keys(a, p));
    SortAscends(lt, Keys(b, p));
    AscendingUnique(lt, ka, kb);
    forall i | 0 <= i < |ka| ensures RollupOf(a, p, ka[i]) == RollupOf(b, p, ka[i]) {
      assert ka[i] in ka && kb[i] in kb;
      SameRollup(a, b, p, ka[i]);
    }
  }

  /** End to end: reordering deliveries or repeating them, as at-least-once delivery does, gives
      the same rollups. */
  lemma RedeliveredRollups(lt: (string, string) -> bool, known: string -> bool, a: seq<Option<UsageEnvelope>>,
                           b: seq<Option<UsageEnvelope>>, p: Period)
    requires StrictOrder(lt) && KeysIdentify(known, a, b)
    requires forall e :: Delivered(known, a, e) <==> Delivered(known, b, e)
    requires PlainIds(Rows(known, a)) && PlainIds(Rows(known, b))
    ensures Rebuilt(lt, Rows(known, a), p) == Rebuilt(lt, Rows(known, b), p)
  {
    RedeliveryChangesNothing(known, a, b);
    RollupsIgnoreOrder(lt, Rows(known, a), Rows(known, b), p);
  }
}
