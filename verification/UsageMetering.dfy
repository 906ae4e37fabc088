/** Usage metering: the deduplicating stream consumer, the rollup builder and the reconciler. */
module UsageMetering {
  import opened JsText
  import opened Options

  /** quantity is what BigInt makes of the text, if it accepts it; rest is what no step reads. */
  datatype UsageEnvelope = UsageEnvelope(tenantId: string, environmentId: string, meter: string, quantity: Option<int>,
                                         dedupeKey: string, billable: bool, rest: string)

  // ---- StreamConsumer.ts

  /** Rejected: the schema or the meter registry throws. */
  datatype Consumed = Rejected | Duplicate | Accepted

  function KeyText(tenantId: string, dedupeKey: string): string {
    tenantId + ":" + dedupeKey
  }

  function SeenKey(e: UsageEnvelope): string {
    KeyText(e.tenantId, e.dedupeKey)
  }

  predicate Acceptable(known: string -> bool, raw: Option<UsageEnvelope>) {
    raw.Some? && known(raw.value.meter)
  }

  /** The rows after a list of deliveries. */
  function Rows(known: string -> bool, deliveries: seq<Option<UsageEnvelope>>): seq<UsageEnvelope> {
    if deliveries == [] then []
    else
      var raw, rows := deliveries[|deliveries| - 1], Rows(known, deliveries[..|deliveries| - 1]);
      if Acceptable(known, raw) && SeenKey(raw.value) !in Seen(rows) then rows + [raw.value] else rows
  }

  function Seen(rows: seq<UsageEnvelope>): set<string> {
    set e | e in rows :: SeenKey(e)
  }

  class StreamConsumer {
    var seen: set<string>
    var rows: seq<UsageEnvelope>
    ghost var deliveries: seq<Option<UsageEnvelope>>
    const known: string -> bool

    ghost predicate Valid()
      reads this
    {
      rows == Rows(known, deliveries) && seen == Seen(rows)
    }

    constructor (known: string -> bool)
      ensures Valid() && this.known == known && deliveries == [] && rows == []
    {
      this.known := known;
      seen, rows, deliveries := {}, [], [];
    }

    /** raw is None when the schema does not accept it. */
    method Consume(raw: Option<UsageEnvelope>) returns (r: Consumed)
      requires Valid()
      modifies this
      ensures Valid() && deliveries == old(deliveries) + [raw]
      ensures r == if !Acceptable(known, raw) then Rejected
                   else if SeenKey(raw.value) in Seen(old(rows)) then Duplicate else Accepted
      ensures rows == if r == Accepted then old(rows) + [raw.value] else old(rows)
    {
      assert (deliveries + [raw])[..|deliveries|] == deliveries;
      deliveries := deliveries + [raw];
      if raw.None? || !known(raw.value.meter) {
        return Rejected;
      }
      var env := raw.value;
      var key := SeenKey(env);
      if key in seen {
        return Duplicate;
      }
      seen := seen + {key};
      rows := rows + [env];
      return Accepted;
    }
  }

  predicate DistinctSeenKeys(rows: seq<UsageEnvelope>) {
    forall i, j :: 0 <= i < j < |rows| ==> SeenKey(rows[i]) != SeenKey(rows[j])
  }

  ghost predicate Delivered(known: string -> bool, deliveries: seq<Option<UsageEnvelope>>, e: UsageEnvelope) {
    known(e.meter) && Some(e) in deliveries
  }

  /** Rows are deliveries, one per key, and every acceptable delivery's key is among them. */
  lemma {:induction false} RowsFacts(known: string -> bool, deliveries: seq<Option<UsageEnvelope>>)
    ensures DistinctSeenKeys(Rows(known, deliveries))
    ensures forall e :: e in Rows(known, deliveries) ==> Delivered(known, deliveries, e)
    ensures forall e :: Delivered(known, deliveries, e) ==> SeenKey(e) in Seen(Rows(known, deliveries))
  {
    if deliveries != [] {
      var raw, before := deliveries[|deliveries| - 1], deliveries[..|deliveries| - 1];
      RowsFacts(known, before);
      assert deliveries == before + [raw];
      var rows := Rows(known, before);
      assert forall i :: 0 <= i < |rows| ==> SeenKey(rows[i]) in Seen(rows);
      assert Seen(rows) <= Seen(Rows(known, deliveries));
    }
  }

  /** A producer reuses a key only to send the same event again. */
  ghost predicate KeysIdentify(known: string -> bool, a: seq<Option<UsageEnvelope>>, b: seq<Option<UsageEnvelope>>) {
    forall d, e :: Delivered(known, a + b, d) && Delivered(known, a + b, e) && SeenKey(d) == SeenKey(e) ==> d == e
  }

  lemma RowsAreTheDelivered(known: string -> bool, a: seq<Option<UsageEnvelope>>, b: seq<Option<UsageEnvelope>>, e: UsageEnvelope)
    requires KeysIdentify(known, a, b)
    ensures e in Rows(known, a) <==> Delivered(known, a, e)
    ensures e in Rows(known, b) <==> Delivered(known, b, e)
  {
    RowsFacts(known, a);
    RowsFacts(known, b);
    if Delivered(known, a, e) {
      var d :| d in Rows(known, a) && SeenKey(d) == SeenKey(e);
      assert Delivered(known, a + b, d) && Delivered(known, a + b, e);
    }
    if Delivered(known, b, e) {
      var d :| d in Rows(known, b) && SeenKey(d) == SeenKey(e);
      assert Delivered(known, a + b, d) && Delivered(known, a + b, e);
    }
  }

  lemma {:induction false} DistinctMultiset(rows: seq<UsageEnvelope>, e: UsageEnvelope)
    requires DistinctSeenKeys(rows)
    ensures multiset(rows)[e] == if e in rows then 1 else 0
  {
    if rows != [] {
      DistinctMultiset(rows[1..], e);
      assert rows == [rows[0]] + rows[1..];
      if e == rows[0] {
        assert forall j :: 0 <= j < |rows[1..]| ==> rows[1..][j] != e;
      }
    }
  }

  /** At least once, in any order, comes to exactly once: two lists that deliver the same events
      leave the same rows up to order, however often each event is repeated. */
  lemma RedeliveryChangesNothing(known: string -> bool, a: seq<Option<UsageEnvelope>>, b: seq<Option<UsageEnvelope>>)
    requires KeysIdentify(known, a, b)
    requires forall e :: Delivered(known, a, e) <==> Delivered(known, b, e)
    ensures multiset(Rows(known, a)) == multiset(Rows(known, b))
  {
    RowsFacts(known, a);
    RowsFacts(known, b);
    forall e ensures multiset(Rows(known, a))[e] == multiset(Rows(known, b))[e] {
      RowsAreTheDelivered(known, a, b, e);
      DistinctMultiset(Rows(known, a), e);
      DistinctMultiset(Rows(known, b), e);
    }
  }

  // ---- tenants

  predicate NoColon(s: string) {
    ':' !in s
  }

  /** Keys of tenants whose ids hold no colon are the same exactly for the same tenant and key. */
  lemma KeyTextTells(tenant1: string, key1: string, tenant2: string, key2: string)
    requires NoColon(tenant1) && NoColon(tenant2)
    ensures KeyText(tenant1, key1) == KeyText(tenant2, key2) <==> tenant1 == tenant2 && key1 == key2
  {
    if KeyText(tenant1, key1) == KeyText(tenant2, key2) {
      CutOnce(tenant1, key1, tenant2, key2, ':');
    }
  }

  lemma AtTheColon(s: string) returns (p: string, q: string)
    requires !NoColon(s)
    ensures s == p + ":" + q
  {
    var i :| 0 <= i < |s| && s[i] == ':';
    p, q := s[..i], s[i + 1..];
  }

  ghost predicate KeyIsShared(tenantId: string, dedupeKey: string) {
    exists t, k :: (t, k) != (tenantId, dedupeKey) && KeyText(t, k) == KeyText(tenantId, dedupeKey)
  }

  lemma ColonSharesKey(tenantId: string, dedupeKey: string)
    requires !NoColon(tenantId) || !NoColon(dedupeKey)
    ensures KeyIsShared(tenantId, dedupeKey)
  {
    if !NoColon(tenantId) {
      var p, q := AtTheColon(tenantId);
      assert KeyText(p, q + ":" + dedupeKey) == KeyText(tenantId, dedupeKey);
      assert |p| < |tenantId|;
    } else {
      var p, q := AtTheColon(dedupeKey);
      assert KeyText(tenantId + ":" + p, q) == KeyText(tenantId, dedupeKey);
      assert |q| < |dedupeKey|;
    }
  }

  /** Another tenant or key can have the same text exactly when there is a colon in one of them. */
  lemma KeyIsSharedIffColon(tenantId: string, dedupeKey: string)
    ensures KeyIsShared(tenantId, dedupeKey) <==> !NoColon(tenantId) || !NoColon(dedupeKey)
  {
    if !NoColon(tenantId) || !NoColon(dedupeKey) {
      ColonSharesKey(tenantId, dedupeKey);
    } else {
      forall t, k | KeyText(t, k) == KeyText(tenantId, dedupeKey) ensures (t, k) == (tenantId, dedupeKey) {
        var n := |tenantId|;
        assert KeyText(tenantId, dedupeKey)[n] == ':' && KeyText(t, k)[|t|] == ':';
        assert forall i :: 0 <= i < |KeyText(tenantId, dedupeKey)| && i != n ==> KeyText(tenantId, dedupeKey)[i] != ':' by {
          assert forall i :: 0 <= i < n ==> KeyText(tenantId, dedupeKey)[i] == tenantId[i];
          assert forall i :: n < i < |KeyText(tenantId, dedupeKey)| ==> KeyText(tenantId, dedupeKey)[i] == dedupeKey[i - n - 1];
        }
        assert |t| == n;
        assert t == KeyText(t, k)[..n] == KeyText(tenantId, dedupeKey)[..n] == tenantId;
        assert k == KeyText(t, k)[n + 1..] == KeyText(tenantId, dedupeKey)[n + 1..] == dedupeKey;
      }
    }
  }

  function OfTenant(rows: seq<UsageEnvelope>, tenantId: string): seq<UsageEnvelope> {
    if rows == [] then []
    else
      var last, rest := rows[|rows| - 1], OfTenant(rows[..|rows| - 1], tenantId);
      if last.tenantId == tenantId then rest + [last] else rest
  }

  function DeliveredTo(deliveries: seq<Option<UsageEnvelope>>, tenantId: string): seq<Option<UsageEnvelope>> {
    if deliveries == [] then []
    else
      var last, rest := deliveries[|deliveries| - 1], DeliveredTo(deliveries[..|deliveries| - 1], tenantId);
      if last.Some? && last.value.tenantId == tenantId then rest + [last] else rest
  }

  predicate PlainTenants(deliveries: seq<Option<UsageEnvelope>>) {
    forall i :: 0 <= i < |deliveries| && deliveries[i].Some? ==> NoColon(deliveries[i].value.tenantId)
  }

  lemma OfTenantAppend(rows: seq<UsageEnvelope>, e: UsageEnvelope, tenantId: string)
    ensures OfTenant(rows + [e], tenantId) == OfTenant(rows, tenantId) + if e.tenantId == tenantId then [e] else []
  {
    assert (rows + [e])[..|rows|] == rows;
    assert OfTenant(rows, tenantId) + [] == OfTenant(rows, tenantId);
  }

  lemma {:induction false} OfTenantMembers(rows: seq<UsageEnvelope>, tenantId: string)
    ensures forall e :: e in OfTenant(rows, tenantId) <==> e in rows && e.tenantId == tenantId
  {
    if rows != [] {
      OfTenantMembers(rows[..|rows| - 1], tenantId);
      assert rows == rows[..|rows| - 1] + [rows[|rows| - 1]];
    }
  }

  lemma OwnKeySeen(rows: seq<UsageEnvelope>, e: UsageEnvelope)
    requires NoColon(e.tenantId) && forall d :: d in rows ==> NoColon(d.tenantId)
    ensures SeenKey(e) in Seen(OfTenant(rows, e.tenantId)) <==> SeenKey(e) in Seen(rows)
  {
    OfTenantMembers(rows, e.tenantId);
    forall d | d in rows ensures SeenKey(d) == SeenKey(e) <==> d.tenantId == e.tenantId && d.dedupeKey == e.dedupeKey {
      KeyTextTells(d.tenantId, d.dedupeKey, e.tenantId, e.dedupeKey);
    }
  }

  /** Tenants never displace each other's events, when their ids hold no colon: what is stored of a
      tenant is what would be stored had only its own events been delivered. */
  lemma {:induction false} TenantsAreApart(known: string -> bool, deliveries: seq<Option<UsageEnvelope>>, tenantId: string)
    requires PlainTenants(deliveries)
    ensures OfTenant(Rows(known, deliveries), tenantId) == Rows(known, DeliveredTo(deliveries, tenantId))
  {
    if deliveries != [] {
      var raw, before := deliveries[|deliveries| - 1], deliveries[..|deliveries| - 1];
      var rows, mine := Rows(known, before), DeliveredTo(before, tenantId);
      TenantsAreApart(known, before, tenantId);
      RowsArePlain(known, before);
      assert (mine + [raw])[..|mine|] == mine;
      if Acceptable(known, raw) {
        OfTenantAppend(rows, raw.value, tenantId);
        OwnKeySeen(rows, raw.value);
      }
    }
  }

  lemma RowsArePlain(known: string -> bool, deliveries: seq<Option<UsageEnvelope>>)
    requires PlainTenants(deliveries)
    ensures forall e :: e in Rows(known, deliveries) ==> NoColon(e.tenantId)
  {
    RowsFacts(known, deliveries);
    forall e | e in Rows(known, deliveries) ensures NoColon(e.tenantId) {
      assert Delivered(known, deliveries, e);
    }
  }
}
