/** The command id both sides of the queue derive for an operation: the API in
    apps/api/src/db/intent-enqueue.ts and the worker in CommandIdentity.kt.
    SHA-256 is a parameter: `sha(x)` stands for the hex text of the digest of `x`. */
module CommandIdentity {
  import opened JsText

  function Take(s: string, n: nat): string {
    if |s| <= n then s else s[..n]
  }

  /** The text that is hashed. */
  function RawIdentity(tenantId: string, operationId: string, semanticVersion: string): string {
    tenantId + "|" + operationId + "|" + semanticVersion
  }

  /** The worker's derivation. */
  function DeriveCommandId(sha: string -> string, tenantId: string, operationId: string, semanticVersion: string): string {
    "cmd_" + Take(sha(RawIdentity(tenantId, operationId, semanticVersion)), 24)
  }

  /** These two texts do not agree on the 24 digits of their digests that are kept. */
  predicate NoCollision(sha: string -> string, x: string, y: string) {
    Take(sha(x), 24) == Take(sha(y), 24) ==> x == y
  }

  /** Command ids are equal exactly when the hashed texts are. */
  lemma SameIdIffSameText(sha: string -> string,
        tenant1: string, operation1: string, version1: string,
        tenant2: string, operation2: string, version2: string)
    requires NoCollision(sha, RawIdentity(tenant1, operation1, version1), RawIdentity(tenant2, operation2, version2))
    ensures DeriveCommandId(sha, tenant1, operation1, version1) == DeriveCommandId(sha, tenant2, operation2, version2)
       <==> RawIdentity(tenant1, operation1, version1) == RawIdentity(tenant2, operation2, version2)
  {
    var kept1 := Take(sha(RawIdentity(tenant1, operation1, version1)), 24);
    var kept2 := Take(sha(RawIdentity(tenant2, operation2, version2)), 24);
    assert ("cmd_" + kept1)[4..] == kept1 && ("cmd_" + kept2)[4..] == kept2;
  }

  lemma RawSplits(tenant: string, operation: string, version: string)
    ensures RawIdentity(tenant, operation, version) == tenant + "|" + (operation + "|" + version)
  {
  }

  lemma SameTextSameParts(t: string, o: string, v: string, tenant: string, operation: string, version: string)
    requires NoBar(t) && NoBar(o) && NoBar(tenant) && NoBar(operation)
    requires RawIdentity(t, o, v) == RawIdentity(tenant, operation, version)
    ensures t == tenant && o == operation && v == version
  {
    RawSplits(t, o, v);
    RawSplits(tenant, operation, version);
    CutOnce(t, o + "|" + v, tenant, operation + "|" + version, '|');
    CutOnce(o, v, operation, version, '|');
  }

  /** Distinct operations never share a command id, provided tenant and operation
      ids contain no bar. The version, which comes last, may contain anything. */
  lemma DistinctOperationsDistinctIds(sha: string -> string,
        tenant1: string, operation1: string, version1: string,
        tenant2: string, operation2: string, version2: string)
    requires NoCollision(sha, RawIdentity(tenant1, operation1, version1), RawIdentity(tenant2, operation2, version2))
    requires NoBar(tenant1) && NoBar(operation1) && NoBar(tenant2) && NoBar(operation2)
    ensures DeriveCommandId(sha, tenant1, operation1, version1) == DeriveCommandId(sha, tenant2, operation2, version2)
       <==> tenant1 == tenant2 && operation1 == operation2 && version1 == version2
  {
    SameIdIffSameText(sha, tenant1, operation1, version1, tenant2, operation2, version2);
    if RawIdentity(tenant1, operation1, version1) == RawIdentity(tenant2, operation2, version2) {
      SameTextSameParts(tenant1, operation1, version1, tenant2, operation2, version2);
    }
  }

  // ---- when a derivation is ambiguous

  function Bars(s: string): nat {
    if s == "" then 0 else (if s[0] == '|' then 1 else 0) + Bars(s[1..])
  }

  lemma {:induction false} BarsAdd(a: string, b: string)
    ensures Bars(a + b) == Bars(a) + Bars(b)
    decreases |a|
  {
    if a == "" {
      assert a + b == b;
    } else {
      assert (a + b)[0] == a[0] && (a + b)[1..] == a[1..] + b;
      BarsAdd(a[1..], b);
    }
  }

  lemma {:induction false} NoBarsIffNoBar(s: string)
    ensures Bars(s) == 0 <==> NoBar(s)
    decreases |s|
  {
    if s != "" {
      NoBarsIffNoBar(s[1..]);
      assert s == [s[0]] + s[1..];
    }
  }

  lemma BarsOfRaw(tenant: string, operation: string, version: string)
    ensures Bars(RawIdentity(tenant, operation, version)) == Bars(tenant) + Bars(operation) + Bars(version) + 2
  {
    var bar := "|";
    assert bar[1..] == "" && Bars(bar) == 1;
    RawSplits(tenant, operation, version);
    BarsAdd(operation + bar, version);
    BarsAdd(operation, bar);
    BarsAdd(tenant + bar, operation + bar + version);
    BarsAdd(tenant, bar);
  }

  /** Some other operation of some tenant and version is hashed as the same text. */
  ghost predicate Ambiguous(tenant: string, operation: string, version: string) {
    exists t, o, v :: (t, o, v) != (tenant, operation, version) && RawIdentity(t, o, v) == RawIdentity(tenant, operation, version)
  }

  /** The same, with the version fixed. */
  ghost predicate AmbiguousAt(tenant: string, operation: string, version: string) {
    exists t, o :: (t, o) != (tenant, operation) && RawIdentity(t, o, version) == RawIdentity(tenant, operation, version)
  }

  lemma BarInTenantMoves(p: string, q: string, operation: string, version: string)
    ensures RawIdentity(p, q + "|" + operation, version) == RawIdentity(p + "|" + q, operation, version)
  {
  }

  lemma BarInOperationMoves(tenant: string, p: string, q: string, version: string)
    ensures RawIdentity(tenant + "|" + p, q, version) == RawIdentity(tenant, p + "|" + q, version)
  {
  }

  lemma BarInVersionMoves(tenant: string, operation: string, p: string, q: string)
    ensures RawIdentity(tenant, operation + "|" + p, q) == RawIdentity(tenant, operation, p + "|" + q)
  {
  }

  lemma AtTheBar(s: string) returns (p: string, q: string)
    requires !NoBar(s)
    ensures s == p + "|" + q
  {
    var i :| 0 <= i < |s| && s[i] == '|';
    p, q := s[..i], s[i + 1..];
  }

  lemma BarMakesAmbiguousAt(tenant: string, operation: string, version: string)
    requires !NoBar(tenant) || !NoBar(operation)
    ensures AmbiguousAt(tenant, operation, version)
  {
    if !NoBar(tenant) {
      var p, q := AtTheBar(tenant);
      BarInTenantMoves(p, q, operation, version);
      assert |p| < |tenant|;
      assert (p, q + "|" + operation) != (tenant, operation);
    } else {
      var p, q := AtTheBar(operation);
      BarInOperationMoves(tenant, p, q, version);
      assert |q| < |operation|;
      assert (tenant + "|" + p, q) != (tenant, operation);
    }
  }

  /** Exactly when an operation can be confused with another of the same version: a bar in its
      tenant or its own id. */
  lemma AmbiguousAtIffBar(tenant: string, operation: string, version: string)
    ensures AmbiguousAt(tenant, operation, version) <==> !NoBar(tenant) || !NoBar(operation)
  {
    if !NoBar(tenant) || !NoBar(operation) {
      BarMakesAmbiguousAt(tenant, operation, version);
    } else {
      forall t, o | RawIdentity(t, o, version) == RawIdentity(tenant, operation, version) ensures (t, o) == (tenant, operation) {
        BarsOfRaw(t, o, version);
        BarsOfRaw(tenant, operation, version);
        NoBarsIffNoBar(tenant);
        NoBarsIffNoBar(operation);
        NoBarsIffNoBar(t);
        NoBarsIffNoBar(o);
        SameTextSameParts(t, o, version, tenant, operation, version);
      }
    }
  }

  /** Exactly when it can be confused with any other: a bar anywhere. */
  lemma AmbiguousIffBar(tenant: string, operation: string, version: string)
    ensures Ambiguous(tenant, operation, version) <==> !NoBar(tenant) || !NoBar(operation) || !NoBar(version)
  {
    if !NoBar(tenant) || !NoBar(operation) {
      BarMakesAmbiguousAt(tenant, operation, version);
      var t, o :| (t, o) != (tenant, operation) && RawIdentity(t, o, version) == RawIdentity(tenant, operation, version);
      assert (t, o, version) != (tenant, operation, version);
    } else if !NoBar(version) {
      var p, q := AtTheBar(version);
      BarInVersionMoves(tenant, operation, p, q);
      assert |q| < |version|;
      assert (tenant, operation + "|" + p, q) != (tenant, operation, version);
    } else {
      forall t, o, v | RawIdentity(t, o, v) == RawIdentity(tenant, operation, version)
        ensures (t, o, v) == (tenant, operation, version)
      {
        BarsOfRaw(t, o, v);
        BarsOfRaw(tenant, operation, version);
        NoBarsIffNoBar(tenant);
        NoBarsIffNoBar(operation);
        NoBarsIffNoBar(version);
        NoBarsIffNoBar(t);
        NoBarsIffNoBar(o);
        SameTextSameParts(t, o, v, tenant, operation, version);
      }
    }
  }

  /** Whatever the digest, an ambiguous operation does share its command id. */
  lemma AmbiguousSharesItsId(sha: string -> string, tenant: string, operation: string, version: string)
    requires !NoBar(tenant) || !NoBar(operation)
    ensures exists t, o :: (t, o) != (tenant, operation) && DeriveCommandId(sha, t, o, version) == DeriveCommandId(sha, tenant, operation, version)
  {
    AmbiguousAtIffBar(tenant, operation, version);
    var t, o :| (t, o) != (tenant, operation) && RawIdentity(t, o, version) == RawIdentity(tenant, operation, version);
    assert DeriveCommandId(sha, t, o, version) == DeriveCommandId(sha, tenant, operation, version);
  }
}
