/** The projection worker's parts: the balance projector, the fenced checkpoint repository
    and the resumable update stream. */
module Projection {

  datatype BalanceKey = BalanceKey(tenantId: string, accountId: string, assetId: string)

  datatype Deltas = Deltas(available: int, pending: int, reserved: int, settled: int)

  datatype BalanceRow = BalanceRow(available: int, pending: int, reserved: int, settled: int, offset: int)

  /** Only balance effects reach the balance projector. */
  datatype Effect = Balance(key: BalanceKey, deltas: Deltas) | Operation(operationId: string)

  /** `id` tells updates apart, also those that share an offset. */
  datatype LedgerUpdate = LedgerUpdate(id: string, offset: int, recordTime: int, effects: seq<Effect>)

  /** Each effect is applied under an id of its own. */
  datatype EffectId = EffectId(update: string, index: nat)

  predicate FitsLong(x: int) {
    -0x8000_0000_0000_0000 <= x < 0x8000_0000_0000_0000
  }

  /** 64-bit two's complement, the arithmetic of Long: the number of that width that is
      congruent to the exact one. */
  function Wrap(x: int): (r: int)
    ensures FitsLong(r) && (x - r) % 0x1_0000_0000_0000_0000 == 0
    ensures FitsLong(x) ==> r == x
  {
    (x + 0x8000_0000_0000_0000) % 0x1_0000_0000_0000_0000 - 0x8000_0000_0000_0000
  }

  lemma WrapAbsorbs(a: int, b: int)
    ensures Wrap(Wrap(a) + b) == Wrap(a + b)
  {
    var m := 0x1_0000_0000_0000_0000;
    var q := (a + 0x8000_0000_0000_0000) / m;
    assert Wrap(a) == a - q * m;
    ModShift(a + b + 0x8000_0000_0000_0000, q, m);
  }

  lemma ModShift(x: int, q: int, m: int)
    requires m == 0x1_0000_0000_0000_0000
    ensures (x - q * m) % m == x % m
  {
  }

  const ZERO_ROW := BalanceRow(0, 0, 0, 0, 0)

  function Max(a: int, b: int): (r: int)
    ensures r >= a && r >= b && (r == a || r == b)
  {
    if a < b then b else a
  }

  function AddToRow(r: BalanceRow, d: Deltas, offset: int): BalanceRow {
    BalanceRow(Wrap(r.available + d.available), Wrap(r.pending + d.pending), Wrap(r.reserved + d.reserved),
               Wrap(r.settled + d.settled), Max(r.offset, offset))
  }

  /** What a projector holds: its rows and the ids it has seen. */
  datatype Table = Table(rows: map<BalanceKey, BalanceRow>, seen: set<EffectId>)

  function Apply(t: Table, id: EffectId, key: BalanceKey, deltas: Deltas, offset: int): Table {
    if id in t.seen then t
    else
      var row := if key in t.rows then t.rows[key] else ZERO_ROW;
      Table(t.rows[key := AddToRow(row, deltas, offset)], t.seen + {id})
  }

  class BalanceProjector {
    var rows: map<BalanceKey, BalanceRow>
    var seen: set<EffectId>

    ghost function View(): Table
      reads this
    {
      Table(rows, seen)
    }

    constructor ()
      ensures View() == Table(map[], {})
    {
      rows, seen := map[], {};
    }

    method ApplyDelta(id: EffectId, key: BalanceKey, deltas: Deltas, offset: int)
      modifies this
      ensures View() == Apply(old(View()), id, key, deltas, offset)
    {
      if id in seen {
        return;
      }
      seen := seen + {id};
      if key !in rows {
        rows := rows[key := ZERO_ROW];
      }
      var r := rows[key];
      rows := rows[key := BalanceRow(Wrap(r.available + deltas.available), Wrap(r.pending + deltas.pending),
                                     Wrap(r.reserved + deltas.reserved), Wrap(r.settled + deltas.settled), Max(r.offset, offset))];
    }

    /** The write of one update, up to effect `k`; anything after it throws. */
    method ApplyUpdate(u: LedgerUpdate, k: nat)
      requires k <= |u.effects|
      modifies this
      ensures View() == ApplyEffects(old(View()), u, k)
    {
      for i := 0 to k
        invariant View() == ApplyEffects(old(View()), u, i)
      {
        if u.effects[i].Balance? {
          ApplyDelta(EffectId(u.id, i), u.effects[i].key, u.effects[i].deltas, u.offset);
        }
      }
    }
  }

  function ApplyOne(t: Table, u: LedgerUpdate, i: nat): Table
    requires i < |u.effects|
  {
    match u.effects[i]
    case Balance(key, deltas) => Apply(t, EffectId(u.id, i), key, deltas, u.offset)
    case Operation(_) => t
  }

  function ApplyEffects(t: Table, u: LedgerUpdate, k: nat): Table
    requires k <= |u.effects|
  {
    if k == 0 then t else ApplyOne(ApplyEffects(t, u, k - 1), u, k - 1)
  }

  // ---- checkpoints

  datatype Checkpoint = Checkpoint(appliedOffset: int, fencingToken: int, lastRecordTime: int)

  const FRESH_CHECKPOINT := Checkpoint(0, 0, 0)

  function Get(checkpoints: map<string, Checkpoint>, projector: string): Checkpoint {
    if projector in checkpoints then checkpoints[projector] else FRESH_CHECKPOINT
  }

  function Advanced(c: Checkpoint, offset: int, recordTime: int): Checkpoint {
    Checkpoint(Max(c.appliedOffset, offset), c.fencingToken, recordTime)
  }

  datatype AdvanceResult = Done | StaleToken | WriteFailed

  class CheckpointRepository {
    var checkpoints: map<string, Checkpoint>

    constructor ()
      ensures checkpoints == map[]
    {
      checkpoints := map[];
    }

    method Acquire(projector: string) returns (token: int)
      modifies this
      ensures token == Get(old(checkpoints), projector).fencingToken + 1
      ensures checkpoints == old(checkpoints)[projector := Get(old(checkpoints), projector).(fencingToken := token)]
    {
      if projector !in checkpoints {
        checkpoints := checkpoints[projector := FRESH_CHECKPOINT];
      }
      var c := checkpoints[projector];
      checkpoints := checkpoints[projector := c.(fencingToken := c.fencingToken + 1)];
      token := checkpoints[projector].fencingToken;
    }

    /** `write` is the projector's write of `u`, which throws before effect `k` if `k` is not the last. */
    method AdvanceInTransaction(projector: string, token: int, u: LedgerUpdate, balances: BalanceProjector, k: nat)
      returns (r: AdvanceResult)
      requires k <= |u.effects| && balances as object != this
      modifies this, balances
      ensures forall p :: p != projector ==> Get(checkpoints, p) == Get(old(checkpoints), p)
      ensures r.StaleToken? <==> Get(old(checkpoints), projector).fencingToken != token
      ensures r.StaleToken? ==> balances.View() == old(balances.View()) && Get(checkpoints, projector) == Get(old(checkpoints), projector)
      ensures !r.StaleToken? ==> balances.View() == ApplyEffects(old(balances.View()), u, k)
      ensures !r.StaleToken? ==> (r.Done? <==> k == |u.effects|)
      ensures r.Done? ==> Get(checkpoints, projector) == Advanced(Get(old(checkpoints), projector), u.offset, u.recordTime)
      ensures r.Done? ==> Get(checkpoints, projector).fencingToken == token && Get(checkpoints, projector).lastRecordTime == u.recordTime
      ensures r.WriteFailed? ==> Get(checkpoints, projector) == Get(old(checkpoints), projector)
    {
      if projector !in checkpoints {
        checkpoints := checkpoints[projector := FRESH_CHECKPOINT];
      }
      var c := checkpoints[projector];
      if c.fencingToken != token {
        return StaleToken;
      }
      balances.ApplyUpdate(u, k);
      if k < |u.effects| {
        return WriteFailed;
      }
      checkpoints := checkpoints[projector := Checkpoint(Max(c.appliedOffset, u.offset), c.fencingToken, u.recordTime)];
      r := Done;
    }
  }

  // ---- the update stream

  function After(updates: seq<LedgerUpdate>, offset: int): seq<LedgerUpdate> {
    if updates == [] then []
    else if updates[0].offset > offset then [updates[0]] + After(updates[1..], offset)
    else After(updates[1..], offset)
  }

  function Insert(u: LedgerUpdate, s: seq<LedgerUpdate>): seq<LedgerUpdate> {
    if s == [] || u.offset <= s[0].offset then [u] + s else [s[0]] + Insert(u, s[1..])
  }

  function SortByOffset(s: seq<LedgerUpdate>): seq<LedgerUpdate> {
    if s == [] then [] else Insert(s[0], SortByOffset(s[1..]))
  }

  function Resume(updates: seq<LedgerUpdate>, afterOffset: int): seq<LedgerUpdate> {
    SortByOffset(After(updates, afterOffset))
  }

  ghost predicate Ascending(s: seq<LedgerUpdate>) {
    forall i, j :: 0 <= i < j < |s| ==> s[i].offset <= s[j].offset
  }

  lemma {:induction false} InsertCounts(u: LedgerUpdate, s: seq<LedgerUpdate>)
    ensures multiset(Insert(u, s)) == multiset(s) + multiset{u}
    decreases |s|
  {
    if s != [] && !(u.offset <= s[0].offset) {
      InsertCounts(u, s[1..]);
      assert s == [s[0]] + s[1..];
    }
  }

  lemma {:induction false} InsertAscends(u: LedgerUpdate, s: seq<LedgerUpdate>, low: int)
    requires Ascending(s) && low <= u.offset && forall i :: 0 <= i < |s| ==> low <= s[i].offset
    ensures Ascending(Insert(u, s)) && forall i :: 0 <= i < |Insert(u, s)| ==> low <= Insert(u, s)[i].offset
    decreases |s|
  {
    if s != [] && !(u.offset <= s[0].offset) {
      InsertAscends(u, s[1..], s[0].offset);
    }
  }

  lemma InsertFacts(u: LedgerUpdate, s: seq<LedgerUpdate>)
    requires Ascending(s)
    ensures Ascending(Insert(u, s))
    ensures multiset(Insert(u, s)) == multiset(s) + multiset{u}
  {
    InsertCounts(u, s);
    InsertAscends(u, s, if s == [] || u.offset <= s[0].offset then u.offset else s[0].offset);
  }

  lemma {:induction false} SortFacts(s: seq<LedgerUpdate>)
    ensures Ascending(SortByOffset(s))
    ensures multiset(SortByOffset(s)) == multiset(s)
  {
    if s != [] {
      SortFacts(s[1..]);
      InsertFacts(s[0], SortByOffset(s[1..]));
      assert s == [s[0]] + s[1..];
    }
  }

  lemma AfterCounts(updates: seq<LedgerUpdate>, offset: int, u: LedgerUpdate)
    ensures multiset(After(updates, offset))[u] == if u.offset > offset then multiset(updates)[u] else 0
  {
    if updates != [] {
      AfterCounts(updates[1..], offset, u);
      assert updates == [updates[0]] + updates[1..];
    }
  }

  /** `resume` yields exactly the updates beyond the offset, each as often, in offset order. */
  lemma ResumeIsTheRest(updates: seq<LedgerUpdate>, afterOffset: int)
    ensures Ascending(Resume(updates, afterOffset))
    ensures forall u :: multiset(Resume(updates, afterOffset))[u] == if u.offset > afterOffset then multiset(updates)[u] else 0
    ensures forall u :: u in Resume(updates, afterOffset) <==> u in updates && u.offset > afterOffset
  {
    SortFacts(After(updates, afterOffset));
    forall u ensures multiset(Resume(updates, afterOffset))[u] == if u.offset > afterOffset then multiset(updates)[u] else 0
    {
      AfterCounts(updates, afterOffset, u);
    }
    forall u ensures u in Resume(updates, afterOffset) <==> u in updates && u.offset > afterOffset {
      assert u in Resume(updates, afterOffset) <==> u in multiset(Resume(updates, afterOffset));
      assert u in updates <==> u in multiset(updates);
    }
  }

  // ---- updates that share an offset

  predicate HasBalance(u: LedgerUpdate) {
    exists i :: 0 <= i < |u.effects| && u.effects[i].Balance?
  }

  /** Of updates that share an offset only the first may have balance effects. */
  ghost predicate BalanceFirst(s: seq<LedgerUpdate>) {
    forall i, j :: 0 <= i < j < |s| && s[i].offset == s[j].offset ==> !HasBalance(s[j])
  }

  /** Insertion is stable: the update goes before those of its own offset. */
  lemma {:induction false} InsertSplits(u: LedgerUpdate, s: seq<LedgerUpdate>) returns (m: nat)
    requires Ascending(s)
    ensures m <= |s| && Insert(u, s) == s[..m] + [u] + s[m..]
    ensures forall x :: 0 <= x < m ==> s[x].offset < u.offset
    ensures forall x :: m <= x < |s| ==> u.offset <= s[x].offset
    decreases |s|
  {
    if s == [] || u.offset <= s[0].offset {
      m := 0;
    } else {
      var k := InsertSplits(u, s[1..]);
      m := k + 1;
      assert s[..m] == [s[0]] + s[1..][..k] && s[m..] == s[1..][k..];
      assert forall x :: 1 <= x < |s| ==> s[x] == s[1..][x - 1];
    }
  }

  lemma InsertKeepsBalanceFirst(u: LedgerUpdate, s: seq<LedgerUpdate>)
    requires Ascending(s) && BalanceFirst(s)
    requires forall x :: 0 <= x < |s| && s[x].offset == u.offset ==> !HasBalance(s[x])
    ensures BalanceFirst(Insert(u, s))
  {
    var m := InsertSplits(u, s);
    var r := Insert(u, s);
    assert forall x :: 0 <= x < m ==> r[x] == s[x];
    assert r[m] == u;
    assert forall x :: m < x < |r| ==> r[x] == s[x - 1];
  }

  lemma {:induction false} SortKeepsBalanceFirst(s: seq<LedgerUpdate>)
    requires BalanceFirst(s)
    ensures BalanceFirst(SortByOffset(s))
    decreases |s|
  {
    if s != [] {
      var rest := SortByOffset(s[1..]);
      SortKeepsBalanceFirst(s[1..]);
      SortFacts(s[1..]);
      forall x | 0 <= x < |rest| && rest[x].offset == s[0].offset ensures !HasBalance(rest[x]) {
        assert rest[x] in multiset(rest);
        assert rest[x] in s[1..];
        var y :| 0 <= y < |s[1..]| && s[1..][y] == rest[x];
        assert s[y + 1] == rest[x];
      }
      InsertKeepsBalanceFirst(s[0], rest);
    }
  }

  lemma {:induction false} AfterMembers(s: seq<LedgerUpdate>, offset: int)
    ensures forall u :: u in After(s, offset) <==> u in s && u.offset > offset
    decreases |s|
  {
    if s != [] {
      AfterMembers(s[1..], offset);
      assert s == [s[0]] + s[1..];
    }
  }

  lemma {:induction false} AfterKeepsBalanceFirst(s: seq<LedgerUpdate>, offset: int)
    requires BalanceFirst(s)
    ensures BalanceFirst(After(s, offset))
    decreases |s|
  {
    if s != [] {
      AfterKeepsBalanceFirst(s[1..], offset);
      AfterMembers(s[1..], offset);
      var rest := After(s[1..], offset);
      forall x | 0 <= x < |rest| && rest[x].offset == s[0].offset ensures !HasBalance(rest[x]) {
        assert rest[x] in s[1..];
        var y :| 0 <= y < |s[1..]| && s[1..][y] == rest[x];
        assert s[y + 1] == rest[x];
      }
    }
  }

  lemma ResumeKeepsBalanceFirst(s: seq<LedgerUpdate>, offset: int)
    requires BalanceFirst(s)
    ensures BalanceFirst(Resume(s, offset))
  {
    AfterKeepsBalanceFirst(s, offset);
    SortKeepsBalanceFirst(After(s, offset));
  }

  ghost predicate DistinctIds(s: seq<LedgerUpdate>) {
    forall i, j :: 0 <= i < j < |s| ==> s[i].id != s[j].id
  }

  lemma {:induction false} DistinctIdsByCount(s: seq<LedgerUpdate>, r: seq<LedgerUpdate>)
    requires DistinctIds(s) && multiset(r) <= multiset(s)
    ensures DistinctIds(r)
  {
    forall i, j | 0 <= i < j < |r| ensures r[i].id != r[j].id {
      assert r == r[..j] + [r[j]] + r[j + 1..];
      assert r[i] in r[..j];
      assert multiset(r)[r[i]] >= 1 && multiset(r)[r[j]] >= 1;
      assert r[i] in multiset(s) && r[j] in multiset(s);
      var x :| 0 <= x < |s| && s[x] == r[i];
      var y :| 0 <= y < |s| && s[y] == r[j];
      if r[i].id == r[j].id {
        assert x == y;
        assert multiset(r)[r[i]] >= 2;
        OneOfEach(s, x);
      }
    }
  }

  lemma OneOfEach(s: seq<LedgerUpdate>, x: nat)
    requires DistinctIds(s) && x < |s|
    ensures multiset(s)[s[x]] == 1
  {
    assert s == s[..x] + [s[x]] + s[x + 1..];
    assert s[x] !in s[..x] && s[x] !in s[x + 1..];
  }

  lemma ResumeKeepsDistinctIds(s: seq<LedgerUpdate>, offset: int)
    requires DistinctIds(s)
    ensures DistinctIds(Resume(s, offset))
  {
    ResumeIsTheRest(s, offset);
    DistinctIdsByCount(s, Resume(s, offset));
  }

  /** Two updates that share an offset are resumed in the order of the stream. */
  lemma {:induction false} AfterKeepsOrder(s: seq<LedgerUpdate>, offset: int, i: nat, j: nat) returns (a: nat, b: nat)
    requires i < j < |s| && s[i].offset > offset && s[j].offset > offset
    ensures a < b < |After(s, offset)| && After(s, offset)[a] == s[i] && After(s, offset)[b] == s[j]
    decreases |s|
  {
    if i > 0 {
      a, b := AfterKeepsOrder(s[1..], offset, i - 1, j - 1);
      if s[0].offset > offset {
        a, b := a + 1, b + 1;
      }
    } else {
      AfterMembers(s[1..], offset);
      assert s[1..][j - 1] == s[j];
      var c :| 0 <= c < |After(s[1..], offset)| && After(s[1..], offset)[c] == s[j];
      a, b := 0, c + 1;
    }
  }

  lemma InsertKeepsPair(u: LedgerUpdate, s: seq<LedgerUpdate>, a: nat, b: nat) returns (a': nat, b': nat)
    requires Ascending(s) && a < b < |s|
    ensures a' < b' < |Insert(u, s)| && Insert(u, s)[a'] == s[a] && Insert(u, s)[b'] == s[b]
  {
    var m := InsertSplits(u, s);
    a', b' := if a < m then a else a + 1, if b < m then b else b + 1;
  }

  lemma InsertGoesBefore(u: LedgerUpdate, s: seq<LedgerUpdate>, b: nat) returns (a': nat, b': nat)
    requires Ascending(s) && b < |s| && u.offset <= s[b].offset
    ensures a' < b' < |Insert(u, s)| && Insert(u, s)[a'] == u && Insert(u, s)[b'] == s[b]
  {
    a' := InsertSplits(u, s);
    b' := b + 1;
  }

  lemma SortedPosition(s: seq<LedgerUpdate>, j: nat) returns (c: nat)
    requires j < |s|
    ensures c < |SortByOffset(s)| && SortByOffset(s)[c] == s[j]
  {
    SortFacts(s);
    assert s[j] in multiset(s);
    assert s[j] in multiset(SortByOffset(s));
    c :| c < |SortByOffset(s)| && SortByOffset(s)[c] == s[j];
  }

  lemma {:induction false} SortKeepsOrder(s: seq<LedgerUpdate>, i: nat, j: nat) returns (a: nat, b: nat)
    requires i < j < |s| && s[i].offset == s[j].offset
    ensures a < b < |SortByOffset(s)| && SortByOffset(s)[a] == s[i] && SortByOffset(s)[b] == s[j]
    decreases |s|
  {
    var u, tail := s[0], s[1..];
    SortFacts(tail);
    if i > 0 {
      var x, y := SortKeepsOrder(tail, i - 1, j - 1);
      a, b := InsertKeepsPair(u, SortByOffset(tail), x, y);
    } else {
      var y := SortedPosition(tail, j - 1);
      a, b := InsertGoesBefore(u, SortByOffset(tail), y);
    }
  }

  lemma ResumeKeepsOrder(s: seq<LedgerUpdate>, offset: int, i: nat, j: nat) returns (a: nat, b: nat)
    requires i < j < |s| && s[i].offset == s[j].offset > offset
    ensures a < b < |Resume(s, offset)| && Resume(s, offset)[a] == s[i] && Resume(s, offset)[b] == s[j]
  {
    var x, y := AfterKeepsOrder(s, offset, i, j);
    a, b := SortKeepsOrder(After(s, offset), x, y);
  }
}
