/** Projection workers that acquire leases, stall, are superseded, fail between effects and
    replay, over one ledger, one checkpoint and one table of balances. */
module ProjectionProtocol {
  import opened Projection

  /** A worker's lease token and the updates it has yet to apply, as `resume` gave them. */
  datatype Worker = Worker(token: int, todo: seq<LedgerUpdate>)

  datatype State = State(ledger: seq<LedgerUpdate>, table: Table, checkpoint: Checkpoint, workers: map<nat, Worker>)

  datatype Action =
    | Append(update: LedgerUpdate)
    | Acquire(w: nat)
    | Load(w: nat)
    | Advance(w: nat, written: nat)
    | Redeliver(position: nat, index: nat)
    | Crash(w: nat)

  predicate FreshId(ledger: seq<LedgerUpdate>, id: string) {
    forall i :: 0 <= i < |ledger| ==> ledger[i].id != id
  }

  /** `Append` adds an update of any offset; `Load` reads the checkpoint and the stream; `Advance` is one `advanceInTransaction`
      whose write throws after `written` effects unless that is all of them; `Redeliver`
      applies any ledger effect once more, in any order. */
  function Step(s: State, a: Action): State {
    match a
    case Append(u) => if FreshId(s.ledger, u.id) then s.(ledger := s.ledger + [u]) else s
    case Acquire(w) =>
      var token := s.checkpoint.fencingToken + 1;
      s.(checkpoint := s.checkpoint.(fencingToken := token), workers := s.workers[w := Worker(token, [])])
    case Load(w) =>
      if w in s.workers then s.(workers := s.workers[w := s.workers[w].(todo := Resume(s.ledger, s.checkpoint.appliedOffset))]) else s
    case Advance(w, written) =>
      if w in s.workers && s.workers[w].todo != [] && written <= |s.workers[w].todo[0].effects| && s.workers[w].token == s.checkpoint.fencingToken
      then AdvanceStep(s, w, written) else s
    case Redeliver(position, index) =>
      if position < |s.ledger| && index < |s.ledger[position].effects| then s.(table := ApplyOne(s.table, s.ledger[position], index)) else s
    case Crash(w) => s.(workers := s.workers - {w})
  }

  function AdvanceStep(s: State, w: nat, written: nat): State
    requires w in s.workers && s.workers[w].todo != [] && written <= |s.workers[w].todo[0].effects|
  {
    var u := s.workers[w].todo[0];
    var s' := s.(table := ApplyEffects(s.table, u, written));
    if written < |u.effects| then s'
    else s'.(checkpoint := Advanced(s.checkpoint, u.offset, u.recordTime),
             workers := s.workers[w := s.workers[w].(todo := s.workers[w].todo[1..])])
  }

  function Run(s: State, actions: seq<Action>): State
    decreases |actions|
  {
    if actions == [] then s else Run(Step(s, actions[0]), actions[1..])
  }

  /** Any ledger whose updates have ids of their own, and nothing done yet. */
  ghost predicate Initial(s: State) {
    DistinctIds(s.ledger) && s.table == Table(map[], {}) && s.checkpoint == FRESH_CHECKPOINT && s.workers == map[]
  }

  // ---- the reference: sums over the ledger of the effects that have been seen

  /** How many effects a key received, the exact sums of their deltas, and the greatest offset. */
  datatype Sum = Sum(hits: nat, available: int, pending: int, reserved: int, settled: int, offset: int)

  function Plus(s: Sum, d: Deltas, offset: int): Sum {
    Sum(s.hits + 1, s.available + d.available, s.pending + d.pending, s.reserved + d.reserved, s.settled + d.settled, Max(s.offset, offset))
  }

  /** The first `k` effects of one update, seen ones only, on top of `base`. */
  function SumUpdate(base: Sum, u: LedgerUpdate, k: nat, seen: set<EffectId>, key: BalanceKey): Sum
    requires k <= |u.effects|
  {
    if k == 0 then base
    else
      var rest := SumUpdate(base, u, k - 1, seen, key);
      var e := u.effects[k - 1];
      if e.Balance? && e.key == key && EffectId(u.id, k - 1) in seen then Plus(rest, e.deltas, u.offset) else rest
  }

  function SumLedger(ledger: seq<LedgerUpdate>, seen: set<EffectId>, key: BalanceKey): Sum {
    if ledger == [] then Sum(0, 0, 0, 0, 0, 0)
    else
      var last := ledger[|ledger| - 1];
      SumUpdate(SumLedger(ledger[..|ledger| - 1], seen, key), last, |last.effects|, seen, key)
  }

  /** The plain fold of the ledger, every effect once. */
  function FoldUpdate(base: Sum, u: LedgerUpdate, k: nat, key: BalanceKey): Sum
    requires k <= |u.effects|
  {
    if k == 0 then base
    else
      var rest := FoldUpdate(base, u, k - 1, key);
      var e := u.effects[k - 1];
      if e.Balance? && e.key == key then Plus(rest, e.deltas, u.offset) else rest
  }

  function FoldLedger(ledger: seq<LedgerUpdate>, key: BalanceKey): Sum {
    if ledger == [] then Sum(0, 0, 0, 0, 0, 0)
    else
      var last := ledger[|ledger| - 1];
      FoldUpdate(FoldLedger(ledger[..|ledger| - 1], key), last, |last.effects|, key)
  }

  /** The row a sum stands for; no row before the first hit. */
  predicate RowIs(rows: map<BalanceKey, BalanceRow>, key: BalanceKey, s: Sum) {
    && (key in rows <==> s.hits > 0)
    && (key in rows ==> rows[key] == BalanceRow(Wrap(s.available), Wrap(s.pending), Wrap(s.reserved), Wrap(s.settled), s.offset))
  }

  // ---- one more effect seen

  lemma UnseenUpdateSum(base: Sum, u: LedgerUpdate, k: nat, seen: set<EffectId>, id: EffectId, key: BalanceKey)
    requires k <= |u.effects| && (id.update != u.id || k <= id.index)
    ensures SumUpdate(base, u, k, seen + {id}, key) == SumUpdate(base, u, k, seen, key)
  {
  }

  /** The sum of an update depends on its base only by addition. */
  predicate SumsShift(a: Sum, b: Sum, d: Deltas, offset: int) {
    b == Plus(a, d, offset)
  }

  lemma ShiftUpdateSum(a: Sum, b: Sum, d: Deltas, offset: int, u: LedgerUpdate, k: nat, seen: set<EffectId>, key: BalanceKey)
    requires k <= |u.effects| && SumsShift(a, b, d, offset)
    ensures SumsShift(SumUpdate(a, u, k, seen, key), SumUpdate(b, u, k, seen, key), d, offset)
  {
  }

  lemma NewEffectInUpdate(base: Sum, u: LedgerUpdate, k: nat, seen: set<EffectId>, i: nat, key: BalanceKey)
    requires i < k <= |u.effects| && EffectId(u.id, i) !in seen && u.effects[i].Balance?
    ensures var id := EffectId(u.id, i);
      var before, after := SumUpdate(base, u, k, seen, key), SumUpdate(base, u, k, seen + {id}, key);
      if u.effects[i].key == key then SumsShift(before, after, u.effects[i].deltas, u.offset) else after == before
  {
    var id := EffectId(u.id, i);
    if i == k - 1 {
      UnseenUpdateSum(base, u, i, seen, id, key);
    } else {
      NewEffectInUpdate(base, u, k - 1, seen, i, key);
    }
  }

  lemma UnseenLedgerSum(ledger: seq<LedgerUpdate>, seen: set<EffectId>, id: EffectId, key: BalanceKey)
    requires forall i :: 0 <= i < |ledger| ==> ledger[i].id != id.update
    ensures SumLedger(ledger, seen + {id}, key) == SumLedger(ledger, seen, key)
  {
    if ledger != [] {
      var last := ledger[|ledger| - 1];
      UnseenLedgerSum(ledger[..|ledger| - 1], seen, id, key);
      UnseenUpdateSum(SumLedger(ledger[..|ledger| - 1], seen, key), last, |last.effects|, seen, id, key);
    }
  }

  /** Seeing one more effect of the ledger adds its deltas to the sum of its own key, and
      changes no other. */
  lemma NewEffectInLedger(ledger: seq<LedgerUpdate>, seen: set<EffectId>, p: nat, i: nat, key: BalanceKey)
    requires DistinctIds(ledger) && p < |ledger| && i < |ledger[p].effects|
    requires EffectId(ledger[p].id, i) !in seen && ledger[p].effects[i].Balance?
    ensures var id := EffectId(ledger[p].id, i);
      var before, after := SumLedger(ledger, seen, key), SumLedger(ledger, seen + {id}, key);
      if ledger[p].effects[i].key == key then SumsShift(before, after, ledger[p].effects[i].deltas, ledger[p].offset) else after == before
  {
    var n := |ledger| - 1;
    var id := EffectId(ledger[p].id, i);
    var last := ledger[n];
    var rest := ledger[..n];
    if p == n {
      UnseenLedgerSum(rest, seen, id, key);
      NewEffectInUpdate(SumLedger(rest, seen, key), last, |last.effects|, seen, i, key);
    } else {
      NewEffectInLedger(rest, seen, p, i, key);
      UnseenUpdateSum(SumLedger(rest, seen + {id}, key), last, |last.effects|, seen, id, key);
      if ledger[p].effects[i].key == key {
        ShiftUpdateSum(SumLedger(rest, seen, key), SumLedger(rest, seen + {id}, key), ledger[p].effects[i].deltas, ledger[p].offset,
                       last, |last.effects|, seen, key);
      }
    }
  }

  // ---- what every run keeps, whatever the offsets

  ghost predicate RowsExact(s: State) {
    forall key :: RowIs(s.table.rows, key, SumLedger(s.ledger, s.table.seen, key))
  }

  /** Only effects of the ledger have been seen. */
  ghost predicate SeenOfLedger(s: State) {
    forall id :: id in s.table.seen ==> exists p :: 0 <= p < |s.ledger| && s.ledger[p].id == id.update
  }

  ghost predicate TodoOfLedger(s: State) {
    forall w, t :: w in s.workers && t in s.workers[w].todo ==> t in s.ledger
  }

  /** Tokens are handed out once. */
  ghost predicate TokensDistinct(s: State) {
    && (forall w :: w in s.workers ==> s.workers[w].token <= s.checkpoint.fencingToken)
    && (forall v, w :: v in s.workers && w in s.workers && s.workers[v].token == s.workers[w].token ==> v == w)
  }

  ghost predicate Inv(s: State) {
    && DistinctIds(s.ledger)
    && RowsExact(s)
    && SeenOfLedger(s)
    && TodoOfLedger(s)
    && TokensDistinct(s)
  }

  lemma InitialInv(s: State)
    requires Initial(s)
    ensures Inv(s)
  {
    forall key ensures RowIs(s.table.rows, key, SumLedger(s.ledger, s.table.seen, key)) {
      NothingSeen(s.ledger, key);
    }
  }

  lemma NothingSeen(ledger: seq<LedgerUpdate>, key: BalanceKey)
    ensures SumLedger(ledger, {}, key) == Sum(0, 0, 0, 0, 0, 0)
  {
    if ledger != [] {
      NothingSeen(ledger[..|ledger| - 1], key);
      NothingSeenInUpdate(ledger[|ledger| - 1], |ledger[|ledger| - 1].effects|, key);
    }
  }

  lemma NothingSeenInUpdate(u: LedgerUpdate, k: nat, key: BalanceKey)
    requires k <= |u.effects|
    ensures SumUpdate(Sum(0, 0, 0, 0, 0, 0), u, k, {}, key) == Sum(0, 0, 0, 0, 0, 0)
  {
  }

  // ---- applying effects

  ghost predicate Applied(u: LedgerUpdate, seen: set<EffectId>) {
    forall i :: 0 <= i < |u.effects| && u.effects[i].Balance? ==> EffectId(u.id, i) in seen
  }

  lemma ApplyOneKeepsRows(s: State, p: nat, i: nat)
    requires DistinctIds(s.ledger) && RowsExact(s) && SeenOfLedger(s) && p < |s.ledger| && i < |s.ledger[p].effects|
    ensures var s' := s.(table := ApplyOne(s.table, s.ledger[p], i));
      RowsExact(s') && SeenOfLedger(s') && s.table.seen <= s'.table.seen
      && (s.ledger[p].effects[i].Balance? ==> EffectId(s.ledger[p].id, i) in s'.table.seen)
  {
    var u := s.ledger[p];
    var e := u.effects[i];
    var id := EffectId(u.id, i);
    var s' := s.(table := ApplyOne(s.table, u, i));
    if e.Balance? && id !in s.table.seen {
      forall key ensures RowIs(s'.table.rows, key, SumLedger(s.ledger, s'.table.seen, key)) {
        NewEffectInLedger(s.ledger, s.table.seen, p, i, key);
        assert RowIs(s.table.rows, key, SumLedger(s.ledger, s.table.seen, key));
        if key == e.key {
          SumHitsZero(s.ledger, s.table.seen, key);
          RowAdds(s.table.rows, key, SumLedger(s.ledger, s.table.seen, key), e.deltas, u.offset);
        }
      }
    }
  }

  lemma RowAdds(rows: map<BalanceKey, BalanceRow>, key: BalanceKey, before: Sum, d: Deltas, offset: int)
    requires RowIs(rows, key, before)
    requires before.hits == 0 ==> before == Sum(0, 0, 0, 0, 0, 0)
    ensures RowIs(rows[key := AddToRow(if key in rows then rows[key] else ZERO_ROW, d, offset)], key, Plus(before, d, offset))
  {
    WrapAbsorbs(before.available, d.available);
    WrapAbsorbs(before.pending, d.pending);
    WrapAbsorbs(before.reserved, d.reserved);
    WrapAbsorbs(before.settled, d.settled);
  }

  lemma SumHitsZero(ledger: seq<LedgerUpdate>, seen: set<EffectId>, key: BalanceKey)
    ensures SumLedger(ledger, seen, key).hits == 0 ==> SumLedger(ledger, seen, key) == Sum(0, 0, 0, 0, 0, 0)
  {
    if ledger != [] {
      var last := ledger[|ledger| - 1];
      SumHitsZero(ledger[..|ledger| - 1], seen, key);
      SumUpdateHits(SumLedger(ledger[..|ledger| - 1], seen, key), last, |last.effects|, seen, key);
    }
  }

  lemma SumUpdateHits(base: Sum, u: LedgerUpdate, k: nat, seen: set<EffectId>, key: BalanceKey)
    requires k <= |u.effects|
    ensures SumUpdate(base, u, k, seen, key).hits >= base.hits
    ensures SumUpdate(base, u, k, seen, key).hits == base.hits ==> SumUpdate(base, u, k, seen, key) == base
  {
  }

  lemma {:induction false} ApplyEffectsKeepsRows(s: State, p: nat, k: nat)
    requires DistinctIds(s.ledger) && RowsExact(s) && SeenOfLedger(s) && p < |s.ledger| && k <= |s.ledger[p].effects|
    ensures var s' := s.(table := ApplyEffects(s.table, s.ledger[p], k));
      RowsExact(s') && SeenOfLedger(s') && s.table.seen <= s'.table.seen
      && (forall i :: 0 <= i < k && s.ledger[p].effects[i].Balance? ==> EffectId(s.ledger[p].id, i) in s'.table.seen)
    decreases k
  {
    if k > 0 {
      ApplyEffectsKeepsRows(s, p, k - 1);
      ApplyOneKeepsRows(s.(table := ApplyEffects(s.table, s.ledger[p], k - 1)), p, k - 1);
    }
  }

  // ---- each action

  lemma AppendKeepsSums(ledger: seq<LedgerUpdate>, u: LedgerUpdate, seen: set<EffectId>, key: BalanceKey)
    requires forall id :: id in seen ==> id.update != u.id
    ensures SumLedger(ledger + [u], seen, key) == SumLedger(ledger, seen, key)
  {
    assert (ledger + [u])[..|ledger|] == ledger;
    UnseenUpdate(SumLedger(ledger, seen, key), u, |u.effects|, seen, key);
  }

  lemma UnseenUpdate(base: Sum, u: LedgerUpdate, k: nat, seen: set<EffectId>, key: BalanceKey)
    requires k <= |u.effects| && forall id :: id in seen ==> id.update != u.id
    ensures SumUpdate(base, u, k, seen, key) == base
  {
  }

  lemma AppendKeepsInv(s: State, u: LedgerUpdate)
    requires Inv(s) && FreshId(s.ledger, u.id)
    ensures Inv(s.(ledger := s.ledger + [u]))
  {
    var s' := s.(ledger := s.ledger + [u]);
    forall key ensures RowIs(s'.table.rows, key, SumLedger(s'.ledger, s'.table.seen, key)) {
      AppendKeepsSums(s.ledger, u, s.table.seen, key);
      assert RowIs(s.table.rows, key, SumLedger(s.ledger, s.table.seen, key));
    }
    forall id | id in s.table.seen ensures exists p :: 0 <= p < |s'.ledger| && s'.ledger[p].id == id.update {
      var p :| 0 <= p < |s.ledger| && s.ledger[p].id == id.update;
      assert s'.ledger[p].id == id.update;
    }
  }

  lemma LoadKeepsInv(s: State, w: nat)
    requires Inv(s)
    ensures Inv(Step(s, Load(w)))
  {
    ResumeIsTheRest(s.ledger, s.checkpoint.appliedOffset);
    assert forall key :: RowIs(s.table.rows, key, SumLedger(s.ledger, s.table.seen, key));
  }

  lemma SameTableKeepsInv(s: State, s': State)
    requires Inv(s) && s'.ledger == s.ledger && s'.table == s.table
    requires TokensDistinct(s') && TodoOfLedger(s')
    ensures Inv(s')
  {
    assert forall key :: RowIs(s.table.rows, key, SumLedger(s.ledger, s.table.seen, key));
  }

  lemma AdvanceKeepsInv(s: State, w: nat, written: nat)
    requires Inv(s) && w in s.workers && s.workers[w].todo != [] && written <= |s.workers[w].todo[0].effects|
    ensures Inv(AdvanceStep(s, w, written))
    ensures s.table.seen <= AdvanceStep(s, w, written).table.seen
    ensures written == |s.workers[w].todo[0].effects| ==> Applied(s.workers[w].todo[0], AdvanceStep(s, w, written).table.seen)
  {
    var u := s.workers[w].todo[0];
    assert u in s.workers[w].todo && u in s.ledger;
    var p :| 0 <= p < |s.ledger| && s.ledger[p] == u;
    ApplyEffectsKeepsRows(s, p, written);
    var mid := s.(table := ApplyEffects(s.table, u, written));
    SameTableKeepsInv(mid, AdvanceStep(s, w, written));
  }

  lemma StepKeepsInv(s: State, a: Action)
    requires Inv(s)
    ensures Inv(Step(s, a))
  {
    match a
    case Append(u) =>
      if FreshId(s.ledger, u.id) {
        AppendKeepsInv(s, u);
      }
    case Acquire(w) => SameTableKeepsInv(s, Step(s, a));
    case Load(w) => LoadKeepsInv(s, w);
    case Advance(w, written) =>
      if Step(s, a) != s {
        AdvanceKeepsInv(s, w, written);
      }
    case Redeliver(position, index) =>
      if position < |s.ledger| && index < |s.ledger[position].effects| {
        ApplyOneKeepsRows(s, position, index);
      }
    case Crash(w) => SameTableKeepsInv(s, Step(s, a));
  }

  lemma {:induction false} RunKeepsInv(s: State, actions: seq<Action>)
    requires Inv(s)
    ensures Inv(Run(s, actions))
    decreases |actions|
  {
    if actions != [] {
      StepKeepsInv(s, actions[0]);
      RunKeepsInv(Step(s, actions[0]), actions[1..]);
    }
  }

  // ---- the main results

  /** Whatever workers do, each balance row is exactly the sum of the deltas of the distinct
      effects applied to its key, in 64-bit arithmetic, and there is no row without one. */
  lemma RowsAreSumsOfDistinctEffects(s: State, actions: seq<Action>, key: BalanceKey)
    requires Initial(s)
    ensures var s' := Run(s, actions); RowIs(s'.table.rows, key, SumLedger(s'.ledger, s'.table.seen, key))
  {
    InitialInv(s);
    RunKeepsInv(s, actions);
  }

  /** Every sum stays within 64 bits. */
  predicate SumFits(s: Sum) {
    FitsLong(s.available) && FitsLong(s.pending) && FitsLong(s.reserved) && FitsLong(s.settled)
  }

  /** A row that holds the sums themselves, field by field. */
  predicate RowHolds(rows: map<BalanceKey, BalanceRow>, key: BalanceKey, s: Sum) {
    && (key in rows <==> s.hits > 0)
    && (key in rows ==>
          && rows[key].available == s.available && rows[key].pending == s.pending
          && rows[key].reserved == s.reserved && rows[key].settled == s.settled && rows[key].offset == s.offset)
  }

  lemma FittingRowHolds(rows: map<BalanceKey, BalanceRow>, key: BalanceKey, s: Sum)
    requires RowIs(rows, key, s) && SumFits(s)
    ensures RowHolds(rows, key, s)
  {
  }

  /** While the exact sums of a key fit in 64 bits, its row is those sums, in every run, whatever
      the partial sums on the way did. */
  lemma FittingRowsAreExact(s: State, actions: seq<Action>, key: BalanceKey)
    requires Initial(s) && SumFits(SumLedger(Run(s, actions).ledger, Run(s, actions).table.seen, key))
    ensures var s' := Run(s, actions); RowHolds(s'.table.rows, key, SumLedger(s'.ledger, s'.table.seen, key))
  {
    var s' := Run(s, actions);
    RowsAreSumsOfDistinctEffects(s, actions, key);
    FittingRowHolds(s'.table.rows, key, SumLedger(s'.ledger, s'.table.seen, key));
  }

  /** Only the latest holder writes: an advance that changes rows or checkpoint carries the
      current token, and no other worker carries it. */
  lemma OnlyTheLatestHolderWrites(s: State, actions: seq<Action>, w: nat, written: nat, v: nat)
    requires Initial(s)
    requires var s' := Run(s, actions);
      Step(s', Advance(w, written)) != s' && v in s'.workers && v != w
    ensures var s' := Run(s, actions);
      s'.workers[w].token == s'.checkpoint.fencingToken && s'.workers[v].token < s'.checkpoint.fencingToken
  {
    InitialInv(s);
    RunKeepsInv(s, actions);
  }

  /** Tokens and offsets never go back, and effects once seen stay seen. */
  lemma {:induction false} NothingGoesBack(s: State, actions: seq<Action>)
    ensures s.checkpoint.fencingToken <= Run(s, actions).checkpoint.fencingToken
    ensures s.checkpoint.appliedOffset <= Run(s, actions).checkpoint.appliedOffset
    ensures s.table.seen <= Run(s, actions).table.seen
    decreases |actions|
  {
    if actions != [] {
      var a := actions[0];
      if a.Advance? && Step(s, a) != s {
        EffectsOnlyAdd(s.table, s.workers[a.w].todo[0], a.written);
      }
      NothingGoesBack(Step(s, a), actions[1..]);
    }
  }

  lemma EffectsOnlyAdd(t: Table, u: LedgerUpdate, k: nat)
    requires k <= |u.effects|
    ensures t.seen <= ApplyEffects(t, u, k).seen
  {
  }

  /** A superseded worker never writes again: whatever follows, as long as it does not
      acquire anew, its advances change nothing at all. */
  lemma {:induction false} SupersededNeverWrites(s: State, actions: seq<Action>, w: nat, written: nat)
    requires w in s.workers && s.workers[w].token < s.checkpoint.fencingToken
    requires forall i :: 0 <= i < |actions| ==> actions[i] != Acquire(w)
    ensures Step(Run(s, actions), Advance(w, written)) == Run(s, actions)
    decreases |actions|
  {
    if actions != [] {
      var s1 := Step(s, actions[0]);
      if w in s1.workers {
        SupersededNeverWrites(s1, actions[1..], w, written);
      } else {
        GoneNeverWrites(s1, actions[1..], w, written);
      }
    }
  }

  lemma {:induction false} GoneNeverWrites(s: State, actions: seq<Action>, w: nat, written: nat)
    requires w !in s.workers
    requires forall i :: 0 <= i < |actions| ==> actions[i] != Acquire(w)
    ensures Step(Run(s, actions), Advance(w, written)) == Run(s, actions)
    decreases |actions|
  {
    if actions != [] {
      GoneNeverWrites(Step(s, actions[0]), actions[1..], w, written);
    }
  }
}
