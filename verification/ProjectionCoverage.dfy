/** What offsets must be like for nothing to be lost: an update is covered by the checkpoint in
    every run exactly when they are, and what is lost otherwise stays lost. */
module ProjectionCoverage {
  import opened Projection
  import opened ProjectionProtocol

  // ---- what the offsets must be like

  /** Every update the checkpoint has passed has been applied. */
  ghost predicate Covered(s: State) {
    forall i :: 0 <= i < |s.ledger| && s.ledger[i].offset <= s.checkpoint.appliedOffset ==> Applied(s.ledger[i], s.table.seen)
  }

  /** Updates with balance effects have positive offsets that no earlier update has. */
  ghost predicate Retrievable(ledger: seq<LedgerUpdate>) {
    && BalanceFirst(ledger)
    && forall i :: 0 <= i < |ledger| && HasBalance(ledger[i]) ==> ledger[i].offset > 0
  }

  predicate LaterThanAll(ledger: seq<LedgerUpdate>, offset: int) {
    forall i :: 0 <= i < |ledger| ==> ledger[i].offset < offset
  }

  /** An update that arrives without balance effects, or with a positive offset beyond all. */
  predicate Timely(ledger: seq<LedgerUpdate>, u: LedgerUpdate) {
    HasBalance(u) ==> u.offset > 0 && LaterThanAll(ledger, u.offset)
  }

  ghost predicate InOrder(ledger: seq<LedgerUpdate>) {
    forall i :: 0 <= i < |ledger| ==> Timely(ledger[..i], ledger[i])
  }

  ghost predicate CheckpointOk(s: State) {
    && s.checkpoint.appliedOffset >= 0
    && (s.checkpoint.appliedOffset == 0 || exists p :: 0 <= p < |s.ledger| && s.ledger[p].offset == s.checkpoint.appliedOffset)
    && Covered(s)
  }

  /** A worker skips nothing: each update is applied, still to do, or later than all to do. */
  ghost predicate WorkerCovers(s: State, w: Worker) {
    && Ascending(w.todo) && BalanceFirst(w.todo)
    && (forall t :: t in w.todo ==> t in s.ledger)
    && (forall i :: 0 <= i < |s.ledger| ==>
          Applied(s.ledger[i], s.table.seen) || s.ledger[i] in w.todo || (forall t :: t in w.todo ==> t.offset < s.ledger[i].offset))
  }

  ghost predicate Safe(s: State) {
    && Retrievable(s.ledger)
    && CheckpointOk(s)
    && (forall w :: w in s.workers ==> WorkerCovers(s, s.workers[w]))
  }

  lemma NoBalanceIsApplied(u: LedgerUpdate, seen: set<EffectId>)
    requires !HasBalance(u)
    ensures Applied(u, seen)
  {
  }

  lemma InitialSafe(s: State)
    requires Initial(s) && Retrievable(s.ledger)
    ensures Safe(s)
  {
    forall i | 0 <= i < |s.ledger| && s.ledger[i].offset <= 0 ensures Applied(s.ledger[i], s.table.seen) {
      NoBalanceIsApplied(s.ledger[i], s.table.seen);
    }
  }

  /** More seen, same ledger and checkpoint: nothing that was covered is uncovered. */
  lemma MoreSeenKeepsSafe(s: State, s': State)
    requires Safe(s) && s'.ledger == s.ledger && s.table.seen <= s'.table.seen
    requires s'.checkpoint == s.checkpoint && s'.workers == s.workers
    ensures Safe(s')
  {
    assert forall i :: 0 <= i < |s.ledger| && Applied(s.ledger[i], s.table.seen) ==> Applied(s.ledger[i], s'.table.seen);
    forall w | w in s'.workers ensures WorkerCovers(s', s'.workers[w]) {
      assert WorkerCovers(s, s.workers[w]);
    }
  }

  lemma AppendKeepsRetrievable(ledger: seq<LedgerUpdate>, u: LedgerUpdate)
    requires Retrievable(ledger) && Timely(ledger, u)
    ensures Retrievable(ledger + [u])
  {
    var longer := ledger + [u];
    assert forall i :: 0 <= i < |ledger| ==> longer[i] == ledger[i];
  }

  lemma AppendKeepsWorker(s: State, u: LedgerUpdate, w: Worker)
    requires WorkerCovers(s, w) && Timely(s.ledger, u)
    ensures WorkerCovers(s.(ledger := s.ledger + [u]), w)
  {
    var s' := s.(ledger := s.ledger + [u]);
    forall i | 0 <= i < |s'.ledger|
      ensures Applied(s'.ledger[i], s.table.seen) || s'.ledger[i] in w.todo || (forall t :: t in w.todo ==> t.offset < s'.ledger[i].offset)
    {
      if i < |s.ledger| {
        assert s'.ledger[i] == s.ledger[i];
      } else if !HasBalance(u) {
        NoBalanceIsApplied(u, s.table.seen);
      }
    }
  }

  lemma AppendKeepsCheckpoint(s: State, u: LedgerUpdate)
    requires CheckpointOk(s) && Timely(s.ledger, u)
    ensures CheckpointOk(s.(ledger := s.ledger + [u]))
  {
    var s' := s.(ledger := s.ledger + [u]);
    if s.checkpoint.appliedOffset != 0 {
      var p :| 0 <= p < |s.ledger| && s.ledger[p].offset == s.checkpoint.appliedOffset;
      assert s'.ledger[p].offset == s.checkpoint.appliedOffset;
    }
    forall i | 0 <= i < |s'.ledger| && s'.ledger[i].offset <= s'.checkpoint.appliedOffset ensures Applied(s'.ledger[i], s.table.seen) {
      if i < |s.ledger| {
        assert s'.ledger[i] == s.ledger[i];
      } else {
        assert !HasBalance(u);
        NoBalanceIsApplied(u, s.table.seen);
      }
    }
  }

  lemma AppendKeepsSafe(s: State, u: LedgerUpdate)
    requires Safe(s) && Timely(s.ledger, u)
    ensures Safe(s.(ledger := s.ledger + [u]))
  {
    AppendKeepsRetrievable(s.ledger, u);
    AppendKeepsCheckpoint(s, u);
    var s' := s.(ledger := s.ledger + [u]);
    forall w | w in s'.workers ensures WorkerCovers(s', s'.workers[w]) {
      AppendKeepsWorker(s, u, s.workers[w]);
    }
  }

  lemma LoadedCovers(s: State, token: int)
    requires Retrievable(s.ledger) && CheckpointOk(s)
    ensures WorkerCovers(s, Worker(token, Resume(s.ledger, s.checkpoint.appliedOffset)))
  {
    ResumeIsTheRest(s.ledger, s.checkpoint.appliedOffset);
    ResumeKeepsBalanceFirst(s.ledger, s.checkpoint.appliedOffset);
  }

  /** The workers change, nothing else but the token. */
  lemma WorkersKeepSafe(s: State, s': State)
    requires Safe(s) && s'.ledger == s.ledger && s'.table == s.table && s'.checkpoint.appliedOffset == s.checkpoint.appliedOffset
    requires forall w :: w in s'.workers ==> WorkerCovers(s, s'.workers[w])
    ensures Safe(s')
  {
    forall w | w in s'.workers ensures WorkerCovers(s', s'.workers[w]) {
      assert WorkerCovers(s, s'.workers[w]);
    }
  }

  lemma AdvanceCovers(s: State, w: Worker, s': State)
    requires Safe(s) && WorkerCovers(s, w) && w.todo != [] && Applied(w.todo[0], s.table.seen)
    requires s'.ledger == s.ledger && s'.table == s.table
    requires s'.checkpoint == Advanced(s.checkpoint, w.todo[0].offset, w.todo[0].recordTime)
    ensures CheckpointOk(s')
  {
    var u := w.todo[0];
    assert u in s.ledger;
    forall i | 0 <= i < |s.ledger| && s.ledger[i].offset <= s'.checkpoint.appliedOffset ensures Applied(s.ledger[i], s.table.seen) {
      if s.ledger[i] in w.todo {
        var j :| 0 <= j < |w.todo| && w.todo[j] == s.ledger[i];
        if j > 0 && s.ledger[i].offset > s.checkpoint.appliedOffset {
          assert w.todo[0].offset == w.todo[j].offset;
          NoBalanceIsApplied(s.ledger[i], s.table.seen);
        }
      }
    }
  }

  lemma RestCovers(s: State, w: Worker)
    requires WorkerCovers(s, w) && w.todo != [] && Applied(w.todo[0], s.table.seen)
    ensures WorkerCovers(s, w.(todo := w.todo[1..]))
  {
    assert w.todo == [w.todo[0]] + w.todo[1..];
  }

  /** After the last effect of the first update to do, the checkpoint may move to it and the
      worker on to the next. */
  lemma FinishedAdvance(s: State, w: nat, s': State)
    requires Safe(s) && w in s.workers && s.workers[w].todo != [] && Applied(s.workers[w].todo[0], s.table.seen)
    requires var u := s.workers[w].todo[0];
      s' == s.(checkpoint := Advanced(s.checkpoint, u.offset, u.recordTime), workers := s.workers[w := s.workers[w].(todo := s.workers[w].todo[1..])])
    ensures Safe(s')
  {
    assert WorkerCovers(s, s.workers[w]);
    AdvanceCovers(s, s.workers[w], s');
    RestCovers(s, s.workers[w]);
    forall v | v in s'.workers ensures WorkerCovers(s', s'.workers[v]) {
      assert v != w ==> WorkerCovers(s, s.workers[v]);
    }
  }

  lemma AdvanceKeepsSafe(s: State, w: nat, written: nat)
    requires Inv(s) && Safe(s) && w in s.workers && s.workers[w].todo != [] && written <= |s.workers[w].todo[0].effects|
    ensures Safe(AdvanceStep(s, w, written))
  {
    AdvanceKeepsInv(s, w, written);
    var u := s.workers[w].todo[0];
    var mid := s.(table := ApplyEffects(s.table, u, written));
    MoreSeenKeepsSafe(s, mid);
    if written == |u.effects| {
      FinishedAdvance(mid, w, AdvanceStep(s, w, written));
    }
  }

  predicate TimelyAction(s: State, a: Action) {
    a.Append? && FreshId(s.ledger, a.update.id) ==> Timely(s.ledger, a.update)
  }

  lemma StepKeepsSafe(s: State, a: Action)
    requires Inv(s) && Safe(s) && TimelyAction(s, a)
    ensures Safe(Step(s, a))
  {
    match a
    case Append(u) =>
      if FreshId(s.ledger, u.id) {
        AppendKeepsSafe(s, u);
      }
    case Acquire(w) => WorkersKeepSafe(s, Step(s, a));
    case Load(w) =>
      if w in s.workers {
        LoadedCovers(s, s.workers[w].token);
        WorkersKeepSafe(s, Step(s, a));
      }
    case Advance(w, written) =>
      if Step(s, a) != s {
        AdvanceKeepsSafe(s, w, written);
      }
    case Redeliver(position, index) =>
      if position < |s.ledger| && index < |s.ledger[position].effects| {
        ApplyOneKeepsRows(s, position, index);
        MoreSeenKeepsSafe(s, Step(s, a));
      }
    case Crash(w) => WorkersKeepSafe(s, Step(s, a));
  }

  predicate NoAppend(actions: seq<Action>) {
    forall i :: 0 <= i < |actions| ==> !actions[i].Append?
  }

  /** The ledger only grows, so a ledger in order at the end was in order all along. */
  lemma {:induction false} LedgerGrows(s: State, actions: seq<Action>)
    ensures s.ledger <= Run(s, actions).ledger
    ensures NoAppend(actions) ==> Run(s, actions).ledger == s.ledger
    decreases |actions|
  {
    if actions != [] {
      LedgerGrows(Step(s, actions[0]), actions[1..]);
      assert NoAppend(actions) ==> !actions[0].Append? && NoAppend(actions[1..]);
    }
  }

  /** A run that ends with this ledger stays safe: either nothing is appended and the ledger is
      retrievable, or it ends in order. */
  ghost predicate WellFed(s: State, actions: seq<Action>) {
    (NoAppend(actions) && Retrievable(s.ledger)) || InOrder(Run(s, actions).ledger)
  }

  lemma InOrderPrefix(ledger: seq<LedgerUpdate>, longer: seq<LedgerUpdate>)
    requires ledger <= longer && InOrder(longer)
    ensures InOrder(ledger) && Retrievable(ledger)
    ensures |ledger| < |longer| ==> Timely(ledger, longer[|ledger|])
  {
    forall i | 0 <= i < |ledger| ensures Timely(ledger[..i], ledger[i]) {
      assert Timely(longer[..i], longer[i]) && longer[..i] == ledger[..i];
    }
    forall i, j | 0 <= i < j < |ledger| && ledger[i].offset == ledger[j].offset ensures !HasBalance(ledger[j]) {
      assert Timely(ledger[..j], ledger[j]) && ledger[..j][i] == ledger[i];
    }
    forall i | 0 <= i < |ledger| && HasBalance(ledger[i]) ensures ledger[i].offset > 0 {
      assert Timely(ledger[..i], ledger[i]);
    }
    if |ledger| < |longer| {
      assert longer[..|ledger|] == ledger;
    }
  }

  lemma WellFedStep(s: State, actions: seq<Action>)
    requires actions != [] && WellFed(s, actions)
    ensures TimelyAction(s, actions[0]) && WellFed(Step(s, actions[0]), actions[1..])
  {
    var a, s' := actions[0], Step(s, actions[0]);
    LedgerGrows(s', actions[1..]);
    if NoAppend(actions) && Retrievable(s.ledger) {
      assert !a.Append? && NoAppend(actions[1..]);
    } else if a.Append? && FreshId(s.ledger, a.update.id) {
      InOrderPrefix(s.ledger, Run(s, actions).ledger);
      assert s'.ledger[|s.ledger|] == a.update;
    }
  }

  lemma {:induction false} RunKeepsSafe(s: State, actions: seq<Action>)
    requires Inv(s) && Safe(s) && WellFed(s, actions)
    ensures Safe(Run(s, actions))
    decreases |actions|
  {
    if actions != [] {
      WellFedStep(s, actions);
      StepKeepsInv(s, actions[0]);
      StepKeepsSafe(s, actions[0]);
      RunKeepsSafe(Step(s, actions[0]), actions[1..]);
    }
  }

  lemma WellFedRunIsSafe(s: State, actions: seq<Action>)
    requires Initial(s) && WellFed(s, actions)
    ensures Safe(Run(s, actions))
  {
    LedgerGrows(s, actions);
    if InOrder(Run(s, actions).ledger) {
      InOrderPrefix(s.ledger, Run(s, actions).ledger);
    }
    InitialInv(s);
    InitialSafe(s);
    RunKeepsSafe(s, actions);
  }

  // ---- coverage

  /** Nothing up to the checkpoint is lost while the offsets are as they must be. */
  lemma CheckpointLosesNothing(s: State, actions: seq<Action>, i: nat)
    requires Initial(s) && WellFed(s, actions)
    requires var s' := Run(s, actions); i < |s'.ledger| && s'.ledger[i].offset <= s'.checkpoint.appliedOffset
    ensures Applied(Run(s, actions).ledger[i], Run(s, actions).table.seen)
  {
    WellFedRunIsSafe(s, actions);
  }

  lemma AllSeenUpdate(base: Sum, u: LedgerUpdate, k: nat, seen: set<EffectId>, key: BalanceKey)
    requires k <= |u.effects| && Applied(u, seen)
    ensures SumUpdate(base, u, k, seen, key) == FoldUpdate(base, u, k, key)
  {
  }

  lemma {:induction false} AllSeenLedger(ledger: seq<LedgerUpdate>, seen: set<EffectId>, key: BalanceKey)
    requires forall i :: 0 <= i < |ledger| ==> Applied(ledger[i], seen)
    ensures SumLedger(ledger, seen, key) == FoldLedger(ledger, key)
    decreases |ledger|
  {
    if ledger != [] {
      var last := ledger[|ledger| - 1];
      AllSeenLedger(ledger[..|ledger| - 1], seen, key);
      AllSeenUpdate(SumLedger(ledger[..|ledger| - 1], seen, key), last, |last.effects|, seen, key);
    }
  }

  ghost predicate CaughtUp(s: State) {
    forall i :: 0 <= i < |s.ledger| ==> s.ledger[i].offset <= s.checkpoint.appliedOffset
  }

  /** Caught up means equal to the plain fold: once the checkpoint has reached every offset,
      each row is the fold of the whole ledger, every effect counted once. */
  lemma CaughtUpRowsAreTheFold(s: State, actions: seq<Action>, key: BalanceKey)
    requires Initial(s) && WellFed(s, actions)
    requires CaughtUp(Run(s, actions))
    ensures RowIs(Run(s, actions).table.rows, key, FoldLedger(Run(s, actions).ledger, key))
  {
    var s' := Run(s, actions);
    WellFedRunIsSafe(s, actions);
    RowsAreSumsOfDistinctEffects(s, actions, key);
    AllSeenLedger(s'.ledger, s'.table.seen, key);
  }

  /** And while the fold fits in 64 bits, the row of a caught-up key is the fold itself. */
  lemma CaughtUpRowsAreExact(s: State, actions: seq<Action>, key: BalanceKey)
    requires Initial(s) && WellFed(s, actions)
    requires CaughtUp(Run(s, actions)) && SumFits(FoldLedger(Run(s, actions).ledger, key))
    ensures RowHolds(Run(s, actions).table.rows, key, FoldLedger(Run(s, actions).ledger, key))
  {
    CaughtUpRowsAreTheFold(s, actions, key);
    FittingRowHolds(Run(s, actions).table.rows, key, FoldLedger(Run(s, actions).ledger, key));
  }

  // ---- the offsets must be like that

  function Start(ledger: seq<LedgerUpdate>): State {
    State(ledger, Table(map[], {}), FRESH_CHECKPOINT, map[])
  }

  /** An update the checkpoint has passed, with an effect nobody has applied or is about to. */
  ghost predicate Lost(s: State, i: nat, k: nat) {
    && i < |s.ledger| && s.ledger[i].offset <= s.checkpoint.appliedOffset
    && k < |s.ledger[i].effects| && s.ledger[i].effects[k].Balance? && EffectId(s.ledger[i].id, k) !in s.table.seen
    && forall w :: w in s.workers ==> s.ledger[i] !in s.workers[w].todo
  }

  lemma LostIsNotCovered(s: State, i: nat, k: nat)
    requires Lost(s, i, k)
    ensures !Covered(s)
  {
    assert !Applied(s.ledger[i], s.table.seen);
  }

  lemma SeenEffects(t: Table, u: LedgerUpdate, k: nat)
    requires k <= |u.effects|
    ensures forall id :: id in ApplyEffects(t, u, k).seen ==> id in t.seen || id.update == u.id
  {
  }

  lemma StepKeepsLost(s: State, a: Action, i: nat, k: nat)
    requires Inv(s) && Lost(s, i, k) && a != Redeliver(i, k)
    ensures Lost(Step(s, a), i, k)
  {
    ResumeIsTheRest(s.ledger, s.checkpoint.appliedOffset);
    if a.Advance? && Step(s, a) != s {
      var todo := s.workers[a.w].todo;
      assert todo[0] in todo && todo[0] in s.ledger && todo[0].id != s.ledger[i].id;
      SeenEffects(s.table, todo[0], a.written);
      assert forall t :: t in todo[1..] ==> t in todo;
    } else if a.Redeliver? && Step(s, a) != s {
      assert a.position != i ==> s.ledger[a.position].id != s.ledger[i].id;
    }
  }

  /** What is lost stays lost: no worker that acquires, loads or advances ever applies it. */
  lemma {:induction false} LostStaysLost(s: State, actions: seq<Action>, i: nat, k: nat)
    requires Inv(s) && Lost(s, i, k)
    requires forall n :: 0 <= n < |actions| ==> actions[n] != Redeliver(i, k)
    ensures Lost(Run(s, actions), i, k)
    decreases |actions|
  {
    if actions != [] {
      StepKeepsLost(s, actions[0], i, k);
      StepKeepsInv(s, actions[0]);
      LostStaysLost(Step(s, actions[0]), actions[1..], i, k);
    }
  }

  lemma {:induction false} RunConcat(s: State, a: seq<Action>, b: seq<Action>)
    ensures Run(s, a + b) == Run(Run(s, a), b)
    decreases |a|
  {
    if a == [] {
      assert a + b == b;
    } else {
      assert (a + b)[1..] == a[1..] + b;
      RunConcat(Step(s, a[0]), a[1..], b);
    }
  }

  lemma RunOneMore(s: State, a: seq<Action>, last: Action)
    ensures Run(s, a + [last]) == Step(Run(s, a), last)
  {
    RunConcat(s, a, [last]);
    assert [last][1..] == [];
    assert Run(Run(s, a), [last]) == Run(Step(Run(s, a), last), []);
  }

  /** The first `n` updates of a worker's list, each applied in full. */
  function Drive(w: nat, todo: seq<LedgerUpdate>, n: nat): (r: seq<Action>)
    requires n <= |todo|
    ensures NoAppend(r)
  {
    if n == 0 then [] else Drive(w, todo, n - 1) + [Advance(w, |todo[n - 1].effects|)]
  }

  ghost predicate Driven(s: State, s': State, w: nat, n: nat)
    requires w in s.workers && n <= |s.workers[w].todo|
  {
    var todo := s.workers[w].todo;
    && s'.ledger == s.ledger && s'.checkpoint.fencingToken == s.checkpoint.fencingToken
    && s'.workers == s.workers[w := s.workers[w].(todo := todo[n..])]
    && (n > 0 ==> s'.checkpoint.appliedOffset >= todo[n - 1].offset)
    && forall id :: id in s'.table.seen ==> id in s.table.seen || exists x :: 0 <= x < n && todo[x].id == id.update
  }

  lemma DriveOneMore(s: State, mid: State, w: nat, n: nat)
    requires w in s.workers && n < |s.workers[w].todo| && s.workers[w].token == s.checkpoint.fencingToken
    requires Driven(s, mid, w, n)
    ensures Driven(s, Step(mid, Advance(w, |s.workers[w].todo[n].effects|)), w, n + 1)
  {
    var todo := s.workers[w].todo;
    var u := todo[n];
    assert todo[n..][0] == u && todo[n..][1..] == todo[n + 1..];
    SeenEffects(mid.table, u, |u.effects|);
  }

  lemma {:induction false} DriveState(s: State, w: nat, n: nat)
    requires w in s.workers && n <= |s.workers[w].todo| && s.workers[w].token == s.checkpoint.fencingToken
    ensures Driven(s, Run(s, Drive(w, s.workers[w].todo, n)), w, n)
    decreases n
  {
    var todo := s.workers[w].todo;
    if n == 0 {
      assert todo[0..] == todo;
    } else {
      DriveState(s, w, n - 1);
      RunOneMore(s, Drive(w, todo, n - 1), Advance(w, |todo[n - 1].effects|));
      DriveOneMore(s, Run(s, Drive(w, todo, n - 1)), w, n - 1);
    }
  }

  /** A worker acquires, loads, applies the first `n` updates it was given, and crashes. */
  function Session(ledger: seq<LedgerUpdate>, n: nat): (r: seq<Action>)
    requires n <= |Resume(ledger, 0)|
    ensures NoAppend(r)
  {
    [Acquire(0), Load(0)] + Drive(0, Resume(ledger, 0), n) + [Crash(0)]
  }

  lemma SessionState(ledger: seq<LedgerUpdate>, n: nat)
    requires n <= |Resume(ledger, 0)|
    ensures var todo, s' := Resume(ledger, 0), Run(Start(ledger), Session(ledger, n));
      && s'.ledger == ledger && s'.workers == map[]
      && (n > 0 ==> s'.checkpoint.appliedOffset >= todo[n - 1].offset)
      && forall id :: id in s'.table.seen ==> exists x :: 0 <= x < n && todo[x].id == id.update
  {
    var begin, drive := [Acquire(0), Load(0)], Drive(0, Resume(ledger, 0), n);
    var loaded := Loaded(ledger);
    RunConcat(Start(ledger), begin, drive);
    DriveState(loaded, 0, n);
    RunOneMore(Start(ledger), begin + drive, Crash(0));
  }

  lemma Loaded(ledger: seq<LedgerUpdate>) returns (s: State)
    ensures s == Run(Start(ledger), [Acquire(0), Load(0)])
    ensures s.ledger == ledger && s.table == Table(map[], {}) && s.checkpoint.fencingToken == 1
    ensures s.workers == map[0 := Worker(1, Resume(ledger, 0))]
  {
    var acquired := Step(Start(ledger), Acquire(0));
    assert acquired.workers == map[0 := Worker(1, [])];
    RunOneMore(Start(ledger), [Acquire(0)], Load(0));
    RunOneMore(Start(ledger), [], Acquire(0));
    assert [] + [Acquire(0)] == [Acquire(0)] && [Acquire(0)] + [Load(0)] == [Acquire(0), Load(0)];
    s := Step(acquired, Load(0));
    assert Run(Start(ledger), []) == Start(ledger);
  }

  /** A second update of some offset, with balance effects: a worker that crashes after the
      first leaves it behind for good. */
  lemma SharedOffsetIsLost(ledger: seq<LedgerUpdate>, i: nat, j: nat, k: nat) returns (actions: seq<Action>)
    requires DistinctIds(ledger) && i < j < |ledger| && ledger[i].offset == ledger[j].offset > 0
    requires k < |ledger[j].effects| && ledger[j].effects[k].Balance?
    ensures NoAppend(actions) && Lost(Run(Start(ledger), actions), j, k)
  {
    var todo := Resume(ledger, 0);
    var a, b := ResumeKeepsOrder(ledger, 0, i, j);
    ResumeKeepsDistinctIds(ledger, 0);
    actions := Session(ledger, a + 1);
    SessionState(ledger, a + 1);
    assert forall x :: 0 <= x <= a ==> todo[x].id != todo[b].id;
  }

  lemma NonPositiveIsLost(ledger: seq<LedgerUpdate>, j: nat, k: nat)
    requires j < |ledger| && ledger[j].offset <= 0 && k < |ledger[j].effects| && ledger[j].effects[k].Balance?
    ensures Lost(Start(ledger), j, k)
  {
  }

  /** No run over this ledger, as it stands, loses anything. */
  ghost predicate NeverLoses(ledger: seq<LedgerUpdate>) {
    forall actions :: NoAppend(actions) ==> Covered(Run(Start(ledger), actions))
  }

  /** Exactly when a ledger is safe to work through: over every run nothing the checkpoint has
      passed is missing if and only if every update with balance effects has a positive offset
      that no earlier update has. */
  lemma NeverLosesIffRetrievable(ledger: seq<LedgerUpdate>)
    requires DistinctIds(ledger)
    ensures NeverLoses(ledger) <==> Retrievable(ledger)
  {
    if Retrievable(ledger) {
      forall actions | NoAppend(actions) ensures Covered(Run(Start(ledger), actions)) {
        WellFedRunIsSafe(Start(ledger), actions);
      }
    } else {
      var actions := LosingRun(ledger);
      assert NoAppend(actions) && !Covered(Run(Start(ledger), actions));
    }
  }

  lemma BalanceEffect(u: LedgerUpdate) returns (k: nat)
    requires HasBalance(u)
    ensures k < |u.effects| && u.effects[k].Balance?
  {
    k :| k < |u.effects| && u.effects[k].Balance?;
  }

  lemma LosingRun(ledger: seq<LedgerUpdate>) returns (actions: seq<Action>)
    requires DistinctIds(ledger) && !Retrievable(ledger)
    ensures NoAppend(actions) && !Covered(Run(Start(ledger), actions))
  {
    if j :| 0 <= j < |ledger| && HasBalance(ledger[j]) && ledger[j].offset <= 0 {
      var k := BalanceEffect(ledger[j]);
      actions := [];
      NonPositiveIsLost(ledger, j, k);
      LostIsNotCovered(Start(ledger), j, k);
    } else {
      var i, j :| 0 <= i < j < |ledger| && ledger[i].offset == ledger[j].offset && HasBalance(ledger[j]);
      var k := BalanceEffect(ledger[j]);
      actions := SharedOffsetIsLost(ledger, i, j, k);
      LostIsNotCovered(Run(Start(ledger), actions), j, k);
    }
  }

  // ---- ledgers that grow meanwhile

  function Appends(updates: seq<LedgerUpdate>): (r: seq<Action>)
    ensures |r| == |updates| && forall i :: 0 <= i < |r| ==> r[i] == Append(updates[i])
  {
    seq(|updates|, i requires 0 <= i < |updates| => Append(updates[i]))
  }

  lemma {:induction false} AppendAll(s: State, updates: seq<LedgerUpdate>)
    requires DistinctIds(s.ledger + updates)
    ensures Run(s, Appends(updates)) == s.(ledger := s.ledger + updates)
    decreases |updates|
  {
    if updates == [] {
      assert s.ledger + updates == s.ledger;
    } else {
      var longer := s.ledger + updates;
      assert forall i :: 0 <= i < |s.ledger| ==> longer[i] == s.ledger[i];
      assert longer[|s.ledger|] == updates[0];
      assert Appends(updates)[1..] == Appends(updates[1..]);
      assert (s.ledger + [updates[0]]) + updates[1..] == longer;
      AppendAll(s.(ledger := s.ledger + [updates[0]]), updates[1..]);
    }
  }

  /** After a whole session over the ledger the checkpoint has reached every positive offset,
      and only effects of that ledger have been seen. */
  lemma WholeSession(ledger: seq<LedgerUpdate>, i: nat)
    requires i < |ledger| && ledger[i].offset > 0
    ensures var s' := Run(Start(ledger), Session(ledger, |Resume(ledger, 0)|));
      && s'.ledger == ledger && s'.workers == map[] && s'.checkpoint.appliedOffset >= ledger[i].offset
      && forall id :: id in s'.table.seen ==> exists x :: 0 <= x < |ledger| && ledger[x].id == id.update
  {
    var todo := Resume(ledger, 0);
    LastResumed(ledger, i);
    SessionState(ledger, |todo|);
    SeenInSession(ledger, Run(Start(ledger), Session(ledger, |todo|)).table.seen);
  }

  lemma LastResumed(ledger: seq<LedgerUpdate>, i: nat)
    requires i < |ledger| && ledger[i].offset > 0
    ensures var todo := Resume(ledger, 0); todo != [] && todo[|todo| - 1].offset >= ledger[i].offset
  {
    var todo := Resume(ledger, 0);
    ResumeIsTheRest(ledger, 0);
    assert ledger[i] in todo;
    var x :| 0 <= x < |todo| && todo[x] == ledger[i];
    assert todo[x].offset <= todo[|todo| - 1].offset;
  }

  lemma SeenInSession(ledger: seq<LedgerUpdate>, seen: set<EffectId>)
    requires var todo := Resume(ledger, 0); forall id :: id in seen ==> exists x :: 0 <= x < |todo| && todo[x].id == id.update
    ensures forall id :: id in seen ==> exists x :: 0 <= x < |ledger| && ledger[x].id == id.update
  {
    var todo := Resume(ledger, 0);
    ResumeIsTheRest(ledger, 0);
    forall id | id in seen ensures exists x :: 0 <= x < |ledger| && ledger[x].id == id.update {
      var y :| 0 <= y < |todo| && todo[y].id == id.update;
      assert todo[y] in todo && todo[y] in ledger;
    }
  }

  /** An update that arrives when the checkpoint may already be past its offset is left behind. */
  lemma LateUpdateIsLost(ledger: seq<LedgerUpdate>, i: nat, j: nat, k: nat) returns (actions: seq<Action>)
    requires DistinctIds(ledger) && i < j < |ledger| && 0 < ledger[j].offset <= ledger[i].offset
    requires k < |ledger[j].effects| && ledger[j].effects[k].Balance?
    ensures Run(Start(ledger[..j]), actions).ledger == ledger && Lost(Run(Start(ledger[..j]), actions), j, k)
  {
    var first, rest := ledger[..j], ledger[j..];
    var session := Session(first, |Resume(first, 0)|);
    WholeSession(first, i);
    assert first + rest == ledger;
    RunConcat(Start(first), session, Appends(rest));
    AppendAll(Run(Start(first), session), rest);
    actions := session + Appends(rest);
    assert forall x :: 0 <= x < |first| ==> first[x].id != ledger[j].id;
  }

  /** No run that ends with this ledger, wherever it began, loses anything. */
  ghost predicate NeverLosesGrowing(ledger: seq<LedgerUpdate>) {
    forall first, actions :: Run(Start(first), actions).ledger == ledger ==> Covered(Run(Start(first), actions))
  }

  /** And when updates arrive while workers run, nothing is ever missing if and only if every
      update with balance effects has a positive offset beyond those of all updates before it. */
  lemma NeverLosesGrowingIffInOrder(ledger: seq<LedgerUpdate>)
    requires DistinctIds(ledger)
    ensures NeverLosesGrowing(ledger) <==> InOrder(ledger)
  {
    if InOrder(ledger) {
      forall first, actions | Run(Start(first), actions).ledger == ledger ensures Covered(Run(Start(first), actions)) {
        LedgerGrows(Start(first), actions);
        WellFedRunIsSafe(Start(first), actions);
      }
    } else {
      var j :| 0 <= j < |ledger| && !Timely(ledger[..j], ledger[j]);
      var k := BalanceEffect(ledger[j]);
      if ledger[j].offset <= 0 {
        NonPositiveIsLost(ledger, j, k);
        LostIsNotCovered(Start(ledger), j, k);
        assert Run(Start(ledger), []) == Start(ledger);
      } else {
        var i :| 0 <= i < j && ledger[..j][i].offset >= ledger[j].offset;
        var actions := LateUpdateIsLost(ledger, i, j, k);
        LostIsNotCovered(Run(Start(ledger[..j]), actions), j, k);
      }
    }
  }

  /** An update at offset 0 or below is never handed to a worker. */
  lemma NonPositiveOffsetsAreNeverResumed(s: State, actions: seq<Action>, u: LedgerUpdate)
    requires Initial(s) && u.offset <= 0
    ensures u !in Resume(Run(s, actions).ledger, Run(s, actions).checkpoint.appliedOffset)
  {
    NothingGoesBack(s, actions);
    ResumeIsTheRest(Run(s, actions).ledger, Run(s, actions).checkpoint.appliedOffset);
  }
}
