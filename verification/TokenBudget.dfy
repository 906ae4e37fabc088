/** What the token buckets promise over whole runs of checks: bounded spending, all or nothing
    charging, and refusals that leave no trace. */
module TokenBudget {
  import opened Options
  import opened TokenBuckets

  datatype Call = Call(rules: seq<BucketRule>, cost: real, now: int)

  /** Every key keeps the rule it has. */
  ghost predicate Configured(rule: string -> BucketRule) {
    forall k :: rule(k).key == k && rule(k).capacity >= 0.0 && rule(k).refillPerSecond >= 0.0
  }

  predicate ValidCall(rule: string -> BucketRule, c: Call) {
    && DistinctKeys(c.rules) && c.cost >= 0.0
    && forall i :: 0 <= i < |c.rules| ==> c.rules[i] == rule(c.rules[i].key)
  }

  /** Calls by a clock that never goes backwards, none before `since`. */
  predicate ValidRun(rule: string -> BucketRule, since: int, calls: seq<Call>)
    decreases |calls|
  {
    calls == [] || (ValidCall(rule, calls[0]) && since <= calls[0].now && ValidRun(rule, calls[0].now, calls[1..]))
  }

  function Step(states: States, c: Call): States {
    AfterCheck(states, c.rules, c.cost, c.now)
  }

  function Run(states: States, calls: seq<Call>): States
    decreases |calls|
  {
    if calls == [] then states else Run(Step(states, calls[0]), calls[1..])
  }

  predicate Admits(states: States, c: Call) {
    FirstShort(states, c.rules, c.cost, c.now) == |c.rules|
  }

  function Decisions(states: States, calls: seq<Call>): seq<bool>
    decreases |calls|
  {
    if calls == [] then [] else [Admits(states, calls[0])] + Decisions(Step(states, calls[0]), calls[1..])
  }

  /** What one call takes from the bucket of a key. */
  function Spent(states: States, c: Call, key: string): real {
    if Admits(states, c) && Mentions(c.rules, key) then c.cost else 0.0
  }

  function TotalSpent(states: States, calls: seq<Call>, key: string): real
    decreases |calls|
  {
    if calls == [] then 0.0
    else Spent(states, calls[0], key) + TotalSpent(Step(states, calls[0]), calls[1..], key)
  }

  // ---- refill composes

  lemma EarnedAdds(r: BucketRule, a: int, b: int)
    ensures Earned(r, a + b) == Earned(r, a) + Earned(r, b)
    ensures Earned(r, 0) == 0.0
  {
    var x, y := a as real / 1000.0, b as real / 1000.0;
    assert (a + b) as real / 1000.0 == x + y;
    assert (x + y) * r.refillPerSecond == x * r.refillPerSecond + y * r.refillPerSecond;
  }

  lemma EarnedNonNegative(r: BucketRule, ms: int)
    requires r.refillPerSecond >= 0.0 && ms >= 0
    ensures Earned(r, ms) >= 0.0
  {
  }

  /** Refilling up to a moment and then on is refilling at once. */
  lemma RefillComposes(states: States, r: BucketRule, now: int, t: int)
    requires r.refillPerSecond >= 0.0 && now <= t
    ensures Level(states, r, t) == Min(r.capacity, Level(states, r, now) + Earned(r, t - now))
  {
    EarnedNonNegative(r, t - now);
    if r.key in states {
      EarnedAdds(r, now - states[r.key].at, t - now);
    } else {
      EarnedAdds(r, 0, 0);
    }
  }

  lemma SameStateSameLevel(before: States, after: States, r: BucketRule, t: int)
    requires r.key in before <==> r.key in after
    requires r.key in before ==> before[r.key] == after[r.key]
    ensures Level(after, r, t) == Level(before, r, t)
  {
  }

  lemma FreshStateLevel(states: States, r: BucketRule, tokens: real, now: int, t: int)
    requires r.key in states && states[r.key] == State(tokens, now)
    ensures Level(states, r, t) == Min(r.capacity, tokens + Earned(r, t - now))
  {
  }

  // ---- one call

  lemma ChargedState(states: States, c: Call, i: nat)
    requires DistinctKeys(c.rules) && i < |c.rules| && Admits(states, c)
    ensures c.rules[i].key in Step(states, c)
    ensures Step(states, c)[c.rules[i].key] == State(Level(states, c.rules[i], c.now) - c.cost, c.now)
  {
    var base := Refill(states, c.rules, c.now);
    RefilledLevels(states, c.rules, c.now);
    assert Levels(base, c.rules, c.now)[i] == Levels(states, c.rules, c.now)[i];
    ChargeAt(base, c.rules, c.cost, c.now, i);
  }

  lemma UnnamedState(states: States, c: Call, key: string)
    requires !Mentions(c.rules, key) && Admits(states, c)
    ensures key in Step(states, c) <==> key in states
    ensures key in states ==> Step(states, c)[key] == states[key]
  {
    RefillElsewhere(states, c.rules, c.now, key);
    ChargeElsewhere(Refill(states, c.rules, c.now), c.rules, c.cost, c.now, key);
  }

  lemma AdmittedLevel(rule: string -> BucketRule, states: States, c: Call, key: string, t: int)
    requires Configured(rule) && ValidCall(rule, c) && c.now <= t && Admits(states, c)
    ensures Level(Step(states, c), rule(key), t) ==
            Min(rule(key).capacity, Level(states, rule(key), c.now) - Spent(states, c, key) + Earned(rule(key), t - c.now))
  {
    if Mentions(c.rules, key) {
      var i :| 0 <= i < |c.rules| && c.rules[i].key == key;
      ChargedState(states, c, i);
      FreshStateLevel(Step(states, c), rule(key), Level(states, rule(key), c.now) - c.cost, c.now, t);
    } else {
      UnnamedState(states, c, key);
      SameStateSameLevel(states, Step(states, c), rule(key), t);
      RefillComposes(states, rule(key), c.now, t);
    }
  }

  lemma DeniedState(states: States, c: Call, key: string)
    requires DistinctKeys(c.rules) && !Admits(states, c)
    ensures key in Step(states, c) <==> key in states
    ensures key in states ==>
      || Step(states, c)[key] == states[key]
      || exists i :: 0 <= i < |c.rules| && c.rules[i].key == key
                     && Step(states, c)[key] == State(Level(states, c.rules[i], c.now), c.now)
  {
    var looked := c.rules[..FirstShort(states, c.rules, c.cost, c.now) + 1];
    RefillKeys(states, looked, c.now);
    if key in states {
      if Mentions(looked, key) {
        var i :| 0 <= i < |looked| && looked[i].key == key;
        RefillAt(states, looked, c.now, i);
        assert c.rules[i] == looked[i];
      } else {
        RefillElsewhere(states, looked, c.now, key);
      }
    }
  }

  lemma DeniedLevel(rule: string -> BucketRule, states: States, c: Call, key: string, t: int)
    requires Configured(rule) && ValidCall(rule, c) && c.now <= t && !Admits(states, c)
    ensures Level(Step(states, c), rule(key), t) == Level(states, rule(key), t)
  {
    DeniedState(states, c, key);
    if key !in states || Step(states, c)[key] == states[key] {
      SameStateSameLevel(states, Step(states, c), rule(key), t);
    } else {
      RefillComposes(states, rule(key), c.now, t);
      FreshStateLevel(Step(states, c), rule(key), Level(states, rule(key), c.now), c.now, t);
    }
  }

  /** All or nothing: an admitted call takes its cost from every bucket it names and from no
      other; a refused call takes nothing, now or at any later time. */
  lemma CallCharges(rule: string -> BucketRule, states: States, c: Call, key: string, t: int)
    requires Configured(rule) && ValidCall(rule, c) && c.now <= t
    ensures Level(Step(states, c), rule(key), t) ==
            Min(rule(key).capacity, Level(states, rule(key), c.now) - Spent(states, c, key) + Earned(rule(key), t - c.now))
    ensures !Admits(states, c) ==> Level(Step(states, c), rule(key), t) == Level(states, rule(key), t)
  {
    if Admits(states, c) {
      AdmittedLevel(rule, states, c, key, t);
    } else {
      DeniedLevel(rule, states, c, key, t);
      RefillComposes(states, rule(key), c.now, t);
    }
  }

  // ---- what resetAt means

  /** Earning an amount takes the time it takes. */
  lemma EarnedByTheTime(r: BucketRule, ms: int, missing: real)
    requires r.refillPerSecond > 0.0
    ensures Earned(r, ms) >= missing <==> ms as real >= missing / r.refillPerSecond * 1000.0
  {
    var f := r.refillPerSecond;
    var seconds, needed := ms as real / 1000.0, missing / f;
    assert needed * f == missing;
    assert (seconds - needed) * f == seconds * f - missing;
  }

  /** The bucket that refused a call can pay for it, left alone, exactly from resetAt on; a
      bucket too small for the cost, or one that is not refilled, never can. */
  lemma DeniedUntilReset(rule: string -> BucketRule, states: States, c: Call, t: int)
    requires Configured(rule) && ValidCall(rule, c) && c.now <= t && !Admits(states, c)
    ensures var r := c.rules[FirstShort(states, c.rules, c.cost, c.now)];
      var resetAt := ResetAt(r, c.cost - Level(states, r, c.now), c.now);
      Level(Step(states, c), r, t) >= c.cost <==> c.cost <= r.capacity && resetAt.Some? && t as real >= resetAt.value
  {
    var r := c.rules[FirstShort(states, c.rules, c.cost, c.now)];
    assert r == rule(r.key);
    DeniedLevel(rule, states, c, r.key, t);
    RefillComposes(states, r, c.now, t);
    if r.refillPerSecond > 0.0 {
      EarnedByTheTime(r, t - c.now, c.cost - Level(states, r, c.now));
    } else {
      assert Earned(r, t - c.now) == 0.0;
    }
  }

  /** A bucket an admitted call has charged is full again, left alone, exactly from resetAt on. */
  lemma FullAgainAtReset(rule: string -> BucketRule, states: States, c: Call, i: nat, t: int)
    requires Configured(rule) && ValidCall(rule, c) && c.now <= t && Admits(states, c) && i < |c.rules|
    ensures var r := c.rules[i];
      var missing := r.capacity - (Level(states, r, c.now) - c.cost);
      var resetAt := ResetAt(r, missing, c.now);
      Level(Step(states, c), r, t) == r.capacity <==> if resetAt.Some? then t as real >= resetAt.value else missing <= 0.0
  {
    var r := c.rules[i];
    assert r == rule(r.key) && Mentions(c.rules, r.key);
    AdmittedLevel(rule, states, c, r.key, t);
    if r.refillPerSecond > 0.0 {
      EarnedByTheTime(r, t - c.now, r.capacity - (Level(states, r, c.now) - c.cost));
    } else {
      assert Earned(r, t - c.now) == 0.0;
    }
  }

  /** `n` is the greatest whole number not above `x`. */
  predicate IsFloor(n: int, x: real) {
    n as real <= x < n as real + 1.0
  }

  /** What a refused caller is told: the first bucket that could not pay, its capacity and whole
      tokens, and the time from which, left alone, it can pay; no time if it is never refilled. */
  lemma RefusalReport(rule: string -> BucketRule, states: States, c: Call, result: LimitResult, t: int) returns (n: nat)
    requires Configured(rule) && ValidCall(rule, c) && c.now <= t && !Admits(states, c)
    requires ResultOf(states, c.rules, c.cost, c.now, result)
    ensures n < |c.rules| && Level(states, c.rules[n], c.now) < c.cost
    ensures forall i :: 0 <= i < n ==> Level(states, c.rules[i], c.now) >= c.cost
    ensures result.Denied? && result.reason == c.rules[n].key && result.limit == c.rules[n].capacity
    ensures IsFloor(result.remaining, Level(states, c.rules[n], c.now))
    ensures result.resetAt.Some? <==> c.rules[n].refillPerSecond != 0.0
    ensures Level(Step(states, c), c.rules[n], t) >= c.cost
       <==> c.cost <= c.rules[n].capacity && result.resetAt.Some? && t as real >= result.resetAt.value
  {
    n := FirstShort(states, c.rules, c.cost, c.now);
    DeniedUntilReset(rule, states, c, t);
  }

  /** What an admitted caller is told: of the buckets it has just charged, the one that now holds
      least, its capacity, its whole tokens, and the time from which, left alone, it is full. */
  lemma AdmissionReport(rule: string -> BucketRule, states: States, c: Call, result: LimitResult, t: int) returns (tight: nat)
    requires Configured(rule) && ValidCall(rule, c) && c.now <= t && Admits(states, c) && c.rules != []
    requires ResultOf(states, c.rules, c.cost, c.now, result)
    ensures tight < |c.rules|
    ensures forall i :: 0 <= i < |c.rules| ==> Level(Step(states, c), c.rules[tight], c.now) <= Level(Step(states, c), c.rules[i], c.now)
    ensures result.Allowed? && result.limit == c.rules[tight].capacity
    ensures IsFloor(result.remaining, Level(Step(states, c), c.rules[tight], c.now))
    ensures result.resetAt.Some? <==> c.rules[tight].refillPerSecond != 0.0
    ensures result.resetAt.Some? ==>
      (Level(Step(states, c), c.rules[tight], t) == c.rules[tight].capacity <==> t as real >= result.resetAt.value)
  {
    tight := TightestOf(states, c, result);
    ReportedAsHeld(rule, states, c, result, tight, t);
  }

  lemma TightestOf(states: States, c: Call, result: LimitResult) returns (tight: nat)
    requires Admits(states, c) && c.rules != [] && ResultOf(states, c.rules, c.cost, c.now, result)
    ensures TightReport(Levels(states, c.rules, c.now), c, result, tight)
  {
    tight := TightestIn(Levels(states, c.rules, c.now), c, result);
  }

  ghost predicate TightReport(levels: seq<real>, c: Call, result: LimitResult, tight: nat) {
    && tight < |levels| == |c.rules| && (forall i :: 0 <= i < |levels| ==> levels[tight] <= levels[i])
    && Reports(result, c.rules[tight], levels[tight] - c.cost, c.now)
  }

  lemma ReportedAsHeld(rule: string -> BucketRule, states: States, c: Call, result: LimitResult, tight: nat, t: int)
    requires Configured(rule) && ValidCall(rule, c) && c.now <= t && Admits(states, c)
    requires TightReport(Levels(states, c.rules, c.now), c, result, tight)
    ensures tight < |c.rules|
    ensures forall i :: 0 <= i < |c.rules| ==> Level(Step(states, c), c.rules[tight], c.now) <= Level(Step(states, c), c.rules[i], c.now)
    ensures result.Allowed? && result.limit == c.rules[tight].capacity
    ensures IsFloor(result.remaining, Level(Step(states, c), c.rules[tight], c.now))
    ensures result.resetAt.Some? <==> c.rules[tight].refillPerSecond != 0.0
    ensures result.resetAt.Some? ==>
      (Level(Step(states, c), c.rules[tight], t) == c.rules[tight].capacity <==> t as real >= result.resetAt.value)
  {
    LeastAfterCharge(rule, states, c, tight);
    FloorAsReported(rule, states, c, result, tight);
    FullAgainAsReported(rule, states, c, result, tight, t);
  }

  lemma TightestIn(levels: seq<real>, c: Call, result: LimitResult) returns (tight: nat)
    requires |levels| == |c.rules| && c.rules != [] && ResultGiven(levels, |c.rules|, c.rules, c.cost, c.now, result)
    ensures TightReport(levels, c, result, tight)
  {
    tight :| Tightest(levels, tight) && result == AllowedBy(c.rules[tight], levels[tight] - c.cost, c.now);
  }

  /** `left` is what the bucket of this rule holds after the charge. */
  predicate Reports(result: LimitResult, r: BucketRule, left: real, now: int) {
    result == AllowedBy(r, left, now)
  }

  lemma LeastAfterCharge(rule: string -> BucketRule, states: States, c: Call, tight: nat)
    requires Configured(rule) && ValidCall(rule, c) && Admits(states, c) && tight < |c.rules|
    requires var levels := Levels(states, c.rules, c.now); forall i :: 0 <= i < |levels| ==> levels[tight] <= levels[i]
    ensures forall i :: 0 <= i < |c.rules| ==> Level(Step(states, c), c.rules[tight], c.now) <= Level(Step(states, c), c.rules[i], c.now)
  {
    AllCharged(rule, states, c);
    var levels := Levels(states, c.rules, c.now);
    forall i | 0 <= i < |c.rules|
      ensures Level(Step(states, c), c.rules[tight], c.now) <= Level(Step(states, c), c.rules[i], c.now)
    {
      assert levels[tight] <= levels[i];
    }
  }

  lemma FloorAsReported(rule: string -> BucketRule, states: States, c: Call, result: LimitResult, i: nat)
    requires Configured(rule) && ValidCall(rule, c) && Admits(states, c) && i < |c.rules|
    requires Reports(result, c.rules[i], Levels(states, c.rules, c.now)[i] - c.cost, c.now)
    ensures result.Allowed? && result.limit == c.rules[i].capacity
    ensures IsFloor(result.remaining, Level(Step(states, c), c.rules[i], c.now))
  {
    LevelAfterCharge(rule, states, c, i);
  }

  lemma FullAgainAsReported(rule: string -> BucketRule, states: States, c: Call, result: LimitResult, i: nat, t: int)
    requires Configured(rule) && ValidCall(rule, c) && c.now <= t && Admits(states, c) && i < |c.rules|
    requires Reports(result, c.rules[i], Levels(states, c.rules, c.now)[i] - c.cost, c.now)
    ensures result.Allowed?
    ensures result.resetAt.Some? <==> c.rules[i].refillPerSecond != 0.0
    ensures result.resetAt.Some? ==> (Level(Step(states, c), c.rules[i], t) == c.rules[i].capacity <==> t as real >= result.resetAt.value)
  {
    FullAgainAtReset(rule, states, c, i, t);
  }

  lemma AllCharged(rule: string -> BucketRule, states: States, c: Call)
    requires Configured(rule) && ValidCall(rule, c) && Admits(states, c)
    ensures forall i :: 0 <= i < |c.rules| ==> Level(Step(states, c), c.rules[i], c.now) == Level(states, c.rules[i], c.now) - c.cost
  {
    forall i | 0 <= i < |c.rules| ensures Level(Step(states, c), c.rules[i], c.now) == Level(states, c.rules[i], c.now) - c.cost {
      LevelAfterCharge(rule, states, c, i);
    }
  }

  lemma LevelAfterCharge(rule: string -> BucketRule, states: States, c: Call, i: nat)
    requires Configured(rule) && ValidCall(rule, c) && Admits(states, c) && i < |c.rules|
    ensures Level(Step(states, c), c.rules[i], c.now) == Level(states, c.rules[i], c.now) - c.cost
  {
    assert c.rules[i] == rule(c.rules[i].key) && Mentions(c.rules, c.rules[i].key);
    AdmittedLevel(rule, states, c, c.rules[i].key, c.now);
    EarnedAdds(c.rules[i], 0, 0);
  }

  /** A bucket never used before is full: a first call is admitted exactly when no bucket is too
      small for its cost. */
  lemma FirstCallAdmittedIffItFits(rule: string -> BucketRule, states: States, c: Call)
    requires Configured(rule) && ValidCall(rule, c) && forall i :: 0 <= i < |c.rules| ==> c.rules[i].key !in states
    ensures Admits(states, c) <==> forall i :: 0 <= i < |c.rules| ==> c.cost <= c.rules[i].capacity
  {
    forall i | 0 <= i < |c.rules| ensures Level(states, c.rules[i], c.now) == c.rules[i].capacity {
      EarnedAdds(c.rules[i], 0, 0);
    }
  }

  // ---- refusals leave no trace

  /** From `now` on, the buckets hold the same. */
  ghost predicate Alike(rule: string -> BucketRule, s: States, s': States, now: int) {
    forall k, t :: now <= t ==> Level(s, rule(k), t) == Level(s', rule(k), t)
  }

  lemma AlikeDecideAlike(rule: string -> BucketRule, s: States, s': States, c: Call)
    requires Configured(rule) && ValidCall(rule, c) && Alike(rule, s, s', c.now)
    ensures Admits(s, c) == Admits(s', c)
    ensures Alike(rule, Step(s, c), Step(s', c), c.now)
  {
    var n := FirstShort(s, c.rules, c.cost, c.now);
    assert forall i :: 0 <= i < |c.rules| ==> Level(s, c.rules[i], c.now) == Level(s', c.rules[i], c.now);
    FirstShortIs(s', c.rules, c.cost, c.now, n);
    forall k, t | c.now <= t ensures Level(Step(s, c), rule(k), t) == Level(Step(s', c), rule(k), t) {
      CallCharges(rule, s, c, k, t);
      CallCharges(rule, s', c, k, t);
    }
  }

  lemma {:induction false} AlikeRunsAlike(rule: string -> BucketRule, s: States, s': States, now: int, calls: seq<Call>)
    requires Configured(rule) && ValidRun(rule, now, calls) && Alike(rule, s, s', now)
    ensures Decisions(s, calls) == Decisions(s', calls)
    decreases |calls|
  {
    if calls != [] {
      AlikeDecideAlike(rule, s, s', calls[0]);
      AlikeRunsAlike(rule, Step(s, calls[0]), Step(s', calls[0]), calls[0].now, calls[1..]);
    }
  }

  /** A refused call changes no later decision, in any run. */
  lemma RefusalLeavesNoTrace(rule: string -> BucketRule, states: States, refused: Call, later: seq<Call>)
    requires Configured(rule) && ValidCall(rule, refused) && ValidRun(rule, refused.now, later)
    requires !Admits(states, refused)
    ensures Decisions(Step(states, refused), later) == Decisions(states, later)
  {
    forall k, t | refused.now <= t ensures Level(Step(states, refused), rule(k), t) == Level(states, rule(k), t) {
      CallCharges(rule, states, refused, k, t);
    }
    AlikeRunsAlike(rule, Step(states, refused), states, refused.now, later);
  }

  // ---- bounds

  /** Tokens stay within 0 and capacity. */
  ghost predicate Inv(rule: string -> BucketRule, states: States, now: int) {
    forall k :: k in states ==> states[k].at <= now && 0.0 <= states[k].tokens <= rule(k).capacity
  }

  lemma LevelInRange(rule: string -> BucketRule, states: States, key: string, now: int)
    requires Configured(rule) && Inv(rule, states, now)
    ensures 0.0 <= Level(states, rule(key), now) <= rule(key).capacity
  {
    var r := rule(key);
    EarnedNonNegative(r, now - Lookup(states, r, now).at);
  }

  lemma RefillInRange(rule: string -> BucketRule, states: States, rules: seq<BucketRule>, now: int)
    requires Configured(rule) && Inv(rule, states, now)
    requires forall i :: 0 <= i < |rules| ==> rules[i] == rule(rules[i].key)
    ensures Inv(rule, Refill(states, rules, now), now)
  {
    if rules != [] {
      RefillInRange(rule, states, rules[..|rules| - 1], now);
      LevelInRange(rule, states, rules[|rules| - 1].key, now);
    }
  }

  lemma ChargeInRange(rule: string -> BucketRule, states: States, rules: seq<BucketRule>, cost: real, now: int)
    requires Configured(rule) && Inv(rule, states, now) && cost >= 0.0
    requires forall i :: 0 <= i < |rules| ==> rules[i] == rule(rules[i].key)
    requires forall i :: 0 <= i < |rules| ==> Level(states, rules[i], now) >= cost
    ensures Inv(rule, Charge(states, rules, cost, now), now)
  {
    if rules != [] {
      ChargeInRange(rule, states, rules[..|rules| - 1], cost, now);
      LevelInRange(rule, states, rules[|rules| - 1].key, now);
    }
  }

  lemma StepInRange(rule: string -> BucketRule, states: States, c: Call, now: int)
    requires Configured(rule) && ValidCall(rule, c) && Inv(rule, states, now) && now <= c.now
    ensures Inv(rule, Step(states, c), c.now)
  {
    var n := FirstShort(states, c.rules, c.cost, c.now);
    if n < |c.rules| {
      RefillInRange(rule, states, c.rules[..n + 1], c.now);
    } else {
      RefillInRange(rule, states, c.rules, c.now);
      RefilledLevels(states, c.rules, c.now);
      var base := Refill(states, c.rules, c.now);
      assert forall i :: 0 <= i < |c.rules| ==>
        Levels(base, c.rules, c.now)[i] == Levels(states, c.rules, c.now)[i];
      ChargeInRange(rule, base, c.rules, c.cost, c.now);
    }
  }

  function EndOf(since: int, calls: seq<Call>): int {
    if calls == [] then since else calls[|calls| - 1].now
  }

  /** In every run of checks no bucket is overdrawn or overfilled. */
  lemma {:induction false} TokensStayInRange(rule: string -> BucketRule, states: States, since: int, calls: seq<Call>)
    requires Configured(rule) && Inv(rule, states, since) && ValidRun(rule, since, calls)
    ensures Inv(rule, Run(states, calls), EndOf(since, calls))
    decreases |calls|
  {
    if calls != [] {
      StepInRange(rule, states, calls[0], since);
      TokensStayInRange(rule, Step(states, calls[0]), calls[0].now, calls[1..]);
    }
  }

  lemma SpentInOneCall(rule: string -> BucketRule, states: States, key: string, t0: int, c: Call)
    requires Configured(rule) && ValidCall(rule, c) && t0 <= c.now
    ensures Spent(states, c, key) + Level(Step(states, c), rule(key), c.now) <=
            Level(states, rule(key), t0) + Earned(rule(key), c.now - t0)
  {
    CallCharges(rule, states, c, key, c.now);
    RefillComposes(states, rule(key), t0, c.now);
    EarnedAdds(rule(key), 0, 0);
  }

  /** Conservation: what is spent and what is left is at most what was there and was earned. */
  lemma {:induction false} SpentPlusLeft(rule: string -> BucketRule, states: States, key: string, t0: int, t1: int, calls: seq<Call>)
    requires Configured(rule) && Inv(rule, states, t0) && ValidRun(rule, t0, calls) && EndOf(t0, calls) <= t1
    ensures TotalSpent(states, calls, key) + Level(Run(states, calls), rule(key), t1) <=
            Level(states, rule(key), t0) + Earned(rule(key), t1 - t0)
    decreases |calls|
  {
    var r := rule(key);
    if calls == [] {
      RefillComposes(states, r, t0, t1);
    } else {
      var c := calls[0];
      RunEndsLate(rule, c.now, calls[1..]);
      StepInRange(rule, states, c, t0);
      SpentInOneCall(rule, states, key, t0, c);
      SpentPlusLeft(rule, Step(states, c), key, c.now, t1, calls[1..]);
      EarnedAdds(r, c.now - t0, t1 - c.now);
    }
  }

  lemma RunEndsLate(rule: string -> BucketRule, since: int, calls: seq<Call>)
    requires ValidRun(rule, since, calls)
    ensures since <= EndOf(since, calls)
    decreases |calls|
  {
    if calls != [] {
      RunEndsLate(rule, calls[0].now, calls[1..]);
    }
  }

  /** In any window of any run, whatever happened before it, the cost admitted on a bucket is at
      most its capacity and what it earns during the window. */
  lemma WindowBound(rule: string -> BucketRule, before: seq<Call>, start: int, window: seq<Call>, t0: int, t1: int, key: string)
    requires Configured(rule) && ValidRun(rule, start, before) && EndOf(start, before) <= t0
    requires ValidRun(rule, t0, window) && EndOf(t0, window) <= t1
    ensures TotalSpent(Run(map[], before), window, key) <= rule(key).capacity + Earned(rule(key), t1 - t0)
  {
    TokensStayInRange(rule, map[], start, before);
    var states := Run(map[], before);
    RunEndsLate(rule, t0, window);
    SpentPlusLeft(rule, states, key, t0, t1, window);
    TokensStayInRange(rule, states, t0, window);
    LevelInRange(rule, Run(states, window), key, t1);
    LevelInRange(rule, states, key, t0);
  }
}
