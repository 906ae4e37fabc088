/** The hierarchical token buckets of buckets.ts, over exact reals, with a clock in milliseconds. */
module TokenBuckets {
  import opened Options

  datatype BucketRule = BucketRule(key: string, capacity: real, refillPerSecond: real)
  datatype State = State(tokens: real, at: int)
  type States = map<string, State>

  /** resetAt is the time handed to Date, None where the division is by zero.
      Failed: reduce on no buckets throws. */
  datatype LimitResult =
    | Allowed(limit: real, remaining: int, resetAt: Option<real>)
    | Denied(limit: real, remaining: int, resetAt: Option<real>, reason: string)
    | Failed

  // ---- one bucket

  function Min(a: real, b: real): real {
    if a < b then a else b
  }

  function Earned(r: BucketRule, ms: int): real {
    ms as real / 1000.0 * r.refillPerSecond
  }

  /** A bucket never used before is full. */
  function Lookup(states: States, r: BucketRule, now: int): State {
    if r.key in states then states[r.key] else State(r.capacity, now)
  }

  function Refilled(s: State, r: BucketRule, now: int): State {
    State(Min(r.capacity, s.tokens + Earned(r, now - s.at)), now)
  }

  /** What the bucket of rule r holds at the given time, had nobody touched it since. */
  function Level(states: States, r: BucketRule, now: int): real {
    Refilled(Lookup(states, r, now), r, now).tokens
  }

  /** When a bucket will have earned what it is missing. */
  function ResetAt(r: BucketRule, missing: real, now: int): Option<real> {
    if r.refillPerSecond == 0.0 then None else Some(now as real + missing / r.refillPerSecond * 1000.0)
  }

  // ---- one check

  predicate DistinctKeys(rules: seq<BucketRule>) {
    forall i, j :: 0 <= i < j < |rules| ==> rules[i].key != rules[j].key
  }

  /** The first bucket that cannot pay. */
  function FirstShort(states: States, rules: seq<BucketRule>, cost: real, now: int): (n: nat)
    ensures n <= |rules|
    ensures n < |rules| ==> Level(states, rules[n], now) < cost
    ensures forall i :: 0 <= i < n ==> Level(states, rules[i], now) >= cost
  {
    if rules == [] || Level(states, rules[0], now) < cost then 0
    else 1 + FirstShort(states, rules[1..], cost, now)
  }

  function Levels(states: States, rules: seq<BucketRule>, now: int): (r: seq<real>)
    ensures |r| == |rules|
    ensures forall i :: 0 <= i < |rules| ==> r[i] == Level(states, rules[i], now)
  {
    seq(|rules|, i requires 0 <= i < |rules| => Level(states, rules[i], now))
  }

  /** The buckets already known, brought up to date. */
  function Refill(states: States, rules: seq<BucketRule>, now: int): States {
    if rules == [] then states
    else
      var r, before := rules[|rules| - 1], Refill(states, rules[..|rules| - 1], now);
      if r.key in states then before[r.key := State(Level(states, r, now), now)] else before
  }

  function Charge(states: States, rules: seq<BucketRule>, cost: real, now: int): States {
    if rules == [] then states
    else
      var r := rules[|rules| - 1];
      Charge(states, rules[..|rules| - 1], cost, now)[r.key := State(Level(states, r, now) - cost, now)]
  }

  function AfterCheck(states: States, rules: seq<BucketRule>, cost: real, now: int): States {
    var n := FirstShort(states, rules, cost, now);
    if n < |rules| then Refill(states, rules[..n + 1], now)
    else Charge(Refill(states, rules, now), rules, cost, now)
  }

  /** The last bucket with the fewest tokens, as the reduce picks it. */
  predicate Tightest(levels: seq<real>, t: nat) {
    && t < |levels|
    && (forall i :: 0 <= i < t ==> levels[t] <= levels[i])
    && (forall i :: t < i < |levels| ==> levels[t] < levels[i])
  }

  function AllowedBy(tight: BucketRule, tokens: real, now: int): LimitResult {
    Allowed(tight.capacity, tokens.Floor, ResetAt(tight, tight.capacity - tokens, now))
  }

  function DeniedBy(short: BucketRule, tokens: real, cost: real, now: int): LimitResult {
    Denied(short.capacity, tokens.Floor, ResetAt(short, cost - tokens, now), short.key)
  }

  /** The result, given what the buckets hold and the first of them that cannot pay. */
  ghost predicate ResultGiven(levels: seq<real>, n: nat, rules: seq<BucketRule>, cost: real, now: int, result: LimitResult)
    requires |levels| == |rules|
  {
    if n < |rules| then result == DeniedBy(rules[n], levels[n], cost, now)
    else if rules == [] then result.Failed?
    else exists t: nat :: Tightest(levels, t) && result == AllowedBy(rules[t], levels[t] - cost, now)
  }

  ghost predicate ResultOf(states: States, rules: seq<BucketRule>, cost: real, now: int, result: LimitResult) {
    ResultGiven(Levels(states, rules, now), FirstShort(states, rules, cost, now), rules, cost, now, result)
  }

  lemma FirstShortIs(states: States, rules: seq<BucketRule>, cost: real, now: int, n: nat)
    requires n <= |rules|
    requires forall i :: 0 <= i < n ==> Level(states, rules[i], now) >= cost
    requires n < |rules| ==> Level(states, rules[n], now) < cost
    ensures FirstShort(states, rules, cost, now) == n
  {
  }

  predicate Mentions(rules: seq<BucketRule>, key: string) {
    exists i :: 0 <= i < |rules| && rules[i].key == key
  }

  lemma RefillKeys(states: States, rules: seq<BucketRule>, now: int)
    ensures Refill(states, rules, now).Keys == states.Keys
  {
  }

  lemma RefillAt(states: States, rules: seq<BucketRule>, now: int, i: nat)
    requires DistinctKeys(rules) && i < |rules| && rules[i].key in states
    ensures rules[i].key in Refill(states, rules, now)
    ensures Refill(states, rules, now)[rules[i].key] == State(Level(states, rules[i], now), now)
  {
    if i < |rules| - 1 {
      RefillAt(states, rules[..|rules| - 1], now, i);
    }
  }

  lemma RefillElsewhere(states: States, rules: seq<BucketRule>, now: int, key: string)
    requires !Mentions(rules, key)
    ensures key in Refill(states, rules, now) <==> key in states
    ensures key in states ==> Refill(states, rules, now)[key] == states[key]
  {
    if rules != [] {
      assert rules[|rules| - 1].key != key;
      RefillElsewhere(states, rules[..|rules| - 1], now, key);
    }
  }

  lemma ChargeAt(states: States, rules: seq<BucketRule>, cost: real, now: int, i: nat)
    requires DistinctKeys(rules) && i < |rules|
    ensures rules[i].key in Charge(states, rules, cost, now)
    ensures Charge(states, rules, cost, now)[rules[i].key] == State(Level(states, rules[i], now) - cost, now)
  {
    if i < |rules| - 1 {
      ChargeAt(states, rules[..|rules| - 1], cost, now, i);
    }
  }

  lemma ChargeElsewhere(states: States, rules: seq<BucketRule>, cost: real, now: int, key: string)
    requires !Mentions(rules, key)
    ensures key in Charge(states, rules, cost, now) <==> key in states
    ensures key in states ==> Charge(states, rules, cost, now)[key] == states[key]
  {
    if rules != [] {
      assert rules[|rules| - 1].key != key;
      ChargeElsewhere(states, rules[..|rules| - 1], cost, now, key);
    }
  }

  class InMemoryHierarchicalRateLimiter {
    var states: States

    constructor ()
      ensures states == map[]
    {
      states := map[];
    }

    method Check(rules: seq<BucketRule>, cost: real, now: int) returns (result: LimitResult)
      requires DistinctKeys(rules)
      modifies this
      ensures states == AfterCheck(old(states), rules, cost, now)
      ensures ResultOf(old(states), rules, cost, now, result)
    {
      var touched := TouchAll(rules, cost, now);
      var n := |touched| - 1;
      if n >= 0 && touched[n] < cost {
        return DeniedBy(rules[n], touched[n], cost, now);
      }
      RefilledLevels(old(states), rules, now);
      Pay(rules, touched, cost, now);
      result := Summary(rules, touched, cost, now);
    }

    /** The first loop: the levels of the buckets, up to and including the first that cannot pay. */
    method TouchAll(rules: seq<BucketRule>, cost: real, now: int) returns (touched: seq<real>)
      requires DistinctKeys(rules)
      modifies this
      ensures var n := FirstShort(old(states), rules, cost, now);
        var looked := if n < |rules| then rules[..n + 1] else rules;
        touched == Levels(old(states), looked, now) && states == Refill(old(states), looked, now)
    {
      touched := [];
      for n := 0 to |rules|
        invariant touched == Levels(old(states), rules[..n], now)
        invariant forall i :: 0 <= i < n ==> Level(old(states), rules[i], now) >= cost
        invariant states == Refill(old(states), rules[..n], now)
      {
        RefillLeaves(old(states), rules, n, now);
        var s := Touch(rules[n], now);
        RefillStep(old(states), rules, n, now);
        touched := touched + [s.tokens];
        if s.tokens < cost {
          FirstShortIs(old(states), rules, cost, now, n);
          return;
        }
      }
      FirstShortIs(old(states), rules, cost, now, |rules|);
      assert rules[..|rules|] == rules;
    }

    /** The state of one bucket, refilled; a bucket already in the map is refilled in place. */
    method Touch(r: BucketRule, now: int) returns (s: State)
      modifies this
      ensures s == Refilled(Lookup(old(states), r, now), r, now)
      ensures states == if r.key in old(states) then old(states)[r.key := s] else old(states)
    {
      s := Refilled(Lookup(states, r, now), r, now);
      if r.key in states {
        states := states[r.key := s];
      }
    }

    method Pay(rules: seq<BucketRule>, touched: seq<real>, cost: real, now: int)
      requires touched == Levels(states, rules, now)
      modifies this
      ensures states == Charge(old(states), rules, cost, now)
    {
      for n := 0 to |rules|
        invariant states == Charge(old(states), rules[..n], cost, now)
      {
        assert touched[n] == Level(old(states), rules[n], now);
        states := states[rules[n].key := State(touched[n] - cost, now)];
        assert rules[..n + 1][..n] == rules[..n];
      }
      assert rules[..|rules|] == rules;
    }
  }

  method Summary(rules: seq<BucketRule>, touched: seq<real>, cost: real, now: int) returns (result: LimitResult)
    requires |touched| == |rules|
    ensures ResultGiven(touched, |rules|, rules, cost, now, result)
  {
    if |rules| == 0 {
      return Failed;
    }
    var tight := Tight(touched, cost);
    assert Tightest(touched, tight);
    return AllowedBy(rules[tight], touched[tight] - cost, now);
  }

  method Tight(touched: seq<real>, cost: real) returns (tight: nat)
    requires touched != []
    ensures tight < |touched|
    ensures forall i :: 0 <= i < tight ==> touched[tight] <= touched[i]
    ensures forall i :: tight < i < |touched| ==> touched[tight] < touched[i]
  {
    tight := 0;
    for n := 1 to |touched|
      invariant tight < n
      invariant forall i :: 0 <= i < tight ==> touched[tight] <= touched[i]
      invariant forall i :: tight < i < n ==> touched[tight] < touched[i]
    {
      if !(touched[tight] - cost < touched[n] - cost) {
        tight := n;
      }
    }
  }

  lemma RefillLeaves(states: States, rules: seq<BucketRule>, n: nat, now: int)
    requires DistinctKeys(rules) && n < |rules|
    ensures Lookup(Refill(states, rules[..n], now), rules[n], now) == Lookup(states, rules[n], now)
    ensures rules[n].key in Refill(states, rules[..n], now) <==> rules[n].key in states
  {
    RefillElsewhere(states, rules[..n], now, rules[n].key);
  }

  lemma RefillStep(states: States, rules: seq<BucketRule>, n: nat, now: int)
    requires n < |rules|
    ensures var r, before := rules[n], Refill(states, rules[..n], now);
      Refill(states, rules[..n + 1], now) ==
        (if r.key in states then before[r.key := State(Level(states, r, now), now)] else before)
    ensures Levels(states, rules[..n + 1], now) == Levels(states, rules[..n], now) + [Level(states, rules[n], now)]
  {
    assert rules[..n + 1][..n] == rules[..n];
  }

  lemma RefilledLevels(states: States, rules: seq<BucketRule>, now: int)
    requires DistinctKeys(rules)
    ensures Levels(Refill(states, rules, now), rules, now) == Levels(states, rules, now)
  {
    forall i | 0 <= i < |rules|
      ensures Level(Refill(states, rules, now), rules[i], now) == Level(states, rules[i], now)
    {
      RefillKeys(states, rules, now);
      if rules[i].key in states {
        RefillAt(states, rules, now, i);
      }
      assert Earned(rules[i], 0) == 0.0;
    }
  }
}
