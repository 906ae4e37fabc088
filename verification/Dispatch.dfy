/** Grouping and ordering of command requests: `orderForDispatch` of
    CommandRequestPoller.kt and the per-participant selection of `claimPending`. */
module Dispatch {
  import opened CommandTables

  /** `a` may stand before `b`: priority descending, then availability. */
  predicate Before(a: CommandRequest, b: CommandRequest) {
    a.priority > b.priority || (a.priority == b.priority && a.availableAt <= b.availableAt)
  }

  ghost predicate Ordered(s: seq<CommandRequest>) {
    forall i, j :: 0 <= i < j < |s| ==> Before(s[i], s[j])
  }

  function Eligible(s: seq<CommandRequest>, now: int): seq<CommandRequest> {
    if s == [] then []
    else if s[0].availableAt <= now then [s[0]] + Eligible(s[1..], now)
    else Eligible(s[1..], now)
  }

  function Insert(x: CommandRequest, s: seq<CommandRequest>): seq<CommandRequest> {
    if s == [] || Before(x, s[0]) then [x] + s else [s[0]] + Insert(x, s[1..])
  }

  /** The stable sort of sortedWith. */
  function Sort(s: seq<CommandRequest>): seq<CommandRequest> {
    if s == [] then [] else Insert(s[0], Sort(s[1..]))
  }

  function OfParticipant(s: seq<CommandRequest>, participant: string): seq<CommandRequest> {
    if s == [] then []
    else if s[0].participantId == participant then [s[0]] + OfParticipant(s[1..], participant)
    else OfParticipant(s[1..], participant)
  }

  function Without(ps: seq<string>, p: string): seq<string> {
    if ps == [] then [] else if ps[0] == p then Without(ps[1..], p) else [ps[0]] + Without(ps[1..], p)
  }

  /** The keys of groupBy, in order of first occurrence. */
  function Participants(s: seq<CommandRequest>): seq<string> {
    if s == [] then [] else [s[0].participantId] + Without(Participants(s[1..]), s[0].participantId)
  }

  function Take(s: seq<CommandRequest>, k: nat): seq<CommandRequest> {
    if |s| <= k then s else s[..k]
  }

  /** flatMap of take(k) over the groups of the given participants. */
  function TakeEach(s: seq<CommandRequest>, participants: seq<string>, k: nat): seq<CommandRequest> {
    if participants == [] then []
    else Take(OfParticipant(s, participants[0]), k) + TakeEach(s, participants[1..], k)
  }

  function OrderForDispatch(requests: seq<CommandRequest>, now: int, participantConcurrency: nat): seq<CommandRequest> {
    var sorted := Sort(Eligible(requests, now));
    Sort(TakeEach(sorted, Participants(sorted), participantConcurrency))
  }

  /** The rows `claimPending` keeps out of those its SELECT returned. */
  function SelectForClaim(rows: seq<CommandRequest>, limit: nat, participantLimit: nat): seq<CommandRequest> {
    Take(TakeEach(rows, Participants(rows), participantLimit), limit)
  }

  // ---- sorting

  lemma {:induction false} InsertCounts(x: CommandRequest, s: seq<CommandRequest>)
    ensures multiset(Insert(x, s)) == multiset(s) + multiset{x}
    decreases |s|
  {
    if s != [] && !Before(x, s[0]) {
      InsertCounts(x, s[1..]);
      assert s == [s[0]] + s[1..];
    }
  }

  lemma InsertMembers(x: CommandRequest, s: seq<CommandRequest>, y: CommandRequest)
    requires y in Insert(x, s)
    ensures y == x || y in s
  {
    InsertCounts(x, s);
    assert y in multiset(Insert(x, s));
  }

  lemma {:induction false} InsertOrders(x: CommandRequest, s: seq<CommandRequest>)
    requires Ordered(s)
    ensures Ordered(Insert(x, s))
    decreases |s|
  {
    if s != [] && !Before(x, s[0]) {
      InsertOrders(x, s[1..]);
      var r := Insert(x, s[1..]);
      forall j | 0 <= j < |r| ensures Before(s[0], r[j]) {
        InsertMembers(x, s[1..], r[j]);
      }
    }
  }

  lemma InsertFacts(x: CommandRequest, s: seq<CommandRequest>)
    requires Ordered(s)
    ensures Ordered(Insert(x, s))
    ensures multiset(Insert(x, s)) == multiset(s) + multiset{x}
  {
    InsertCounts(x, s);
    InsertOrders(x, s);
  }

  lemma {:induction false} SortFacts(s: seq<CommandRequest>)
    ensures Ordered(Sort(s))
    ensures multiset(Sort(s)) == multiset(s)
  {
    if s != [] {
      SortFacts(s[1..]);
      InsertFacts(s[0], Sort(s[1..]));
      assert s == [s[0]] + s[1..];
    }
  }

  lemma EligibleCounts(s: seq<CommandRequest>, now: int, x: CommandRequest)
    ensures multiset(Eligible(s, now))[x] == if x.availableAt <= now then multiset(s)[x] else 0
  {
    if s != [] {
      EligibleCounts(s[1..], now, x);
      assert s == [s[0]] + s[1..];
    }
  }

  // ---- grouping

  lemma OfParticipantCounts(s: seq<CommandRequest>, p: string, x: CommandRequest)
    ensures multiset(OfParticipant(s, p))[x] == if x.participantId == p then multiset(s)[x] else 0
  {
    if s != [] {
      OfParticipantCounts(s[1..], p, x);
      assert s == [s[0]] + s[1..];
    }
  }

  lemma OfParticipantMembers(s: seq<CommandRequest>, p: string)
    ensures forall x :: x in OfParticipant(s, p) <==> x in s && x.participantId == p
  {
  }

  lemma OfParticipantOrdered(s: seq<CommandRequest>, p: string)
    requires Ordered(s)
    ensures Ordered(OfParticipant(s, p))
  {
    if s != [] {
      OfParticipantOrdered(s[1..], p);
      OfParticipantMembers(s[1..], p);
      var rest := OfParticipant(s[1..], p);
      forall j | 0 <= j < |rest| ensures Before(s[0], rest[j]) {
        assert rest[j] in rest;
      }
    }
  }

  ghost predicate Distinct(ps: seq<string>) {
    forall i, j :: 0 <= i < j < |ps| ==> ps[i] != ps[j]
  }

  lemma WithoutFacts(ps: seq<string>, p: string)
    requires Distinct(ps)
    ensures forall q :: q in Without(ps, p) <==> q in ps && q != p
    ensures Distinct(Without(ps, p))
  {
    if ps != [] {
      WithoutFacts(ps[1..], p);
      var rest := Without(ps[1..], p);
      assert forall j :: 0 <= j < |rest| ==> rest[j] in rest;
      assert forall q :: q in ps <==> q == ps[0] || q in ps[1..];
    }
  }

  lemma ParticipantsFacts(s: seq<CommandRequest>)
    ensures Distinct(Participants(s))
    ensures forall x :: x in s ==> x.participantId in Participants(s)
  {
    if s != [] {
      ParticipantsFacts(s[1..]);
      WithoutFacts(Participants(s[1..]), s[0].participantId);
      var rest := Without(Participants(s[1..]), s[0].participantId);
      assert forall j :: 0 <= j < |rest| ==> rest[j] in rest;
    }
  }

  lemma TakeEachCounts(s: seq<CommandRequest>, ps: seq<string>, k: nat, x: CommandRequest)
    requires Distinct(ps)
    ensures multiset(TakeEach(s, ps, k))[x]
         == if x.participantId in ps then multiset(Take(OfParticipant(s, x.participantId), k))[x] else 0
  {
    if ps != [] {
      TakeEachCounts(s, ps[1..], k, x);
      OfParticipantMembers(s, ps[0]);
      var head := Take(OfParticipant(s, ps[0]), k);
      if x.participantId != ps[0] {
        assert x !in head;
      }
    }
  }

  /** What grouping and taking keeps, per request: as many copies as stand among the
      first k of its own participant. */
  lemma {:induction false} GroupedCounts(s: seq<CommandRequest>, k: nat, x: CommandRequest)
    ensures multiset(TakeEach(s, Participants(s), k))[x] == multiset(Take(OfParticipant(s, x.participantId), k))[x]
    ensures multiset(TakeEach(s, Participants(s), k))[x] <= multiset(s)[x]
  {
    var p := x.participantId;
    ParticipantsFacts(s);
    TakeEachCounts(s, Participants(s), k, x);
    OfParticipantMembers(s, p);
    OfParticipantCounts(s, p, x);
    TakeCounts(OfParticipant(s, p), k);
    if x in Take(OfParticipant(s, p), k) {
      assert x in s;
    }
  }

  lemma TakeCounts(s: seq<CommandRequest>, k: nat)
    ensures multiset(Take(s, k)) <= multiset(s)
    ensures k <= |s| ==> multiset(Take(s, k)) + multiset(s[k..]) == multiset(s)
  {
    if k <= |s| {
      assert s == s[..k] + s[k..];
    }
  }

  /** `claimPending` keeps only rows its SELECT returned, each at most as often, and at
      most `limit` of them. */
  lemma SelectForClaimFacts(rows: seq<CommandRequest>, limit: nat, participantLimit: nat)
    ensures multiset(SelectForClaim(rows, limit, participantLimit)) <= multiset(rows)
    ensures |SelectForClaim(rows, limit, participantLimit)| <= limit
    ensures forall p :: |OfParticipant(SelectForClaim(rows, limit, participantLimit), p)| <= participantLimit
  {
    var grouped := TakeEach(rows, Participants(rows), participantLimit);
    var selected := Take(grouped, limit);
    TakeCounts(grouped, limit);
    forall x ensures multiset(grouped)[x] <= multiset(rows)[x] {
      GroupedCounts(rows, participantLimit, x);
    }
    forall p ensures |OfParticipant(selected, p)| <= participantLimit {
      forall x ensures multiset(OfParticipant(selected, p))[x] <= multiset(Take(OfParticipant(rows, p), participantLimit))[x] {
        OfParticipantCounts(selected, p, x);
        GroupedCounts(rows, participantLimit, x);
      }
      SubmultisetSize(OfParticipant(selected, p), Take(OfParticipant(rows, p), participantLimit));
    }
  }

  lemma GroupedOfParticipant(rows: seq<CommandRequest>, k: nat, p: string)
    ensures |OfParticipant(TakeEach(rows, Participants(rows), k), p)| == |Take(OfParticipant(rows, p), k)|
  {
    var grouped := TakeEach(rows, Participants(rows), k);
    forall x ensures multiset(OfParticipant(grouped, p))[x] == multiset(Take(OfParticipant(rows, p), k))[x] {
      OfParticipantCounts(grouped, p, x);
      GroupedCounts(rows, k, x);
      OfParticipantMembers(rows, p);
      if x.participantId != p {
        assert x !in Take(OfParticipant(rows, p), k);
      }
    }
    SameSize(OfParticipant(grouped, p), Take(OfParticipant(rows, p), k));
  }

  /** No row is left unclaimed without need: if one is, either `limit` rows are claimed or
      `participantLimit` of its own participant. */
  lemma LeftUnclaimedMeansFull(rows: seq<CommandRequest>, limit: nat, participantLimit: nat, x: CommandRequest)
    requires multiset(SelectForClaim(rows, limit, participantLimit))[x] < multiset(rows)[x]
    ensures var selected := SelectForClaim(rows, limit, participantLimit);
      |selected| == limit || |OfParticipant(selected, x.participantId)| == participantLimit
  {
    var p := x.participantId;
    var grouped := TakeEach(rows, Participants(rows), participantLimit);
    if |grouped| <= limit {
      GroupedCounts(rows, participantLimit, x);
      OfParticipantCounts(rows, p, x);
      GroupedOfParticipant(rows, participantLimit, p);
    }
  }

  lemma SubmultisetSize(a: seq<CommandRequest>, b: seq<CommandRequest>)
    requires multiset(a) <= multiset(b)
    ensures |a| <= |b|
  {
    assert multiset(b) == multiset(a) + (multiset(b) - multiset(a));
    assert |multiset(b)| == |multiset(a)| + |multiset(b) - multiset(a)|;
  }

  // ---- ties

  /** The requests of one priority and availability, in the order they stand. */
  function OfRank(s: seq<CommandRequest>, priority: int, availableAt: int): seq<CommandRequest> {
    if s == [] then []
    else (if s[0].priority == priority && s[0].availableAt == availableAt then [s[0]] else []) + OfRank(s[1..], priority, availableAt)
  }

  lemma {:induction false} InsertKeepsTies(x: CommandRequest, s: seq<CommandRequest>, priority: int, availableAt: int)
    requires Ordered(s)
    ensures OfRank(Insert(x, s), priority, availableAt) == OfRank([x] + s, priority, availableAt)
    decreases |s|
  {
    assert ([x] + s)[1..] == s;
    if s != [] && !Before(x, s[0]) {
      InsertKeepsTies(x, s[1..], priority, availableAt);
      assert ([x] + s[1..])[1..] == s[1..];
    }
  }

  /** Sorting is stable: requests that tie stay in the order they were read. */
  lemma {:induction false} SortKeepsTies(s: seq<CommandRequest>, priority: int, availableAt: int)
    ensures OfRank(Sort(s), priority, availableAt) == OfRank(s, priority, availableAt)
  {
    if s != [] {
      SortKeepsTies(s[1..], priority, availableAt);
      SortFacts(s[1..]);
      InsertKeepsTies(s[0], Sort(s[1..]), priority, availableAt);
      assert ([s[0]] + Sort(s[1..]))[1..] == Sort(s[1..]);
    }
  }

  // ---- the dispatch order

  /** The kept requests of one participant are its first k in dispatch order. */
  lemma KeptOfParticipant(requests: seq<CommandRequest>, now: int, k: nat, p: string)
    ensures multiset(OfParticipant(OrderForDispatch(requests, now, k), p))
         == multiset(Take(OfParticipant(Sort(Eligible(requests, now)), p), k))
  {
    var sorted := Sort(Eligible(requests, now));
    var grouped := TakeEach(sorted, Participants(sorted), k);
    SortFacts(grouped);
    OfParticipantMembers(sorted, p);
    forall x ensures multiset(OfParticipant(OrderForDispatch(requests, now, k), p))[x]
                  == multiset(Take(OfParticipant(sorted, p), k))[x]
    {
      OfParticipantCounts(Sort(grouped), p, x);
      GroupedCounts(sorted, k, x);
      if x.participantId != p {
        assert x !in Take(OfParticipant(sorted, p), k);
      }
    }
  }

  lemma DispatchKeepsEligible(requests: seq<CommandRequest>, now: int, k: nat, x: CommandRequest)
    ensures multiset(OrderForDispatch(requests, now, k))[x] <= multiset(requests)[x]
    ensures x in OrderForDispatch(requests, now, k) ==> x.availableAt <= now
  {
    var eligible := Eligible(requests, now);
    var sorted := Sort(eligible);
    SortFacts(eligible);
    SortFacts(TakeEach(sorted, Participants(sorted), k));
    GroupedCounts(sorted, k, x);
    EligibleCounts(requests, now, x);
    assert x in OrderForDispatch(requests, now, k) ==> multiset(OrderForDispatch(requests, now, k))[x] > 0;
  }

  lemma DispatchCounts(requests: seq<CommandRequest>, now: int, k: nat, p: string)
    ensures |OfParticipant(OrderForDispatch(requests, now, k), p)|
         == (var n := |OfParticipant(Eligible(requests, now), p)|; if n <= k then n else k)
  {
    var eligible := Eligible(requests, now);
    var sorted := Sort(eligible);
    SortFacts(eligible);
    KeptOfParticipant(requests, now, k, p);
    SameSize(OfParticipant(OrderForDispatch(requests, now, k), p), Take(OfParticipant(sorted, p), k));
    forall x ensures multiset(OfParticipant(sorted, p))[x] == multiset(OfParticipant(eligible, p))[x] {
      OfParticipantCounts(sorted, p, x);
      OfParticipantCounts(eligible, p, x);
    }
    SameSize(OfParticipant(sorted, p), OfParticipant(eligible, p));
  }

  lemma SameSize(a: seq<CommandRequest>, b: seq<CommandRequest>)
    requires multiset(a) == multiset(b)
    ensures |a| == |b|
  {
    assert |multiset(a)| == |multiset(b)|;
  }

  /** The dispatch order: sorted, only eligible requests, and per participant exactly as
      many as are eligible up to the concurrency bound. */
  lemma DispatchSelection(requests: seq<CommandRequest>, now: int, k: nat)
    ensures var r := OrderForDispatch(requests, now, k);
      forall i, j :: 0 <= i < j < |r| ==>
        r[i].priority > r[j].priority || (r[i].priority == r[j].priority && r[i].availableAt <= r[j].availableAt)
    ensures multiset(OrderForDispatch(requests, now, k)) <= multiset(requests)
    ensures forall x :: x in OrderForDispatch(requests, now, k) ==> x.availableAt <= now
    ensures forall p :: |OfParticipant(OrderForDispatch(requests, now, k), p)|
                     == (var n := |OfParticipant(Eligible(requests, now), p)|; if n <= k then n else k)
  {
    var sorted := Sort(Eligible(requests, now));
    SortFacts(TakeEach(sorted, Participants(sorted), k));
    assert Ordered(OrderForDispatch(requests, now, k));
    forall x ensures multiset(OrderForDispatch(requests, now, k))[x] <= multiset(requests)[x] {
      DispatchKeepsEligible(requests, now, k, x);
    }
    forall x | x in OrderForDispatch(requests, now, k) ensures x.availableAt <= now {
      DispatchKeepsEligible(requests, now, k, x);
    }
    forall p ensures |OfParticipant(OrderForDispatch(requests, now, k), p)|
                  == (var n := |OfParticipant(Eligible(requests, now), p)|; if n <= k then n else k) {
      DispatchCounts(requests, now, k, p);
    }
  }

  /** In an ordered sequence whose first k miss some copy of x, there are k before x. */
  lemma MissingIsOutranked(own: seq<CommandRequest>, k: nat, x: CommandRequest)
    requires Ordered(own) && multiset(Take(own, k))[x] < multiset(own)[x]
    ensures k < |own| && forall y :: y in own[..k] ==> Before(y, x)
  {
    TakeCounts(own, k);
    assert x in multiset(own[k..]);
    var j :| k <= j < |own| && own[j] == x;
  }

  /** Nothing is left out but for the throttle: an eligible request missing from the
      result is matched by k kept requests of its own participant, none of which it outranks. */
  lemma LeftOutIsOutranked(requests: seq<CommandRequest>, now: int, k: nat, x: CommandRequest)
    requires multiset(OrderForDispatch(requests, now, k))[x] < multiset(Eligible(requests, now))[x]
    ensures |OfParticipant(OrderForDispatch(requests, now, k), x.participantId)| == k
    ensures forall y :: y in OfParticipant(OrderForDispatch(requests, now, k), x.participantId) ==>
      y.priority > x.priority || (y.priority == x.priority && y.availableAt <= x.availableAt)
  {
    var p := x.participantId;
    var sorted := Sort(Eligible(requests, now));
    var kept, own := OfParticipant(OrderForDispatch(requests, now, k), p), OfParticipant(sorted, p);
    SortFacts(Eligible(requests, now));
    OfParticipantOrdered(sorted, p);
    KeptOfParticipant(requests, now, k, p);
    OfParticipantCounts(OrderForDispatch(requests, now, k), p, x);
    OfParticipantCounts(sorted, p, x);
    MissingIsOutranked(own, k, x);
    SameSize(kept, own[..k]);
    forall y | y in kept ensures Before(y, x) {
      assert y in multiset(kept);
      assert y in multiset(own[..k]);
    }
  }
}
