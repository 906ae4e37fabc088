/** The sliding-window log of rate-limit.ts, over a clock in milliseconds. */
module RequestLog {

  const WINDOW: int := 60000

  type Hits = map<string, seq<int>>

  /** Refused: PillarError.rateLimit. */
  datatype Reply = Admitted(remaining: int) | Refused

  /** filter(t => now - t < 60000) */
  function Recent(times: seq<int>, now: int): seq<int>
    decreases |times|
  {
    if times == [] then []
    else if now - times[0] < WINDOW then [times[0]] + Recent(times[1..], now)
    else Recent(times[1..], now)
  }

  function Get(hits: Hits, key: string): seq<int> {
    if key in hits then hits[key] else []
  }

  predicate Admits(hits: Hits, key: string, now: int, rpm: int) {
    |Recent(Get(hits, key), now)| < rpm
  }

  function Step(hits: Hits, key: string, now: int, rpm: int): Hits {
    if Admits(hits, key, now, rpm) then hits[key := Recent(Get(hits, key), now) + [now]] else hits
  }

  class RateLimit {
    const rpm: int
    var hits: Hits

    constructor (rpm: int)
      ensures this.rpm == rpm && hits == map[]
    {
      this.rpm := rpm;
      hits := map[];
    }

    /** The preHandler hook. */
    method PreHandler(key: string, now: int) returns (reply: Reply)
      modifies this
      ensures hits == Step(old(hits), key, now, rpm)
      ensures reply.Admitted? <==> Admits(old(hits), key, now, rpm)
      ensures reply.Admitted? ==> reply.remaining == rpm - |hits[key]| >= 0
    {
      var windowed := Windowed(if key in hits then hits[key] else [], now);
      if |windowed| >= rpm {
        return Refused;
      }
      windowed := windowed + [now];
      hits := hits[key := windowed];
      return Admitted(if rpm - |windowed| > 0 then rpm - |windowed| else 0);
    }
  }

  method Windowed(times: seq<int>, now: int) returns (windowed: seq<int>)
    ensures windowed == Recent(times, now)
  {
    windowed := [];
    for i := 0 to |times|
      invariant windowed + Recent(times[i..], now) == Recent(times, now)
    {
      assert times[i..][1..] == times[i + 1..];
      if now - times[i] < 60000 {
        Regroup(windowed, [times[i]], Recent(times[i + 1..], now));
        windowed := windowed + [times[i]];
      }
    }
  }

  // ---- runs

  datatype Request = Request(key: string, now: int)

  predicate ClockRuns(since: int, requests: seq<Request>)
    decreases |requests|
  {
    requests == [] || (since <= requests[0].now && ClockRuns(requests[0].now, requests[1..]))
  }

  function EndOf(since: int, requests: seq<Request>): int
    decreases |requests|
  {
    if requests == [] then since else EndOf(requests[0].now, requests[1..])
  }

  function Run(hits: Hits, requests: seq<Request>, rpm: int): Hits
    decreases |requests|
  {
    if requests == [] then hits
    else Run(Step(hits, requests[0].key, requests[0].now, rpm), requests[1..], rpm)
  }

  /** The times at which requests of a key were admitted: nothing is ever forgotten here. */
  function AdmittedAt(hits: Hits, requests: seq<Request>, rpm: int, key: string): seq<int>
    decreases |requests|
  {
    if requests == [] then []
    else
      var r := requests[0];
      Added(hits, r, rpm, key) + AdmittedAt(Step(hits, r.key, r.now, rpm), requests[1..], rpm, key)
  }

  predicate Sorted(times: seq<int>) {
    forall i, j :: 0 <= i <= j < |times| ==> times[i] <= times[j]
  }

  /** In ascending times, the recent ones are the last ones. */
  lemma {:induction false} RecentIsSuffix(times: seq<int>, now: int)
    requires Sorted(times)
    ensures var n := |times| - |Recent(times, now)|;
      && 0 <= n && Recent(times, now) == times[n..]
      && (forall i :: 0 <= i < n ==> now - times[i] >= WINDOW)
      && (forall i :: n <= i < |times| ==> now - times[i] < WINDOW)
    decreases |times|
  {
    if times != [] {
      RecentIsSuffix(times[1..], now);
      var rest := Recent(times[1..], now);
      var n := |times| - 1 - |rest|;
      assert times[1..][n..] == times[n + 1..];
      assert forall i :: 1 <= i < |times| ==> times[i] == times[1..][i - 1];
      if now - times[0] < WINDOW {
        assert n == 0;
      }
    }
  }

  /** rpm admissions apart, at least the window apart. */
  ghost predicate Spaced(times: seq<int>, rpm: int)
    requires rpm > 0
  {
    forall i, j :: 0 <= i && j == i + rpm && j < |times| ==> times[j] - times[i] >= WINDOW
  }

  /** The log the code keeps decides as the full history would. */
  ghost predicate Represents(kept: seq<int>, history: seq<int>, now: int, rpm: int) {
    && Sorted(history) && (history != [] ==> history[|history| - 1] <= now)
    && (forall t :: now <= t ==> Recent(kept, t) == Recent(history, t))
    && (rpm > 0 ==> Spaced(history, rpm)) && (rpm <= 0 ==> history == [])
  }

  lemma RecentOfAppend(times: seq<int>, last: int, t: int)
    requires t - last < WINDOW
    ensures Recent(times + [last], t) == Recent(times, t) + [last]
    decreases |times|
  {
    if times != [] {
      RecentOfAppend(times[1..], last, t);
      assert (times + [last])[1..] == times[1..] + [last];
    }
  }

  lemma StaleAppend(times: seq<int>, last: int, t: int)
    requires t - last >= WINDOW
    ensures Recent(times + [last], t) == Recent(times, t)
    decreases |times|
  {
    if times != [] {
      StaleAppend(times[1..], last, t);
      assert (times + [last])[1..] == times[1..] + [last];
    }
  }

  /** What was stale stays stale. */
  lemma RecentOfRecent(times: seq<int>, now: int, t: int)
    requires now <= t
    ensures Recent(Recent(times, now), t) == Recent(times, t)
    decreases |times|
  {
  }

  lemma AdmissionRepresents(kept: seq<int>, history: seq<int>, before: int, now: int, rpm: int)
    requires Represents(kept, history, before, rpm) && before <= now && |Recent(kept, now)| < rpm
    ensures Represents(Recent(kept, now) + [now], history + [now], now, rpm)
  {
    forall t | now <= t ensures Recent(Recent(kept, now) + [now], t) == Recent(history + [now], t) {
      RecentOfRecent(kept, now, t);
      if t - now < WINDOW {
        RecentOfAppend(Recent(kept, now), now, t);
        RecentOfAppend(history, now, t);
      } else {
        StaleAppend(Recent(kept, now), now, t);
        StaleAppend(history, now, t);
      }
    }
    RecentIsSuffix(history, now);
    SpacedAppend(history, now, rpm);
  }

  lemma SpacedAppend(history: seq<int>, now: int, rpm: int)
    requires rpm > 0 && Sorted(history) && Spaced(history, rpm) && |Recent(history, now)| < rpm
    ensures Spaced(history + [now], rpm)
  {
    var longer := history + [now];
    RecentIsSuffix(history, now);
    forall i, j | 0 <= i && j == i + rpm && j < |longer| ensures longer[j] - longer[i] >= WINDOW {
      if j < |history| {
        assert longer[j] == history[j] && longer[i] == history[i];
      }
    }
  }

  /** What one request adds to the history of a key. */
  function Added(hits: Hits, r: Request, rpm: int, key: string): seq<int> {
    if r.key == key && Admits(hits, key, r.now, rpm) then [r.now] else []
  }

  lemma StepRepresents(hits: Hits, history: seq<int>, since: int, r: Request, rpm: int, key: string)
    requires Represents(Get(hits, key), history, since, rpm) && since <= r.now
    ensures Represents(Get(Step(hits, r.key, r.now, rpm), key), history + Added(hits, r, rpm, key), r.now, rpm)
  {
    if Added(hits, r, rpm, key) != [] {
      AdmissionRepresents(Get(hits, key), history, since, r.now, rpm);
    } else {
      assert history + [] == history;
    }
  }

  /** In every run the log stands for the history of all admissions of its key. */
  lemma {:induction false} RunRepresents(hits: Hits, history: seq<int>, since: int, requests: seq<Request>, rpm: int, key: string)
    requires Represents(Get(hits, key), history, since, rpm) && ClockRuns(since, requests)
    ensures Represents(Get(Run(hits, requests, rpm), key), history + AdmittedAt(hits, requests, rpm, key),
                       EndOf(since, requests), rpm)
    decreases |requests|
  {
    if requests == [] {
      assert history + [] == history;
    } else {
      var r := requests[0];
      var next, added := Step(hits, r.key, r.now, rpm), Added(hits, r, rpm, key);
      StepRepresents(hits, history, since, r, rpm, key);
      RunRepresents(next, history + added, r.now, requests[1..], rpm, key);
      Regroup(history, added, AdmittedAt(next, requests[1..], rpm, key));
    }
  }

  lemma Regroup(a: seq<int>, b: seq<int>, c: seq<int>)
    ensures (a + b) + c == a + (b + c)
  {
  }

  /** The times in the 60000 ms from a moment on. */
  function Within(times: seq<int>, from: int): seq<int>
    decreases |times|
  {
    if times == [] then []
    else (if from <= times[0] < from + 60000 then [times[0]] else []) + Within(times[1..], from)
  }

  lemma {:induction false} LateEndsWindow(times: seq<int>, from: int)
    requires Sorted(times) && times != [] && times[0] >= from + WINDOW
    ensures Within(times, from) == []
    decreases |times|
  {
    if |times| > 1 {
      LateEndsWindow(times[1..], from);
    }
  }

  /** From ascending times a window cuts a contiguous piece. */
  lemma {:induction false} WithinIsContiguous(times: seq<int>, from: int) returns (i: nat)
    requires Sorted(times)
    ensures i + |Within(times, from)| <= |times|
    ensures forall k :: i <= k < i + |Within(times, from)| ==> from <= times[k] < from + WINDOW
    ensures times != [] && from <= times[0] ==> i == 0
    decreases |times|
  {
    if times == [] {
      return 0;
    }
    var j := WithinIsContiguous(times[1..], from);
    var rest := Within(times[1..], from);
    assert forall k :: 1 <= k < |times| ==> times[1..][k - 1] == times[k];
    if from <= times[0] {
      if times[0] >= from + WINDOW { LateEndsWindow(times, from); }
      return 0;
    }
    return j + 1;
  }

  /** Any admission and the one rpm later of the same key are 60000 ms apart or more. */
  lemma AdmissionsAreSpaced(since: int, requests: seq<Request>, rpm: int, key: string, i: nat)
    requires ClockRuns(since, requests) && rpm > 0 && i + rpm < |AdmittedAt(map[], requests, rpm, key)|
    ensures var admitted := AdmittedAt(map[], requests, rpm, key); admitted[i + rpm] - admitted[i] >= 60000
  {
    HistoryRepresented(since, requests, rpm, key);
  }

  /** For every key, run and window of 60000 ms, at most rpm requests are admitted, though the
      log forgets old entries and records nothing when it refuses. */
  lemma AtMostRpmPerWindow(since: int, requests: seq<Request>, rpm: int, key: string, from: int)
    requires ClockRuns(since, requests)
    ensures |Within(AdmittedAt(map[], requests, rpm, key), from)| <= if rpm > 0 then rpm else 0
  {
    HistoryRepresented(since, requests, rpm, key);
    if rpm > 0 {
      SpacedFitsWindow(AdmittedAt(map[], requests, rpm, key), rpm, from);
    }
  }

  lemma HistoryRepresented(since: int, requests: seq<Request>, rpm: int, key: string)
    requires ClockRuns(since, requests)
    ensures Represents(Get(Run(map[], requests, rpm), key), AdmittedAt(map[], requests, rpm, key), EndOf(since, requests), rpm)
  {
    assert Represents(Get(map[], key), [], since, rpm);
    RunRepresents(map[], [], since, requests, rpm, key);
    assert [] + AdmittedAt(map[], requests, rpm, key) == AdmittedAt(map[], requests, rpm, key);
  }

  lemma SpacedFitsWindow(times: seq<int>, rpm: int, from: int)
    requires rpm > 0 && Sorted(times) && Spaced(times, rpm)
    ensures |Within(times, from)| <= rpm
  {
    var i := WithinIsContiguous(times, from);
    assert i + rpm < |times| ==> times[i + rpm] - times[i] >= WINDOW;
  }

  lemma FewerRecentIff(history: seq<int>, now: int, rpm: int)
    requires Sorted(history) && rpm > 0
    ensures |Recent(history, now)| < rpm <==> !(rpm <= |history| && now - history[|history| - rpm] < 60000)
  {
    RecentIsSuffix(history, now);
  }

  /** A request is refused exactly when rpm requests of its key were admitted less than 60000 ms
      ago, of all that ever were; without a positive limit always. */
  lemma RefusedIffWindowFull(since: int, requests: seq<Request>, rpm: int, key: string, now: int)
    requires ClockRuns(since, requests) && EndOf(since, requests) <= now
    ensures var history := AdmittedAt(map[], requests, rpm, key);
      && Sorted(history)
      && (!Admits(Run(map[], requests, rpm), key, now, rpm) <==>
            rpm <= 0 || (rpm <= |history| && now - history[|history| - rpm] < 60000))
  {
    HistoryRepresented(since, requests, rpm, key);
    if rpm > 0 {
      FewerRecentIff(AdmittedAt(map[], requests, rpm, key), now, rpm);
    }
  }
}
