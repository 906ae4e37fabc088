/** The worker's code, executed without interference, is a run of the protocol: what the
    poller's methods compute is what some sequence of protocol actions does. */
module CommandRuns {
  import opened CommandTables
  import opened Dispatch
  import opened CommandProtocol
  import opened CommandPoller

  lemma {:induction false} RunAppend(sha: string -> string, s: State, actions: seq<Action>, a: Action)
    ensures Run(sha, s, actions + [a]) == Step(sha, Run(sha, s, actions), a)
    decreases |actions|
  {
    if actions == [] {
      assert [a][1..] == [];
      assert Run(sha, s, [a]) == Run(sha, Step(sha, s, a), []);
      assert actions + [a] == [a];
    } else {
      assert (actions + [a])[1..] == actions[1..] + [a];
      RunAppend(sha, Step(sha, s, actions[0]), actions[1..], a);
    }
  }

  ghost predicate RunsTo(sha: string -> string, s0: State, trace: seq<Action>, s: State) {
    Run(sha, s0, trace) == s
  }

  /** `s` with the tables and poller `p` replaced. */
  function With(s: State, db: Db, p: nat, poller: Poller): State {
    s.(db := db, pollers := s.pollers[p := poller])
  }

  predicate At(s: State, p: nat, pc: Pc) {
    p in s.pollers && s.pollers[p].pc == pc && s.pollers[p].queue != []
  }

  /** A run grows by one statement of poller `p`. */
  lemma WorkOn(sha: string -> string, s0: State, trace: seq<Action>, s: State, p: nat, choice: Choice)
    returns (trace': seq<Action>, s': State)
    requires RunsTo(sha, s0, trace, s)
    requires p in s.pollers && s.pollers[p].queue != []
    ensures RunsTo(sha, s0, trace', s')
    ensures s' == With(s, WorkTables(sha, s.db, s.now, s.pollers[p], choice), p, WorkPoller(sha, s.db, s.pollers[p], choice))
                  .(network := s.network + WorkSent(sha, s.pollers[p], choice))
  {
    trace' := trace + [Work(p, choice)];
    s' := Step(sha, s, Work(p, choice));
    RunAppend(sha, s0, trace, Work(p, choice));
  }

  function ChoiceOf(env: Surroundings): Choice {
    Choice(env.submissionId, env.applied, env.outcome)
  }

  /** failRequest. */
  lemma RunFail(sha: string -> string, s0: State, trace: seq<Action>, s: State, p: nat, env: Surroundings)
    returns (trace': seq<Action>, s': State)
    requires RunsTo(sha, s0, trace, s) && At(s, p, FailRow)
    ensures RunsTo(sha, s0, trace', s')
    ensures s' == With(s, AfterFail(s.db, s.pollers[p].queue[0], env.applied), p, Finish(s.pollers[p]))
  {
    trace', s' := WorkOn(sha, s0, trace, s, p, ChoiceOf(env));
    trace', s' := WorkOn(sha, s0, trace', s', p, ChoiceOf(env));
  }

  /** ensureCommandIdentity. */
  lemma RunCheck(sha: string -> string, s0: State, trace: seq<Action>, s: State, p: nat, env: Surroundings)
    returns (trace': seq<Action>, s': State)
    requires RunsTo(sha, s0, trace, s) && At(s, p, CheckIdentity)
    ensures RunsTo(sha, s0, trace', s')
    ensures var claim := s.pollers[p].queue[0];
      s' == With(s, AfterIdentity(sha, s.db, claim), p,
                 Poller(if IdentityOk(sha, s.db, claim) then ReadAttempt(env.submissionId) else FailRow, s.pollers[p].queue))
  {
    trace', s' := WorkOn(sha, s0, trace, s, p, ChoiceOf(env));
    if s'.pollers[p].pc.WriteIdentity? {
      trace', s' := WorkOn(sha, s0, trace', s', p, ChoiceOf(env));
    }
  }

  /** ensureCommandIdentity and, if it fails, failRequest. */
  lemma RunIdentity(sha: string -> string, s0: State, trace: seq<Action>, s: State, p: nat, env: Surroundings)
    returns (trace': seq<Action>, s': State)
    requires RunsTo(sha, s0, trace, s) && At(s, p, CheckIdentity)
    ensures RunsTo(sha, s0, trace', s')
    ensures var claim := s.pollers[p].queue[0];
      var checked := AfterIdentity(sha, s.db, claim);
      s' == if IdentityOk(sha, s.db, claim) then With(s, checked, p, Poller(ReadAttempt(env.submissionId), s.pollers[p].queue))
            else With(s, AfterFail(checked, claim, env.applied), p, Finish(s.pollers[p]))
  {
    trace', s' := RunCheck(sha, s0, trace, s, p, env);
    if !IdentityOk(sha, s.db, s.pollers[p].queue[0]) {
      var checked := s';
      trace', s' := RunFail(sha, s0, trace', s', p, env);
      assert Finish(checked.pollers[p]) == Finish(s.pollers[p]);
    }
  }

  /** The insert, after the attempts of the operation have been counted. */
  lemma InsertStatement(sha: string -> string, db: Db, now: int, queue: seq<CommandRequest>, sub: string, choice: Choice)
    requires queue != []
    ensures var p := Poller(InsertRow(sub, MaxAttempt(db.attempts, queue[0].operationId) + 1), queue);
      && WorkSent(sha, p, choice) == {}
      && WorkTables(sha, db, now, p, choice) == (if SubmissionUnused(db.attempts, sub) then AfterInsert(sha, db, queue[0], sub) else db)
      && WorkPoller(sha, db, p, choice) ==
         (if SubmissionUnused(db.attempts, sub) then Poller(MarkOperation(sub), queue) else Poller(Idle, []))
  {
  }

  /** insertAttempt. */
  lemma RunInsert(sha: string -> string, s0: State, trace: seq<Action>, s: State, p: nat, env: Surroundings)
    returns (trace': seq<Action>, s': State)
    requires RunsTo(sha, s0, trace, s) && At(s, p, ReadAttempt(env.submissionId))
    ensures RunsTo(sha, s0, trace', s')
    ensures s' == if SubmissionUnused(s.db.attempts, env.submissionId)
                  then With(s, AfterInsert(sha, s.db, s.pollers[p].queue[0], env.submissionId), p,
                            Poller(MarkOperation(env.submissionId), s.pollers[p].queue))
                  else With(s, s.db, p, Poller(Idle, []))
  {
    var queue := s.pollers[p].queue;
    var counted := Poller(InsertRow(env.submissionId, MaxAttempt(s.db.attempts, queue[0].operationId) + 1), queue);
    trace', s' := WorkOn(sha, s0, trace, s, p, ChoiceOf(env));
    assert s' == With(s, s.db, p, counted);
    InsertStatement(sha, s.db, s.now, queue, env.submissionId, ChoiceOf(env));
    trace', s' := WorkOn(sha, s0, trace', s', p, ChoiceOf(env));
    assert s'.network == s.network;
    assert s.pollers[p := counted][p := s'.pollers[p]] == s.pollers[p := s'.pollers[p]];
  }

  /** markSubmitted. */
  lemma RunMark(sha: string -> string, s0: State, trace: seq<Action>, s: State, p: nat, env: Surroundings)
    returns (trace': seq<Action>, s': State)
    requires RunsTo(sha, s0, trace, s) && At(s, p, MarkOperation(env.submissionId))
    ensures RunsTo(sha, s0, trace', s')
    ensures s' == With(s, AfterMark(s.db, s.pollers[p].queue[0], env.submissionId, env.applied), p,
                       Poller(Send(env.submissionId), s.pollers[p].queue))
  {
    trace', s' := WorkOn(sha, s0, trace, s, p, ChoiceOf(env));
    trace', s' := WorkOn(sha, s0, trace', s', p, ChoiceOf(env));
  }

  /** Building and submitting the command. */
  lemma RunSubmit(sha: string -> string, s0: State, trace: seq<Action>, s: State, p: nat, env: Surroundings)
    returns (trace': seq<Action>, s': State)
    requires RunsTo(sha, s0, trace, s) && At(s, p, Send(env.submissionId))
    ensures RunsTo(sha, s0, trace', s')
    ensures var claim := s.pollers[p].queue[0];
      s' == With(s, s.db, p, if Settled(env) then Finish(s.pollers[p]) else Poller(RetryRow, s.pollers[p].queue))
            .(network := s.network + if env.outcome.Sent? then {Message(Derived(sha, claim), env.submissionId, claim.operationId)} else {})
  {
    trace', s' := WorkOn(sha, s0, trace, s, p, ChoiceOf(env));
    if env.outcome.Sent? {
      var awaiting := s';
      assert awaiting.db == s.db && awaiting.pollers == s.pollers[p := Poller(Await(env.submissionId), s.pollers[p].queue)];
      trace', s' := WorkOn(sha, s0, trace', s', p, ChoiceOf(env).(outcome := if env.acknowledged then Acknowledged else Threw));
    }
  }

  /** retryRequest. */
  lemma RunRetry(sha: string -> string, s0: State, trace: seq<Action>, s: State, p: nat, env: Surroundings)
    returns (trace': seq<Action>, s': State)
    requires RunsTo(sha, s0, trace, s) && At(s, p, RetryRow)
    ensures RunsTo(sha, s0, trace', s')
    ensures s' == With(s, AfterRetry(s.db, s.pollers[p].queue[0], s.now, env.requeued, env.applied), p, Finish(s.pollers[p]))
  {
    trace', s' := WorkOn(sha, s0, trace, s, p, ChoiceOf(env).(applied := env.requeued));
    trace', s' := WorkOn(sha, s0, trace', s', p, ChoiceOf(env));
  }

  lemma RunFromMark(sha: string -> string, s0: State, trace: seq<Action>, s: State, p: nat, env: Surroundings)
    returns (trace': seq<Action>, s': State)
    requires RunsTo(sha, s0, trace, s) && At(s, p, MarkOperation(env.submissionId))
    ensures RunsTo(sha, s0, trace', s')
    ensures var claim := s.pollers[p].queue[0];
      var marked := AfterMark(s.db, claim, env.submissionId, env.applied);
      s' == With(s, if Settled(env) then marked else AfterRetry(marked, claim, s.now, env.requeued, env.applied), p, Finish(s.pollers[p]))
            .(network := s.network + if env.outcome.Sent? then {Message(Derived(sha, claim), env.submissionId, claim.operationId)} else {})
  {
    trace', s' := RunMark(sha, s0, trace, s, p, env);
    trace', s' := RunSubmit(sha, s0, trace', s', p, env);
    if !Settled(env) {
      trace', s' := RunRetry(sha, s0, trace', s', p, env);
    }
  }

  /** From insertAttempt on. */
  lemma RunAttempt(sha: string -> string, s0: State, trace: seq<Action>, s: State, p: nat, env: Surroundings)
    returns (trace': seq<Action>, s': State)
    requires RunsTo(sha, s0, trace, s) && At(s, p, ReadAttempt(env.submissionId))
    ensures RunsTo(sha, s0, trace', s')
    ensures var done := ProcessAttempt(sha, s.db, s.now, s.pollers[p].queue[0], env);
      s' == With(s, done.db, p, if done.raised then Poller(Idle, []) else Finish(s.pollers[p])).(network := s.network + done.sent)
  {
    trace', s' := RunInsert(sha, s0, trace, s, p, env);
    if SubmissionUnused(s.db.attempts, env.submissionId) {
      var inserted := s';
      trace', s' := RunFromMark(sha, s0, trace', s', p, env);
      assert Finish(inserted.pollers[p]) == Finish(s.pollers[p]);
    }
  }

  /** One `processClaim` is a run. */
  lemma RunOne(sha: string -> string, s0: State, trace: seq<Action>, s: State, p: nat, env: Surroundings)
    returns (trace': seq<Action>, s': State)
    requires RunsTo(sha, s0, trace, s) && At(s, p, CheckIdentity)
    ensures RunsTo(sha, s0, trace', s')
    ensures var done := ProcessOne(sha, s.db, s.now, s.pollers[p].queue[0], env);
      s' == With(s, done.db, p, if done.raised then Poller(Idle, []) else Finish(s.pollers[p])).(network := s.network + done.sent)
  {
    trace', s' := RunIdentity(sha, s0, trace, s, p, env);
    if IdentityOk(sha, s.db, s.pollers[p].queue[0]) {
      var checked := s';
      trace', s' := RunAttempt(sha, s0, trace', s', p, env);
      assert Finish(checked.pollers[p]) == Finish(s.pollers[p]);
    }
  }

  function Remaining(claims: seq<CommandRequest>): Poller {
    if claims == [] then Poller(Idle, []) else Poller(CheckIdentity, claims)
  }

  lemma {:induction false} RunAll(sha: string -> string, s0: State, trace: seq<Action>, s: State, p: nat, claims: seq<CommandRequest>, env: seq<Surroundings>)
    returns (trace': seq<Action>, s': State)
    requires RunsTo(sha, s0, trace, s) && p in s.pollers && s.pollers[p] == Remaining(claims) && |claims| <= |env|
    ensures RunsTo(sha, s0, trace', s')
    ensures var done := ProcessAll(sha, s.db, s.now, claims, env);
      s' == With(s, done.db, p, Poller(Idle, [])).(network := s.network + done.sent)
    decreases |claims|
  {
    if claims == [] {
      trace', s' := trace, s;
      assert s.pollers[p := Poller(Idle, [])] == s.pollers;
    } else {
      var first := ProcessOne(sha, s.db, s.now, claims[0], env[0]);
      trace', s' := RunOne(sha, s0, trace, s, p, env[0]);
      if !first.raised {
        assert Finish(Remaining(claims)) == Remaining(claims[1..]);
        var mid := s';
        trace', s' := RunAll(sha, s0, trace', mid, p, claims[1..], env[1..]);
        var rest := ProcessAll(sha, first.db, s.now, claims[1..], env[1..]);
        assert (s.network + first.sent) + rest.sent == s.network + (first.sent + rest.sent);
      }
    }
  }

  lemma RunClaim(sha: string -> string, s: State, p: nat, rows: seq<string>, leaseToken: string, leasedUntil: int, concurrency: nat)
    requires p in s.pollers && s.pollers[p] == Poller(Idle, [])
    requires Selectable(s.db, s.now, rows) && |rows| <= concurrency * 4
    ensures var claims := SelectForClaim(Read(s.db, s.now, rows), concurrency, concurrency);
      Step(sha, s, Claim(p, rows, leaseToken, leasedUntil, concurrency))
      == With(s, s.db.(requests := ClaimRows(s.db.requests, Ids(claims), leaseToken, leasedUntil)), p, Remaining(claims))
  {
    assert ClaimRows(s.db.requests, Ids([]), leaseToken, leasedUntil) == s.db.requests;
    assert s.pollers[p := Poller(Idle, [])] == s.pollers;
  }

  ghost predicate Reaches(sha: string -> string, s: State, s': State) {
    exists trace :: RunsTo(sha, s, trace, s')
  }

  lemma RoundIsRun(sha: string -> string, s: State, p: nat, a: Action, db: Db, claims: seq<CommandRequest>, env: seq<Surroundings>)
    requires p in s.pollers && s.pollers[p] == Poller(Idle, []) && |claims| <= |env|
    requires Step(sha, s, a) == With(s, db, p, Remaining(claims))
    ensures var done := ProcessAll(sha, db, s.now, claims, env);
      Reaches(sha, s, s.(db := done.db, network := s.network + done.sent))
  {
    RunAppend(sha, s, [], a);
    assert [] + [a] == [a];
    var trace, s2 := RunAll(sha, s, [a], Step(sha, s, a), p, claims, env);
    assert s2.pollers == s.pollers;
  }

  /** A whole `pollOnce` that nobody disturbs is a run: it starts with the claim, ends with
      the poller idle, and leaves exactly the tables and submissions the code produces. */
  lemma PollOnceIsRun(sha: string -> string, s: State, p: nat, rows: seq<string>, leaseToken: string, leasedUntil: int, env: seq<Surroundings>)
    requires p in s.pollers && s.pollers[p] == Poller(Idle, [])
    requires Selectable(s.db, s.now, rows) && |rows| <= |env| * 4
    ensures var claims := SelectForClaim(Read(s.db, s.now, rows), |env|, |env|);
      |claims| <= |env|
      && (var done := ProcessAll(sha, s.db.(requests := ClaimRows(s.db.requests, Ids(claims), leaseToken, leasedUntil)), s.now, claims, env);
          Reaches(sha, s, s.(db := done.db, network := s.network + done.sent)))
  {
    var claims := SelectForClaim(Read(s.db, s.now, rows), |env|, |env|);
    SelectForClaimFacts(Read(s.db, s.now, rows), |env|, |env|);
    RunClaim(sha, s, p, rows, leaseToken, leasedUntil, |env|);
    RoundIsRun(sha, s, p, Claim(p, rows, leaseToken, leasedUntil, |env|),
               s.db.(requests := ClaimRows(s.db.requests, Ids(claims), leaseToken, leasedUntil)), claims, env);
  }
}
