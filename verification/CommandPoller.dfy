/** The worker's code: the repository's methods over the tables and the poller that calls
    them, each against a function of the tables. CommandRuns relates these to the protocol. */
module CommandPoller {
  import opened CommandProtocol
  import opened CommandTables
  import opened Database
  import opened Dispatch
  import opened Options
  import CommandIdentity

  class CommandRequestRepository {
    const tables: Tables

    constructor (tables: Tables)
      ensures this.tables == tables
    {
      this.tables := tables;
    }

    /** `rows` is what the locking SELECT returned. */
    method ClaimPending(rows: seq<CommandRequest>, limit: nat, participantLimit: nat, leaseToken: string, leasedUntil: int)
      returns (claimed: seq<CommandRequest>)
      requires forall i :: 0 <= i < |rows| ==> rows[i].id in tables.requests
      modifies tables`requests
      ensures claimed == SelectForClaim(rows, limit, participantLimit)
      ensures tables.requests == ClaimRows(old(tables.requests), Ids(claimed), leaseToken, leasedUntil)
    {
      claimed := SelectForClaim(rows, limit, participantLimit);
      SelectedAreRows(rows, limit, participantLimit);
      assert forall i :: 0 <= i < |claimed| ==> claimed[i].id in tables.requests;
      for i := 0 to |claimed|
        invariant tables.requests == ClaimRows(old(tables.requests), Ids(claimed[..i]), leaseToken, leasedUntil)
      {
        var id := claimed[i].id;
        tables.requests := tables.requests[id := tables.requests[id].(status := Claimed, leaseToken := Some(leaseToken), leasedUntil := Some(leasedUntil))];
        IdsGrow(claimed, i);
        ClaimOneMore(old(tables.requests), Ids(claimed[..i]), id, leaseToken, leasedUntil);
      }
      assert claimed[..|claimed|] == claimed;
    }

    method EnsureCommandIdentity(operationId: string, derived: string) returns (ok: bool)
      modifies tables`operations
      ensures ok <==> (operationId in old(tables.operations) && old(tables.operations)[operationId].commandId.Some?
                       ==> old(tables.operations)[operationId].commandId == Some(derived))
      ensures tables.operations
           == if operationId in old(tables.operations) && old(tables.operations)[operationId].commandId.None?
              then SetCommandId(old(tables.operations), operationId, derived)
              else old(tables.operations)
    {
      if operationId !in tables.operations {
        return true;
      }
      var stored := tables.operations[operationId].commandId;
      if stored == None {
        tables.operations := tables.operations[operationId := tables.operations[operationId].(commandId := Some(derived))];
        ok := true;
      } else {
        ok := stored.value == derived;
      }
    }

    /** `ok` is false when the unique constraint on submission_id makes the insert raise. */
    method InsertAttempt(request: CommandRequest, commandId: string, submissionId: string) returns (ok: bool)
      modifies tables`attempts
      ensures ok <==> SubmissionUnused(old(tables.attempts), submissionId)
      ensures tables.attempts
           == if ok
              then old(tables.attempts) + [AttemptRow(request.tenantId, request.operationId, submissionId, commandId,
                                                      MaxAttempt(old(tables.attempts), request.operationId) + 1)]
              else old(tables.attempts)
    {
      var attempt := MaxAttempt(tables.attempts, request.operationId) + 1;
      ok := forall i :: 0 <= i < |tables.attempts| ==> tables.attempts[i].submissionId != submissionId;
      if ok {
        tables.attempts := tables.attempts + [AttemptRow(request.tenantId, request.operationId, submissionId, commandId, attempt)];
      }
    }

    /** `applied` is false when the swallowed exception hit the operation's update. */
    method MarkSubmitted(id: string, operationId: string, submissionId: string, applied: bool)
      modifies tables`operations, tables`requests
      ensures tables.operations == if applied then SetSubmitted(old(tables.operations), operationId, submissionId) else old(tables.operations)
      ensures tables.requests == SetRequestStatus(old(tables.requests), id, Submitted)
    {
      if applied && operationId in tables.operations {
        tables.operations := tables.operations[operationId := tables.operations[operationId].(status := OpSubmitted, submissionId := Some(submissionId))];
      }
      if id in tables.requests {
        tables.requests := tables.requests[id := tables.requests[id].(status := Submitted)];
      }
    }

    method RetryRequest(id: string, operationId: string, now: int, requeued: bool, applied: bool)
      modifies tables`operations, tables`requests
      ensures tables.requests == if requeued then Requeue(old(tables.requests), id, now) else SetRequestStatus(old(tables.requests), id, Unknown)
      ensures tables.operations == if applied then SetOperationStatus(old(tables.operations), operationId, OpUnknown) else old(tables.operations)
    {
      if id in tables.requests {
        tables.requests := tables.requests[id :=
          if requeued then tables.requests[id].(status := Received, availableAt := Some(now + 1000)) else tables.requests[id].(status := Unknown)];
      }
      if applied && operationId in tables.operations {
        tables.operations := tables.operations[operationId := tables.operations[operationId].(status := OpUnknown)];
      }
    }

    method FailRequest(id: string, operationId: string, applied: bool)
      modifies tables`operations, tables`requests
      ensures tables.requests == SetRequestStatus(old(tables.requests), id, Failed)
      ensures tables.operations == if applied then SetOperationStatus(old(tables.operations), operationId, OpFailed) else old(tables.operations)
    {
      if id in tables.requests {
        tables.requests := tables.requests[id := tables.requests[id].(status := Failed)];
      }
      if applied && operationId in tables.operations {
        tables.operations := tables.operations[operationId := tables.operations[operationId].(status := OpFailed)];
      }
    }
  }

  lemma SelectedAreRows(rows: seq<CommandRequest>, limit: nat, participantLimit: nat)
    ensures forall i :: 0 <= i < |SelectForClaim(rows, limit, participantLimit)| ==> SelectForClaim(rows, limit, participantLimit)[i] in rows
  {
    var selected := SelectForClaim(rows, limit, participantLimit);
    SelectForClaimFacts(rows, limit, participantLimit);
    forall i | 0 <= i < |selected| ensures selected[i] in rows {
      assert selected[i] in multiset(selected);
      assert multiset(selected)[selected[i]] <= multiset(rows)[selected[i]];
    }
  }

  lemma IdsGrow(claimed: seq<CommandRequest>, i: nat)
    requires i < |claimed|
    ensures Ids(claimed[..i + 1]) == Ids(claimed[..i]) + {claimed[i].id}
  {
    forall x | x in Ids(claimed[..i]) + {claimed[i].id} ensures x in Ids(claimed[..i + 1]) {
      if x == claimed[i].id {
        assert claimed[..i + 1][i].id == x;
      } else {
        var j :| 0 <= j < i && claimed[..i][j].id == x;
        assert claimed[..i + 1][j].id == x;
      }
    }
  }

  lemma ClaimOneMore(requests: map<string, RequestRow>, ids: set<string>, id: string, leaseToken: string, leasedUntil: int)
    requires id in requests
    ensures var done := ClaimRows(requests, ids, leaseToken, leasedUntil);
      done[id := done[id].(status := Claimed, leaseToken := Some(leaseToken), leasedUntil := Some(leasedUntil))]
      == ClaimRows(requests, ids + {id}, leaseToken, leasedUntil)
  {
  }

  /** What happens around one `processClaim`: the UUID drawn, how building and submitting
      end, and which statements with swallowed exceptions take effect. */
  datatype Surroundings = Surroundings(submissionId: string, outcome: Outcome, acknowledged: bool, requeued: bool, applied: bool)

  /** How one `processClaim` ends, when nothing else touches the tables meanwhile. */
  datatype Processed = Processed(db: Db, raised: bool, sent: set<Message>)

  predicate IdentityOk(sha: string -> string, db: Db, claim: CommandRequest) {
    claim.operationId in db.operations && db.operations[claim.operationId].commandId.Some?
    ==> db.operations[claim.operationId].commandId.value == Derived(sha, claim)
  }

  function AfterIdentity(sha: string -> string, db: Db, claim: CommandRequest): Db {
    if claim.operationId in db.operations && db.operations[claim.operationId].commandId.None?
    then db.(operations := SetCommandId(db.operations, claim.operationId, Derived(sha, claim)))
    else db
  }

  function AfterFail(db: Db, claim: CommandRequest, applied: bool): Db {
    db.(requests := SetRequestStatus(db.requests, claim.id, Failed),
        operations := if applied then SetOperationStatus(db.operations, claim.operationId, OpFailed) else db.operations)
  }

  function AfterInsert(sha: string -> string, db: Db, claim: CommandRequest, submissionId: string): Db {
    db.(attempts := db.attempts + [AttemptRow(claim.tenantId, claim.operationId, submissionId, Derived(sha, claim),
                                              MaxAttempt(db.attempts, claim.operationId) + 1)])
  }

  function AfterMark(db: Db, claim: CommandRequest, submissionId: string, applied: bool): Db {
    db.(requests := SetRequestStatus(db.requests, claim.id, Submitted),
        operations := if applied then SetSubmitted(db.operations, claim.operationId, submissionId) else db.operations)
  }

  function AfterRetry(db: Db, claim: CommandRequest, now: int, requeued: bool, applied: bool): Db {
    db.(requests := if requeued then Requeue(db.requests, claim.id, now) else SetRequestStatus(db.requests, claim.id, Unknown),
        operations := if applied then SetOperationStatus(db.operations, claim.operationId, OpUnknown) else db.operations)
  }

  predicate Settled(env: Surroundings) {
    env.outcome.NothingToSubmit? || (env.outcome.Sent? && env.acknowledged)
  }

  /** From the attempt on, the identity being settled. */
  function ProcessAttempt(sha: string -> string, db: Db, now: int, claim: CommandRequest, env: Surroundings): Processed {
    if !SubmissionUnused(db.attempts, env.submissionId) then Processed(db, true, {})
    else
      var marked := AfterMark(AfterInsert(sha, db, claim, env.submissionId), claim, env.submissionId, env.applied);
      Processed(if Settled(env) then marked else AfterRetry(marked, claim, now, env.requeued, env.applied), false,
                if env.outcome.Sent? then {Message(Derived(sha, claim), env.submissionId, claim.operationId)} else {})
  }

  function ProcessOne(sha: string -> string, db: Db, now: int, claim: CommandRequest, env: Surroundings): Processed {
    var checked := AfterIdentity(sha, db, claim);
    if IdentityOk(sha, db, claim) then ProcessAttempt(sha, checked, now, claim, env)
    else Processed(AfterFail(checked, claim, env.applied), false, {})
  }

  /** A round over the given claims; an exception drops the rest of them. */
  function ProcessAll(sha: string -> string, db: Db, now: int, claims: seq<CommandRequest>, env: seq<Surroundings>): Processed
    requires |claims| <= |env|
    decreases |claims|
  {
    if claims == [] then Processed(db, false, {})
    else
      var first := ProcessOne(sha, db, now, claims[0], env[0]);
      if first.raised then first
      else
        var rest := ProcessAll(sha, first.db, now, claims[1..], env[1..]);
        rest.(sent := first.sent + rest.sent)
  }

  class CommandRequestPoller {
    const repository: CommandRequestRepository
    const participantConcurrency: nat

    constructor (repository: CommandRequestRepository, participantConcurrency: nat)
      ensures this.repository == repository && this.participantConcurrency == participantConcurrency
    {
      this.repository := repository;
      this.participantConcurrency := participantConcurrency;
    }

    /** `raised` is the exception that ends the whole round. */
    method ProcessClaim(sha: string -> string, claim: CommandRequest, now: int, env: Surroundings)
      returns (raised: bool, sent: set<Message>)
      modifies repository.tables`operations, repository.tables`requests, repository.tables`attempts
      ensures Processed(repository.tables.View(), raised, sent) == ProcessOne(sha, old(repository.tables.View()), now, claim, env)
    {
      raised, sent := false, {};
      var derived := CommandIdentity.DeriveCommandId(sha, claim.tenantId, claim.operationId, claim.semanticVersion);
      var ok := repository.EnsureCommandIdentity(claim.operationId, derived);
      if !ok {
        repository.FailRequest(claim.id, claim.operationId, env.applied);
        return;
      }
      raised, sent := Attempt(sha, claim, derived, now, env);
    }

    /** The rest of processClaim: from insertAttempt on. */
    method Attempt(sha: string -> string, claim: CommandRequest, derived: string, now: int, env: Surroundings)
      returns (raised: bool, sent: set<Message>)
      requires derived == Derived(sha, claim)
      modifies repository.tables`operations, repository.tables`requests, repository.tables`attempts
      ensures Processed(repository.tables.View(), raised, sent) == ProcessAttempt(sha, old(repository.tables.View()), now, claim, env)
    {
      raised, sent := false, {};
      var submissionId := env.submissionId;
      var ok := repository.InsertAttempt(claim, derived, submissionId);
      if !ok {
        raised := true;
        return;
      }
      repository.MarkSubmitted(claim.id, claim.operationId, submissionId, env.applied);
      if env.outcome.NothingToSubmit? {
        return;
      }
      if env.outcome.Sent? {
        sent := {Message(derived, submissionId, claim.operationId)};
        if env.acknowledged {
          return;
        }
      }
      repository.RetryRequest(claim.id, claim.operationId, now, env.requeued, env.applied);
    }

    method PollOnce(sha: string -> string, rows: seq<string>, now: int, leaseToken: string, leasedUntil: int, env: seq<Surroundings>)
      returns (count: nat, raised: bool, sent: set<Message>)
      requires Selectable(repository.tables.View(), now, rows)
      requires |env| == participantConcurrency
      modifies repository.tables
      ensures var claims := SelectForClaim(Read(old(repository.tables.View()), now, rows), participantConcurrency, participantConcurrency);
        && count == |claims| <= |env|
        && Processed(repository.tables.View(), raised, sent)
           == ProcessAll(sha, old(repository.tables.View()).(requests := ClaimRows(old(repository.tables.requests), Ids(claims), leaseToken, leasedUntil)),
                         now, claims, env)
    {
      var read := seq(|rows|, i requires 0 <= i < |rows| && rows[i] in repository.tables.requests reads repository.tables =>
                              ToRequest(rows[i], repository.tables.requests[rows[i]], now));
      assert read == Read(repository.tables.View(), now, rows);
      var claims := repository.ClaimPending(read, participantConcurrency, participantConcurrency, leaseToken, leasedUntil);
      SelectForClaimFacts(read, participantConcurrency, participantConcurrency);
      count := |claims|;
      raised, sent := ProcessClaims(sha, now, claims, env);
    }

    method ProcessClaims(sha: string -> string, now: int, claims: seq<CommandRequest>, env: seq<Surroundings>)
      returns (raised: bool, sent: set<Message>)
      requires |claims| <= |env|
      modifies repository.tables`operations, repository.tables`requests, repository.tables`attempts
      ensures Processed(repository.tables.View(), raised, sent) == ProcessAll(sha, old(repository.tables.View()), now, claims, env)
    {
      raised, sent := false, {};
      ghost var claimed := repository.tables.View();
      assert claims[0..] == claims && env[0..] == env;
      for i := 0 to |claims|
        invariant !raised
        invariant ProcessAll(sha, claimed, now, claims, env)
               == AfterSending(sent, ProcessAll(sha, repository.tables.View(), now, claims[i..], env[i..]))
      {
        NextClaim(sha, repository.tables.View(), now, claims, env, i, sent);
        var submitted;
        raised, submitted := ProcessClaim(sha, claims[i], now, env[i]);
        sent := sent + submitted;
        if raised {
          return;
        }
      }
    }
  }

  function AfterSending(sent: set<Message>, rest: Processed): Processed {
    rest.(sent := sent + rest.sent)
  }

  lemma NextClaim(sha: string -> string, db: Db, now: int, claims: seq<CommandRequest>, env: seq<Surroundings>, i: nat, sent: set<Message>)
    requires i < |claims| <= |env|
    ensures var first := ProcessOne(sha, db, now, claims[i], env[i]);
      AfterSending(sent, ProcessAll(sha, db, now, claims[i..], env[i..])) ==
        if first.raised then first.(sent := sent + first.sent)
        else AfterSending(sent + first.sent, ProcessAll(sha, first.db, now, claims[i + 1..], env[i + 1..]))
  {
    assert claims[i..][1..] == claims[i + 1..] && env[i..][1..] == env[i + 1..];
    var first := ProcessOne(sha, db, now, claims[i], env[i]);
    var rest := ProcessAll(sha, first.db, now, claims[i + 1..], env[i + 1..]);
    assert sent + (first.sent + rest.sent) == (sent + first.sent) + rest.sent;
  }
}
