/** What can still become of a command request: which rows a poller may take, that a row can be
    committed exactly when its identity holds up, when a failed submission comes back, and which
    rows nobody ever touches again. */
module CommandProgress {
  import opened CommandPoller
  import opened CommandProtocol
  import opened CommandRuns
  import opened CommandSafety
  import opened CommandTables
  import opened Dispatch
  import opened IntentEnqueue
  import opened Options

  // ---- taking a row

  /** Waiting in the queue, and due. */
  predicate Waiting(row: RequestRow, now: int) {
    && row.status in {Received, Queued, Pending}
    && (row.availableAt.None? || row.availableAt.value <= now)
  }

  predicate Resting(s: State, p: nat) {
    p in s.pollers && s.pollers[p] == Poller(Idle, [])
  }

  lemma SelectOne(r: CommandRequest, k: nat)
    requires k > 0
    ensures SelectForClaim([r], k, k) == [r]
  {
    var rows := [r];
    assert rows[1..] == [];
    assert OfParticipant(rows, r.participantId) == [r];
    assert Participants(rows) == [r.participantId];
    assert Participants(rows)[1..] == [];
    assert TakeEach(rows, Participants(rows), k) == [r] + TakeEach(rows, [], k);
  }

  lemma ClaimOneRow(s: State, a: Action, id: string)
    requires a.Claim? && a.rows == [id] && a.concurrency > 0 && Resting(s, a.poller)
    requires id in s.db.requests && Selectable(s.db, s.now, a.rows)
    ensures var row := s.db.requests[id];
      ClaimStep(s, a) == s.(db := s.db.(requests := s.db.requests[id := row.(status := Claimed, leaseToken := Some(a.leaseToken),
                                                                             leasedUntil := Some(a.leasedUntil))]),
                            pollers := s.pollers[a.poller := Poller(CheckIdentity, [ToRequest(id, row, s.now)])])
  {
    var r := ToRequest(id, s.db.requests[id], s.now);
    assert Read(s.db, s.now, [id]) == [r];
    SelectOne(r, a.concurrency);
    assert Ids([r]) == {id} by {
      assert [r][0].id == id;
    }
  }

  /** A resting poller that is offered a row takes it exactly when it is waiting, and then holds the
      lease on it; otherwise nothing happens. */
  lemma ClaimTakesWaiting(sha: string -> string, s: State, a: Action, id: string)
    requires a.Claim? && a.rows == [id] && a.concurrency > 0 && Resting(s, a.poller) && id in s.db.requests
    ensures var row := s.db.requests[id];
      Step(sha, s, a) ==
        if Waiting(row, s.now)
        then s.(db := s.db.(requests := s.db.requests[id := row.(status := Claimed, leaseToken := Some(a.leaseToken),
                                                                 leasedUntil := Some(a.leasedUntil))]),
                pollers := s.pollers[a.poller := Poller(CheckIdentity, [ToRequest(id, row, s.now)])])
        else s
  {
    if Waiting(s.db.requests[id], s.now) {
      ClaimOneRow(s, a, id);
    } else {
      assert !Selectable(s.db, s.now, a.rows) by {
        assert a.rows[0] == id;
      }
    }
  }

  /** What a poller reads of a row: each column, or what stands in its payload, or a default. */
  lemma ColumnsRead(id: string, row: RequestRow, now: int)
    ensures var r := ToRequest(id, row, now);
      && r.id == id && r.tenantId == row.tenantId && r.operationId == row.operationId && r.payload == row.payload
      && (row.commandType.Some? ==> r.commandType == row.commandType.value)
      && (row.commandType.None? && row.payloadCommandType.Some? ==> r.commandType == row.payloadCommandType.value)
      && (row.commandType.None? && row.payloadCommandType.None? ==> r.commandType == "issue")
      && (row.semanticVersion.Some? ==> r.semanticVersion == row.semanticVersion.value)
      && (row.semanticVersion.None? && row.payloadSemanticVersion.Some? ==> r.semanticVersion == row.payloadSemanticVersion.value)
      && (row.semanticVersion.None? && row.payloadSemanticVersion.None? ==> r.semanticVersion == "v1")
      && r.priority == (if row.priority.Some? then row.priority.value else 0)
      && r.participantId == (if row.participantId.Some? then row.participantId.value else "default")
      && r.availableAt == (if row.availableAt.Some? then row.availableAt.value else now)
  {
  }

  /** Request kinds are told apart by their command types. */
  lemma CommandTypesDiffer(a: IntentKind, b: IntentKind)
    ensures CommandType(a) == CommandType(b) <==> a == b
    ensures KindText(a) == KindText(b) <==> a == b
  {
    assert |CommandType(a)| == |CommandType(b)| ==> a == b;
    assert KindText(a)[0] == KindText(b)[0] && |KindText(a)| == |KindText(b)| ==> a == b;
  }

  /** What the API enqueues is there for any poller to take, from the same moment on, and the poller
      reads of it what the client asked for. */
  lemma EnqueuedCanBeClaimed(sha: string -> string, s: State, input: EnqueueInput, ids: FreshIds, elapsed: nat, a: Action)
    requires EnqueueTx(sha, s.db, input, ids, s.now).Some? && FreshOperation(s.db, ids.operationId)
    requires a.Claim? && a.rows == [ids.commandRequestId] && a.concurrency > 0 && Resting(s, a.poller)
    ensures var s' := Step(sha, Step(sha, Step(sha, s, Enqueue(input, ids)), Tick(elapsed)), a);
      && s'.pollers[a.poller] ==
         Poller(CheckIdentity, [CommandRequest(ids.commandRequestId, input.tenantId, ids.operationId, CommandType(input.kind),
                                               CommandType(input.kind) + ":v1", input.payload, 0, "default", s.now)])
      && ids.commandRequestId in s'.db.requests && s'.db.requests[ids.commandRequestId].status == Claimed
  {
    var s2 := Step(sha, Step(sha, s, Enqueue(input, ids)), Tick(elapsed));
    assert s2.db.requests[ids.commandRequestId] == NewRequest(input, ids.operationId, s.now);
    ClaimTakesWaiting(sha, s2, a, ids.commandRequestId);
  }

  // ---- from the queue to the ledger

  /** No other command id is stored for the operation of this row. */
  predicate IdentityHolds(sha: string -> string, db: Db, row: RequestRow) {
    row.operationId in db.operations && db.operations[row.operationId].commandId.Some?
    ==> db.operations[row.operationId].commandId.value == RowDerived(sha, row)
  }

  function Smooth(sub: string): Surroundings {
    Surroundings(sub, Sent, true, true, true)
  }

  lemma SmoothRound(sha: string -> string, db: Db, now: int, claim: CommandRequest, sub: string)
    requires IdentityOk(sha, db, claim) && SubmissionUnused(db.attempts, sub)
    ensures ProcessOne(sha, db, now, claim, Smooth(sub)).sent == {Message(Derived(sha, claim), sub, claim.operationId)}
    ensures !ProcessOne(sha, db, now, claim, Smooth(sub)).raised
    ensures var after := ProcessOne(sha, db, now, claim, Smooth(sub)).db;
      && (claim.id in db.requests ==> claim.id in after.requests && after.requests[claim.id] == db.requests[claim.id].(status := Submitted))
      && (claim.operationId in db.operations ==>
            && claim.operationId in after.operations && after.operations[claim.operationId].status == OpSubmitted
            && after.operations[claim.operationId].submissionId == Some(sub)
            && after.operations[claim.operationId].commandId == Some(Derived(sha, claim)))
  {
  }

  /** A resting poller takes a waiting row and submits it. */
  lemma WaitingIsSent(sha: string -> string, s: State, p: nat, id: string, sub: string)
    returns (trace: seq<Action>, s': State)
    requires Resting(s, p) && id in s.db.requests && Waiting(s.db.requests[id], s.now)
    requires IdentityHolds(sha, s.db, s.db.requests[id]) && SubmissionUnused(s.db.attempts, sub)
    ensures RunsTo(sha, s, trace, s')
    ensures s'.ledger == s.ledger && Message(RowDerived(sha, s.db.requests[id]), sub, s.db.requests[id].operationId) in s'.network
    ensures id in s'.db.requests && s'.db.requests[id].status == Submitted
    ensures var o := s.db.requests[id].operationId;
      o in s.db.operations ==>
        o in s'.db.operations && s'.db.operations[o].status == OpSubmitted && s'.db.operations[o].submissionId == Some(sub)
  {
    var a := Claim(p, [id], "", 0, 1);
    var claim := ToRequest(id, s.db.requests[id], s.now);
    ClaimTakesWaiting(sha, s, a, id);
    var s1 := Step(sha, s, a);
    RunAppend(sha, s, [], a);
    assert [] + [a] == [a];
    trace, s' := RunOne(sha, s, [a], s1, p, Smooth(sub));
    SmoothRound(sha, s1.db, s1.now, claim, sub);
  }

  lemma FailingRound(sha: string -> string, db: Db, now: int, claim: CommandRequest, sub: string)
    requires !IdentityOk(sha, db, claim)
    ensures var done := ProcessOne(sha, db, now, claim, Smooth(sub));
      && !done.raised && done.sent == {}
      && (claim.id in db.requests ==> claim.id in done.db.requests && done.db.requests[claim.id] == db.requests[claim.id].(status := Failed))
      && claim.operationId in done.db.operations && done.db.operations[claim.operationId].status == OpFailed
  {
  }

  /** A waiting row whose operation has another id on record is failed by the poller that takes it. */
  lemma WaitingIsFailed(sha: string -> string, s: State, p: nat, id: string)
    returns (trace: seq<Action>, s': State)
    requires Resting(s, p) && id in s.db.requests && Waiting(s.db.requests[id], s.now)
    requires !IdentityHolds(sha, s.db, s.db.requests[id])
    ensures RunsTo(sha, s, trace, s')
    ensures s'.ledger == s.ledger && s'.network == s.network
    ensures id in s'.db.requests && s'.db.requests[id].status == Failed
    ensures var o := s.db.requests[id].operationId; o in s'.db.operations && s'.db.operations[o].status == OpFailed
  {
    var a := Claim(p, [id], "", 0, 1);
    ClaimTakesWaiting(sha, s, a, id);
    var s1 := Step(sha, s, a);
    RunAppend(sha, s, [], a);
    assert [] + [a] == [a];
    trace, s' := RunOne(sha, s, [a], s1, p, Smooth(""));
    FailingRound(sha, s1.db, s1.now, ToRequest(id, s.db.requests[id], s.now), "");
  }

  predicate HasCommit(ledger: seq<Commit>, operationId: string) {
    exists k :: 0 <= k < |ledger| && ledger[k].operationId == operationId
  }

  /** Whatever state the system is in, a waiting row whose identity holds up can be brought to its
      effect by a poller that is free: the ledger then holds its command id, and a new commit of its
      operation unless it held that id before. */
  lemma WaitingCanBeCommitted(sha: string -> string, s: State, p: nat, id: string, sub: string) returns (actions: seq<Action>)
    requires Resting(s, p) && id in s.db.requests && Waiting(s.db.requests[id], s.now)
    requires IdentityHolds(sha, s.db, s.db.requests[id]) && SubmissionUnused(s.db.attempts, sub)
    ensures var row := s.db.requests[id];
      var commandId := RowDerived(sha, row);
      Run(sha, s, actions).ledger == if Committed(s.ledger, commandId) then s.ledger else s.ledger + [Commit(commandId, row.operationId)]
  {
    var row := s.db.requests[id];
    var trace, sent := WaitingIsSent(sha, s, p, id, sub);
    var deliver := Deliver(Message(RowDerived(sha, row), sub, row.operationId));
    RunAppend(sha, s, trace, deliver);
    actions := trace + [deliver];
  }

  /** And exactly such rows can: of an operation with another id on record nothing is ever
      committed. */
  lemma WaitingCanBeCommittedIff(sha: string -> string, s: State, p: nat, id: string, sub: string)
    requires Inv(sha, s) && Resting(s, p) && id in s.db.requests && Waiting(s.db.requests[id], s.now)
    requires SubmissionUnused(s.db.attempts, sub) && !Committed(s.ledger, RowDerived(sha, s.db.requests[id]))
    ensures (exists actions :: HasCommit(Run(sha, s, actions).ledger, s.db.requests[id].operationId))
       <==> IdentityHolds(sha, s.db, s.db.requests[id])
  {
    var o := s.db.requests[id].operationId;
    if IdentityHolds(sha, s.db, s.db.requests[id]) {
      var actions := WaitingCanBeCommitted(sha, s, p, id, sub);
      assert Run(sha, s, actions).ledger[|s.ledger|].operationId == o;
      assert HasCommit(Run(sha, s, actions).ledger, o);
    } else {
      forall actions ensures !HasCommit(Run(sha, s, actions).ledger, o) {
        ForeignIdNeverSubmitted(sha, s, actions, id);
      }
    }
  }

  /** End to end: what the API enqueues can be brought to its effect, under the id it returned. */
  lemma EnqueuedCanBeCommitted(sha: string -> string, s: State, input: EnqueueInput, ids: FreshIds, p: nat, sub: string)
    returns (actions: seq<Action>)
    requires EnqueueTx(sha, s.db, input, ids, s.now).Some? && FreshOperation(s.db, ids.operationId)
    requires Resting(s, p) && SubmissionUnused(s.db.attempts, sub)
    ensures var commandId := CommandId(sha, input.tenantId, ids.operationId, SemanticVersion(input.kind));
      Run(sha, Step(sha, s, Enqueue(input, ids)), actions).ledger ==
        if Committed(s.ledger, commandId) then s.ledger else s.ledger + [Commit(commandId, ids.operationId)]
  {
    var s1 := Step(sha, s, Enqueue(input, ids));
    CommittedEnqueuePassesIdentityCheck(sha, s.db, input, ids, s.now);
    assert s1.db.requests[ids.commandRequestId] == NewRequest(input, ids.operationId, s.now);
    assert s1.db.operations[ids.operationId].commandId == Some(CommandId(sha, input.tenantId, ids.operationId, SemanticVersion(input.kind)));
    actions := WaitingCanBeCommitted(sha, s1, p, ids.commandRequestId, sub);
  }

  // ---- failed submissions

  lemma ThrownGoesToRetry(sha: string -> string, s: State, p: nat, thrown: Choice)
    requires Working(s, p)
    requires s.pollers[p].pc.Send? ==> thrown.outcome.BuildFailed? || thrown.outcome.Threw?
    requires s.pollers[p].pc.Send? || (s.pollers[p].pc.Await? && thrown.outcome.Threw?)
    ensures var s' := Step(sha, s, Work(p, thrown));
      s'.pollers[p] == Poller(RetryRow, s.pollers[p].queue) && s'.db.requests == s.db.requests && s'.now == s.now
  {
  }

  lemma RetryWaitsASecond(sha: string -> string, s: State, p: nat, choice: Choice, t: int)
    requires Working(s, p) && s.pollers[p].pc.RetryRow? && s.pollers[p].queue[0].id in s.db.requests
    ensures var id := s.pollers[p].queue[0].id;
      var s' := Step(sha, s, Work(p, choice));
      id in s'.db.requests && (Waiting(s'.db.requests[id], t) <==> choice.applied && s.now + 1000 <= t)
  {
  }

  /** A request whose command could not be built or submitted, or whose submission threw, waits
      again from one second later on and not before, if its row can be written; otherwise it never
      waits again. */
  lemma ThrownWaitsASecond(sha: string -> string, s: State, p: nat, thrown: Choice, choice: Choice, t: int)
    requires Inv(sha, s) && Working(s, p)
    requires s.pollers[p].pc.Send? ==> thrown.outcome.BuildFailed? || thrown.outcome.Threw?
    requires s.pollers[p].pc.Send? || (s.pollers[p].pc.Await? && thrown.outcome.Threw?)
    ensures var id := s.pollers[p].queue[0].id;
      var s' := Step(sha, Step(sha, s, Work(p, thrown)), Work(p, choice));
      && id in s'.db.requests
      && (Waiting(s'.db.requests[id], t) <==> choice.applied && s.now + 1000 <= t)
  {
    assert Snapshot(s.db, s.pollers[p].queue[0]);
    ThrownGoesToRetry(sha, s, p, thrown);
    RetryWaitsASecond(sha, Step(sha, s, Work(p, thrown)), p, choice, t);
  }

  /** After that the operation is of unknown outcome, if its row can be written, and the poller goes on. */
  lemma RetryLeavesUnknown(sha: string -> string, s: State, p: nat, choice: Choice)
    requires Working(s, p) && s.pollers[p].pc.RetryOperation?
    ensures var o := s.pollers[p].queue[0].operationId;
      var s' := Step(sha, s, Work(p, choice));
      && s'.db.requests == s.db.requests
      && (o in s.db.operations ==>
            o in s'.db.operations && s'.db.operations[o].status == if choice.applied then OpUnknown else s.db.operations[o].status)
      && (|s.pollers[p].queue| == 1 ==> Resting(s', p))
      && (|s.pollers[p].queue| > 1 ==> s'.pollers[p] == Poller(CheckIdentity, s.pollers[p].queue[1..]))
  {
  }

  // ---- rows nobody touches again

  ghost predicate Unheld(pollers: map<nat, Poller>, id: string) {
    forall p, i :: p in pollers && 0 <= i < |Held(pollers[p])| ==> Held(pollers[p])[i].id != id
  }

  /** Not waiting, and in no poller's hands. */
  ghost predicate Abandoned(s: State, id: string) {
    && id in s.db.requests
    && s.db.requests[id].status !in {Received, Queued, Pending}
    && Unheld(s.pollers, id)
  }

  lemma WorkKeepsUnheld(sha: string -> string, s: State, p: nat, choice: Choice, id: string)
    requires Working(s, p) && Unheld(s.pollers, id)
    ensures Unheld(s.pollers[p := WorkPoller(sha, s.db, s.pollers[p], choice)], id)
  {
    var me, me' := s.pollers[p], WorkPoller(sha, s.db, s.pollers[p], choice);
    WorkShrinksHeld(sha, s.db, me, choice);
    assert |Finish(me).queue| < |me.queue|;
    forall i | 0 <= i < |Held(me')| ensures Held(me')[i].id != id {
      assert Held(me')[i] in Held(me);
    }
  }

  lemma WorkKeepsAbandoned(sha: string -> string, s: State, p: nat, choice: Choice, id: string)
    requires Inv(sha, s) && Working(s, p) && Abandoned(s, id)
    ensures var s' := Step(sha, s, Work(p, choice)); Abandoned(s', id) && s'.db.requests[id] == s.db.requests[id]
  {
    var me := s.pollers[p];
    WorkKeepsUnheld(sha, s, p, choice, id);
    WorkSparesUnheld(s, p, choice, id);
    assert Step(sha, s, Work(p, choice)).db.requests == RequestsAfter(s.db.requests, s.now, me, choice);
  }

  lemma WorkSparesUnheld(s: State, p: nat, choice: Choice, id: string)
    requires Working(s, p) && id in s.db.requests && Unheld(s.pollers, id)
    ensures var after := RequestsAfter(s.db.requests, s.now, s.pollers[p], choice); id in after && after[id] == s.db.requests[id]
  {
    var me := s.pollers[p];
    if WritesRow(me.pc) {
      assert Held(me)[0] == me.queue[0];
    }
  }

  lemma ClaimKeepsAbandoned(sha: string -> string, s: State, a: Action, id: string)
    requires a.Claim? && Inv(sha, s) && Abandoned(s, id)
    ensures var s' := Step(sha, s, a); Abandoned(s', id) && s'.db.requests[id] == s.db.requests[id]
  {
    var s' := Step(sha, s, a);
    if s' != s {
      var selected := SelectForClaim(Read(s.db, s.now, a.rows), a.concurrency, a.concurrency);
      SelectedAreClaimable(s, a);
      ClaimKeepsUnheld(s.pollers, a.poller, selected, id);
    }
  }

  lemma ClaimKeepsUnheld(pollers: map<nat, Poller>, p: nat, selected: seq<CommandRequest>, id: string)
    requires Unheld(pollers, id) && forall i :: 0 <= i < |selected| ==> selected[i].id != id
    ensures Unheld(pollers[p := Poller(CheckIdentity, selected)], id) && id !in Ids(selected)
  {
    assert Held(Poller(CheckIdentity, selected)) == selected;
  }

  lemma CrashKeepsAbandoned(sha: string -> string, s: State, p: nat, id: string)
    requires Abandoned(s, id)
    ensures Abandoned(Step(sha, s, Crash(p)), id)
  {
    assert Held(Poller(Idle, [])) == [];
  }

  lemma StepKeepsAbandoned(sha: string -> string, s: State, a: Action, id: string)
    requires Inv(sha, s) && Abandoned(s, id)
    ensures var s' := Step(sha, s, a); Abandoned(s', id) && s'.db.requests[id] == s.db.requests[id]
  {
    match a
    case Enqueue(_, _) =>
    case Tick(_) =>
    case Claim(_, _, _, _, _) => ClaimKeepsAbandoned(sha, s, a, id);
    case Work(p, choice) =>
      if Working(s, p) {
        WorkKeepsAbandoned(sha, s, p, choice, id);
      }
    case Crash(p) => CrashKeepsAbandoned(sha, s, p, id);
    case Deliver(_) =>
  }

  /** A row that is neither waiting nor held stays as it is for ever: failed and completed ones, but
      also those a crash left behind, since nothing reads when their lease ends. */
  lemma {:induction false} AbandonedStays(sha: string -> string, s: State, actions: seq<Action>, id: string)
    requires Inv(sha, s) && Abandoned(s, id)
    ensures var s' := Run(sha, s, actions); Abandoned(s', id) && s'.db.requests[id] == s.db.requests[id]
    decreases |actions|
  {
    if actions != [] {
      StepKeepsAbandoned(sha, s, actions[0], id);
      StepKeepsInv(sha, s, actions[0]);
      AbandonedStays(sha, Step(sha, s, actions[0]), actions[1..], id);
    }
  }

  /** So no poller ever takes up again a row that has failed, or whose retry could not be written. */
  lemma FailedStays(sha: string -> string, s: State, actions: seq<Action>, id: string)
    requires Inv(sha, s) && id in s.db.requests && s.db.requests[id].status in {Failed, Unknown, RequestStatus.Completed}
    ensures var s' := Run(sha, s, actions); id in s'.db.requests && s'.db.requests[id] == s.db.requests[id]
  {
    forall p, i | p in s.pollers && 0 <= i < |Held(s.pollers[p])| ensures Held(s.pollers[p])[i].id != id {
      assert PollerOk(s.db, s.pollers[p]);
      assert s.db.requests[Held(s.pollers[p])[i].id].status == HeldStatus(s.pollers[p].pc, i);
    }
    AbandonedStays(sha, s, actions, id);
  }

  /** A crash abandons everything its poller held. */
  lemma CrashAbandons(sha: string -> string, s: State, p: nat, i: nat)
    requires Inv(sha, s) && p in s.pollers && i < |Held(s.pollers[p])|
    ensures Abandoned(Step(sha, s, Crash(p)), Held(s.pollers[p])[i].id)
  {
    var me := s.pollers[p];
    assert Held(me)[i] in me.queue;
    assert PollerOk(s.db, me);
    assert Held(Poller(Idle, [])) == [];
  }

  lemma StepKeepsUnattempted(sha: string -> string, s: State, a: Action, id: string)
    requires Inv(sha, s) && Abandoned(s, id) && AttemptsOf(s.db.attempts, s.db.requests[id].operationId) == []
    ensures AttemptsOf(Step(sha, s, a).db.attempts, s.db.requests[id].operationId) == []
  {
    var o := s.db.requests[id].operationId;
    if a.Work? && Working(s, a.worker) && Inserts(s.db.attempts, s.pollers[a.worker]) {
      InsertIsOfAnother(s, a.worker, id);
      AttemptsOfOthers(s.db.attempts, NewAttempt(sha, s.pollers[a.worker]), o);
    } else {
      assert Step(sha, s, a).db.attempts == s.db.attempts;
    }
  }

  lemma InsertIsOfAnother(s: State, p: nat, id: string)
    requires QueueInv(s) && Working(s, p) && s.pollers[p].pc.InsertRow? && id in s.db.requests && Unheld(s.pollers, id)
    ensures s.pollers[p].queue[0].operationId != s.db.requests[id].operationId
  {
    var me := s.pollers[p];
    assert Held(me)[0] == me.queue[0];
    assert Snapshot(s.db, me.queue[0]);
  }

  lemma AttemptsOfOthers(attempts: seq<AttemptRow>, row: AttemptRow, o: string)
    requires row.operationId != o
    ensures AttemptsOf(attempts + [row], o) == AttemptsOf(attempts, o)
  {
    assert (attempts + [row])[..|attempts|] == attempts;
  }

  lemma {:induction false} RunKeepsUnattempted(sha: string -> string, s: State, actions: seq<Action>, id: string)
    requires Inv(sha, s) && Abandoned(s, id) && AttemptsOf(s.db.attempts, s.db.requests[id].operationId) == []
    ensures AttemptsOf(Run(sha, s, actions).db.attempts, s.db.requests[id].operationId) == []
    decreases |actions|
  {
    if actions != [] {
      StepKeepsUnattempted(sha, s, actions[0], id);
      StepKeepsAbandoned(sha, s, actions[0], id);
      StepKeepsInv(sha, s, actions[0]);
      RunKeepsUnattempted(sha, Step(sha, s, actions[0]), actions[1..], id);
    }
  }

  lemma {:induction false} AttemptIsListed(attempts: seq<AttemptRow>, i: nat)
    requires i < |attempts|
    ensures AttemptsOf(attempts, attempts[i].operationId) != []
    decreases |attempts|
  {
    if i < |attempts| - 1 {
      AttemptIsListed(attempts[..|attempts| - 1], i);
    }
  }

  /** A request abandoned before its first attempt is lost: its operation is never committed. */
  lemma AbandonedIsNeverCommitted(sha: string -> string, s: State, actions: seq<Action>, id: string)
    requires Inv(sha, s) && Abandoned(s, id) && AttemptsOf(s.db.attempts, s.db.requests[id].operationId) == []
    ensures !HasCommit(Run(sha, s, actions).ledger, s.db.requests[id].operationId)
  {
    var s', o := Run(sha, s, actions), s.db.requests[id].operationId;
    RunKeepsUnattempted(sha, s, actions, id);
    RunKeepsInv(sha, s, actions);
    forall k | 0 <= k < |s'.ledger| ensures s'.ledger[k].operationId != o {
      assert WasSent(s'.network, s'.ledger[k]);
      var m :| m in s'.network && m.commandId == s'.ledger[k].commandId && m.operationId == s'.ledger[k].operationId;
      assert Recorded(s'.db.attempts, m);
      var i :| 0 <= i < |s'.db.attempts| && s'.db.attempts[i].operationId == m.operationId;
      AttemptIsListed(s'.db.attempts, i);
    }
  }

  // ---- submission ids

  predicate AttemptedUnder(attempts: seq<AttemptRow>, operationId: string, submissionId: string) {
    exists i :: 0 <= i < |attempts| && attempts[i].operationId == operationId && attempts[i].submissionId == submissionId
  }

  ghost predicate SubmissionsAttempted(db: Db) {
    forall o :: o in db.operations && db.operations[o].submissionId.Some? ==>
      AttemptedUnder(db.attempts, o, db.operations[o].submissionId.value)
  }

  lemma AttemptedStays(attempts: seq<AttemptRow>, row: AttemptRow, o: string, sub: string)
    requires AttemptedUnder(attempts, o, sub)
    ensures AttemptedUnder(attempts + [row], o, sub)
  {
    var i :| 0 <= i < |attempts| && attempts[i].operationId == o && attempts[i].submissionId == sub;
    assert (attempts + [row])[i] == attempts[i];
  }

  lemma WorkWritesSubmission(sha: string -> string, operations: map<string, OperationRow>, p: Poller, choice: Choice, o: string)
    requires p.queue != [] && o in OperationsAfter(sha, operations, p, choice)
    ensures o in operations
    ensures OperationsAfter(sha, operations, p, choice)[o].submissionId ==
      if p.pc.MarkOperation? && choice.applied && o == p.queue[0].operationId then Some(p.pc.submissionId) else operations[o].submissionId
  {
  }

  lemma WorkKeepsSubmissions(sha: string -> string, s: State, p: nat, choice: Choice)
    requires Inv(sha, s) && Working(s, p) && SubmissionsAttempted(s.db)
    ensures SubmissionsAttempted(WorkTables(sha, s.db, s.now, s.pollers[p], choice))
  {
    var me, db' := s.pollers[p], WorkTables(sha, s.db, s.now, s.pollers[p], choice);
    assert PcOk(sha, s.db, me);
    forall o | o in db'.operations && db'.operations[o].submissionId.Some?
      ensures AttemptedUnder(db'.attempts, o, db'.operations[o].submissionId.value)
    {
      WorkWritesSubmission(sha, s.db.operations, me, choice, o);
      assert AttemptedUnder(s.db.attempts, o, db'.operations[o].submissionId.value);
      if Inserts(s.db.attempts, me) {
        AttemptedStays(s.db.attempts, NewAttempt(sha, me), o, db'.operations[o].submissionId.value);
      }
    }
  }

  lemma StepKeepsSubmissions(sha: string -> string, s: State, a: Action)
    requires Inv(sha, s) && SubmissionsAttempted(s.db)
    ensures SubmissionsAttempted(Step(sha, s, a).db)
  {
    if a.Work? && Working(s, a.worker) {
      WorkKeepsSubmissions(sha, s, a.worker, a.choice);
    }
  }

  /** The submission id an operation shows is that of one of its own attempts, in every run. */
  lemma {:induction false} SubmissionIdsAreAttempts(sha: string -> string, s: State, actions: seq<Action>)
    requires Inv(sha, s) && SubmissionsAttempted(s.db)
    ensures SubmissionsAttempted(Run(sha, s, actions).db)
    decreases |actions|
  {
    if actions != [] {
      StepKeepsSubmissions(sha, s, actions[0]);
      StepKeepsInv(sha, s, actions[0]);
      SubmissionIdsAreAttempts(sha, Step(sha, s, actions[0]), actions[1..]);
    }
  }
}
