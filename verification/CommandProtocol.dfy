/** Any number of pollers, the API and the ledger, as one state machine. Each action is
    one SQL statement, one transaction, or one event on the network; an action that is not
    enabled leaves the state as it is, so a run is any sequence of actions. */
module CommandProtocol {
  import opened CommandTables
  import opened Dispatch
  import opened IntentEnqueue
  import opened Options
  import CommandIdentity

  /** Where a poller stands in `processClaim`, working on the head of its queue. */
  datatype Pc =
    | Idle
    | CheckIdentity
    | WriteIdentity
    | FailRow
    | FailOperation
    | ReadAttempt(submissionId: string)
    | InsertRow(submissionId: string, attempt: int)
    | MarkOperation(submissionId: string)
    | MarkRow(submissionId: string)
    | Send(submissionId: string)
    | Await(submissionId: string)
    | RetryRow
    | RetryOperation

  datatype Poller = Poller(pc: Pc, queue: seq<CommandRequest>)

  /** A submission under way to the ledger, and an effect the ledger has committed. */
  datatype Message = Message(commandId: string, submissionId: string, operationId: string)
  datatype Commit = Commit(commandId: string, operationId: string)

  datatype State = State(db: Db, now: int, pollers: map<nat, Poller>, network: set<Message>, ledger: seq<Commit>)

  datatype Outcome = NothingToSubmit | BuildFailed | Sent | Acknowledged | Threw

  /** What the surroundings decide in a poller's step: the UUID drawn, whether a statement
      whose exceptions are swallowed took effect, and how building or submitting ended. */
  datatype Choice = Choice(submissionId: string, applied: bool, outcome: Outcome)

  datatype Action =
    | Enqueue(input: EnqueueInput, ids: FreshIds)
    | Tick(elapsed: nat)
    | Claim(poller: nat, rows: seq<string>, leaseToken: string, leasedUntil: int, concurrency: nat)
    | Work(worker: nat, choice: Choice)
    | Crash(victim: nat)
    | Deliver(message: Message)

  function Derived(sha: string -> string, request: CommandRequest): string {
    CommandIdentity.DeriveCommandId(sha, request.tenantId, request.operationId, request.semanticVersion)
  }

  /** After the head of the queue is dealt with. */
  function Finish(p: Poller): Poller
    requires p.queue != []
  {
    if |p.queue| == 1 then Poller(Idle, []) else Poller(CheckIdentity, p.queue[1..])
  }

  /** The command requests after the statement the poller is about to execute. */
  function RequestsAfter(requests: map<string, RequestRow>, now: int, p: Poller, choice: Choice): map<string, RequestRow>
    requires p.queue != []
  {
    var id := p.queue[0].id;
    if p.pc.FailRow? then SetRequestStatus(requests, id, Failed)
    else if p.pc.MarkRow? then SetRequestStatus(requests, id, Submitted)
    else if p.pc.RetryRow? then
      if choice.applied then Requeue(requests, id, now) else SetRequestStatus(requests, id, Unknown)
    else requests
  }

  /** The operations after it. Exceptions of the status updates are swallowed. */
  function OperationsAfter(sha: string -> string, operations: map<string, OperationRow>, p: Poller, choice: Choice): map<string, OperationRow>
    requires p.queue != []
  {
    var id := p.queue[0].operationId;
    if p.pc.WriteIdentity? then SetCommandId(operations, id, Derived(sha, p.queue[0]))
    else if !choice.applied then operations
    else if p.pc.FailOperation? then SetOperationStatus(operations, id, OpFailed)
    else if p.pc.MarkOperation? then SetSubmitted(operations, id, p.pc.submissionId)
    else if p.pc.RetryOperation? then SetOperationStatus(operations, id, OpUnknown)
    else operations
  }

  /** The insert raises when its submission id is already there. */
  predicate Inserts(attempts: seq<AttemptRow>, p: Poller) {
    p.pc.InsertRow? && SubmissionUnused(attempts, p.pc.submissionId)
  }

  function NewAttempt(sha: string -> string, p: Poller): AttemptRow
    requires p.queue != [] && p.pc.InsertRow?
  {
    AttemptRow(p.queue[0].tenantId, p.queue[0].operationId, p.pc.submissionId, Derived(sha, p.queue[0]), p.pc.attempt)
  }

  /** The tables after one statement of `processClaim`. */
  function WorkTables(sha: string -> string, db: Db, now: int, p: Poller, choice: Choice): Db
    requires p.queue != []
  {
    db.(requests := RequestsAfter(db.requests, now, p, choice),
        operations := OperationsAfter(sha, db.operations, p, choice),
        attempts := if Inserts(db.attempts, p) then db.attempts + [NewAttempt(sha, p)] else db.attempts)
  }

  /** Where the poller stands after that statement; a raised insert ends its round. */
  function WorkPoller(sha: string -> string, db: Db, p: Poller, choice: Choice): Poller
    requires p.queue != []
  {
    var request := p.queue[0];
    match p.pc
    case Idle => p
    case CheckIdentity => p.(pc := AfterIdentityCheck(db, request.operationId, Derived(sha, request), choice.submissionId))
    case WriteIdentity => p.(pc := ReadAttempt(choice.submissionId))
    case FailRow => p.(pc := FailOperation)
    case FailOperation => Finish(p)
    case ReadAttempt(sub) => p.(pc := InsertRow(sub, MaxAttempt(db.attempts, request.operationId) + 1))
    case InsertRow(sub, n) => if Inserts(db.attempts, p) then p.(pc := MarkOperation(sub)) else Poller(Idle, [])
    case MarkOperation(sub) => p.(pc := MarkRow(sub))
    case MarkRow(sub) => p.(pc := Send(sub))
    case Send(sub) =>
      if choice.outcome.Sent? then p.(pc := Await(sub))
      else if choice.outcome.NothingToSubmit? then Finish(p)
      else p.(pc := RetryRow)
    case Await(sub) => if choice.outcome.Acknowledged? then Finish(p) else p.(pc := RetryRow)
    case RetryRow => p.(pc := RetryOperation)
    case RetryOperation => Finish(p)
  }

  /** `ensureCommandIdentity` after its SELECT. */
  function AfterIdentityCheck(db: Db, operationId: string, derived: string, submissionId: string): Pc {
    if operationId !in db.operations then ReadAttempt(submissionId)
    else match db.operations[operationId].commandId
      case None => WriteIdentity
      case Some(stored) => if stored == derived then ReadAttempt(submissionId) else FailRow
  }

  function WorkSent(sha: string -> string, p: Poller, choice: Choice): set<Message>
    requires p.queue != []
  {
    if p.pc.Send? && choice.outcome.Sent?
    then {Message(Derived(sha, p.queue[0]), p.pc.submissionId, p.queue[0].operationId)}
    else {}
  }

  /** The rows a claiming SELECT may return: distinct and claimable. The order of
      `created_at` and the rows skipped because they are locked are left open. */
  predicate Selectable(db: Db, now: int, rows: seq<string>) {
    && (forall i, j :: 0 <= i < j < |rows| ==> rows[i] != rows[j])
    && (forall i :: 0 <= i < |rows| ==> rows[i] in db.requests && Claimable(db.requests[rows[i]], now))
  }

  function Read(db: Db, now: int, rows: seq<string>): (r: seq<CommandRequest>)
    requires forall i :: 0 <= i < |rows| ==> rows[i] in db.requests
    ensures |r| == |rows|
    ensures forall i :: 0 <= i < |rows| ==> r[i] == ToRequest(rows[i], db.requests[rows[i]], now)
  {
    seq(|rows|, i requires 0 <= i < |rows| => ToRequest(rows[i], db.requests[rows[i]], now))
  }

  function Ids(requests: seq<CommandRequest>): set<string> {
    set i | 0 <= i < |requests| :: requests[i].id
  }

  function ClaimStep(s: State, a: Action): State
    requires a.Claim? && a.poller in s.pollers && s.pollers[a.poller].pc.Idle?
    requires Selectable(s.db, s.now, a.rows)
  {
    var selected := SelectForClaim(Read(s.db, s.now, a.rows), a.concurrency, a.concurrency);
    if selected == [] then s
    else s.(db := s.db.(requests := ClaimRows(s.db.requests, Ids(selected), a.leaseToken, a.leasedUntil)),
            pollers := s.pollers[a.poller := Poller(CheckIdentity, selected)])
  }

  /** ULIDs are fresh: no command request names the new operation yet. */
  predicate FreshOperation(db: Db, operationId: string) {
    forall id :: id in db.requests ==> db.requests[id].operationId != operationId
  }

  function Step(sha: string -> string, s: State, a: Action): State {
    match a
    case Enqueue(input, ids) =>
      var tx := EnqueueTx(sha, s.db, input, ids, s.now);
      if FreshOperation(s.db, ids.operationId) && tx.Some? then s.(db := tx.value) else s
    case Tick(elapsed) => s.(now := s.now + elapsed)
    case Claim(p, rows, _, _, concurrency) =>
      if p in s.pollers && s.pollers[p].pc.Idle? && |rows| <= concurrency * 4 && Selectable(s.db, s.now, rows)
      then ClaimStep(s, a) else s
    case Work(p, choice) =>
      if p in s.pollers && s.pollers[p].queue != [] then
        State(WorkTables(sha, s.db, s.now, s.pollers[p], choice), s.now,
              s.pollers[p := WorkPoller(sha, s.db, s.pollers[p], choice)],
              s.network + WorkSent(sha, s.pollers[p], choice), s.ledger)
      else s
    case Crash(p) => if p in s.pollers then s.(pollers := s.pollers[p := Poller(Idle, [])]) else s
    case Deliver(m) =>
      // The message stays in the network: it may arrive late, never, or more than once.
      if m in s.network && !Committed(s.ledger, m.commandId)
      then s.(ledger := s.ledger + [Commit(m.commandId, m.operationId)]) else s
  }

  predicate Committed(ledger: seq<Commit>, commandId: string) {
    exists i :: 0 <= i < |ledger| && ledger[i].commandId == commandId
  }

  function Run(sha: string -> string, s: State, actions: seq<Action>): State
    decreases |actions|
  {
    if actions == [] then s else Run(sha, Step(sha, s, actions[0]), actions[1..])
  }

  ghost predicate OneRequestPerOperation(db: Db) {
    forall id1, id2 :: id1 in db.requests && id2 in db.requests && db.requests[id1].operationId == db.requests[id2].operationId ==> id1 == id2
  }

  /** Tables with any rows in any status, one command request per operation, nothing attempted yet. */
  ghost predicate Initial(s: State) {
    && OneRequestPerOperation(s.db)
    && s.db.attempts == []
    && (forall p :: p in s.pollers ==> s.pollers[p] == Poller(Idle, []))
    && s.network == {}
    && s.ledger == []
  }
}
