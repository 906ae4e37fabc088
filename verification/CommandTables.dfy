/** The relational tables the API and the ledger-command workers share, as values. */
module CommandTables {
  import opened Options

  datatype RequestStatus = Received | Queued | Pending | Claimed | Submitted | Completed | Failed | Unknown

  datatype OperationStatus = OpReceived | OpSubmitted | OpUnknown | OpFailed

  /** A row of ledger_command_requests. Columns the worker reads through COALESCE may be null. */
  datatype RequestRow = RequestRow(
    tenantId: string, operationId: string,
    commandType: Option<string>, payloadCommandType: Option<string>,
    semanticVersion: Option<string>, payloadSemanticVersion: Option<string>,
    payload: string, priority: Option<int>, participantId: Option<string>,
    status: RequestStatus, availableAt: Option<int>, leaseToken: Option<string>, leasedUntil: Option<int>)

  /** A row of operations; `id` and `operation_id` are the same text for every row the API writes. */
  datatype OperationRow = OperationRow(tenantId: string, commandId: Option<string>, status: OperationStatus, submissionId: Option<string>)

  datatype AttemptRow = AttemptRow(tenantId: string, operationId: string, submissionId: string, commandId: string, attempt: int)

  datatype ApiRequestRow = ApiRequestRow(tenantId: string, operationId: string, requestId: string, keyHash: string)

  datatype IntentRow = IntentRow(tenantId: string, operationId: string, requestId: string, keyHash: string, kind: string)

  datatype Response = Response(status: int, body: string)

  /** A row of idempotency_keys: in progress while `response` is null, completed once it is set. */
  datatype KeyRow = KeyRow(requestHash: string, response: Option<Response>, requestId: Option<string>, operationId: Option<string>)

  /** The primary key of idempotency_keys: tenant and hash of the Idempotency-Key header. */
  type Key = (string, string)

  datatype Db = Db(
    idempotencyKeys: map<Key, KeyRow>,
    apiRequests: map<string, ApiRequestRow>,
    intents: map<string, IntentRow>,
    operations: map<string, OperationRow>,
    requests: map<string, RequestRow>,
    attempts: seq<AttemptRow>)

  /** What the worker reads of a row: CommandRequest in Models.kt. */
  datatype CommandRequest = CommandRequest(
    id: string, tenantId: string, operationId: string, commandType: string, semanticVersion: string,
    payload: string, priority: int, participantId: string, availableAt: int)

  /** The column list of the claiming SELECT, with its COALESCE defaults. */
  function ToRequest(id: string, row: RequestRow, now: int): CommandRequest {
    CommandRequest(id, row.tenantId, row.operationId,
                   row.commandType.GetOr(row.payloadCommandType.GetOr("issue")),
                   EffectiveVersion(row),
                   row.payload, row.priority.GetOr(0), row.participantId.GetOr("default"), row.availableAt.GetOr(now))
  }

  function EffectiveVersion(row: RequestRow): string {
    row.semanticVersion.GetOr(row.payloadSemanticVersion.GetOr("v1"))
  }

  /** The WHERE clause of the claiming SELECT. */
  predicate Claimable(row: RequestRow, now: int) {
    (row.status == Received || row.status == Queued || row.status == Pending) && row.availableAt.GetOr(now) <= now
  }

  /** The claimed rows carry the lease; every other row is as before. */
  function ClaimRows(requests: map<string, RequestRow>, claimed: set<string>, leaseToken: string, leasedUntil: int): map<string, RequestRow> {
    map id | id in requests ::
      if id in claimed
      then requests[id].(status := Claimed, leaseToken := Some(leaseToken), leasedUntil := Some(leasedUntil))
      else requests[id]
  }

  /** UPDATE ledger_command_requests SET status = ? WHERE id = ? */
  function SetRequestStatus(requests: map<string, RequestRow>, id: string, status: RequestStatus): map<string, RequestRow> {
    if id in requests then requests[id := requests[id].(status := status)] else requests
  }

  /** UPDATE ledger_command_requests SET status = 'received', available_at = now() + interval '1 second' WHERE id = ? */
  function Requeue(requests: map<string, RequestRow>, id: string, now: int): map<string, RequestRow> {
    if id in requests then requests[id := requests[id].(status := Received, availableAt := Some(now + 1000))] else requests
  }

  /** UPDATE operations SET command_id = ? WHERE id = ? */
  function SetCommandId(operations: map<string, OperationRow>, id: string, commandId: string): map<string, OperationRow> {
    if id in operations then operations[id := operations[id].(commandId := Some(commandId))] else operations
  }

  /** UPDATE operations SET status = ? WHERE id = ? */
  function SetOperationStatus(operations: map<string, OperationRow>, id: string, status: OperationStatus): map<string, OperationRow> {
    if id in operations then operations[id := operations[id].(status := status)] else operations
  }

  /** UPDATE operations SET status = 'submitted', submission_id = ? WHERE id = ? */
  function SetSubmitted(operations: map<string, OperationRow>, id: string, submissionId: string): map<string, OperationRow> {
    if id in operations then operations[id := operations[id].(status := OpSubmitted, submissionId := Some(submissionId))] else operations
  }

  /** SELECT COALESCE(MAX(attempt), 0) FROM ledger_command_attempts WHERE operation_id = ? */
  function MaxAttempt(attempts: seq<AttemptRow>, operationId: string): int {
    if attempts == [] then 0
    else
      var rest := MaxAttempt(attempts[..|attempts| - 1], operationId);
      var last := attempts[|attempts| - 1];
      if last.operationId != operationId then rest
      else if AttemptsOf(attempts[..|attempts| - 1], operationId) == [] || rest < last.attempt then last.attempt
      else rest
  }

  /** The attempts of one operation, in insertion order. */
  function AttemptsOf(attempts: seq<AttemptRow>, operationId: string): seq<AttemptRow> {
    if attempts == [] then []
    else
      var rest := AttemptsOf(attempts[..|attempts| - 1], operationId);
      var last := attempts[|attempts| - 1];
      if last.operationId == operationId then rest + [last] else rest
  }

  /** The unique constraint on submission_id. */
  predicate SubmissionUnused(attempts: seq<AttemptRow>, submissionId: string) {
    forall i :: 0 <= i < |attempts| ==> attempts[i].submissionId != submissionId
  }
}
