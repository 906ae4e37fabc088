/** `enqueueIntent` of apps/api/src/db/intent-enqueue.ts: one transaction that writes an
    API request, an intent, an operation and a command request, and binds the idempotency key. */
module IntentEnqueue {
  import opened CommandTables
  import opened Database
  import opened Options
  import CommandIdentity

  datatype IntentKind = Issue | Redeem | Transfer | HoldCreate | HoldRelease

  function KindText(kind: IntentKind): string {
    match kind
    case Issue => "issue"
    case Redeem => "redeem"
    case Transfer => "transfer"
    case HoldCreate => "hold_create"
    case HoldRelease => "hold_release"
  }

  function CommandType(kind: IntentKind): string {
    match kind
    case Issue => "issue_intent.create"
    case Redeem => "redeem_intent.create"
    case Transfer => "transfer_intent.create"
    case HoldCreate => "hold.create"
    case HoldRelease => "hold.release"
  }

  function SemanticVersion(kind: IntentKind): string {
    CommandType(kind) + ":v1"
  }

  datatype EnqueueInput = EnqueueInput(tenantId: string, kind: IntentKind, payload: string, keyHash: string, requestId: string)

  /** The identifiers drawn during the call. */
  datatype FreshIds = FreshIds(apiRequestId: string, intentId: string, operationId: string, commandRequestId: string)

  datatype EnqueueResult = Enqueued(operationId: string, intentId: string, commandId: string) | EnqueueError

  /** The API's derivation of the command id. */
  function CommandId(sha: string -> string, tenantId: string, operationId: string, semanticVersion: string): string {
    var digest := sha(tenantId + "|" + operationId + "|" + semanticVersion);
    "cmd_" + if |digest| < 24 then digest else digest[0..24]
  }

  /** The command request the worker will claim. */
  function NewRequest(input: EnqueueInput, operationId: string, now: int): RequestRow {
    RequestRow(input.tenantId, operationId, Some(CommandType(input.kind)), Some(CommandType(input.kind)),
               Some(SemanticVersion(input.kind)), Some(SemanticVersion(input.kind)),
               input.payload, Some(0), Some("default"), Received, Some(now), None, None)
  }

  /** `bindClaimToOperation`: the row keeps its hash and response. */
  function BindKey(keys: map<Key, KeyRow>, key: Key, requestId: string, operationId: string): map<Key, KeyRow> {
    if key in keys then keys[key := keys[key].(requestId := Some(requestId), operationId := Some(operationId))] else keys
  }

  /** The primary keys, and the unique constraints on api_requests.request_id and
      operations.command_id. */
  predicate KeysFree(db: Db, ids: FreshIds, requestId: string, commandId: string) {
    && ids.apiRequestId !in db.apiRequests
    && (forall a :: a in db.apiRequests ==> db.apiRequests[a].requestId != requestId)
    && ids.intentId !in db.intents
    && ids.operationId !in db.operations
    && (forall o :: o in db.operations ==> db.operations[o].commandId != Some(commandId))
    && ids.commandRequestId !in db.requests
  }

  /** The committed effect of the transaction; None when a constraint makes it roll back. */
  function EnqueueTx(sha: string -> string, db: Db, input: EnqueueInput, ids: FreshIds, now: int): Option<Db> {
    var commandId := CommandId(sha, input.tenantId, ids.operationId, SemanticVersion(input.kind));
    if !KeysFree(db, ids, input.requestId, commandId) then None
    else Some(
      Db(BindKey(db.idempotencyKeys, (input.tenantId, input.keyHash), input.requestId, ids.operationId),
         db.apiRequests[ids.apiRequestId := ApiRequestRow(input.tenantId, ids.operationId, input.requestId, input.keyHash)],
         db.intents[ids.intentId := IntentRow(input.tenantId, ids.operationId, input.requestId, input.keyHash, KindText(input.kind))],
         db.operations[ids.operationId := OperationRow(input.tenantId, Some(commandId), OpReceived, None)],
         db.requests[ids.commandRequestId := NewRequest(input, ids.operationId, now)],
         db.attempts))
  }

  /** `after` is `before` with exactly one more row, under `key`. */
  ghost predicate OneMore<V(!new)>(before: map<string, V>, after: map<string, V>, key: string) {
    key in after && |after| == |before| + 1 && after - {key} == before
  }

  lemma UpdateIsOneMore<V(!new)>(before: map<string, V>, key: string, value: V)
    requires key !in before
    ensures OneMore(before, before[key := value], key)
  {
    assert before[key := value].Keys == before.Keys + {key};
    assert before[key := value] - {key} == before;
  }

  /** A committed enqueue adds exactly one row to each of the four tables, all of one
      operation, and touches no other row of them. */
  lemma CommittedEnqueueAddsOneOfEach(sha: string -> string, db: Db, input: EnqueueInput, ids: FreshIds, now: int)
    requires EnqueueTx(sha, db, input, ids, now).Some?
    ensures var db' := EnqueueTx(sha, db, input, ids, now).value;
      && OneMore(db.apiRequests, db'.apiRequests, ids.apiRequestId)
      && OneMore(db.intents, db'.intents, ids.intentId)
      && OneMore(db.operations, db'.operations, ids.operationId)
      && OneMore(db.requests, db'.requests, ids.commandRequestId)
      && db'.apiRequests[ids.apiRequestId] == ApiRequestRow(input.tenantId, ids.operationId, input.requestId, input.keyHash)
      && db'.intents[ids.intentId] == IntentRow(input.tenantId, ids.operationId, input.requestId, input.keyHash, KindText(input.kind))
      && db'.operations[ids.operationId].tenantId == input.tenantId
      && db'.operations[ids.operationId].status == OpReceived && db'.operations[ids.operationId].submissionId == None
      && db'.requests[ids.commandRequestId].operationId == ids.operationId
      && db'.attempts == db.attempts
  {
    var commandId := CommandId(sha, input.tenantId, ids.operationId, SemanticVersion(input.kind));
    UpdateIsOneMore(db.apiRequests, ids.apiRequestId, ApiRequestRow(input.tenantId, ids.operationId, input.requestId, input.keyHash));
    UpdateIsOneMore(db.intents, ids.intentId, IntentRow(input.tenantId, ids.operationId, input.requestId, input.keyHash, KindText(input.kind)));
    UpdateIsOneMore(db.operations, ids.operationId, OperationRow(input.tenantId, Some(commandId), OpReceived, None));
    UpdateIsOneMore(db.requests, ids.commandRequestId, NewRequest(input, ids.operationId, now));
  }

  /** The stored command id is the worker's own derivation from the very columns the
      worker will read, and the idempotency key, if claimed, is bound to the operation. */
  lemma CommittedEnqueuePassesIdentityCheck(sha: string -> string, db: Db, input: EnqueueInput, ids: FreshIds, now: int)
    requires EnqueueTx(sha, db, input, ids, now).Some?
    ensures var db' := EnqueueTx(sha, db, input, ids, now).value;
      && ids.commandRequestId in db'.requests
      && ids.operationId in db'.operations
      && (var request := ToRequest(ids.commandRequestId, db'.requests[ids.commandRequestId], now);
          && request.operationId == ids.operationId
          && db'.operations[ids.operationId].commandId
             == Some(CommandIdentity.DeriveCommandId(sha, request.tenantId, request.operationId, request.semanticVersion)))
      && db'.idempotencyKeys.Keys == db.idempotencyKeys.Keys
      && ((input.tenantId, input.keyHash) in db.idempotencyKeys
          ==> var before, after := db.idempotencyKeys[(input.tenantId, input.keyHash)], db'.idempotencyKeys[(input.tenantId, input.keyHash)];
              after.operationId == Some(ids.operationId) && after.requestId == Some(input.requestId)
              && after.requestHash == before.requestHash && after.response == before.response)
    ensures var keys := EnqueueTx(sha, db, input, ids, now).value.idempotencyKeys;
      forall key :: key in db.idempotencyKeys && key != (input.tenantId, input.keyHash) ==> key in keys && keys[key] == db.idempotencyKeys[key]
  {
    var digest := sha(CommandIdentity.RawIdentity(input.tenantId, ids.operationId, SemanticVersion(input.kind)));
    assert |digest| == 24 ==> digest[0..24] == digest;
  }

  /** No two API requests share a request id, and no two operations a command id. */
  ghost predicate UniqueIds(apiRequests: map<string, ApiRequestRow>, operations: map<string, OperationRow>) {
    && (forall a, b :: a in apiRequests && b in apiRequests && a != b ==> apiRequests[a].requestId != apiRequests[b].requestId)
    && (forall o, p :: o in operations && p in operations && o != p && operations[o].commandId.Some?
          ==> operations[o].commandId != operations[p].commandId)
  }

  /** The transaction commits exactly when its four rows are new and the ids that must be unique
      still are with them; so they are in every database the API has written. */
  lemma CommitsIffUnique(sha: string -> string, db: Db, input: EnqueueInput, ids: FreshIds, now: int)
    requires UniqueIds(db.apiRequests, db.operations)
    ensures var tx := EnqueueTx(sha, db, input, ids, now);
      var commandId := CommandId(sha, input.tenantId, ids.operationId, SemanticVersion(input.kind));
      && (tx.Some? <==>
            && ids.apiRequestId !in db.apiRequests && ids.intentId !in db.intents
            && ids.operationId !in db.operations && ids.commandRequestId !in db.requests
            && UniqueIds(db.apiRequests[ids.apiRequestId := ApiRequestRow(input.tenantId, ids.operationId, input.requestId, input.keyHash)],
                         db.operations[ids.operationId := OperationRow(input.tenantId, Some(commandId), OpReceived, None)]))
      && (tx.Some? ==> UniqueIds(tx.value.apiRequests, tx.value.operations))
  {
    var commandId := CommandId(sha, input.tenantId, ids.operationId, SemanticVersion(input.kind));
    var apiRequests := db.apiRequests[ids.apiRequestId := ApiRequestRow(input.tenantId, ids.operationId, input.requestId, input.keyHash)];
    var operations := db.operations[ids.operationId := OperationRow(input.tenantId, Some(commandId), OpReceived, None)];
    assert apiRequests[ids.apiRequestId].requestId == input.requestId && operations[ids.operationId].commandId == Some(commandId);
    assert forall a :: a in db.apiRequests && a != ids.apiRequestId ==> apiRequests[a] == db.apiRequests[a];
    assert forall o :: o in db.operations && o != ids.operationId ==> operations[o] == db.operations[o];
  }

  /** `fault` is the number of the statement the database raises on, if it is in 0..4. */
  method EnqueueIntent(tables: Tables, sha: string -> string, input: EnqueueInput, ids: FreshIds, now: int, fault: int)
    returns (r: EnqueueResult)
    modifies tables
    ensures r.Enqueued? <==> EnqueueTx(sha, old(tables.View()), input, ids, now).Some? && !(0 <= fault < 5)
    ensures r.Enqueued? ==> tables.View() == EnqueueTx(sha, old(tables.View()), input, ids, now).value
    ensures r.Enqueued? ==> r.operationId == ids.operationId && r.intentId == ids.intentId
    ensures r.Enqueued? ==> r.operationId in tables.operations && tables.operations[r.operationId].commandId == Some(r.commandId)
    ensures r.EnqueueError? ==> tables.View() == old(tables.View())
  {
    var saved := Db(tables.idempotencyKeys, tables.apiRequests, tables.intents, tables.operations, tables.requests, tables.attempts);
    var semanticVersion := SemanticVersion(input.kind);
    var cmd := CommandId(sha, input.tenantId, ids.operationId, semanticVersion);
    if fault == 0 || ids.apiRequestId in tables.apiRequests
       || exists a :: a in tables.apiRequests && tables.apiRequests[a].requestId == input.requestId {
      tables.Restore(saved);
      return EnqueueError;
    }
    tables.apiRequests := tables.apiRequests[ids.apiRequestId := ApiRequestRow(input.tenantId, ids.operationId, input.requestId, input.keyHash)];
    if fault == 1 || ids.intentId in tables.intents { tables.Restore(saved); return EnqueueError; }
    tables.intents := tables.intents[ids.intentId := IntentRow(input.tenantId, ids.operationId, input.requestId, input.keyHash, KindText(input.kind))];
    if fault == 2 || ids.operationId in tables.operations || exists o :: o in tables.operations && tables.operations[o].commandId == Some(cmd) {
      tables.Restore(saved);
      return EnqueueError;
    }
    tables.operations := tables.operations[ids.operationId := OperationRow(input.tenantId, Some(cmd), OpReceived, None)];
    if fault == 3 || ids.commandRequestId in tables.requests { tables.Restore(saved); return EnqueueError; }
    tables.requests := tables.requests[ids.commandRequestId := NewRequest(input, ids.operationId, now)];
    if fault == 4 { tables.Restore(saved); return EnqueueError; }
    if (input.tenantId, input.keyHash) in tables.idempotencyKeys {
      var row := tables.idempotencyKeys[(input.tenantId, input.keyHash)];
      tables.idempotencyKeys := tables.idempotencyKeys[(input.tenantId, input.keyHash) :=
        row.(requestId := Some(input.requestId), operationId := Some(ids.operationId))];
    }
    r := Enqueued(ids.operationId, ids.intentId, cmd);
  }
}
