/** The database the API and the workers write, as an object updated in place. */
module Database {
  import opened CommandTables

  class Tables {
    var idempotencyKeys: map<Key, KeyRow>
    var apiRequests: map<string, ApiRequestRow>
    var intents: map<string, IntentRow>
    var operations: map<string, OperationRow>
    var requests: map<string, RequestRow>
    var attempts: seq<AttemptRow>

    ghost function View(): Db
      reads this
    {
      Db(idempotencyKeys, apiRequests, intents, operations, requests, attempts)
    }

    constructor (db: Db)
      ensures View() == db
    {
      idempotencyKeys, apiRequests, intents := db.idempotencyKeys, db.apiRequests, db.intents;
      operations, requests, attempts := db.operations, db.requests, db.attempts;
    }

    method Restore(saved: Db)
      modifies this
      ensures View() == saved
    {
      idempotencyKeys, apiRequests, intents := saved.idempotencyKeys, saved.apiRequests, saved.intents;
      operations, requests, attempts := saved.operations, saved.requests, saved.attempts;
    }
  }
}
