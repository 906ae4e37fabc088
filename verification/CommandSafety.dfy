/** What every run of the command protocol keeps, and what follows for the ledger. */
module CommandSafety {
  import opened CommandProtocol
  import opened CommandTables
  import opened Dispatch
  import opened IntentEnqueue
  import opened JsText
  import opened Options
  import CommandIdentity

  // ---- the invariant

  /** The claims a poller still holds: all it took, less the finished ones and the one
      whose row it has already given back or failed. */
  function Held(p: Poller): seq<CommandRequest> {
    if p.queue != [] && (p.pc.FailOperation? || p.pc.RetryOperation?) then p.queue[1..] else p.queue
  }

  /** The status of the row of the i-th held claim. */
  function HeldStatus(pc: Pc, i: nat): RequestStatus {
    if i == 0 && (pc.Send? || pc.Await? || pc.RetryRow?) then Submitted else Claimed
  }

  /** `r` reads like the row it was taken from; the columns in question never change. */
  predicate Snapshot(db: Db, r: CommandRequest) {
    && r.id in db.requests
    && db.requests[r.id].tenantId == r.tenantId
    && db.requests[r.id].operationId == r.operationId
    && EffectiveVersion(db.requests[r.id]) == r.semanticVersion
  }

  ghost predicate PollerOk(db: Db, p: Poller) {
    && (p.pc.Idle? <==> p.queue == [])
    && (forall i :: 0 <= i < |p.queue| ==> Snapshot(db, p.queue[i]))
    && (forall i :: 0 <= i < |Held(p)| ==> db.requests[Held(p)[i].id].status == HeldStatus(p.pc, i))
    && (forall i, j :: 0 <= i < j < |p.queue| ==> p.queue[i].id != p.queue[j].id)
  }

  ghost predicate Exclusive(pollers: map<nat, Poller>) {
    forall p, q, i, j :: p in pollers && q in pollers && p != q && 0 <= i < |Held(pollers[p])| && 0 <= j < |Held(pollers[q])|
      ==> Held(pollers[p])[i].id != Held(pollers[q])[j].id
  }

  ghost predicate QueueInv(s: State) {
    && OneRequestPerOperation(s.db)
    && (forall p :: p in s.pollers ==> PollerOk(s.db, s.pollers[p]))
    && Exclusive(s.pollers)
  }

  function RowDerived(sha: string -> string, row: RequestRow): string {
    CommandIdentity.DeriveCommandId(sha, row.tenantId, row.operationId, EffectiveVersion(row))
  }

  /** The operation's stored command id does not contradict `commandId`. */
  predicate StoredIdAgrees(db: Db, operationId: string, commandId: string) {
    operationId in db.operations ==> db.operations[operationId].commandId == Some(commandId)
  }

  predicate Recorded(attempts: seq<AttemptRow>, m: Message) {
    exists i :: 0 <= i < |attempts| && attempts[i].submissionId == m.submissionId
             && attempts[i].commandId == m.commandId && attempts[i].operationId == m.operationId
  }

  /** What a poller knows about its current request at each statement. */
  ghost predicate PcOk(sha: string -> string, db: Db, p: Poller) {
    p.queue != [] ==>
      var request := p.queue[0];
      var operationId := request.operationId;
      var derived := Derived(sha, request);
      match p.pc
      case WriteIdentity => operationId in db.operations && db.operations[operationId].commandId.None?
      case FailRow => operationId in db.operations && db.operations[operationId].commandId.Some?
                   && db.operations[operationId].commandId.value != derived
      case ReadAttempt(sub) => StoredIdAgrees(db, operationId, derived)
      case InsertRow(sub, n) => StoredIdAgrees(db, operationId, derived) && n == |AttemptsOf(db.attempts, operationId)| + 1
      case MarkOperation(sub) => Recorded(db.attempts, Message(derived, sub, operationId))
      case MarkRow(sub) => Recorded(db.attempts, Message(derived, sub, operationId))
      case Send(sub) => Recorded(db.attempts, Message(derived, sub, operationId))
      case Await(sub) => Recorded(db.attempts, Message(derived, sub, operationId))
      case _ => true
  }

  predicate HasRequest(db: Db, operationId: string) {
    exists id :: id in db.requests && db.requests[id].operationId == operationId
  }

  /** Each attempt is of a queued operation, under its derived id, numbered in order. */
  ghost predicate AttemptsOk(sha: string -> string, db: Db) {
    && (forall i :: 0 <= i < |db.attempts| ==>
          HasRequest(db, db.attempts[i].operationId)
          && StoredIdAgrees(db, db.attempts[i].operationId, db.attempts[i].commandId))
    && (forall i, id :: 0 <= i < |db.attempts| && id in db.requests && db.requests[id].operationId == db.attempts[i].operationId ==>
          db.attempts[i].commandId == RowDerived(sha, db.requests[id])
          && db.attempts[i].tenantId == db.requests[id].tenantId)
    && (forall i, j :: 0 <= i < j < |db.attempts| ==> db.attempts[i].submissionId != db.attempts[j].submissionId)
  }

  ghost predicate Numbered(attempts: seq<AttemptRow>) {
    forall o, i :: 0 <= i < |AttemptsOf(attempts, o)| ==> AttemptsOf(attempts, o)[i].attempt == i + 1
  }

  predicate WasSent(network: set<Message>, c: Commit) {
    exists m :: m in network && m.commandId == c.commandId && m.operationId == c.operationId
  }

  ghost predicate LedgerOk(s: State) {
    && (forall m :: m in s.network ==> Recorded(s.db.attempts, m))
    && (forall i :: 0 <= i < |s.ledger| ==> WasSent(s.network, s.ledger[i]))
    && (forall i, j :: 0 <= i < j < |s.ledger| ==> s.ledger[i].commandId != s.ledger[j].commandId)
  }

  ghost predicate Inv(sha: string -> string, s: State) {
    && QueueInv(s)
    && (forall p :: p in s.pollers ==> PcOk(sha, s.db, s.pollers[p]))
    && AttemptsOk(sha, s.db)
    && Numbered(s.db.attempts)
    && LedgerOk(s)
  }

  lemma InitialInv(sha: string -> string, s: State)
    requires Initial(s)
    ensures Inv(sha, s)
  {
  }

  // ---- attempt numbering

  lemma MaxIsCount(attempts: seq<AttemptRow>, operationId: string)
    requires forall i :: 0 <= i < |AttemptsOf(attempts, operationId)| ==> AttemptsOf(attempts, operationId)[i].attempt == i + 1
    ensures MaxAttempt(attempts, operationId) == |AttemptsOf(attempts, operationId)|
  {
    if attempts != [] {
      var n := |attempts| - 1;
      var rest := AttemptsOf(attempts[..n], operationId);
      assert forall i :: 0 <= i < |rest| ==> rest[i] == AttemptsOf(attempts, operationId)[i];
      MaxIsCount(attempts[..n], operationId);
      if attempts[n].operationId == operationId {
        assert AttemptsOf(attempts, operationId)[|rest|] == attempts[n];
      }
    }
  }

  lemma AppendNumbered(attempts: seq<AttemptRow>, row: AttemptRow)
    requires Numbered(attempts)
    requires row.attempt == |AttemptsOf(attempts, row.operationId)| + 1
    ensures Numbered(attempts + [row])
    ensures forall o :: o != row.operationId ==> AttemptsOf(attempts + [row], o) == AttemptsOf(attempts, o)
  {
    assert (attempts + [row])[..|attempts|] == attempts;
  }

  // ---- one statement of a poller

  predicate SameRequestIdentities(db: Db, db': Db) {
    && db'.requests.Keys == db.requests.Keys
    && (forall id :: id in db.requests ==>
          && db'.requests[id].tenantId == db.requests[id].tenantId
          && db'.requests[id].operationId == db.requests[id].operationId
          && EffectiveVersion(db'.requests[id]) == EffectiveVersion(db.requests[id]))
  }

  predicate SameCommandIds(db: Db, db': Db) {
    && db'.operations.Keys == db.operations.Keys
    && (forall o :: o in db.operations ==> db'.operations[o].commandId == db.operations[o].commandId)
  }

  predicate WritesRow(pc: Pc) {
    pc.FailRow? || pc.MarkRow? || pc.RetryRow?
  }

  /** Only the row of this id differs, and only in columns that do not identify it. */
  predicate OneRowTouched(requests: map<string, RequestRow>, after: map<string, RequestRow>, id: string) {
    && after.Keys == requests.Keys
    && (forall x :: x in requests && x != id ==> after[x] == requests[x])
    && (id in requests ==>
          && after[id].tenantId == requests[id].tenantId
          && after[id].operationId == requests[id].operationId
          && EffectiveVersion(after[id]) == EffectiveVersion(requests[id]))
  }

  lemma WritesTouchOneRow(requests: map<string, RequestRow>, id: string, status: RequestStatus, now: int)
    ensures OneRowTouched(requests, SetRequestStatus(requests, id, status), id)
    ensures OneRowTouched(requests, Requeue(requests, id, now), id)
    ensures OneRowTouched(requests, requests, id)
  {
  }

  /** A statement touches at most the status and lease columns of the row it works on ... */
  lemma WorkTouchesRequests(db: Db, db': Db, now: int, p: Poller, choice: Choice)
    requires p.queue != [] && db'.requests == RequestsAfter(db.requests, now, p, choice)
    ensures SameRequestIdentities(db, db')
    ensures forall id :: id in db.requests && id != p.queue[0].id ==> db'.requests[id] == db.requests[id]
    ensures !WritesRow(p.pc) ==> db'.requests == db.requests
  {
    var id := p.queue[0].id;
    WritesTouchOneRow(db.requests, id, Failed, now);
    WritesTouchOneRow(db.requests, id, Submitted, now);
    WritesTouchOneRow(db.requests, id, Unknown, now);
    assert OneRowTouched(db.requests, db'.requests, id);
  }

  /** ... and at most the stored id of its operation. */
  lemma WorkTouchesOperations(sha: string -> string, db: Db, db': Db, p: Poller, choice: Choice)
    requires p.queue != [] && db'.operations == OperationsAfter(sha, db.operations, p, choice)
    ensures db'.operations.Keys == db.operations.Keys
    ensures forall o :: o in db.operations && o != p.queue[0].operationId ==> db'.operations[o] == db.operations[o]
    ensures !p.pc.WriteIdentity? ==> SameCommandIds(db, db')
    ensures p.pc.WriteIdentity? && p.queue[0].operationId in db.operations
        ==> db'.operations[p.queue[0].operationId].commandId == Some(Derived(sha, p.queue[0]))
  {
  }

  lemma SnapshotKept(db: Db, db': Db, r: CommandRequest)
    requires SameRequestIdentities(db, db') && Snapshot(db, r)
    ensures Snapshot(db', r)
  {
  }

  /** A statement moves on within its request, gives the claim back, finishes it, or drops the queue. */
  lemma WorkShrinksHeld(sha: string -> string, db: Db, p: Poller, choice: Choice)
    requires p.queue != []
    ensures var p' := WorkPoller(sha, db, p, choice);
      || p'.queue == p.queue
      || (p'.queue == p.queue[1..] && (p'.pc == if |p.queue| == 1 then Idle else CheckIdentity))
      || (p' == Poller(Idle, []))
  {
  }

  lemma WorkStatuses(sha: string -> string, db: Db, now: int, p: Poller, choice: Choice)
    requires p.queue != [] && !p.pc.Idle? && WorkPoller(sha, db, p, choice).queue == p.queue
    requires p.queue[0].id in db.requests
    requires Held(p) == p.queue ==> db.requests[p.queue[0].id].status == HeldStatus(p.pc, 0)
    ensures var p' := WorkPoller(sha, db, p, choice);
      && !p'.pc.Idle?
      && Held(p) == p.queue
      && (Held(p') == p.queue ==> RequestsAfter(db.requests, now, p, choice)[p.queue[0].id].status == HeldStatus(p'.pc, 0))
  {
    assert |Finish(p).queue| < |p.queue|;
  }

  lemma MovingOnKeepsPoller(db: Db, db': Db, p: Poller, p': Poller)
    requires PollerOk(db, p) && p.queue != [] && Held(p) == p.queue && SameRequestIdentities(db, db')
    requires forall id :: id in db.requests && id != p.queue[0].id ==> db'.requests[id] == db.requests[id]
    requires p'.queue == p.queue && !p'.pc.Idle?
    requires Held(p') == p.queue ==> db'.requests[p.queue[0].id].status == HeldStatus(p'.pc, 0)
    ensures PollerOk(db', p')
  {
    forall i | 0 <= i < |p.queue| ensures Snapshot(db', p.queue[i]) {
      SnapshotKept(db, db', p.queue[i]);
    }
    forall i | 1 <= i < |p.queue| ensures db'.requests[p.queue[i].id].status == Claimed {
      assert Snapshot(db, p.queue[i]);
      assert db.requests[Held(p)[i].id].status == HeldStatus(p.pc, i);
    }
    if Held(p') != p.queue {
      assert Held(p') == p.queue[1..];
    }
  }

  lemma FinishingKeepsPoller(db: Db, p: Poller)
    requires PollerOk(db, p) && p.queue != []
    ensures PollerOk(db, Finish(p))
  {
    var p' := Finish(p);
    forall j | 0 <= j < |Held(p')| ensures db.requests[Held(p')[j].id].status == HeldStatus(p'.pc, j) {
      var i := |Held(p)| - |Held(p')| + j;
      assert Held(p)[i] == Held(p')[j];
      assert db.requests[Held(p)[i].id].status == HeldStatus(p.pc, i);
    }
  }

  lemma WorkerKeepsItself(sha: string -> string, db: Db, db': Db, now: int, p: Poller, choice: Choice)
    requires PollerOk(db, p) && p.queue != []
    requires db'.requests == RequestsAfter(db.requests, now, p, choice)
    ensures PollerOk(db', WorkPoller(sha, db, p, choice))
  {
    var p' := WorkPoller(sha, db, p, choice);
    WorkTouchesRequests(db, db', now, p, choice);
    WorkShrinksHeld(sha, db, p, choice);
    assert Snapshot(db, p.queue[0]);
    if p'.queue == p.queue {
      assert Held(p) == p.queue ==> db.requests[Held(p)[0].id].status == HeldStatus(p.pc, 0);
      WorkStatuses(sha, db, now, p, choice);
      MovingOnKeepsPoller(db, db', p, p');
    } else if p' != Poller(Idle, []) {
      FinishDoesNotWrite(sha, db, p, choice);
      FinishingKeepsPoller(db, p);
      FinishingKeepsPoller(db', p);
    }
  }

  lemma FinishDoesNotWrite(sha: string -> string, db: Db, p: Poller, choice: Choice)
    requires p.queue != [] && WorkPoller(sha, db, p, choice).queue != p.queue
    ensures !WritesRow(p.pc)
    ensures WorkPoller(sha, db, p, choice) == Finish(p) || WorkPoller(sha, db, p, choice) == Poller(Idle, [])
  {
  }

  lemma OtherKeepsPoller(db: Db, db': Db, q: Poller)
    requires PollerOk(db, q) && SameRequestIdentities(db, db')
    requires forall i :: 0 <= i < |Held(q)| ==> Held(q)[i].id in db.requests && db'.requests[Held(q)[i].id].status == db.requests[Held(q)[i].id].status
    ensures PollerOk(db', q)
  {
    forall i | 0 <= i < |q.queue| ensures Snapshot(db', q.queue[i]) {
      SnapshotKept(db, db', q.queue[i]);
    }
  }

  predicate Working(s: State, p: nat) {
    p in s.pollers && s.pollers[p].queue != []
  }

  lemma OthersHoldOtherRows(s: State, p: nat, q: nat, i: nat)
    requires QueueInv(s) && Working(s, p) && q in s.pollers && q != p && WritesRow(s.pollers[p].pc)
    requires i < |Held(s.pollers[q])|
    ensures Held(s.pollers[q])[i].id != s.pollers[p].queue[0].id
  {
    assert Held(s.pollers[p])[0] == s.pollers[p].queue[0];
  }

  lemma WorkSparesOthers(sha: string -> string, s: State, p: nat, choice: Choice, q: nat)
    requires QueueInv(s) && Working(s, p) && q in s.pollers && q != p
    ensures PollerOk(WorkTables(sha, s.db, s.now, s.pollers[p], choice), s.pollers[q])
  {
    var me, other := s.pollers[p], s.pollers[q];
    var db' := WorkTables(sha, s.db, s.now, me, choice);
    WorkTouchesRequests(s.db, db', s.now, me, choice);
    forall i | 0 <= i < |Held(other)| ensures Held(other)[i].id in s.db.requests
        && db'.requests[Held(other)[i].id].status == s.db.requests[Held(other)[i].id].status {
      assert Held(other)[i] in other.queue;
      if WritesRow(me.pc) {
        OthersHoldOtherRows(s, p, q, i);
      }
    }
    OtherKeepsPoller(s.db, db', other);
  }

  lemma WorkKeepsExclusive(sha: string -> string, s: State, p: nat, choice: Choice)
    requires Exclusive(s.pollers) && Working(s, p)
    ensures Exclusive(s.pollers[p := WorkPoller(sha, s.db, s.pollers[p], choice)])
  {
    var me, me' := s.pollers[p], WorkPoller(sha, s.db, s.pollers[p], choice);
    WorkShrinksHeld(sha, s.db, me, choice);
    if me'.queue == me.queue && (me.pc.FailOperation? || me.pc.RetryOperation?) {
      assert |Finish(me).queue| < |me.queue|;
    }
    ShrinkKeepsExclusive(s.pollers, p, me');
  }

  lemma ShrinkKeepsExclusive(pollers: map<nat, Poller>, p: nat, p': Poller)
    requires Exclusive(pollers) && p in pollers
    requires forall r :: r in Held(p') ==> r in Held(pollers[p])
    ensures Exclusive(pollers[p := p'])
  {
    var after := pollers[p := p'];
    forall q, r, i, j | q in after && r in after && q != r && 0 <= i < |Held(after[q])| && 0 <= j < |Held(after[r])|
      ensures Held(after[q])[i].id != Held(after[r])[j].id
    {
      assert Held(after[q])[i] in Held(pollers[q]) && Held(after[r])[j] in Held(pollers[r]);
    }
  }

  lemma WorkKeepsQueueInv(sha: string -> string, s: State, p: nat, choice: Choice)
    requires QueueInv(s) && Working(s, p)
    ensures QueueInv(Step(sha, s, Work(p, choice)))
  {
    var s' := Step(sha, s, Work(p, choice));
    WorkTouchesRequests(s.db, s'.db, s.now, s.pollers[p], choice);
    WorkKeepsExclusive(sha, s, p, choice);
    forall q | q in s'.pollers ensures PollerOk(s'.db, s'.pollers[q]) {
      if q == p {
        WorkerKeepsItself(sha, s.db, s'.db, s.now, s.pollers[p], choice);
      } else {
        WorkSparesOthers(sha, s, p, choice, q);
      }
    }
  }

  lemma RecordedGrows(attempts: seq<AttemptRow>, row: AttemptRow, m: Message)
    requires Recorded(attempts, m)
    ensures Recorded(attempts + [row], m)
  {
    var i :| 0 <= i < |attempts| && attempts[i].submissionId == m.submissionId
          && attempts[i].commandId == m.commandId && attempts[i].operationId == m.operationId;
    assert (attempts + [row])[i] == attempts[i];
  }

  /** Two pollers that both hold their current request work on different operations. */
  lemma HeadsOfDifferentOperations(s: State, p: nat, q: nat)
    requires QueueInv(s) && p != q && Working(s, p) && Working(s, q)
    requires Held(s.pollers[p]) == s.pollers[p].queue && Held(s.pollers[q]) == s.pollers[q].queue
    ensures s.pollers[p].queue[0].operationId != s.pollers[q].queue[0].operationId
  {
    var a, b := s.pollers[p].queue[0], s.pollers[q].queue[0];
    assert Held(s.pollers[p])[0].id != Held(s.pollers[q])[0].id;
    assert Snapshot(s.db, a) && Snapshot(s.db, b);
  }

  lemma InsertedIsRecorded(sha: string -> string, attempts: seq<AttemptRow>, p: Poller)
    requires p.queue != [] && p.pc.InsertRow?
    ensures Recorded(attempts + [NewAttempt(sha, p)], Message(Derived(sha, p.queue[0]), p.pc.submissionId, p.queue[0].operationId))
  {
    assert (attempts + [NewAttempt(sha, p)])[|attempts|] == NewAttempt(sha, p);
  }

  predicate Identifying(pc: Pc) {
    pc.CheckIdentity? || pc.WriteIdentity? || pc.FailRow? || pc.FailOperation?
  }

  lemma IdentifyingKeepsPcOk(sha: string -> string, db: Db, now: int, me: Poller, choice: Choice)
    requires me.queue != [] && Identifying(me.pc) && PcOk(sha, db, me)
    ensures PcOk(sha, WorkTables(sha, db, now, me, choice), WorkPoller(sha, db, me, choice))
  {
  }

  lemma AttemptingKeepsPcOk(sha: string -> string, db: Db, now: int, me: Poller, choice: Choice)
    requires me.queue != [] && (me.pc.ReadAttempt? || me.pc.InsertRow?) && PcOk(sha, db, me) && Numbered(db.attempts)
    ensures PcOk(sha, WorkTables(sha, db, now, me, choice), WorkPoller(sha, db, me, choice))
  {
    if me.pc.ReadAttempt? {
      MaxIsCount(db.attempts, me.queue[0].operationId);
    } else {
      InsertedIsRecorded(sha, db.attempts, me);
    }
  }

  lemma SubmittingKeepsPcOk(sha: string -> string, db: Db, now: int, me: Poller, choice: Choice)
    requires me.queue != [] && !Identifying(me.pc) && !me.pc.ReadAttempt? && !me.pc.InsertRow? && PcOk(sha, db, me)
    ensures PcOk(sha, WorkTables(sha, db, now, me, choice), WorkPoller(sha, db, me, choice))
  {
    assert WorkTables(sha, db, now, me, choice).attempts == db.attempts;
  }

  lemma WorkerKeepsPcOk(sha: string -> string, s: State, p: nat, choice: Choice)
    requires Inv(sha, s) && Working(s, p)
    ensures PcOk(sha, WorkTables(sha, s.db, s.now, s.pollers[p], choice), WorkPoller(sha, s.db, s.pollers[p], choice))
  {
    var me := s.pollers[p];
    assert PcOk(sha, s.db, me);
    if Identifying(me.pc) {
      IdentifyingKeepsPcOk(sha, s.db, s.now, me, choice);
    } else if me.pc.ReadAttempt? || me.pc.InsertRow? {
      AttemptingKeepsPcOk(sha, s.db, s.now, me, choice);
    } else {
      SubmittingKeepsPcOk(sha, s.db, s.now, me, choice);
    }
  }

  lemma OtherKeepsPcOk(sha: string -> string, s: State, p: nat, choice: Choice, q: nat)
    requires Inv(sha, s) && Working(s, p) && q in s.pollers && q != p
    ensures PcOk(sha, WorkTables(sha, s.db, s.now, s.pollers[p], choice), s.pollers[q])
  {
    var me, other := s.pollers[p], s.pollers[q];
    var db' := WorkTables(sha, s.db, s.now, me, choice);
    WorkTouchesOperations(sha, s.db, db', me, choice);
    assert PcOk(sha, s.db, other);
    if other.queue != [] && !other.pc.FailOperation? && !other.pc.RetryOperation? {
      var o := other.queue[0].operationId;
      if me.pc.WriteIdentity? || me.pc.InsertRow? {
        HeadsOfDifferentOperations(s, p, q);
      }
      assert o in db'.operations <==> o in s.db.operations;
      assert o in db'.operations ==> db'.operations[o].commandId == s.db.operations[o].commandId;
      if Inserts(s.db.attempts, me) {
        AppendNumbered(s.db.attempts, NewAttempt(sha, me));
        if other.pc.MarkOperation? || other.pc.MarkRow? || other.pc.Send? || other.pc.Await? {
          RecordedGrows(s.db.attempts, NewAttempt(sha, me), Message(Derived(sha, other.queue[0]), other.pc.submissionId, o));
        }
      }
    }
  }

  lemma HasRequestKept(db: Db, db': Db)
    requires SameRequestIdentities(db, db')
    ensures forall o :: HasRequest(db, o) <==> HasRequest(db', o)
  {
    forall o | HasRequest(db, o) ensures HasRequest(db', o) {
      var id :| id in db.requests && db.requests[id].operationId == o;
      assert id in db'.requests && db'.requests[id].operationId == o;
    }
    forall o | HasRequest(db', o) ensures HasRequest(db, o) {
      var id :| id in db'.requests && db'.requests[id].operationId == o;
      assert id in db.requests && db.requests[id].operationId == o;
    }
  }

  lemma SameIdentitiesKeepAttempts(sha: string -> string, db: Db, db': Db)
    requires AttemptsOk(sha, db) && SameRequestIdentities(db, db') && db'.attempts == db.attempts
    requires forall i :: 0 <= i < |db.attempts| ==> StoredIdAgrees(db', db.attempts[i].operationId, db.attempts[i].commandId)
    ensures AttemptsOk(sha, db')
  {
    HasRequestKept(db, db');
  }

  lemma AppendKeepsAttempts(sha: string -> string, db: Db, row: AttemptRow, id: string)
    requires AttemptsOk(sha, db) && OneRequestPerOperation(db)
    requires id in db.requests && db.requests[id].operationId == row.operationId
    requires row.commandId == RowDerived(sha, db.requests[id]) && row.tenantId == db.requests[id].tenantId
    requires StoredIdAgrees(db, row.operationId, row.commandId) && SubmissionUnused(db.attempts, row.submissionId)
    ensures AttemptsOk(sha, db.(attempts := db.attempts + [row]))
  {
    var db' := db.(attempts := db.attempts + [row]);
    HasRequestKept(db, db');
    assert HasRequest(db', row.operationId);
    assert forall i :: 0 <= i < |db.attempts| ==> db'.attempts[i] == db.attempts[i];
  }

  lemma InsertKeepsAttempts(sha: string -> string, s: State, p: nat, choice: Choice)
    requires Inv(sha, s) && Working(s, p) && Inserts(s.db.attempts, s.pollers[p])
    ensures var db' := WorkTables(sha, s.db, s.now, s.pollers[p], choice); AttemptsOk(sha, db') && Numbered(db'.attempts)
  {
    var me, request := s.pollers[p], s.pollers[p].queue[0];
    assert Snapshot(s.db, request) && PcOk(sha, s.db, me);
    AppendKeepsAttempts(sha, s.db, NewAttempt(sha, me), request.id);
    AppendNumbered(s.db.attempts, NewAttempt(sha, me));
    assert WorkTables(sha, s.db, s.now, me, choice) == s.db.(attempts := s.db.attempts + [NewAttempt(sha, me)]);
  }

  lemma WorkKeepsAttempts(sha: string -> string, s: State, p: nat, choice: Choice)
    requires Inv(sha, s) && Working(s, p)
    ensures var db' := WorkTables(sha, s.db, s.now, s.pollers[p], choice); AttemptsOk(sha, db') && Numbered(db'.attempts)
  {
    var me, db := s.pollers[p], s.db;
    var request := me.queue[0];
    if Inserts(db.attempts, me) {
      InsertKeepsAttempts(sha, s, p, choice);
    } else {
      var db' := WorkTables(sha, db, s.now, me, choice);
      WorkTouchesRequests(db, db', s.now, me, choice);
      WorkTouchesOperations(sha, db, db', me, choice);
      assert Snapshot(db, request);
      forall i | 0 <= i < |db.attempts| ensures StoredIdAgrees(db', db.attempts[i].operationId, db.attempts[i].commandId) {
        assert StoredIdAgrees(db, db.attempts[i].operationId, db.attempts[i].commandId);
        if db.attempts[i].operationId == request.operationId {
          assert db.attempts[i].commandId == RowDerived(sha, db.requests[request.id]);
        }
      }
      SameIdentitiesKeepAttempts(sha, db, db');
    }
  }

  lemma WorkKeepsLedger(sha: string -> string, s: State, p: nat, choice: Choice)
    requires Inv(sha, s) && Working(s, p)
    ensures LedgerOk(Step(sha, s, Work(p, choice)))
  {
    var me := s.pollers[p];
    var s' := Step(sha, s, Work(p, choice));
    assert PcOk(sha, s.db, me);
    forall i | 0 <= i < |s'.ledger| ensures WasSent(s'.network, s'.ledger[i]) {
      assert WasSent(s.network, s.ledger[i]);
      assert s.network <= s'.network;
    }
    forall m | m in s'.network ensures Recorded(s'.db.attempts, m) {
      if m in s.network && Inserts(s.db.attempts, me) {
        RecordedGrows(s.db.attempts, NewAttempt(sha, me), m);
      }
    }
  }

  // ---- claiming

  lemma SelectedDistinct(rows: seq<CommandRequest>, concurrency: nat)
    requires forall i, j :: 0 <= i < j < |rows| ==> rows[i].id != rows[j].id
    ensures var selected := SelectForClaim(rows, concurrency, concurrency);
      && (forall i :: 0 <= i < |selected| ==> selected[i] in rows)
      && (forall i, j :: 0 <= i < j < |selected| ==> selected[i].id != selected[j].id)
  {
    var selected := SelectForClaim(rows, concurrency, concurrency);
    SelectForClaimFacts(rows, concurrency, concurrency);
    forall i | 0 <= i < |selected| ensures selected[i] in rows {
      assert selected[i] in multiset(selected);
      assert multiset(selected)[selected[i]] <= multiset(rows)[selected[i]];
    }
    forall i, j | 0 <= i < j < |selected| ensures selected[i].id != selected[j].id {
      if selected[i].id == selected[j].id {
        TwiceInSequence(selected, i, j);
        OnceInSequence(rows, selected[i]);
      }
    }
  }

  lemma TwiceInSequence(s: seq<CommandRequest>, i: nat, j: nat)
    requires i < j < |s| && s[i] == s[j]
    ensures multiset(s)[s[i]] >= 2
  {
    assert s == s[..j] + [s[j]] + s[j + 1..];
    assert s[i] in s[..j];
  }

  lemma OnceInSequence(s: seq<CommandRequest>, x: CommandRequest)
    requires forall i, j :: 0 <= i < j < |s| ==> s[i].id != s[j].id
    ensures multiset(s)[x] <= 1
  {
    if x in s {
      var i :| 0 <= i < |s| && s[i] == x;
      assert s == s[..i] + [s[i]] + s[i + 1..];
      assert x !in s[..i] && x !in s[i + 1..];
    }
  }

  lemma ClaimKeepsPoller(s: State, a: Action, selected: seq<CommandRequest>, q: nat)
    requires a.Claim? && QueueInv(s) && q in s.pollers
    requires forall i :: 0 <= i < |selected| ==> selected[i].id in s.db.requests && Claimable(s.db.requests[selected[i].id], s.now)
    ensures PollerOk(s.db.(requests := ClaimRows(s.db.requests, Ids(selected), a.leaseToken, a.leasedUntil)), s.pollers[q])
    ensures forall i :: 0 <= i < |Held(s.pollers[q])| ==> Held(s.pollers[q])[i].id !in Ids(selected)
  {
    var db' := s.db.(requests := ClaimRows(s.db.requests, Ids(selected), a.leaseToken, a.leasedUntil));
    var other := s.pollers[q];
    assert PollerOk(s.db, other);
    forall i | 0 <= i < |Held(other)| ensures Held(other)[i].id !in Ids(selected)
        && Held(other)[i].id in s.db.requests && db'.requests[Held(other)[i].id].status == s.db.requests[Held(other)[i].id].status {
      assert Held(other)[i] in other.queue;
    }
    OtherKeepsPoller(s.db, db', other);
  }

  lemma NewClaimsOk(s: State, a: Action, selected: seq<CommandRequest>)
    requires a.Claim? && selected != []
    requires forall i :: 0 <= i < |selected| ==> selected[i].id in s.db.requests
    requires forall i :: 0 <= i < |selected| ==> selected[i] == ToRequest(selected[i].id, s.db.requests[selected[i].id], s.now)
    requires forall i, j :: 0 <= i < j < |selected| ==> selected[i].id != selected[j].id
    ensures PollerOk(s.db.(requests := ClaimRows(s.db.requests, Ids(selected), a.leaseToken, a.leasedUntil)), Poller(CheckIdentity, selected))
  {
    forall i | 0 <= i < |selected| ensures selected[i].id in Ids(selected) {
    }
  }

  lemma ClaimKeepsExclusive(pollers: map<nat, Poller>, p: nat, selected: seq<CommandRequest>)
    requires Exclusive(pollers) && p in pollers
    requires forall q, i :: q in pollers && 0 <= i < |Held(pollers[q])| ==> Held(pollers[q])[i].id !in Ids(selected)
    ensures Exclusive(pollers[p := Poller(CheckIdentity, selected)])
  {
    var after := pollers[p := Poller(CheckIdentity, selected)];
    assert Held(after[p]) == selected;
    assert forall j :: 0 <= j < |selected| ==> selected[j].id in Ids(selected);
  }

  lemma SelectedAreClaimable(s: State, a: Action)
    requires a.Claim? && Selectable(s.db, s.now, a.rows)
    ensures var selected := SelectForClaim(Read(s.db, s.now, a.rows), a.concurrency, a.concurrency);
      && (forall i :: 0 <= i < |selected| ==>
            && selected[i].id in s.db.requests && Claimable(s.db.requests[selected[i].id], s.now)
            && selected[i] == ToRequest(selected[i].id, s.db.requests[selected[i].id], s.now))
      && (forall i, j :: 0 <= i < j < |selected| ==> selected[i].id != selected[j].id)
  {
    var rows := Read(s.db, s.now, a.rows);
    SelectedDistinct(rows, a.concurrency);
    var selected := SelectForClaim(rows, a.concurrency, a.concurrency);
    assert forall i :: 0 <= i < |selected| ==> selected[i] in rows;
  }

  lemma ClaimKeepsPollers(s: State, a: Action, selected: seq<CommandRequest>)
    requires a.Claim? && QueueInv(s)
    requires forall i :: 0 <= i < |selected| ==> selected[i].id in s.db.requests && Claimable(s.db.requests[selected[i].id], s.now)
    ensures var db' := s.db.(requests := ClaimRows(s.db.requests, Ids(selected), a.leaseToken, a.leasedUntil));
      forall q :: q in s.pollers ==> PollerOk(db', s.pollers[q])
    ensures forall q, i :: q in s.pollers && 0 <= i < |Held(s.pollers[q])| ==> Held(s.pollers[q])[i].id !in Ids(selected)
  {
    forall q | q in s.pollers
      ensures PollerOk(s.db.(requests := ClaimRows(s.db.requests, Ids(selected), a.leaseToken, a.leasedUntil)), s.pollers[q])
      ensures forall i :: 0 <= i < |Held(s.pollers[q])| ==> Held(s.pollers[q])[i].id !in Ids(selected)
    {
      ClaimKeepsPoller(s, a, selected, q);
    }
  }

  lemma ClaimKeepsIdentities(db: Db, ids: set<string>, leaseToken: string, leasedUntil: int)
    requires OneRequestPerOperation(db)
    ensures var db' := db.(requests := ClaimRows(db.requests, ids, leaseToken, leasedUntil));
      SameRequestIdentities(db, db') && OneRequestPerOperation(db')
  {
  }

  lemma ClaimKeepsQueueInv(s: State, a: Action)
    requires a.Claim? && a.poller in s.pollers && s.pollers[a.poller].pc.Idle? && Selectable(s.db, s.now, a.rows)
    requires QueueInv(s)
    ensures QueueInv(ClaimStep(s, a)) && SameRequestIdentities(s.db, ClaimStep(s, a).db)
    ensures ClaimStep(s, a).pollers == s.pollers || ClaimStep(s, a).pollers[a.poller].pc.CheckIdentity?
  {
    var selected := SelectForClaim(Read(s.db, s.now, a.rows), a.concurrency, a.concurrency);
    SelectedAreClaimable(s, a);
    if selected != [] {
      ClaimKeepsPollers(s, a, selected);
      ClaimKeepsIdentities(s.db, Ids(selected), a.leaseToken, a.leasedUntil);
      NewClaimsOk(s, a, selected);
      ClaimKeepsExclusive(s.pollers, a.poller, selected);
    }
  }

  /** A claimed poller is about to check the identity; the others' tables read as before. */
  lemma ClaimKeepsPcOk(sha: string -> string, s: State, a: Action, q: nat)
    requires a.Claim? && a.poller in s.pollers && s.pollers[a.poller].pc.Idle? && Selectable(s.db, s.now, a.rows)
    requires q in s.pollers && PcOk(sha, s.db, s.pollers[q])
    ensures PcOk(sha, ClaimStep(s, a).db, ClaimStep(s, a).pollers[q])
  {
  }

  lemma ClaimKeepsInv(sha: string -> string, s: State, a: Action)
    requires a.Claim? && Inv(sha, s)
    ensures Inv(sha, Step(sha, s, a))
  {
    var s' := Step(sha, s, a);
    if s' != s {
      ClaimKeepsQueueInv(s, a);
      SameIdentitiesKeepAttempts(sha, s.db, s'.db);
      forall q | q in s'.pollers ensures PcOk(sha, s'.db, s'.pollers[q]) {
        ClaimKeepsPcOk(sha, s, a, q);
      }
    }
  }

  // ---- enqueueing

  lemma EnqueueKeepsAttempts(sha: string -> string, db: Db, db': Db, o: string)
    requires AttemptsOk(sha, db) && FreshOperation(db, o) && db'.attempts == db.attempts
    requires forall id :: id in db.requests ==> id in db'.requests && db'.requests[id] == db.requests[id]
    requires forall id :: id in db'.requests && id !in db.requests ==> db'.requests[id].operationId == o
    requires forall x :: x != o && x in db'.operations ==> x in db.operations && db'.operations[x] == db.operations[x]
    ensures AttemptsOk(sha, db')
  {
    forall x | HasRequest(db, x) ensures x != o && HasRequest(db', x) {
      var id :| id in db.requests && db.requests[id].operationId == x;
      assert id in db'.requests && db'.requests[id].operationId == x;
    }
    assert forall i :: 0 <= i < |db.attempts| ==> HasRequest(db, db.attempts[i].operationId);
  }

  lemma EnqueueKeepsInv(sha: string -> string, s: State, a: Action)
    requires a.Enqueue? && Inv(sha, s)
    ensures Inv(sha, Step(sha, s, a))
  {
    var s' := Step(sha, s, a);
    if s' != s {
      var o := a.ids.operationId;
      EnqueueKeepsAttempts(sha, s.db, s'.db, o);
      forall q | q in s'.pollers ensures PollerOk(s'.db, s'.pollers[q]) && PcOk(sha, s'.db, s'.pollers[q]) {
        EnqueueSparesPoller(sha, s, s', o, q);
      }
    }
  }

  lemma EnqueueSparesPoller(sha: string -> string, s: State, s': State, o: string, q: nat)
    requires Inv(sha, s) && q in s.pollers && s'.pollers == s.pollers && FreshOperation(s.db, o)
    requires forall id :: id in s.db.requests ==> id in s'.db.requests && s'.db.requests[id] == s.db.requests[id]
    requires forall x :: x != o ==> (x in s'.db.operations <==> x in s.db.operations)
    requires forall x :: x != o && x in s.db.operations ==> s'.db.operations[x] == s.db.operations[x]
    requires s'.db.attempts == s.db.attempts
    ensures PollerOk(s'.db, s.pollers[q]) && PcOk(sha, s'.db, s.pollers[q])
  {
    var other := s.pollers[q];
    assert PollerOk(s.db, other) && PcOk(sha, s.db, other);
    forall i | 0 <= i < |other.queue| ensures Snapshot(s'.db, other.queue[i]) {
      assert Snapshot(s.db, other.queue[i]);
    }
    forall i | 0 <= i < |Held(other)| ensures s'.db.requests[Held(other)[i].id].status == HeldStatus(other.pc, i) {
      assert Held(other)[i] in other.queue;
      assert s.db.requests[Held(other)[i].id].status == HeldStatus(other.pc, i);
    }
    if other.queue != [] {
      assert Snapshot(s.db, other.queue[0]);
    }
  }

  // ---- every run

  lemma CrashKeepsQueueInv(s: State, p: nat)
    requires QueueInv(s) && p in s.pollers
    ensures QueueInv(s.(pollers := s.pollers[p := Poller(Idle, [])]))
  {
    ShrinkKeepsExclusive(s.pollers, p, Poller(Idle, []));
    var pollers := s.pollers[p := Poller(Idle, [])];
    forall q | q in pollers ensures PollerOk(s.db, pollers[q]) {
      assert q != p ==> PollerOk(s.db, s.pollers[q]);
    }
  }

  lemma CrashKeepsInv(sha: string -> string, s: State, p: nat)
    requires Inv(sha, s)
    ensures Inv(sha, Step(sha, s, Crash(p)))
  {
    if p in s.pollers {
      CrashKeepsQueueInv(s, p);
      var pollers := s.pollers[p := Poller(Idle, [])];
      forall q | q in pollers ensures PcOk(sha, s.db, pollers[q]) {
        assert q != p ==> PcOk(sha, s.db, s.pollers[q]);
      }
    }
  }

  lemma DeliverKeepsInv(sha: string -> string, s: State, m: Message)
    requires Inv(sha, s)
    ensures Inv(sha, Step(sha, s, Deliver(m)))
  {
    var s' := Step(sha, s, Deliver(m));
    if s' != s {
      assert WasSent(s'.network, Commit(m.commandId, m.operationId));
    }
  }

  lemma StepKeepsInv(sha: string -> string, s: State, a: Action)
    requires Inv(sha, s)
    ensures Inv(sha, Step(sha, s, a))
  {
    match a
    case Enqueue(_, _) => EnqueueKeepsInv(sha, s, a);
    case Tick(_) =>
    case Claim(_, _, _, _, _) => ClaimKeepsInv(sha, s, a);
    case Work(p, choice) =>
      if Working(s, p) {
        WorkKeepsInv(sha, s, p, choice);
      }
    case Crash(p) => CrashKeepsInv(sha, s, p);
    case Deliver(m) => DeliverKeepsInv(sha, s, m);
  }

  lemma WorkKeepsPcsOk(sha: string -> string, s: State, p: nat, choice: Choice)
    requires Inv(sha, s) && Working(s, p)
    ensures var s' := Step(sha, s, Work(p, choice)); forall q :: q in s'.pollers ==> PcOk(sha, s'.db, s'.pollers[q])
  {
    var s' := Step(sha, s, Work(p, choice));
    forall q | q in s'.pollers ensures PcOk(sha, s'.db, s'.pollers[q]) {
      if q == p {
        WorkerKeepsPcOk(sha, s, p, choice);
      } else {
        OtherKeepsPcOk(sha, s, p, choice, q);
      }
    }
  }

  lemma WorkKeepsInv(sha: string -> string, s: State, p: nat, choice: Choice)
    requires Inv(sha, s) && Working(s, p)
    ensures Inv(sha, Step(sha, s, Work(p, choice)))
  {
    WorkKeepsQueueInv(sha, s, p, choice);
    WorkKeepsAttempts(sha, s, p, choice);
    WorkKeepsLedger(sha, s, p, choice);
    WorkKeepsPcsOk(sha, s, p, choice);
  }

  lemma {:induction false} RunKeepsInv(sha: string -> string, s: State, actions: seq<Action>)
    requires Inv(sha, s)
    ensures Inv(sha, Run(sha, s, actions))
    decreases |actions|
  {
    if actions != [] {
      StepKeepsInv(sha, s, actions[0]);
      RunKeepsInv(sha, Step(sha, s, actions[0]), actions[1..]);
    }
  }

  // ---- the main results

  /** However pollers interleave, crash and retry, no request is held by two of them. */
  lemma HeldByAtMostOne(sha: string -> string, s: State, actions: seq<Action>, p: nat, q: nat, i: nat, j: nat)
    requires Initial(s)
    requires var s' := Run(sha, s, actions);
      p in s'.pollers && q in s'.pollers && i < |Held(s'.pollers[p])| && j < |Held(s'.pollers[q])|
      && Held(s'.pollers[p])[i].id == Held(s'.pollers[q])[j].id
    ensures p == q && i == j
  {
    InitialInv(sha, s);
    RunKeepsInv(sha, s, actions);
    var s' := Run(sha, s, actions);
    assert PollerOk(s'.db, s'.pollers[p]);
  }

  /** The attempts of one operation carry one command id, the one derived from its
      request, and are numbered 1, 2, ..., n in the order they were inserted. */
  lemma AttemptsShareOneCommandId(sha: string -> string, s: State, actions: seq<Action>, id: string)
    requires Initial(s) && id in Run(sha, s, actions).db.requests
    ensures var db := Run(sha, s, actions).db;
      var attempts := AttemptsOf(db.attempts, db.requests[id].operationId);
      forall k :: 0 <= k < |attempts| ==>
        attempts[k].attempt == k + 1 && attempts[k].commandId == RowDerived(sha, db.requests[id])
  {
    InitialInv(sha, s);
    RunKeepsInv(sha, s, actions);
    var db := Run(sha, s, actions).db;
    AttemptsOfAreAttempts(db.attempts, db.requests[id].operationId);
    var attempts := AttemptsOf(db.attempts, db.requests[id].operationId);
    forall k | 0 <= k < |attempts| ensures attempts[k].commandId == RowDerived(sha, db.requests[id]) {
      assert attempts[k] in db.attempts;
      var i :| 0 <= i < |db.attempts| && db.attempts[i] == attempts[k];
    }
  }

  lemma AttemptsOfAreAttempts(attempts: seq<AttemptRow>, o: string)
    ensures forall k :: 0 <= k < |AttemptsOf(attempts, o)| ==> AttemptsOf(attempts, o)[k] in attempts && AttemptsOf(attempts, o)[k].operationId == o
  {
  }

  /** A committed effect stems from a recorded attempt of its operation, under the derived id. */
  lemma CommitIsDerived(sha: string -> string, s: State, k: nat, id: string)
    requires Inv(sha, s) && k < |s.ledger| && id in s.db.requests && s.db.requests[id].operationId == s.ledger[k].operationId
    ensures s.ledger[k].commandId == RowDerived(sha, s.db.requests[id])
  {
    assert WasSent(s.network, s.ledger[k]);
    var m :| m in s.network && m.commandId == s.ledger[k].commandId && m.operationId == s.ledger[k].operationId;
    SentIsDerived(sha, s, m, id);
  }

  lemma SentIsDerived(sha: string -> string, s: State, m: Message, id: string)
    requires Inv(sha, s) && m in s.network && id in s.db.requests && s.db.requests[id].operationId == m.operationId
    ensures m.commandId == RowDerived(sha, s.db.requests[id])
  {
    assert Recorded(s.db.attempts, m);
    var i :| 0 <= i < |s.db.attempts| && s.db.attempts[i].submissionId == m.submissionId
          && s.db.attempts[i].commandId == m.commandId && s.db.attempts[i].operationId == m.operationId;
  }

  lemma SentHasRequest(sha: string -> string, s: State, m: Message)
    requires Inv(sha, s) && m in s.network
    ensures HasRequest(s.db, m.operationId)
  {
    assert Recorded(s.db.attempts, m);
    var i :| 0 <= i < |s.db.attempts| && s.db.attempts[i].submissionId == m.submissionId
          && s.db.attempts[i].commandId == m.commandId && s.db.attempts[i].operationId == m.operationId;
  }

  lemma CommitHasRequest(sha: string -> string, s: State, k: nat) returns (id: string)
    requires Inv(sha, s) && k < |s.ledger|
    ensures id in s.db.requests && s.db.requests[id].operationId == s.ledger[k].operationId
  {
    assert WasSent(s.network, s.ledger[k]);
    var m :| m in s.network && m.commandId == s.ledger[k].commandId && m.operationId == s.ledger[k].operationId;
    SentHasRequest(sha, s, m);
    id :| id in s.db.requests && s.db.requests[id].operationId == m.operationId;
  }

  /** At most one effect per operation: over any run, with submissions lost, delayed,
      repeated or of unknown outcome, the ledger never commits an operation twice. */
  lemma AtMostOneEffectPerOperation(sha: string -> string, s: State, actions: seq<Action>, k: nat, l: nat)
    requires Initial(s)
    requires k < |Run(sha, s, actions).ledger| && l < |Run(sha, s, actions).ledger|
    requires Run(sha, s, actions).ledger[k].operationId == Run(sha, s, actions).ledger[l].operationId
    ensures k == l
  {
    InitialInv(sha, s);
    RunKeepsInv(sha, s, actions);
    var s' := Run(sha, s, actions);
    var id := CommitHasRequest(sha, s', k);
    CommitIsDerived(sha, s', k, id);
    CommitIsDerived(sha, s', l, id);
  }

  ghost predicate BarFree(db: Db) {
    forall id :: id in db.requests ==> NoBar(db.requests[id].tenantId) && NoBar(db.requests[id].operationId)
  }

  function RowText(row: RequestRow): string {
    CommandIdentity.RawIdentity(row.tenantId, row.operationId, EffectiveVersion(row))
  }

  /** The digests of the texts in the queue do not collide. */
  ghost predicate NoCollisions(sha: string -> string, db: Db) {
    forall x, y :: x in db.requests && y in db.requests ==>
      CommandIdentity.NoCollision(sha, RowText(db.requests[x]), RowText(db.requests[y]))
  }

  /** The ledger's refusal of a repeated command id never costs another operation its
      effect: when a submission is refused, its own operation has been committed. */
  lemma RefusedMeansCommitted(sha: string -> string, s: State, actions: seq<Action>, m: Message)
    requires Initial(s)
    requires var s' := Run(sha, s, actions);
      BarFree(s'.db) && NoCollisions(sha, s'.db) && m in s'.network && Step(sha, s', Deliver(m)) == s'
    ensures exists k :: 0 <= k < |Run(sha, s, actions).ledger| && Run(sha, s, actions).ledger[k] == Commit(m.commandId, m.operationId)
  {
    InitialInv(sha, s);
    RunKeepsInv(sha, s, actions);
    var s' := Run(sha, s, actions);
    assert Committed(s'.ledger, m.commandId);
    var k :| 0 <= k < |s'.ledger| && s'.ledger[k].commandId == m.commandId;
    SentHasRequest(sha, s', m);
    var mine :| mine in s'.db.requests && s'.db.requests[mine].operationId == m.operationId;
    SentIsDerived(sha, s', m, mine);
    var theirs := CommitHasRequest(sha, s', k);
    CommitIsDerived(sha, s', k, theirs);
    var a, b := s'.db.requests[mine], s'.db.requests[theirs];
    assert CommandIdentity.NoCollision(sha, RowText(a), RowText(b));
    CommandIdentity.DistinctOperationsDistinctIds(sha, a.tenantId, a.operationId, EffectiveVersion(a),
                                                  b.tenantId, b.operationId, EffectiveVersion(b));
    assert s'.ledger[k] == Commit(m.commandId, m.operationId);
  }

  // ---- stored command ids

  /** A stored command id is written at most once: it never changes afterwards. */
  lemma StepKeepsStoredId(sha: string -> string, s: State, a: Action, o: string)
    requires Inv(sha, s) && o in s.db.operations && s.db.operations[o].commandId.Some?
    ensures o in Step(sha, s, a).db.operations && Step(sha, s, a).db.operations[o].commandId == s.db.operations[o].commandId
  {
    if a.Work? && Working(s, a.worker) {
      var me := s.pollers[a.worker];
      assert PcOk(sha, s.db, me);
      WorkTouchesOperations(sha, s.db, Step(sha, s, a).db, me, a.choice);
    }
  }

  lemma {:induction false} RunKeepsStoredId(sha: string -> string, s: State, actions: seq<Action>, o: string)
    requires Inv(sha, s) && o in s.db.operations && s.db.operations[o].commandId.Some?
    ensures o in Run(sha, s, actions).db.operations && Run(sha, s, actions).db.operations[o].commandId == s.db.operations[o].commandId
    decreases |actions|
  {
    if actions != [] {
      StepKeepsStoredId(sha, s, actions[0], o);
      StepKeepsInv(sha, s, actions[0]);
      RunKeepsStoredId(sha, Step(sha, s, actions[0]), actions[1..], o);
    }
  }

  /** An operation whose stored id is not the derived one is never attempted, and nothing
      of it is ever committed, from any state a run can be in. */
  lemma ForeignIdNeverSubmitted(sha: string -> string, s: State, actions: seq<Action>, id: string)
    requires Inv(sha, s) && id in s.db.requests
    requires var o := s.db.requests[id].operationId;
      o in s.db.operations && s.db.operations[o].commandId.Some? && s.db.operations[o].commandId.value != RowDerived(sha, s.db.requests[id])
    ensures var s' := Run(sha, s, actions); var o := s.db.requests[id].operationId;
      && AttemptsOf(s'.db.attempts, o) == []
      && (forall k :: 0 <= k < |s'.ledger| ==> s'.ledger[k].operationId != o)
  {
    var s' := Run(sha, s, actions);
    var o := s.db.requests[id].operationId;
    RunKeepsInv(sha, s, actions);
    RunKeepsStoredId(sha, s, actions, o);
    RunKeepsRow(sha, s, actions, id);
    forall i | 0 <= i < |s'.db.attempts| ensures s'.db.attempts[i].operationId != o {
      assert StoredIdAgrees(s'.db, s'.db.attempts[i].operationId, s'.db.attempts[i].commandId);
    }
    NoAttempts(s'.db.attempts, o);
    forall k | 0 <= k < |s'.ledger| ensures s'.ledger[k].operationId != o {
      assert WasSent(s'.network, s'.ledger[k]);
      var m :| m in s'.network && m.commandId == s'.ledger[k].commandId && m.operationId == s'.ledger[k].operationId;
      assert Recorded(s'.db.attempts, m);
    }
  }

  lemma NoAttempts(attempts: seq<AttemptRow>, o: string)
    requires forall i :: 0 <= i < |attempts| ==> attempts[i].operationId != o
    ensures AttemptsOf(attempts, o) == []
  {
  }

  predicate SameRow(sha: string -> string, db: Db, db': Db, id: string)
    requires id in db.requests
  {
    && id in db'.requests
    && db'.requests[id].operationId == db.requests[id].operationId
    && RowDerived(sha, db'.requests[id]) == RowDerived(sha, db.requests[id])
  }

  lemma StepKeepsRow(sha: string -> string, s: State, a: Action, id: string)
    requires QueueInv(s) && id in s.db.requests
    ensures SameRow(sha, s.db, Step(sha, s, a).db, id)
  {
    var s' := Step(sha, s, a);
    if a.Work? && Working(s, a.worker) {
      WorkTouchesRequests(s.db, s'.db, s.now, s.pollers[a.worker], a.choice);
      assert SameRequestIdentities(s.db, s'.db);
    } else if a.Claim? && s' != s {
      ClaimKeepsQueueInv(s, a);
      assert SameRequestIdentities(s.db, s'.db);
    }
  }

  lemma {:induction false} RunKeepsRow(sha: string -> string, s: State, actions: seq<Action>, id: string)
    requires Inv(sha, s) && id in s.db.requests
    ensures SameRow(sha, s.db, Run(sha, s, actions).db, id)
    decreases |actions|
  {
    if actions != [] {
      StepKeepsInv(sha, s, actions[0]);
      StepKeepsRow(sha, s, actions[0], id);
      RunKeepsRow(sha, Step(sha, s, actions[0]), actions[1..], id);
    }
  }

  /** An operation the API enqueued never fails the worker's identity check: no poller
      working on it ever reaches the branch that fails the request. */
  lemma EnqueuedNeverFailsIdentity(sha: string -> string, s: State, input: EnqueueInput, ids: FreshIds, actions: seq<Action>, p: nat)
    requires Inv(sha, s) && EnqueueTx(sha, s.db, input, ids, s.now).Some? && FreshOperation(s.db, ids.operationId)
    requires var s' := Run(sha, Step(sha, s, Enqueue(input, ids)), actions);
      Working(s', p) && s'.pollers[p].queue[0].id == ids.commandRequestId
    ensures !Run(sha, Step(sha, s, Enqueue(input, ids)), actions).pollers[p].pc.FailRow?
  {
    var s1 := Step(sha, s, Enqueue(input, ids));
    var s' := Run(sha, s1, actions);
    CommittedEnqueuePassesIdentityCheck(sha, s.db, input, ids, s.now);
    StepKeepsInv(sha, s, Enqueue(input, ids));
    RunKeepsInv(sha, s1, actions);
    RunKeepsStoredId(sha, s1, actions, ids.operationId);
    RunKeepsRow(sha, s1, actions, ids.commandRequestId);
    assert Snapshot(s'.db, s'.pollers[p].queue[0]);
    assert PcOk(sha, s'.db, s'.pollers[p]);
  }
}
