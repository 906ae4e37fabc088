/** The idempotency-key store (packages/idempotency/src/state-machine.ts) and the request
    hooks that claim, complete and release keys (apps/api/src/middleware/idempotency.ts). */
module Idempotency {
  import opened CommandTables
  import opened Database
  import opened IntentEnqueue
  import opened Options

  datatype ClaimResult =
    | New
    | InProgress(operationId: Option<string>)
    | Completed(operationId: Option<string>, stored: Response)
    | Conflict(operationId: Option<string>)

  /** `contended`: another transaction holds the advisory lock of the key. */
  function ClaimOutcome(keys: map<Key, KeyRow>, key: Key, requestHash: string, contended: bool): ClaimResult {
    if contended then InProgress(None)
    else if key !in keys then New
    else
      var row := keys[key];
      if row.requestHash != requestHash then Conflict(row.operationId)
      else match row.response
        case Some(r) => ClaimResult.Completed(row.operationId, r)
        case None => InProgress(row.operationId)
  }

  function KeysAfterClaim(keys: map<Key, KeyRow>, key: Key, requestHash: string, contended: bool): map<Key, KeyRow> {
    if ClaimOutcome(keys, key, requestHash, contended).New? then keys[key := KeyRow(requestHash, None, None, None)] else keys
  }

  /** The update does not ask who owns the key, nor whether it is completed already. */
  function KeysAfterComplete(keys: map<Key, KeyRow>, key: Key, response: Response): map<Key, KeyRow> {
    if key in keys then keys[key := keys[key].(response := Some(response))] else keys
  }

  function KeysAfterRelease(keys: map<Key, KeyRow>, key: Key): map<Key, KeyRow> {
    if key in keys && keys[key].response.None? then keys - {key} else keys
  }

  class IdempotencyStore {
    const tables: Tables

    constructor (tables: Tables)
      ensures this.tables == tables
    {
      this.tables := tables;
    }

    method Claim(key: Key, requestHash: string, contended: bool) returns (r: ClaimResult)
      modifies tables`idempotencyKeys
      ensures r == ClaimOutcome(old(tables.idempotencyKeys), key, requestHash, contended)
      ensures tables.idempotencyKeys == KeysAfterClaim(old(tables.idempotencyKeys), key, requestHash, contended)
      ensures r.New? <==> !contended && key !in old(tables.idempotencyKeys)
      ensures r.New? ==> tables.idempotencyKeys == old(tables.idempotencyKeys)[key := KeyRow(requestHash, None, None, None)]
      ensures !r.New? ==> tables.idempotencyKeys == old(tables.idempotencyKeys)
      ensures contended ==> r == InProgress(None)
      ensures !contended && !r.New? ==>
        var row := old(tables.idempotencyKeys)[key];
        && (r.Conflict? <==> row.requestHash != requestHash)
        && (r.Completed? <==> row.requestHash == requestHash && row.response.Some?)
        && r.operationId == row.operationId
        && (r.Completed? ==> r.stored == row.response.value)
    {
      if contended {
        return InProgress(None);
      }
      if key !in tables.idempotencyKeys {
        tables.idempotencyKeys := tables.idempotencyKeys[key := KeyRow(requestHash, None, None, None)];
        return New;
      }
      var row := tables.idempotencyKeys[key];
      if row.requestHash != requestHash {
        return Conflict(row.operationId);
      }
      if row.response.Some? {
        return ClaimResult.Completed(row.operationId, row.response.value);
      }
      r := InProgress(row.operationId);
    }

    method Complete(key: Key, response: Response)
      modifies tables`idempotencyKeys
      ensures tables.idempotencyKeys == KeysAfterComplete(old(tables.idempotencyKeys), key, response)
    {
      if key in tables.idempotencyKeys {
        tables.idempotencyKeys := tables.idempotencyKeys[key := tables.idempotencyKeys[key].(response := Some(response))];
      }
    }

    method Release(key: Key)
      modifies tables`idempotencyKeys
      ensures tables.idempotencyKeys == KeysAfterRelease(old(tables.idempotencyKeys), key)
    {
      if key in tables.idempotencyKeys && tables.idempotencyKeys[key].response == None {
        tables.idempotencyKeys := tables.idempotencyKeys - {key};
      }
    }
  }

  // ---- the request hooks as a protocol

  datatype Reply = Own(response: Response) | Replayed(response: Response) | Processing | KeyReused | Errored | Dropped

  /** A request between its hooks: before the claim, in the handler, about to complete the
      key, about to release it, or answered. */
  datatype Phase = Arrived | Handling | Completing(response: Response) | Releasing(reply: Reply) | Done(reply: Reply)

  datatype Http = Http(key: Key, requestHash: string, phase: Phase)

  /** `produced` records each successful response with the key and hash it was produced for. */
  datatype State = State(keys: map<Key, KeyRow>, requests: map<nat, Http>, produced: set<(Key, string, Response)>)

  datatype HandlerResult = Succeeded(response: Response) | Answered4xx(response: Response) | Threw

  datatype Action =
    | Arrive(id: nat, key: Key, requestHash: string)
    | Claim(id: nat, contended: bool)
    | Bind(id: nat, requestId: string, operationId: string)
    | Handle(id: nat, result: HandlerResult)
    | Complete(id: nat, applied: bool, reported: bool)
    | Release(id: nat, applied: bool)
    | Crash(id: nat)

  /** The preHandler hook after `claim` has answered. */
  function AfterClaim(r: ClaimResult): Phase {
    match r
    case New => Handling
    case InProgress(_) => Done(Processing)
    case Completed(_, stored) => Done(Replayed(stored))
    case Conflict(_) => Done(KeyReused)
  }

  function SetPhase(s: State, id: nat, phase: Phase): State
    requires id in s.requests
  {
    s.(requests := s.requests[id := s.requests[id].(phase := phase)])
  }

  /** Each statement is one step. `applied` says whether it took effect, `reported` whether
      the caller learned so; an unreported completion goes to the catch branch. */
  function Step(s: State, a: Action): State {
    if a.Arrive? then
      if a.id in s.requests then s else s.(requests := s.requests[a.id := Http(a.key, a.requestHash, Arrived)])
    else if a.id !in s.requests then s
    else
      var h := s.requests[a.id];
      match a
      case Claim(id, contended) =>
        if !h.phase.Arrived? then s
        else SetPhase(s.(keys := KeysAfterClaim(s.keys, h.key, h.requestHash, contended)), id,
                      AfterClaim(ClaimOutcome(s.keys, h.key, h.requestHash, contended)))
      case Bind(id, requestId, operationId) =>
        if !h.phase.Handling? then s else s.(keys := BindKey(s.keys, h.key, requestId, operationId))
      case Handle(id, result) =>
        if !h.phase.Handling? then s
        else (match result
              case Succeeded(r) => SetPhase(s.(produced := s.produced + {(h.key, h.requestHash, r)}), id, Completing(r))
              case Answered4xx(r) => SetPhase(s, id, Done(Own(r)))
              case Threw => SetPhase(s, id, Releasing(Errored)))
      case Complete(id, applied, reported) =>
        if !h.phase.Completing? then s
        else SetPhase(if applied then s.(keys := KeysAfterComplete(s.keys, h.key, h.phase.response)) else s, id,
                      if applied && reported then Done(Own(h.phase.response)) else Releasing(Own(h.phase.response)))
      case Release(id, applied) =>
        if !h.phase.Releasing? then s
        else SetPhase(if applied then s.(keys := KeysAfterRelease(s.keys, h.key)) else s, id, Done(h.phase.reply))
      case Crash(id) => if h.phase.Done? then s else SetPhase(s, id, Done(Dropped))
  }

  function Run(s: State, actions: seq<Action>): State
    decreases |actions|
  {
    if actions == [] then s else Run(Step(s, actions[0]), actions[1..])
  }

  ghost predicate Initial(s: State) {
    s.keys == map[] && s.requests == map[] && s.produced == {}
  }

  // ---- the invariant

  /** A request owns its key from a claim answered `New` until it completes, releases or dies. */
  predicate Owns(h: Http) {
    h.phase.Handling? || h.phase.Completing? || h.phase.Releasing?
  }

  predicate Owner(s: State, id: nat) {
    id in s.requests && Owns(s.requests[id])
  }

  /** An owner's row exists, carries its hash, and is still open while its handler runs. */
  ghost predicate OwnersHoldRows(s: State) {
    forall id :: Owner(s, id) ==>
      && s.requests[id].key in s.keys
      && s.keys[s.requests[id].key].requestHash == s.requests[id].requestHash
      && (!s.requests[id].phase.Releasing? ==> s.keys[s.requests[id].key].response.None?)
  }

  ghost predicate OneOwnerPerKey(s: State) {
    forall a, b :: Owner(s, a) && Owner(s, b) && s.requests[a].key == s.requests[b].key ==> a == b
  }

  /** A response on its way to a row, or to a client as a replay, was produced for that key and hash. */
  ghost predicate PhaseProduced(produced: set<(Key, string, Response)>, h: Http) {
    match h.phase
    case Completing(r) => (h.key, h.requestHash, r) in produced
    case Done(reply) => reply.Replayed? ==> (h.key, h.requestHash, reply.response) in produced
    case Releasing(reply) => !reply.Replayed?
    case _ => true
  }

  ghost predicate RowProduced(produced: set<(Key, string, Response)>, key: Key, row: KeyRow) {
    row.response.Some? ==> (key, row.requestHash, row.response.value) in produced
  }

  ghost predicate AllProduced(s: State) {
    && (forall id :: id in s.requests ==> PhaseProduced(s.produced, s.requests[id]))
    && (forall k :: k in s.keys ==> RowProduced(s.produced, k, s.keys[k]))
  }

  ghost predicate Inv(s: State) {
    OwnersHoldRows(s) && OneOwnerPerKey(s) && AllProduced(s)
  }

  lemma ClaimKeepsInv(s: State, id: nat, contended: bool)
    requires Inv(s)
    ensures Inv(Step(s, Claim(id, contended)))
  {
    var s' := Step(s, Claim(id, contended));
    if id in s.requests && s.requests[id].phase.Arrived? {
      var h := s.requests[id];
      assert PhaseProduced(s'.produced, s'.requests[id]) by {
        assert h.key in s.keys ==> RowProduced(s.produced, h.key, s.keys[h.key]);
      }
      assert forall k :: k in s.keys ==> s'.keys[k] == s.keys[k];
    }
  }

  lemma BindKeepsInv(s: State, id: nat, requestId: string, operationId: string)
    requires Inv(s)
    ensures Inv(Step(s, Bind(id, requestId, operationId)))
  {
    var s' := Step(s, Bind(id, requestId, operationId));
    forall k | k in s'.keys ensures RowProduced(s'.produced, k, s'.keys[k]) {
      assert RowProduced(s.produced, k, s.keys[k]);
    }
  }

  lemma HandleKeepsInv(s: State, id: nat, result: HandlerResult)
    requires Inv(s)
    ensures Inv(Step(s, Handle(id, result)))
  {
    var s' := Step(s, Handle(id, result));
    forall k | k in s'.keys ensures RowProduced(s'.produced, k, s'.keys[k]) {
      assert RowProduced(s.produced, k, s.keys[k]);
    }
    forall i | i in s'.requests ensures PhaseProduced(s'.produced, s'.requests[i]) {
      assert PhaseProduced(s.produced, s.requests[i]);
    }
  }

  lemma CompleteKeepsInv(s: State, id: nat, applied: bool, reported: bool)
    requires Inv(s)
    ensures Inv(Step(s, Complete(id, applied, reported)))
  {
    if id in s.requests && s.requests[id].phase.Completing? {
      var h := s.requests[id];
      assert Owner(s, id) && PhaseProduced(s.produced, h);
    }
  }

  lemma ReleaseKeepsInv(s: State, id: nat, applied: bool)
    requires Inv(s)
    ensures Inv(Step(s, Release(id, applied)))
  {
    if id in s.requests && s.requests[id].phase.Releasing? {
      assert Owner(s, id) && PhaseProduced(s.produced, s.requests[id]);
    }
  }

  lemma StepKeepsInv(s: State, a: Action)
    requires Inv(s)
    ensures Inv(Step(s, a))
  {
    match a
    case Arrive(_, _, _) =>
    case Claim(id, contended) => ClaimKeepsInv(s, id, contended);
    case Bind(id, requestId, operationId) => BindKeepsInv(s, id, requestId, operationId);
    case Handle(id, result) => HandleKeepsInv(s, id, result);
    case Complete(id, applied, reported) => CompleteKeepsInv(s, id, applied, reported);
    case Release(id, applied) => ReleaseKeepsInv(s, id, applied);
    case Crash(_) =>
  }

  lemma {:induction false} RunKeepsInv(s: State, actions: seq<Action>)
    requires Inv(s)
    ensures Inv(Run(s, actions))
    decreases |actions|
  {
    if actions != [] {
      StepKeepsInv(s, actions[0]);
      RunKeepsInv(Step(s, actions[0]), actions[1..]);
    }
  }

  // ---- the main results

  /** Over every interleaving of claims, completions, releases and crashes, at most one
      request at a time owns a key. */
  lemma AtMostOneOwner(s: State, actions: seq<Action>, a: nat, b: nat)
    requires Initial(s) && Owner(Run(s, actions), a) && Owner(Run(s, actions), b)
    requires Run(s, actions).requests[a].key == Run(s, actions).requests[b].key
    ensures a == b
  {
    RunKeepsInv(s, actions);
  }

  lemma StepKeepsCompleted(s: State, a: Action, key: Key)
    requires Inv(s) && key in s.keys && s.keys[key].response.Some?
    ensures key in Step(s, a).keys && Step(s, a).keys[key] == s.keys[key]
  {
    if !a.Arrive? && a.id in s.requests {
      assert s.requests[a.id].key == key && Owner(s, a.id) ==> s.requests[a.id].phase.Releasing?;
    }
  }

  /** A completed row is never deleted, overwritten or re-owned, whatever happens after. */
  lemma {:induction false} CompletedIsForever(s: State, actions: seq<Action>, key: Key)
    requires Inv(s) && key in s.keys && s.keys[key].response.Some?
    ensures key in Run(s, actions).keys && Run(s, actions).keys[key] == s.keys[key]
    ensures forall id :: Owner(Run(s, actions), id) && Run(s, actions).requests[id].key == key ==> Run(s, actions).requests[id].phase.Releasing?
    decreases |actions|
  {
    if actions == [] {
      assert forall id :: Owner(s, id) && s.requests[id].key == key ==> s.requests[id].phase.Releasing?;
    } else {
      StepKeepsCompleted(s, actions[0], key);
      StepKeepsInv(s, actions[0]);
      CompletedIsForever(Step(s, actions[0]), actions[1..], key);
    }
  }

  /** Every later claim of a completed key: with the same hash it gets the stored response,
      or a transient `in_progress` while the lock is taken; with another hash never the response. */
  lemma LaterClaims(s: State, actions: seq<Action>, key: Key, requestHash: string, contended: bool)
    requires Inv(s) && key in s.keys && s.keys[key].response.Some?
    ensures var keys := Run(s, actions).keys; var row := s.keys[key];
      ClaimOutcome(keys, key, requestHash, contended)
      == if contended then InProgress(None)
         else if requestHash == row.requestHash then ClaimResult.Completed(row.operationId, row.response.value)
         else Conflict(row.operationId)
  {
    CompletedIsForever(s, actions, key);
  }

  /** A replayed response was produced by a successful handler for the same key and the same
      request hash: a request never sees the response of a different one. */
  lemma ReplaysComeFromTheSameRequest(s: State, actions: seq<Action>, id: nat)
    requires Initial(s) && id in Run(s, actions).requests
    requires Run(s, actions).requests[id].phase.Done? && Run(s, actions).requests[id].phase.reply.Replayed?
    ensures var s' := Run(s, actions); var h := s'.requests[id];
      (h.key, h.requestHash, h.phase.reply.response) in s'.produced
  {
    RunKeepsInv(s, actions);
    assert PhaseProduced(Run(s, actions).produced, Run(s, actions).requests[id]);
  }

  // ---- keys nobody owns

  ghost predicate Orphaned(s: State, key: Key) {
    && key in s.keys && s.keys[key].response.None?
    && (forall id :: Owner(s, id) ==> s.requests[id].key != key)
  }

  /** An open row whose owner crashed, or answered with an error status without throwing,
      stays as it is for ever: no later claim of that key is ever answered `New` or `Completed`. */
  lemma {:induction false} OrphanedKeyIsStuck(s: State, actions: seq<Action>, key: Key, requestHash: string, contended: bool)
    requires Orphaned(s, key)
    ensures Orphaned(Run(s, actions), key) && Run(s, actions).keys[key] == s.keys[key]
    ensures var r := ClaimOutcome(Run(s, actions).keys, key, requestHash, contended); r.InProgress? || r.Conflict?
    decreases |actions|
  {
    if actions != [] {
      assert !actions[0].Arrive? && Owner(s, actions[0].id) ==> s.requests[actions[0].id].key != key;
      OrphanedKeyIsStuck(Step(s, actions[0]), actions[1..], key, requestHash, contended);
    }
  }

  /** How such a row arises from an open row with an owner: the owner dies, at whatever point;
      its handler answers with an error status without throwing; or its release takes no effect.
      Nothing else does it. */
  lemma HowKeysAreOrphaned(s: State, id: nat, a: Action)
    requires Inv(s) && Owner(s, id) && s.keys[s.requests[id].key].response.None?
    ensures Orphaned(Step(s, a), s.requests[id].key) <==>
            || a == Crash(id)
            || (a.Handle? && a.id == id && s.requests[id].phase.Handling? && a.result.Answered4xx?)
            || (a.Release? && a.id == id && s.requests[id].phase.Releasing? && !a.applied)
  {
    var key, s' := s.requests[id].key, Step(s, a);
    NoOtherOwner(s, id, a);
    if a.id != id || a.Arrive? || a.Claim? || a.Bind? {
      assert Owner(s', id) && s'.requests[id].key == key;
    } else if a.Handle? && s.requests[id].phase.Handling? && !a.result.Answered4xx? {
      assert Owner(s', id) && s'.requests[id].key == key;
    } else if a.Complete? && s.requests[id].phase.Completing? {
      assert Owner(s', id) || s'.keys[key].response.Some?;
    } else if s' == s {
      assert Owner(s', id);
    }
  }

  /** No step makes another request an owner of a key that is there. */
  lemma NoOtherOwner(s: State, id: nat, a: Action)
    requires Inv(s) && Owner(s, id)
    ensures forall other :: other != id && Owner(Step(s, a), other) ==> Step(s, a).requests[other].key != s.requests[id].key
  {
    var s' := Step(s, a);
    forall other | other != id && Owner(s', other) ensures s'.requests[other].key != s.requests[id].key {
      if !Owner(s, other) {
        assert a.Claim? && a.id == other;
      }
    }
  }

  /** An open key is not stuck exactly when some live request owns it: only then is there a
      continuation in which the row is completed or gone. */
  lemma OpenKeyResolvesIffOwned(s: State, key: Key)
    requires Inv(s) && key in s.keys && s.keys[key].response.None?
    ensures (exists actions :: var keys := Run(s, actions).keys; key !in keys || keys[key].response.Some?)
       <==> (exists id :: Owner(s, id) && s.requests[id].key == key)
  {
    if id :| Owner(s, id) && s.requests[id].key == key {
      var actions := OwnerFinishes(s, id);
    } else {
      forall actions ensures var keys := Run(s, actions).keys; key in keys && keys[key].response.None? {
        OrphanedKeyIsStuck(s, actions, key, "", false);
      }
    }
  }

  lemma OwnerFinishes(s: State, id: nat) returns (actions: seq<Action>)
    requires Inv(s) && Owner(s, id) && s.keys[s.requests[id].key].response.None?
    ensures var keys := Run(s, actions).keys; var key := s.requests[id].key; key !in keys || keys[key].response.Some?
  {
    if s.requests[id].phase.Handling? {
      var s1 := Step(s, Handle(id, Threw));
      actions := [Handle(id, Threw), Release(id, true)];
      assert actions[1..] == [Release(id, true)];
      assert Run(s, actions) == Run(s1, [Release(id, true)]);
      OneStep(s1, Release(id, true));
    } else if s.requests[id].phase.Completing? {
      actions := [Complete(id, true, true)];
      OneStep(s, Complete(id, true, true));
    } else {
      actions := [Release(id, true)];
      OneStep(s, Release(id, true));
    }
  }

  lemma OneStep(s: State, a: Action)
    ensures Run(s, [a]) == Step(s, a)
  {
    assert [a][1..] == [];
    assert Run(s, [a]) == Run(Step(s, a), []);
  }

  // ---- claiming

  /** A request that arrives becomes the owner of its key, by a claim nobody contends, exactly
      when the key has no row; the row it then gets is open and carries its hash. A contended claim
      owns nothing and changes nothing. */
  lemma ClaimOwnsIffFree(s: State, id: nat)
    requires Inv(s) && id in s.requests && s.requests[id].phase.Arrived?
    ensures var h, s' := s.requests[id], Step(s, Claim(id, false));
      && (Owner(s', id) <==> h.key !in s.keys)
      && (h.key !in s.keys ==> s'.keys == s.keys[h.key := KeyRow(h.requestHash, None, None, None)])
      && (h.key in s.keys ==> s'.keys == s.keys)
    ensures var s' := Step(s, Claim(id, true)); s'.requests[id].phase == Done(Processing) && s'.keys == s.keys
  {
  }

  /** What an uncontended claim of a key with a row is told. */
  lemma ClaimOfTakenKey(s: State, id: nat)
    requires Inv(s) && id in s.requests && s.requests[id].phase.Arrived? && s.requests[id].key in s.keys
    ensures var h := s.requests[id]; var row := s.keys[h.key];
      var told := Step(s, Claim(id, false)).requests[id].phase;
      && (row.requestHash != h.requestHash ==> told == Done(KeyReused))
      && (row.requestHash == h.requestHash && row.response.Some? ==> told == Done(Replayed(row.response.value)))
      && (row.requestHash == h.requestHash && row.response.None? ==> told == Done(Processing))
  {
  }

  /** While the handler runs, claims of its key are told the operation it has bound. */
  lemma BoundOperationIsTold(s: State, id: nat, requestId: string, operationId: string, requestHash: string)
    requires Inv(s) && id in s.requests && s.requests[id].phase.Handling?
    ensures var h := s.requests[id];
      ClaimOutcome(Step(s, Bind(id, requestId, operationId)).keys, h.key, requestHash, false)
      == if requestHash == h.requestHash then InProgress(Some(operationId)) else Conflict(Some(operationId))
  {
    assert Owner(s, id);
  }

  lemma TakenKeyKeepsOthersOut(s: State, a: Action, id: nat)
    requires Inv(s) && id in s.requests && !Owns(s.requests[id]) && s.requests[id].key in s.keys
    ensures id in Step(s, a).requests && !Owns(Step(s, a).requests[id]) && Step(s, a).requests[id].key == s.requests[id].key
  {
  }

  /** The row of a key is done with: completed, or open with nobody to complete it. */
  ghost predicate Settled(s: State, key: Key) {
    key in s.keys && (s.keys[key].response.Some? || Orphaned(s, key))
  }

  lemma StepKeepsSettled(s: State, a: Action, key: Key)
    requires Inv(s) && Settled(s, key)
    ensures Settled(Step(s, a), key)
  {
    if s.keys[key].response.Some? {
      StepKeepsCompleted(s, a, key);
    } else {
      OrphanedKeyIsStuck(s, [a], key, "", false);
      OneStep(s, a);
    }
  }

  lemma {:induction false} SettledKeepsOthersOut(s: State, actions: seq<Action>, id: nat)
    requires Inv(s) && id in s.requests && !Owns(s.requests[id]) && Settled(s, s.requests[id].key)
    ensures !Owner(Run(s, actions), id)
    decreases |actions|
  {
    if actions != [] {
      StepKeepsInv(s, actions[0]);
      StepKeepsSettled(s, actions[0], s.requests[id].key);
      TakenKeyKeepsOthersOut(s, actions[0], id);
      SettledKeepsOthersOut(Step(s, actions[0]), actions[1..], id);
    }
  }

  lemma {:induction false} RunAppend(s: State, actions: seq<Action>, a: Action)
    ensures Run(s, actions + [a]) == Step(Run(s, actions), a)
    decreases |actions|
  {
    if actions == [] {
      assert actions + [a] == [a];
      OneStep(s, a);
    } else {
      assert (actions + [a])[1..] == actions[1..] + [a];
      RunAppend(Step(s, actions[0]), actions[1..], a);
    }
  }

  /** The owner of an open key can give it up, and nobody else notices. */
  lemma OwnerReleases(s: State, id: nat) returns (actions: seq<Action>)
    requires Inv(s) && Owner(s, id) && s.keys[s.requests[id].key].response.None?
    ensures s.requests[id].key !in Run(s, actions).keys
    ensures forall other :: other != id && other in s.requests ==>
      other in Run(s, actions).requests && Run(s, actions).requests[other] == s.requests[other]
  {
    if s.requests[id].phase.Releasing? {
      actions := [Release(id, true)];
      OneStep(s, Release(id, true));
    } else {
      var first := if s.requests[id].phase.Handling? then Handle(id, Threw) else Complete(id, false, false);
      actions := [first] + [Release(id, true)];
      OneStep(s, first);
      RunAppend(s, [first], Release(id, true));
    }
  }

  /** A request that has arrived can still come to own its key exactly when the key is free, or
      open in the hands of a live request. */
  lemma CanStillOwnIff(s: State, id: nat)
    requires Inv(s) && id in s.requests && s.requests[id].phase.Arrived?
    ensures (exists actions :: Owner(Run(s, actions), id)) <==>
            (var key := s.requests[id].key;
             key !in s.keys || (s.keys[key].response.None? && exists other :: Owner(s, other) && s.requests[other].key == key))
  {
    var key := s.requests[id].key;
    if key !in s.keys {
      OneStep(s, Claim(id, false));
      assert Owner(Run(s, [Claim(id, false)]), id);
    } else if s.keys[key].response.None? && exists other :: Owner(s, other) && s.requests[other].key == key {
      var other :| Owner(s, other) && s.requests[other].key == key;
      var actions := OwnerReleases(s, other);
      RunAppend(s, actions, Claim(id, false));
      assert Owner(Run(s, actions + [Claim(id, false)]), id);
    } else {
      forall actions ensures !Owner(Run(s, actions), id) {
        SettledKeepsOthersOut(s, actions, id);
      }
    }
  }

  /** What a handler answers is stored, sent to its client, and replayed to every later request with
      the same key and hash that is not contended, whatever happens in between. */
  lemma SuccessIsReplayed(s: State, id: nat, response: Response, actions: seq<Action>, later: nat)
    requires Inv(s) && id in s.requests && s.requests[id].phase.Handling?
    requires var s' := Run(Step(Step(s, Handle(id, Succeeded(response))), Complete(id, true, true)), actions);
      && later in s'.requests && s'.requests[later].phase.Arrived?
      && s'.requests[later].key == s.requests[id].key && s'.requests[later].requestHash == s.requests[id].requestHash
    ensures var s1 := Step(Step(s, Handle(id, Succeeded(response))), Complete(id, true, true));
      && s1.requests[id].phase == Done(Own(response))
      && Step(Run(s1, actions), Claim(later, false)).requests[later].phase == Done(Replayed(response))
  {
    var handled := Step(s, Handle(id, Succeeded(response)));
    var s1 := Step(handled, Complete(id, true, true));
    assert Owner(s, id);
    StepKeepsInv(s, Handle(id, Succeeded(response)));
    StepKeepsInv(handled, Complete(id, true, true));
    CompletedIsForever(s1, actions, s.requests[id].key);
    RunKeepsInv(s1, actions);
    ClaimOfTakenKey(Run(s1, actions), later);
  }

  /** A request whose handler is done gets this reply, or none if it dies first. */
  predicate OnItsWay(phase: Phase, reply: Reply) {
    || (phase.Completing? && reply == Own(phase.response))
    || phase == Releasing(reply) || phase == Done(reply) || phase == Done(Dropped)
  }

  lemma {:induction false} ReplyIsSettled(s: State, actions: seq<Action>, id: nat, reply: Reply)
    requires id in s.requests && OnItsWay(s.requests[id].phase, reply)
    ensures id in Run(s, actions).requests && OnItsWay(Run(s, actions).requests[id].phase, reply)
    decreases |actions|
  {
    if actions != [] {
      ReplyIsSettled(Step(s, actions[0]), actions[1..], id, reply);
    }
  }

  /** What the handler came to is what its client is told, whether or not the key could be completed
      or released. */
  lemma ClientIsToldTheResult(s: State, id: nat, result: HandlerResult, actions: seq<Action>)
    requires id in s.requests && s.requests[id].phase.Handling?
    ensures var s' := Run(Step(s, Handle(id, result)), actions);
      var reply := if result.Threw? then Errored else Own(result.response);
      id in s'.requests && (s'.requests[id].phase.Done? ==> s'.requests[id].phase.reply in {reply, Dropped})
  {
    var reply := if result.Threw? then Errored else Own(result.response);
    ReplyIsSettled(Step(s, Handle(id, result)), actions, id, reply);
  }
}
