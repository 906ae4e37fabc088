/** The per-tenant work queues of TenantPartition.kt and their round-robin drain. Work is opaque:
    invoking it appends it to the log of what ran. */
module FairDrain {

  datatype Work = Work(name: string)
  datatype Ran = Ran(tenant: string, work: Work)

  /** linkedMapOf: one entry per tenant, in the order the tenants were first seen. */
  datatype Entry = Entry(tenant: string, work: seq<Work>)
  type Queues = seq<Entry>

  predicate DistinctTenants(queues: Queues) {
    forall i, j :: 0 <= i < j < |queues| ==> queues[i].tenant != queues[j].tenant
  }

  function WorkOf(queues: Queues, tenant: string): seq<Work> {
    if queues == [] then []
    else if queues[0].tenant == tenant then queues[0].work
    else WorkOf(queues[1..], tenant)
  }

  predicate AnyNotEmpty(queues: Queues) {
    queues != [] && (queues[0].work != [] || AnyNotEmpty(queues[1..]))
  }

  function Total(queues: Queues): nat {
    if queues == [] then 0 else |queues[0].work| + Total(queues[1..])
  }

  // ---- removeFirstOrNull()?.invoke()

  function First(e: Entry): seq<Ran> {
    if e.work == [] then [] else [Ran(e.tenant, e.work[0])]
  }

  function Tail(e: Entry): Entry {
    if e.work == [] then e else e.(work := e.work[1..])
  }

  /** One pass over the tenants runs the first work of each non-empty queue. */
  function OnePass(queues: Queues): seq<Ran> {
    if queues == [] then [] else First(queues[0]) + OnePass(queues[1..])
  }

  function Tails(queues: Queues): (r: Queues)
    ensures Total(r) <= Total(queues)
    ensures AnyNotEmpty(queues) ==> Total(r) < Total(queues)
  {
    if queues == [] then [] else [Tail(queues[0])] + Tails(queues[1..])
  }

  /** The same tenants with nothing queued. */
  function Emptied(queues: Queues): Queues {
    if queues == [] then [] else [Entry(queues[0].tenant, [])] + Emptied(queues[1..])
  }

  lemma TailsEmptied(queues: Queues)
    ensures Emptied(Tails(queues)) == Emptied(queues)
  {
  }

  lemma NothingToEmpty(queues: Queues)
    requires !AnyNotEmpty(queues)
    ensures Emptied(queues) == queues
  {
  }

  /** Everything a drain runs, in order. */
  function Drained(queues: Queues): seq<Ran>
    decreases Total(queues)
  {
    if AnyNotEmpty(queues) then OnePass(queues) + Drained(Tails(queues)) else []
  }

  class TenantPartition {
    var queues: Queues

    constructor ()
      ensures queues == []
    {
      queues := [];
    }

    method Enqueue(tenant: string, work: Work)
      requires DistinctTenants(queues)
      modifies this
      ensures queues == Enqueued(old(queues), tenant, work)
      ensures DistinctTenants(queues)
    {
      EnqueueKeepsDistinct(queues, tenant, work);
      for i := 0 to |queues|
        invariant queues == old(queues)
        invariant forall k :: 0 <= k < i ==> queues[k].tenant != tenant
        invariant Enqueued(queues, tenant, work) == queues[..i] + Enqueued(queues[i..], tenant, work)
      {
        EnqueuedStep(queues, i, tenant, work);
        if queues[i].tenant == tenant {
          queues := queues[i := queues[i].(work := queues[i].work + [work])];
          return;
        }
      }
      queues := queues + [Entry(tenant, [work])];
    }

    method DrainRoundRobin() returns (log: seq<Ran>)
      modifies this
      ensures log == Drained(old(queues))
      ensures queues == Emptied(old(queues))
    {
      log := [];
      while AnyNotEmpty(queues)
        invariant log + Drained(queues) == Drained(old(queues))
        invariant Emptied(queues) == Emptied(old(queues))
        decreases Total(queues)
      {
        TailsEmptied(queues);
        Regroup(log, OnePass(queues), Drained(Tails(queues)));
        var ran := Pass();
        log := log + ran;
      }
      NothingToEmpty(queues);
    }

    /** for (q in queues.values) */
    method Pass() returns (ran: seq<Ran>)
      modifies this
      ensures queues == Tails(old(queues)) && ran == OnePass(old(queues))
    {
      ran := [];
      ghost var start := queues;
      for i := 0 to |queues|
        invariant |queues| == |start|
        invariant Tails(start) == queues[..i] + Tails(queues[i..])
        invariant OnePass(start) == ran + OnePass(queues[i..])
      {
        var e := queues[i];
        PassStep(queues, i, ran);
        ran := ran + First(e);
        queues := queues[i := Tail(e)];
      }
    }
  }

  function Enqueued(queues: Queues, tenant: string, work: Work): Queues {
    if queues == [] then [Entry(tenant, [work])]
    else if queues[0].tenant == tenant then [queues[0].(work := queues[0].work + [work])] + queues[1..]
    else [queues[0]] + Enqueued(queues[1..], tenant, work)
  }

  lemma EnqueuedStep(queues: Queues, i: nat, tenant: string, work: Work)
    requires i < |queues|
    ensures queues[..i] + Enqueued(queues[i..], tenant, work) ==
            if queues[i].tenant == tenant then queues[i := queues[i].(work := queues[i].work + [work])]
            else queues[..i + 1] + Enqueued(queues[i + 1..], tenant, work)
  {
    assert queues[i..][1..] == queues[i + 1..];
  }

  lemma Regroup(a: seq<Ran>, b: seq<Ran>, c: seq<Ran>)
    ensures a + (b + c) == (a + b) + c
  {
  }

  lemma PassStep(queues: Queues, i: nat, ran: seq<Ran>)
    requires i < |queues|
    ensures var after := queues[i := Tail(queues[i])];
      && queues[..i] + Tails(queues[i..]) == after[..i + 1] + Tails(after[i + 1..])
      && ran + OnePass(queues[i..]) == (ran + First(queues[i])) + OnePass(after[i + 1..])
  {
    var after := queues[i := Tail(queues[i])];
    assert queues[i..][1..] == after[i + 1..];
    assert after[..i + 1] == queues[..i] + [Tail(queues[i])];
    Regroup(ran, First(queues[i]), OnePass(after[i + 1..]));
  }

  lemma TenantsOfEnqueued(queues: Queues, tenant: string, work: Work)
    ensures forall e :: e in Enqueued(queues, tenant, work) ==> e.tenant == tenant || exists d :: d in queues && d.tenant == e.tenant
  {
  }

  lemma EnqueueKeepsDistinct(queues: Queues, tenant: string, work: Work)
    requires DistinctTenants(queues)
    ensures DistinctTenants(Enqueued(queues, tenant, work))
  {
    if queues != [] && queues[0].tenant != tenant {
      EnqueueKeepsDistinct(queues[1..], tenant, work);
      TenantsOfEnqueued(queues[1..], tenant, work);
      var rest := Enqueued(queues[1..], tenant, work);
      forall j | 0 <= j < |rest| ensures rest[j].tenant != queues[0].tenant {
        assert rest[j] in rest;
      }
    }
  }

  /** Enqueueing appends to the tenant's own work and leaves the others alone. */
  lemma {:induction false} EnqueuedWork(queues: Queues, tenant: string, work: Work, other: string)
    ensures WorkOf(Enqueued(queues, tenant, work), other) ==
            if other == tenant then WorkOf(queues, tenant) + [work] else WorkOf(queues, other)
  {
    if queues == [] {
      assert [Entry(tenant, [work])][1..] == [];
    } else if queues[0].tenant != tenant {
      EnqueuedWork(queues[1..], tenant, work, other);
    }
  }

  // ---- what a drain does

  /** The work of one tenant in a log, in the order it ran. */
  function Of(log: seq<Ran>, tenant: string): seq<Work> {
    if log == [] then []
    else (if log[0].tenant == tenant then [log[0].work] else []) + Of(log[1..], tenant)
  }

  lemma RegroupWork(a: seq<Work>, b: seq<Work>, c: seq<Work>)
    ensures a + (b + c) == (a + b) + c
  {
  }

  lemma {:induction false} OfAppend(a: seq<Ran>, b: seq<Ran>, tenant: string)
    ensures Of(a + b, tenant) == Of(a, tenant) + Of(b, tenant)
    decreases |a|
  {
    if a == [] {
      assert a + b == b;
    } else {
      assert (a + b)[0] == a[0] && (a + b)[1..] == a[1..] + b;
      OfAppend(a[1..], b, tenant);
      RegroupWork(if a[0].tenant == tenant then [a[0].work] else [], Of(a[1..], tenant), Of(b, tenant));
    }
  }

  function Head(work: seq<Work>): seq<Work> {
    if work == [] then [] else work[..1]
  }

  function Rest(work: seq<Work>): seq<Work> {
    if work == [] then [] else work[1..]
  }

  lemma {:induction false} OthersDoNotRun(queues: Queues, tenant: string)
    requires forall i :: 0 <= i < |queues| ==> queues[i].tenant != tenant
    ensures Of(OnePass(queues), tenant) == [] && WorkOf(queues, tenant) == []
    decreases |queues|
  {
    if queues != [] {
      OfPassStep(queues, tenant);
      OthersDoNotRun(queues[1..], tenant);
    }
  }

  lemma OfFirst(e: Entry, tenant: string)
    ensures Of(First(e), tenant) == if e.tenant == tenant then Head(e.work) else []
  {
    if e.work != [] {
      assert First(e)[1..] == [];
    }
  }

  lemma OfPassStep(queues: Queues, tenant: string)
    requires queues != []
    ensures Of(OnePass(queues), tenant) ==
            (if queues[0].tenant == tenant then Head(queues[0].work) else []) + Of(OnePass(queues[1..]), tenant)
  {
    OfFirst(queues[0], tenant);
    OfAppend(First(queues[0]), OnePass(queues[1..]), tenant);
  }

  /** A pass runs the first work of each tenant and keeps the rest. */
  lemma {:induction false} OfOnePass(queues: Queues, tenant: string)
    requires DistinctTenants(queues)
    ensures Of(OnePass(queues), tenant) == Head(WorkOf(queues, tenant))
    ensures WorkOf(Tails(queues), tenant) == Rest(WorkOf(queues, tenant))
    decreases |queues|
  {
    if queues != [] {
      OfPassStep(queues, tenant);
      OfOnePass(queues[1..], tenant);
      if queues[0].tenant == tenant {
        OthersDoNotRun(queues[1..], tenant);
      }
    }
  }

  lemma TailsKeepTenants(queues: Queues)
    ensures |Tails(queues)| == |queues| && forall i :: 0 <= i < |queues| ==> Tails(queues)[i].tenant == queues[i].tenant
  {
  }

  lemma NothingLeft(queues: Queues, tenant: string)
    requires !AnyNotEmpty(queues)
    ensures WorkOf(queues, tenant) == []
  {
  }

  /** What a drain runs, seen by one tenant: first the pass, then the rest. */
  lemma DrainedOf(queues: Queues, tenant: string)
    requires DistinctTenants(queues) && AnyNotEmpty(queues)
    ensures Of(Drained(queues), tenant) == Head(WorkOf(queues, tenant)) + Of(Drained(Tails(queues)), tenant)
  {
    OfOnePass(queues, tenant);
    OfAppend(OnePass(queues), Drained(Tails(queues)), tenant);
  }

  /** Every queued item of a tenant runs exactly once, in the order it was queued. */
  lemma {:induction false} RunsEachOnceInOrder(queues: Queues, tenant: string)
    requires DistinctTenants(queues)
    ensures Of(Drained(queues), tenant) == WorkOf(queues, tenant)
    decreases Total(queues)
  {
    if AnyNotEmpty(queues) {
      OfOnePass(queues, tenant);
      TailsDistinct(queues);
      RunsEachOnceInOrder(Tails(queues), tenant);
      DrainedOf(queues, tenant);
    } else {
      NothingLeft(queues, tenant);
    }
  }

  function Min(a: int, b: int): int {
    if a < b then a else b
  }

  lemma OfPrefix(log: seq<Ran>, n: nat, tenant: string)
    requires n <= |log|
    ensures |Of(log[..n], tenant)| <= |Of(log, tenant)|
  {
    OfAppend(log[..n], log[n..], tenant);
    assert log == log[..n] + log[n..];
  }

  lemma OfLaterPrefix(queues: Queues, n: nat, tenant: string)
    requires DistinctTenants(queues) && AnyNotEmpty(queues)
    requires |OnePass(queues)| < n <= |Drained(queues)|
    ensures Of(Drained(queues)[..n], tenant) ==
            Head(WorkOf(queues, tenant)) + Of(Drained(Tails(queues))[..n - |OnePass(queues)|], tenant)
  {
    var m := n - |OnePass(queues)|;
    assert Drained(queues)[..n] == OnePass(queues) + Drained(Tails(queues))[..m];
    OfAppend(OnePass(queues), Drained(Tails(queues))[..m], tenant);
    OfOnePass(queues, tenant);
  }

  /** How many items of a tenant have run when n items in all have. */
  function Done(queues: Queues, n: nat, tenant: string): nat
    requires n <= |Drained(queues)|
  {
    |Of(Drained(queues)[..n], tenant)|
  }

  lemma DoneInFirstPass(queues: Queues, n: nat, tenant: string)
    requires DistinctTenants(queues) && AnyNotEmpty(queues) && n <= |OnePass(queues)|
    ensures Done(queues, n, tenant) <= 1
  {
    assert Drained(queues)[..n] == OnePass(queues)[..n];
    OfPrefix(OnePass(queues), n, tenant);
    OfOnePass(queues, tenant);
  }

  lemma DoneLater(queues: Queues, n: nat, tenant: string)
    requires DistinctTenants(queues) && AnyNotEmpty(queues)
    requires |OnePass(queues)| < n <= |Drained(queues)|
    ensures Done(queues, n, tenant) == Min(|WorkOf(queues, tenant)|, 1) + Done(Tails(queues), n - |OnePass(queues)|, tenant)
    ensures |WorkOf(Tails(queues), tenant)| == |WorkOf(queues, tenant)| - Min(|WorkOf(queues, tenant)|, 1)
  {
    OfLaterPrefix(queues, n, tenant);
    OfOnePass(queues, tenant);
  }

  /** Fair: whenever a drain is stopped, no tenant is more than one item ahead of another that
      still had work. */
  lemma {:induction false} Fair(queues: Queues, n: nat, a: string, b: string)
    requires DistinctTenants(queues) && n <= |Drained(queues)|
    ensures Done(queues, n, b) >= Done(queues, n, a) - 1 || Done(queues, n, b) >= |WorkOf(queues, b)|
    decreases Total(queues)
  {
    if !AnyNotEmpty(queues) {
      NothingLeft(queues, b);
    } else if n <= |OnePass(queues)| {
      DoneInFirstPass(queues, n, a);
    } else {
      TailsDistinct(queues);
      LaterPrefixFits(queues, n);
      Fair(Tails(queues), n - |OnePass(queues)|, a, b);
      FairAfterPass(queues, n, a, b);
    }
  }

  lemma LaterPrefixFits(queues: Queues, n: nat)
    requires AnyNotEmpty(queues) && |OnePass(queues)| < n <= |Drained(queues)|
    ensures n - |OnePass(queues)| <= |Drained(Tails(queues))| && Total(Tails(queues)) < Total(queues)
  {
  }

  lemma FairAfterPass(queues: Queues, n: nat, a: string, b: string)
    requires DistinctTenants(queues) && AnyNotEmpty(queues) && |OnePass(queues)| < n <= |Drained(queues)|
    requires var m := n - |OnePass(queues)|;
      Done(Tails(queues), m, b) >= Done(Tails(queues), m, a) - 1 || Done(Tails(queues), m, b) >= |WorkOf(Tails(queues), b)|
    ensures Done(queues, n, b) >= Done(queues, n, a) - 1 || Done(queues, n, b) >= |WorkOf(queues, b)|
  {
    DoneLater(queues, n, a);
    DoneLater(queues, n, b);
  }

  lemma TailsDistinct(queues: Queues)
    requires DistinctTenants(queues)
    ensures DistinctTenants(Tails(queues))
  {
    TailsKeepTenants(queues);
  }

  // ---- whose turn it is

  function Tenants(queues: Queues): seq<string> {
    if queues == [] then [] else [queues[0].tenant] + Tenants(queues[1..])
  }

  /** Tenants take their turns in the order they first enqueued work. */
  lemma {:induction false} NewTenantsGoLast(queues: Queues, tenant: string, work: Work)
    ensures Tenants(Enqueued(queues, tenant, work)) ==
            if tenant in Tenants(queues) then Tenants(queues) else Tenants(queues) + [tenant]
  {
    if queues == [] {
      assert [Entry(tenant, [work])][1..] == [];
    } else if queues[0].tenant != tenant {
      NewTenantsGoLast(queues[1..], tenant, work);
    }
  }

  function TenantsThatRan(log: seq<Ran>): seq<string> {
    if log == [] then [] else [log[0].tenant] + TenantsThatRan(log[1..])
  }

  function Busy(queues: Queues): seq<string> {
    if queues == [] then []
    else (if WorkOf([queues[0]], queues[0].tenant) == [] then [] else [queues[0].tenant]) + Busy(queues[1..])
  }

  /** Each pass serves the tenants that still have work, once each and in that order. */
  lemma {:induction false} PassTakesTurns(queues: Queues)
    ensures TenantsThatRan(OnePass(queues)) == Busy(queues)
    decreases |queues|
  {
    if queues != [] {
      PassTakesTurns(queues[1..]);
      if queues[0].work == [] {
        assert [] + OnePass(queues[1..]) == OnePass(queues[1..]);
      } else {
        assert OnePass(queues)[1..] == OnePass(queues[1..]);
      }
    }
  }
}
