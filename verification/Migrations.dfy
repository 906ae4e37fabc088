/** The migration runner. SQL scripts are opaque: running one appends it to the history of the
    database, and whether it succeeds is up to the database. */
module Migrations {
  import opened JsText
  import opened Options

  datatype Migration = Migration(name: string, checksum: string)
  {
    /** The variant is decided by the directory. */
    predicate Repeatable() {
      StartsWith(name, "repeatable/")
    }
  }

  datatype Row = Row(checksum: string, repeatable: bool)
  type Ledger = map<string, Row>

  datatype Error = Drift(name: string) | SqlError(name: string)
  datatype FileStatus = FileStatus(name: string, applied: bool, drift: bool)

  predicate UniqueNames(files: seq<Migration>) {
    forall i, j :: 0 <= i < j < |files| ==> files[i].name != files[j].name
  }

  function RowOf(m: Migration): Row {
    Row(m.checksum, m.Repeatable())
  }

  // ---- plan and status

  predicate Planned(ledger: Ledger, m: Migration) {
    m.name !in ledger || (m.Repeatable() && ledger[m.name].checksum != m.checksum)
  }

  function Plan(ledger: Ledger, files: seq<Migration>): seq<Migration>
    decreases |files|
  {
    if files == [] then []
    else (if Planned(ledger, files[0]) then [files[0]] else []) + Plan(ledger, files[1..])
  }

  predicate Differs(ledger: Ledger, m: Migration) {
    m.name in ledger && ledger[m.name].checksum != m.checksum
  }

  function Status(ledger: Ledger, files: seq<Migration>): (r: seq<FileStatus>)
    ensures |r| == |files|
  {
    seq(|files|, i requires 0 <= i < |files| =>
      FileStatus(files[i].name, files[i].name in ledger, Differs(ledger, files[i])))
  }

  // ---- up

  /** What one transaction of up comes to. */
  datatype Outcome = Committed(ledger: Ledger, ran: seq<Migration>) | RolledBack(error: Error)

  function Apply(ledger: Ledger, files: seq<Migration>, works: Migration -> bool): Outcome
    decreases |files|
  {
    if files == [] then Committed(ledger, [])
    else
      var m := files[0];
      if Differs(ledger, m) && !m.Repeatable() then RolledBack(Drift(m.name))
      else if m.name in ledger && ledger[m.name].checksum == m.checksum then Apply(ledger, files[1..], works)
      else if !works(m) then RolledBack(SqlError(m.name))
      else Prepended(m, Apply(ledger[m.name := RowOf(m)], files[1..], works))
  }

  function Prepended(m: Migration, outcome: Outcome): Outcome {
    if outcome.Committed? then outcome.(ran := [m] + outcome.ran) else outcome
  }

  class MigrationRunner {
    /** The _migrations table, and the scripts whose effects are in the database. */
    var ledger: Ledger
    var history: seq<Migration>

    constructor ()
      ensures ledger == map[] && history == []
    {
      ledger, history := map[], [];
    }

    /** One transaction, serialised by the advisory lock. */
    method Up(files: seq<Migration>, works: Migration -> bool) returns (error: Option<Error>)
      modifies this
      ensures match Apply(old(ledger), files, works)
        case Committed(after, ran) => error == None && ledger == after && history == old(history) + ran
        case RolledBack(e) => error == Some(e) && ledger == old(ledger) && history == old(history)
    {
      var savedLedger, savedHistory := ledger, history;
      ghost var ran: seq<Migration> := [];
      for i := 0 to |files|
        invariant history == savedHistory + ran
        invariant Apply(old(ledger), files, works) == PrependAll(ran, Apply(ledger, files[i..], works))
      {
        var m := files[i];
        assert files[i..][0] == m && files[i..][1..] == files[i + 1..];
        var prev := if m.name in ledger then Some(ledger[m.name]) else None;
        if prev.Some? && prev.value.checksum != m.checksum && !m.Repeatable() {
          ledger, history := savedLedger, savedHistory;
          return Some(Drift(m.name));
        }
        if prev.Some? && prev.value.checksum == m.checksum {
          continue;
        }
        if !works(m) {
          ledger, history := savedLedger, savedHistory;
          return Some(SqlError(m.name));
        }
        PrependMore(ran, m, Apply(ledger[m.name := RowOf(m)], files[i + 1..], works));
        history := history + [m];
        ledger := ledger[m.name := RowOf(m)];
        ran := ran + [m];
      }
      return None;
    }

    method GetPlan(files: seq<Migration>) returns (plan: seq<Migration>)
      ensures plan == Plan(ledger, files)
    {
      plan := [];
      for i := 0 to |files|
        invariant plan + Plan(ledger, files[i..]) == Plan(ledger, files)
      {
        assert files[i..][1..] == files[i + 1..];
        if files[i].name !in ledger || (files[i].Repeatable() && ledger[files[i].name].checksum != files[i].checksum) {
          assert plan + ([files[i]] + Plan(ledger, files[i + 1..])) == plan + [files[i]] + Plan(ledger, files[i + 1..]);
          plan := plan + [files[i]];
        }
      }
    }
  }

  function PrependAll(ran: seq<Migration>, outcome: Outcome): Outcome {
    if outcome.Committed? then outcome.(ran := ran + outcome.ran) else outcome
  }

  lemma PrependMore(ran: seq<Migration>, m: Migration, outcome: Outcome)
    ensures PrependAll(ran, Prepended(m, outcome)) == PrependAll(ran + [m], outcome)
  {
    if outcome.Committed? {
      assert ran + ([m] + outcome.ran) == (ran + [m]) + outcome.ran;
    }
  }

  // ---- one run

  predicate NoDrift(ledger: Ledger, files: seq<Migration>) {
    forall i :: 0 <= i < |files| ==> Differs(ledger, files[i]) ==> files[i].Repeatable()
  }

  predicate AllWork(works: Migration -> bool, scripts: seq<Migration>) {
    forall i :: 0 <= i < |scripts| ==> works(scripts[i])
  }

  lemma PlanIgnoresOthers(ledger: Ledger, m: Migration, files: seq<Migration>)
    requires forall i :: 0 <= i < |files| ==> files[i].name != m.name
    ensures Plan(ledger[m.name := RowOf(m)], files) == Plan(ledger, files)
    ensures NoDrift(ledger[m.name := RowOf(m)], files) == NoDrift(ledger, files)
    decreases |files|
  {
    assert forall i :: 0 <= i < |files| ==> Differs(ledger[m.name := RowOf(m)], files[i]) == Differs(ledger, files[i]);
    if files != [] {
      PlanIgnoresOthers(ledger, m, files[1..]);
    }
  }

  /** up commits exactly when no versioned file has drifted and every planned script works, and
      then it has run exactly the plan, in order. */
  lemma {:induction false} UpRunsThePlan(ledger: Ledger, files: seq<Migration>, works: Migration -> bool)
    requires UniqueNames(files)
    ensures var outcome := Apply(ledger, files, works);
      && (outcome.Committed? <==> NoDrift(ledger, files) && AllWork(works, Plan(ledger, files)))
      && (outcome.Committed? ==> outcome.ran == Plan(ledger, files))
    decreases |files|
  {
    if files != [] {
      var m, rest := files[0], files[1..];
      assert NoDrift(ledger, files) <==> (Differs(ledger, m) ==> m.Repeatable()) && NoDrift(ledger, rest);
      assert forall s :: AllWork(works, [m] + s) <==> works(m) && AllWork(works, s) by {
        forall s ensures AllWork(works, [m] + s) <==> works(m) && AllWork(works, s) {
          AllWorkCons(works, m, s);
        }
      }
      PlanIgnoresOthers(ledger, m, rest);
      UpRunsThePlan(ledger, rest, works);
      UpRunsThePlan(ledger[m.name := RowOf(m)], rest, works);
      assert [] + Plan(ledger, rest) == Plan(ledger, rest);
    }
  }

  lemma AllWorkCons(works: Migration -> bool, m: Migration, scripts: seq<Migration>)
    ensures AllWork(works, [m] + scripts) <==> works(m) && AllWork(works, scripts)
  {
    assert forall i :: 0 <= i < |scripts| ==> ([m] + scripts)[i + 1] == scripts[i];
    assert ([m] + scripts)[0] == m;
  }

  /** After a committed run every file is in the ledger with its checksum, other rows are as before. */
  lemma {:induction false} UpRecordsEveryFile(ledger: Ledger, files: seq<Migration>, works: Migration -> bool)
    requires UniqueNames(files) && Apply(ledger, files, works).Committed?
    ensures var after := Apply(ledger, files, works).ledger;
      && (forall i :: 0 <= i < |files| ==> files[i].name in after && after[files[i].name].checksum == files[i].checksum)
      && (forall name :: (forall i :: 0 <= i < |files| ==> files[i].name != name) ==>
            (name in after <==> name in ledger) && (name in ledger ==> after[name] == ledger[name]))
    decreases |files|
  {
    if files != [] {
      var m, rest := files[0], files[1..];
      var next := if m.name in ledger && ledger[m.name].checksum == m.checksum then ledger else ledger[m.name := RowOf(m)];
      UpRecordsEveryFile(next, rest, works);
      var after := Apply(next, rest, works).ledger;
      assert after == Apply(ledger, files, works).ledger;
      assert m.name in after && after[m.name].checksum == m.checksum;
    }
  }

  /** After a committed run there is nothing left to do and nothing has drifted, and running up
      again changes nothing. */
  lemma UpSettles(ledger: Ledger, files: seq<Migration>, works: Migration -> bool, again: Migration -> bool)
    requires UniqueNames(files) && Apply(ledger, files, works).Committed?
    ensures var after := Apply(ledger, files, works).ledger;
      && Plan(after, files) == []
      && (forall i :: 0 <= i < |files| ==> Status(after, files)[i] == FileStatus(files[i].name, true, false))
      && Apply(after, files, again) == Committed(after, [])
  {
    UpRecordsEveryFile(ledger, files, works);
    NothingToDo(Apply(ledger, files, works).ledger, files, again);
  }

  lemma {:induction false} NothingToDo(ledger: Ledger, files: seq<Migration>, works: Migration -> bool)
    requires forall i :: 0 <= i < |files| ==> files[i].name in ledger && ledger[files[i].name].checksum == files[i].checksum
    ensures Plan(ledger, files) == [] && Apply(ledger, files, works) == Committed(ledger, [])
    decreases |files|
  {
    if files != [] {
      assert files[0].name in ledger;
      NothingToDo(ledger, files[1..], works);
    }
  }

  /** Status reports this file, which is no repeatable one, as drifted. */
  predicate VersionedDrift(ledger: Ledger, files: seq<Migration>, i: nat)
    requires i < |files|
  {
    Status(ledger, files)[i].drift && !("repeatable/" <= files[i].name)
  }

  predicate FirstDrift(ledger: Ledger, files: seq<Migration>, d: nat) {
    d < |files| && VersionedDrift(ledger, files, d) && forall i :: 0 <= i < d ==> !VersionedDrift(ledger, files, i)
  }

  lemma DriftIsStatus(ledger: Ledger, files: seq<Migration>, i: nat)
    requires i < |files|
    ensures VersionedDrift(ledger, files, i) <==> Differs(ledger, files[i]) && !files[i].Repeatable()
  {
  }

  lemma NoDriftIffNoneFirst(ledger: Ledger, files: seq<Migration>)
    ensures NoDrift(ledger, files) <==> forall i :: 0 <= i < |files| ==> !VersionedDrift(ledger, files, i)
  {
    forall i | 0 <= i < |files| ensures VersionedDrift(ledger, files, i) <==> Differs(ledger, files[i]) && !files[i].Repeatable() {
      DriftIsStatus(ledger, files, i);
    }
  }

  /** Applying a list is applying its beginning and then the rest. */
  lemma {:induction false} ApplyInTwo(ledger: Ledger, a: seq<Migration>, b: seq<Migration>, works: Migration -> bool)
    ensures var first := Apply(ledger, a, works);
      Apply(ledger, a + b, works) == if first.RolledBack? then first else PrependAll(first.ran, Apply(first.ledger, b, works))
    decreases |a|
  {
    if a == [] {
      assert a + b == b;
      var rest := Apply(ledger, b, works);
      if rest.Committed? {
        assert [] + rest.ran == rest.ran;
      }
    } else {
      assert (a + b)[1..] == a[1..] + b;
      var m := a[0];
      ApplyInTwo(ledger, a[1..], b, works);
      ApplyInTwo(ledger[m.name := RowOf(m)], a[1..], b, works);
      var next := Apply(ledger[m.name := RowOf(m)], a[1..], works);
      if next.Committed? {
        var rest := Apply(next.ledger, b, works);
        if rest.Committed? {
          assert [m] + (next.ran + rest.ran) == ([m] + next.ran) + rest.ran;
        }
      }
    }
  }

  lemma DriftStops(ledger: Ledger, files: seq<Migration>, works: Migration -> bool, d: nat)
    requires UniqueNames(files) && d < |files| && Apply(ledger, files[..d], works).Committed?
    requires VersionedDrift(ledger, files, d)
    ensures Apply(ledger, files, works) == RolledBack(Drift(files[d].name))
  {
    var first := Apply(ledger, files[..d], works);
    UpRecordsEveryFile(ledger, files[..d], works);
    DriftIsStatus(ledger, files, d);
    assert Differs(first.ledger, files[d]);
    assert files == files[..d] + files[d..] && files[d..][0] == files[d];
    ApplyInTwo(ledger, files[..d], files[d..], works);
  }

  lemma {:induction false} DriftErrorMeansDrift(ledger: Ledger, files: seq<Migration>, works: Migration -> bool)
    requires UniqueNames(files) && NoDrift(ledger, files) && Apply(ledger, files, works).RolledBack?
    ensures Apply(ledger, files, works).error.SqlError?
    decreases |files|
  {
    var m, rest := files[0], files[1..];
    PlanIgnoresOthers(ledger, m, rest);
    if Apply(ledger, rest, works).RolledBack? {
      DriftErrorMeansDrift(ledger, rest, works);
    }
    if Apply(ledger[m.name := RowOf(m)], rest, works).RolledBack? {
      DriftErrorMeansDrift(ledger[m.name := RowOf(m)], rest, works);
    }
  }

  /** What becomes of up when its status shows a drift: it fails, naming the first drift if every
      script planned before that works, and naming a failing script otherwise. */
  lemma UpReportsTheFirstDrift(ledger: Ledger, files: seq<Migration>, works: Migration -> bool, d: nat)
    requires UniqueNames(files) && FirstDrift(ledger, files, d)
    ensures var outcome := Apply(ledger, files, works);
      && outcome.RolledBack?
      && (AllWork(works, Plan(ledger, files[..d])) ==> outcome.error == Drift(files[d].name))
      && (!AllWork(works, Plan(ledger, files[..d])) ==> outcome.error.SqlError?)
  {
    var before := files[..d];
    NoDriftIffNoneFirst(ledger, files);
    UpRunsThePlan(ledger, files, works);
    forall i | 0 <= i < d ensures !VersionedDrift(ledger, before, i) {
      assert !VersionedDrift(ledger, files, i);
    }
    NoDriftIffNoneFirst(ledger, before);
    UpRunsThePlan(ledger, before, works);
    if AllWork(works, Plan(ledger, before)) {
      DriftStops(ledger, files, works, d);
    } else {
      assert files == before + files[d..];
      ApplyInTwo(ledger, before, files[d..], works);
      DriftErrorMeansDrift(ledger, before, works);
    }
  }

  lemma {:induction false} FindFirstDrift(ledger: Ledger, files: seq<Migration>, n: nat) returns (d: nat)
    requires n < |files| && VersionedDrift(ledger, files, n)
    ensures FirstDrift(ledger, files, d)
    decreases n
  {
    if i: nat :| i < n && VersionedDrift(ledger, files, i) {
      d := FindFirstDrift(ledger, files, i);
    } else {
      d := n;
    }
  }

  /** So up fails with a drift exactly when status shows one on a versioned file and every script
      planned before the first of those works. */
  lemma UpDriftsIff(ledger: Ledger, files: seq<Migration>, works: Migration -> bool)
    requires UniqueNames(files)
    ensures var outcome := Apply(ledger, files, works);
      outcome.RolledBack? && outcome.error.Drift? <==>
      exists d: nat :: FirstDrift(ledger, files, d) && AllWork(works, Plan(ledger, files[..d]))
  {
    forall d: nat | FirstDrift(ledger, files, d)
      ensures var outcome := Apply(ledger, files, works);
        outcome.RolledBack? && (outcome.error.Drift? <==> AllWork(works, Plan(ledger, files[..d])))
    {
      UpReportsTheFirstDrift(ledger, files, works, d);
    }
    if n: nat :| n < |files| && VersionedDrift(ledger, files, n) {
      var d := FindFirstDrift(ledger, files, n);
    } else {
      NoDriftIffNoneFirst(ledger, files);
      if Apply(ledger, files, works).RolledBack? {
        DriftErrorMeansDrift(ledger, files, works);
      }
    }
  }

  // ---- any number of runs

  datatype Attempt = Attempt(files: seq<Migration>, works: Migration -> bool)
  datatype Db = Db(ledger: Ledger, history: seq<Migration>)

  function Step(db: Db, a: Attempt): Db {
    match Apply(db.ledger, a.files, a.works)
    case Committed(ledger, ran) => Db(ledger, db.history + ran)
    case RolledBack(_) => db
  }

  function Run(db: Db, attempts: seq<Attempt>): Db
    decreases |attempts|
  {
    if attempts == [] then db else Run(Step(db, attempts[0]), attempts[1..])
  }

  /** The ledger a history leaves: one row per script, with the checksum of its last execution. */
  function LedgerOf(history: seq<Migration>): Ledger {
    if history == [] then map[]
    else
      var last := history[|history| - 1];
      LedgerOf(history[..|history| - 1])[last.name := RowOf(last)]
  }

  /** Executed again only when repeatable, and only with another checksum than the last time. */
  ghost predicate Legal(history: seq<Migration>) {
    forall n :: 0 <= n < |history| ==> LegalNext(history[..n], history[n])
  }

  predicate LegalNext(before: seq<Migration>, m: Migration) {
    m.name in LedgerOf(before) ==> m.Repeatable() && LedgerOf(before)[m.name].checksum != m.checksum
  }

  ghost predicate Inv(db: Db) {
    db.ledger == LedgerOf(db.history) && Legal(db.history)
  }

  lemma LegalAppend(history: seq<Migration>, m: Migration)
    requires Legal(history) && LegalNext(history, m)
    ensures Legal(history + [m]) && LedgerOf(history + [m]) == LedgerOf(history)[m.name := RowOf(m)]
  {
    var longer := history + [m];
    assert longer[..|history|] == history;
    forall n | 0 <= n < |longer| ensures LegalNext(longer[..n], longer[n]) {
      if n < |history| {
        assert longer[..n] == history[..n] && longer[n] == history[n];
      }
    }
  }

  lemma Regroup(a: seq<Migration>, m: Migration, b: seq<Migration>)
    ensures (a + [m]) + b == a + ([m] + b)
  {
  }

  lemma {:induction false} ApplyKeepsInv(history: seq<Migration>, files: seq<Migration>, works: Migration -> bool)
    requires Legal(history) && Apply(LedgerOf(history), files, works).Committed?
    ensures var outcome := Apply(LedgerOf(history), files, works);
      outcome.ledger == LedgerOf(history + outcome.ran) && Legal(history + outcome.ran)
    decreases |files|
  {
    if files == [] {
      assert history + [] == history;
    } else {
      var m, ledger := files[0], LedgerOf(history);
      if m.name in ledger && ledger[m.name].checksum == m.checksum {
        ApplyKeepsInv(history, files[1..], works);
      } else {
        assert LegalNext(history, m);
        LegalAppend(history, m);
        ApplyKeepsInv(history + [m], files[1..], works);
        Regroup(history, m, Apply(ledger[m.name := RowOf(m)], files[1..], works).ran);
      }
    }
  }

  lemma {:induction false} RunKeepsInv(db: Db, attempts: seq<Attempt>)
    requires Inv(db)
    ensures Inv(Run(db, attempts))
    decreases |attempts|
  {
    if attempts != [] {
      var a := attempts[0];
      if Apply(db.ledger, a.files, a.works).Committed? {
        ApplyKeepsInv(db.history, a.files, a.works);
      }
      RunKeepsInv(Step(db, a), attempts[1..]);
    }
  }

  lemma ExecutedIsRecorded(history: seq<Migration>, i: nat)
    requires i < |history|
    ensures history[i].name in LedgerOf(history)
  {
    if i < |history| - 1 {
      ExecutedIsRecorded(history[..|history| - 1], i);
    }
  }

  /** Whatever runs of up there are, over whatever sets of files, with whatever failures: a
      versioned script takes effect at most once, and the ledger describes exactly the last
      execution of every script. */
  lemma VersionedRunsOnce(attempts: seq<Attempt>, i: nat, j: nat)
    requires var history := Run(Db(map[], []), attempts).history;
      i < j < |history| && history[i].name == history[j].name
    ensures var db := Run(Db(map[], []), attempts);
      "repeatable/" <= db.history[i].name && db.ledger == LedgerOf(db.history)
  {
    RunKeepsInv(Db(map[], []), attempts);
    var history := Run(Db(map[], []), attempts).history;
    assert LegalNext(history[..j], history[j]);
    ExecutedIsRecorded(history[..j], i);
  }

  /** The last execution of a script in a history. */
  predicate LastRun(history: seq<Migration>, name: string, k: nat) {
    k < |history| && history[k].name == name && forall j :: k < j < |history| ==> history[j].name != name
  }

  lemma {:induction false} LedgerRowIsLastRun(history: seq<Migration>, name: string, k: nat)
    requires LastRun(history, name, k)
    ensures name in LedgerOf(history)
    ensures LedgerOf(history)[name] == Row(history[k].checksum, "repeatable/" <= name)
    decreases |history|
  {
    var n := |history| - 1;
    if k < n {
      assert forall j :: 0 <= j < n ==> history[..n][j] == history[j];
      LedgerRowIsLastRun(history[..n], name, k);
    }
  }

  lemma {:induction false} LedgerRowHasLastRun(history: seq<Migration>, name: string) returns (k: nat)
    requires name in LedgerOf(history)
    ensures LastRun(history, name, k)
    decreases |history|
  {
    var n := |history| - 1;
    if history[n].name == name {
      k := n;
    } else {
      k := LedgerRowHasLastRun(history[..n], name);
      assert forall j :: 0 <= j < n ==> history[..n][j] == history[j];
    }
  }

  /** After any runs, status calls a file applied exactly when a script of its name has taken effect,
      and drifted exactly when the last one that did had another checksum. */
  lemma StatusTellsTheHistory(attempts: seq<Attempt>, files: seq<Migration>, i: nat)
    requires i < |files|
    ensures var db := Run(Db(map[], []), attempts);
      && Status(db.ledger, files)[i].name == files[i].name
      && (Status(db.ledger, files)[i].applied <==> exists k: nat :: LastRun(db.history, files[i].name, k))
      && (Status(db.ledger, files)[i].drift <==>
            exists k: nat :: LastRun(db.history, files[i].name, k) && db.history[k].checksum != files[i].checksum)
  {
    RunKeepsInv(Db(map[], []), attempts);
    var db, name := Run(Db(map[], []), attempts), files[i].name;
    if name in db.ledger {
      var k := LedgerRowHasLastRun(db.history, name);
      LedgerRowIsLastRun(db.history, name, k);
    }
    forall k: nat | LastRun(db.history, name, k) ensures name in db.ledger && db.ledger[name].checksum == db.history[k].checksum {
      LedgerRowIsLastRun(db.history, name, k);
    }
  }
}
