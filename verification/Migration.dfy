/** The tracking-aware migration runner (database/src/helpers/migration_runner.py): apply, skip or
    backfill each schema file inside one transaction per run. */
module Migration {
  import opened Basics

  /** A `*.sql` file: its name, the hash of its text, and the tables its text declares. */
  datatype File = File(name: string, sha: string, declared: seq<string>)

  const TRACKING_FILE: string := "000_migration_tracking.sql"
  const TRACKING_TABLE: string := "schema_migrations"

  datatype Record = Record(sha: string, bootstrapped: bool)

  /** `tables` leaves out the tracking table, which `tracking` stands for; `executed` lists the files
      (other than the tracking file) whose SQL has been committed, oldest first. */
  datatype Db = Db(tables: set<string>, tracking: bool, records: map<string, Record>, executed: seq<string>)

  /** What the SQL in a file does to the other tables, or that it fails. */
  datatype Engine = Engine(exec: (File, set<string>) -> Option<set<string>>, trackingSqlWorks: bool)

  datatype Outcome = Applied | Skipped | Backfilled
  datatype Step = Step(name: string, outcome: Outcome, sha: string, declared: seq<string>)
  datatype Error = TrackingFileMissing | HashMismatch(name: string) | SqlFailed(name: string)
  datatype Report = Done(steps: seq<Step>) | Raised(error: Error)

  predicate HasName(files: seq<File>, name: string) {
    exists i :: 0 <= i < |files| && files[i].name == name
  }

  /** A directory holds each name once. */
  predicate Listing(files: seq<File>) {
    forall i, j :: 0 <= i < j < |files| ==> files[i].name != files[j].name
  }

  function ExistingTables(db: Db): set<string> {
    db.tables + if db.tracking then {TRACKING_TABLE} else {}
  }

  /** Records live in the tracking table. */
  predicate Consistent(db: Db) {
    db.tracking || db.records == map[]
  }

  // ---------------------------------------------------------------- one run as a function

  datatype Pass =
    | Going(db: Db, existing: set<string>, steps: seq<Step>)
    | Stopped(error: Error)

  function Plan(f: File, existing: set<string>, applied: map<string, Record>): Outcome {
    if f.name in applied then Skipped
    else if f.declared != [] && forall t :: t in f.declared ==> t in existing then Backfilled
    else Applied
  }

  function ProcessFile(p: Pass, f: File, applied: map<string, Record>, engine: Engine, dryRun: bool): Pass {
    if p.Stopped? || f.name == TRACKING_FILE then p
    else if f.name in applied && applied[f.name].sha != f.sha then Stopped(HashMismatch(f.name))
    else
      var outcome := Plan(f, p.existing, applied);
      var steps := p.steps + [Step(f.name, outcome, f.sha, f.declared)];
      match outcome
      case Skipped => Going(p.db, p.existing, steps)
      case Backfilled =>
        Going(if dryRun then p.db else p.db.(records := p.db.records[f.name := Record(f.sha, true)]),
              p.existing, steps)
      case Applied =>
        var existing := p.existing + set t | t in f.declared;
        if dryRun then Going(p.db, existing, steps)
        else
          match engine.exec(f, p.db.tables)
          case None => Stopped(SqlFailed(f.name))
          case Some(tables) =>
            Going(p.db.(tables := tables,
                        records := p.db.records[f.name := Record(f.sha, false)],
                        executed := p.db.executed + [f.name]),
                  existing, steps)
  }

  function ProcessAll(p: Pass, files: seq<File>, applied: map<string, Record>, engine: Engine, dryRun: bool): Pass
    decreases |files|
  {
    if files == [] then p
    else ProcessFile(ProcessAll(p, files[..|files| - 1], applied, engine, dryRun),
                     files[|files| - 1], applied, engine, dryRun)
  }

  /** The state in which the file loop begins. */
  function Begin(db: Db, dryRun: bool): Pass {
    Going(if dryRun then db else db.(tracking := true), ExistingTables(db), [])
  }

  /** `_load_applied`: nothing when the tracking table is absent. */
  function LoadApplied(db: Db): map<string, Record> {
    if db.tracking then db.records else map[]
  }

  function RunPass(db: Db, files: seq<File>, engine: Engine, dryRun: bool): Pass {
    if !dryRun && !engine.trackingSqlWorks then Stopped(SqlFailed(TRACKING_FILE))
    else
      var begun := Begin(db, dryRun);
      ProcessAll(begun, files, LoadApplied(begun.db), engine, dryRun)
  }

  function Run(db: Db, files: seq<File>, engine: Engine, dryRun: bool): (Report, Db) {
    if files == [] then (Done([]), db)
    else if !HasName(files, TRACKING_FILE) then (Raised(TrackingFileMissing), db)
    else
      match RunPass(db, files, engine, dryRun)
      case Stopped(error) => (Raised(error), db)
      case Going(after, _, steps) => (Done(steps), after)
  }

  // ---------------------------------------------------------------- one run as executed

  class Database {
    var tables: set<string>
    var tracking: bool
    var records: map<string, Record>
    ghost var executed: seq<string>

    ghost function Contents(): Db
      reads this
    {
      Db(tables, tracking, records, executed)
    }

    constructor (tables: set<string>)
      ensures Contents() == Db(tables, false, map[], [])
    {
      this.tables := tables;
      tracking, records, executed := false, map[], [];
    }

    method Insert(name: string, sha: string, bootstrapped: bool)
      modifies this`records
      ensures records == old(records)[name := Record(sha, bootstrapped)]
    {
      records := records[name := Record(sha, bootstrapped)];
    }

    /** `_process_file`, plus the caller's update of the table set. */
    method ProcessOne(f: File, applied: map<string, Record>, existing: set<string>, engine: Engine, dryRun: bool)
      returns (r: Report, existing': set<string>)
      requires f.name != TRACKING_FILE
      modifies this
      ensures forall steps :: ProcessFile(Going(old(Contents()), existing, steps), f, applied, engine, dryRun) ==
                (if r.Raised? then Stopped(r.error) else Going(Contents(), existing', steps + r.steps))
    {
      existing' := existing;
      if f.name in applied {
        if applied[f.name].sha != f.sha {
          return Raised(HashMismatch(f.name)), existing;
        }
        return Done([Step(f.name, Skipped, f.sha, f.declared)]), existing;
      }
      if f.declared != [] && forall t :: t in f.declared ==> t in existing {
        if !dryRun {
          Insert(f.name, f.sha, true);
        }
        return Done([Step(f.name, Backfilled, f.sha, f.declared)]), existing;
      }
      if !dryRun {
        var effect := engine.exec(f, tables);
        if effect.None? {
          return Raised(SqlFailed(f.name)), existing;
        }
        tables := effect.value;
        executed := executed + [f.name];
        Insert(f.name, f.sha, false);
      }
      existing' := existing + set t | t in f.declared;
      r := Done([Step(f.name, Applied, f.sha, f.declared)]);
    }

    method RunSchemas(files: seq<File>, engine: Engine, dryRun: bool) returns (r: Report)
      modifies this
      ensures (r, Contents()) == Run(old(Contents()), files, engine, dryRun)
    {
      if files == [] {
        return Done([]);
      }
      if !HasName(files, TRACKING_FILE) {
        return Raised(TrackingFileMissing);
      }
      // begin: what a rollback restores
      var tables0, tracking0, records0 := tables, tracking, records;
      ghost var executed0 := executed;
      var existing := tables + if tracking then {TRACKING_TABLE} else {};
      if !dryRun {
        if !engine.trackingSqlWorks {
          return Raised(SqlFailed(TRACKING_FILE));
        }
        tracking := true;
      }
      var applied := if tracking then records else map[];
      ghost var begun := Begin(old(Contents()), dryRun);
      var steps: seq<Step> := [];
      for k := 0 to |files|
        invariant Going(Contents(), existing, steps) == ProcessAll(begun, files[..k], applied, engine, dryRun)
      {
        assert files[..k + 1][..k] == files[..k];
        if files[k].name == TRACKING_FILE {
          continue;
        }
        ghost var before := Contents();
        ghost var soFar := existing;
        var made, existing' := ProcessOne(files[k], applied, existing, engine, dryRun);
        assert ProcessAll(begun, files[..k + 1], applied, engine, dryRun)
            == ProcessFile(Going(before, soFar, steps), files[k], applied, engine, dryRun);
        if made.Raised? {
          ProcessStaysStopped(begun, files, k + 1, applied, engine, dryRun);
          tables, tracking, records := tables0, tracking0, records0;
          executed := executed0;
          return made;
        }
        steps := steps + made.steps;
        existing := existing';
      }
      assert files[..|files|] == files;
      r := Done(steps);
    }
  }

  lemma {:induction false} ProcessStaysStopped(
    p: Pass, files: seq<File>, k: nat, applied: map<string, Record>, engine: Engine, dryRun: bool)
    requires k <= |files| && ProcessAll(p, files[..k], applied, engine, dryRun).Stopped?
    ensures ProcessAll(p, files, applied, engine, dryRun) == ProcessAll(p, files[..k], applied, engine, dryRun)
    decreases |files|
  {
    if k == |files| {
      assert files[..k] == files;
    } else {
      var shorter := files[..|files| - 1];
      assert shorter[..k] == files[..k];
      ProcessStaysStopped(p, shorter, k, applied, engine, dryRun);
    }
  }

  // ---------------------------------------------------------------- over many runs

  /** Committed files are distinct, and are the records that are not marked bootstrapped. */
  ghost predicate Ledger(db: Db) {
    && Consistent(db)
    && Distinct(db.executed)
    && forall n :: n in db.executed <==> n in db.records && !db.records[n].bootstrapped
  }

  /** `later` forgets nothing: recorded hashes and flags stay, and executions are only added. */
  ghost predicate Extends(earlier: Db, later: Db) {
    && earlier.executed <= later.executed
    && forall n :: n in earlier.records ==> n in later.records && later.records[n] == earlier.records[n]
  }

  /** What a pass that began at `db` has made of the files it went through. */
  ghost predicate Kept(db: Db, p: Pass, files: seq<File>) {
    && p.Going? && Ledger(p.db) && p.db.tracking && Extends(db, p.db)
    && (forall n :: n in p.db.records ==> n in db.records || HasName(files, n))
    && (forall i :: 0 <= i < |files| && files[i].name != TRACKING_FILE ==> Recorded(p.db.records, files[i]))
  }

  predicate Recorded(records: map<string, Record>, f: File) {
    f.name in records && records[f.name].sha == f.sha
  }

  lemma StepKeepsLedger(db: Db, p: Pass, f: File, engine: Engine)
    requires p.Going? && Ledger(p.db) && p.db.tracking && Extends(db, p.db)
    requires f.name != TRACKING_FILE
    requires f.name in p.db.records ==> f.name in db.records
    ensures var q := ProcessFile(p, f, db.records, engine, false);
            q.Going? ==>
              && Ledger(q.db) && q.db.tracking && Extends(db, q.db) && Extends(p.db, q.db)
              && Recorded(q.db.records, f)
              && (forall n :: n in q.db.records ==> n in p.db.records || n == f.name)
  {
    var q := ProcessFile(p, f, db.records, engine, false);
    if q.Going? && Plan(f, p.existing, db.records) == Applied {
      DistinctAppend(p.db.executed, f.name);
    }
  }

  lemma LastName(files: seq<File>, n: string)
    requires files != [] && Listing(files)
    ensures HasName(files, n) <==> HasName(files[..|files| - 1], n) || n == files[|files| - 1].name
    ensures !HasName(files[..|files| - 1], files[|files| - 1].name)
  {
    var shorter := files[..|files| - 1];
    assert forall i :: 0 <= i < |shorter| ==> shorter[i] == files[i];
  }

  lemma KeptStep(db: Db, p: Pass, files: seq<File>, engine: Engine)
    requires files != [] && Listing(files) && Kept(db, p, files[..|files| - 1])
    ensures var q := ProcessFile(p, files[|files| - 1], db.records, engine, false);
            q.Going? ==> Kept(db, q, files)
  {
    var f, shorter := files[|files| - 1], files[..|files| - 1];
    forall n ensures HasName(files, n) <==> HasName(shorter, n) || n == f.name {
      LastName(files, n);
    }
    LastName(files, f.name);
    assert forall i :: 0 <= i < |shorter| ==> files[i] == shorter[i];
    if f.name != TRACKING_FILE {
      StepKeepsLedger(db, p, f, engine);
    }
  }

  lemma {:induction false} ProcessKeepsLedger(db: Db, existing: set<string>, files: seq<File>, engine: Engine)
    requires Ledger(db) && db.tracking && Listing(files)
    ensures var p := ProcessAll(Going(db, existing, []), files, db.records, engine, false);
            p.Going? ==> Kept(db, p, files)
    decreases |files|
  {
    if files != [] {
      ProcessKeepsLedger(db, existing, files[..|files| - 1], engine);
      var p := ProcessAll(Going(db, existing, []), files[..|files| - 1], db.records, engine, false);
      if p.Going? { KeptStep(db, p, files, engine); }
    }
  }

  lemma RunKeepsLedger(db: Db, files: seq<File>, engine: Engine, dryRun: bool)
    requires Ledger(db) && Listing(files)
    ensures Ledger(Run(db, files, engine, dryRun).1) && Extends(db, Run(db, files, engine, dryRun).1)
    ensures Run(db, files, engine, dryRun).0.Raised? || dryRun ==> Run(db, files, engine, dryRun).1 == db
  {
    if dryRun {
      DryRunChangesNothing(Begin(db, true), files, LoadApplied(db), engine);
    } else {
      ProcessKeepsLedger(db.(tracking := true), ExistingTables(db), files, engine);
    }
  }

  lemma {:induction false} DryRunChangesNothing(p: Pass, files: seq<File>, applied: map<string, Record>, engine: Engine)
    requires p.Going?
    ensures var q := ProcessAll(p, files, applied, engine, true); q.Going? ==> q.db == p.db
    decreases |files|
  {
    if files != [] { DryRunChangesNothing(p, files[..|files| - 1], applied, engine); }
  }

  datatype Call = Call(files: seq<File>, engine: Engine, dryRun: bool)

  function RunAll(db: Db, calls: seq<Call>): Db
    decreases |calls|
  {
    if calls == [] then db
    else
      var c := calls[|calls| - 1];
      Run(RunAll(db, calls[..|calls| - 1]), c.files, c.engine, c.dryRun).1
  }

  /** Over any sequence of runs, whatever directories and SQL results they see: each file's SQL is
      committed at most once, and what is recorded is never changed or dropped. */
  lemma {:induction false} HistoryIsSafe(db: Db, calls: seq<Call>)
    requires Ledger(db) && forall k :: 0 <= k < |calls| ==> Listing(calls[k].files)
    ensures Ledger(RunAll(db, calls)) && Extends(db, RunAll(db, calls))
    decreases |calls|
  {
    if calls != [] {
      HistoryIsSafe(db, calls[..|calls| - 1]);
      var c := calls[|calls| - 1];
      RunKeepsLedger(RunAll(db, calls[..|calls| - 1]), c.files, c.engine, c.dryRun);
    }
  }

  // ---------------------------------------------------------------- dry runs

  /** A dry run and a real run stay level until the real run's SQL fails. */
  ghost predicate Level(wet: Pass, dry: Pass) {
    || (wet.Stopped? && wet.error.SqlFailed?)
    || (wet.Stopped? && wet == dry)
    || (wet.Going? && dry.Going? && wet.existing == dry.existing && wet.steps == dry.steps)
  }

  lemma {:induction false} PassesStayLevel(
    wet: Pass, dry: Pass, files: seq<File>, applied: map<string, Record>, engine: Engine, other: Engine)
    requires Level(wet, dry)
    ensures Level(ProcessAll(wet, files, applied, engine, false), ProcessAll(dry, files, applied, other, true))
    decreases |files|
  {
    if files != [] { PassesStayLevel(wet, dry, files[..|files| - 1], applied, engine, other); }
  }

  /** The dry run reports what a real run reports, unless the real run's SQL fails; it needs no
      knowledge of what the SQL does. */
  lemma DryRunPredicts(db: Db, files: seq<File>, engine: Engine, other: Engine)
    requires Consistent(db)
    ensures var wet, dry := Run(db, files, engine, false).0, Run(db, files, other, true).0;
            wet == dry || (wet.Raised? && wet.error.SqlFailed?)
  {
    PassesStayLevel(Begin(db, false), Begin(db, true), files, db.records, engine, other);
  }

  // ---------------------------------------------------------------- repeated runs

  function SkipSteps(files: seq<File>): seq<Step>
    decreases |files|
  {
    if files == [] then []
    else
      var f := files[|files| - 1];
      SkipSteps(files[..|files| - 1]) +
      (if f.name == TRACKING_FILE then [] else [Step(f.name, Skipped, f.sha, f.declared)])
  }

  lemma {:induction false} RecordedFilesAreSkipped(
    p: Pass, files: seq<File>, applied: map<string, Record>, engine: Engine, dryRun: bool)
    requires p.Going?
    requires forall i :: 0 <= i < |files| && files[i].name != TRACKING_FILE ==> Recorded(applied, files[i])
    ensures ProcessAll(p, files, applied, engine, dryRun) == p.(steps := p.steps + SkipSteps(files))
    decreases |files|
  {
    if files != [] {
      RecordedFilesAreSkipped(p, files[..|files| - 1], applied, engine, dryRun);
    }
  }

  /** Repeating a successful run, over the same files, skips every file and changes nothing. */
  lemma RepeatSkipsEverything(db: Db, files: seq<File>, engine: Engine, again: Engine, dryRun: bool)
    requires Ledger(db) && Listing(files) && files != []
    requires Run(db, files, engine, false).0.Done?
    requires again.trackingSqlWorks
    ensures var after := Run(db, files, engine, false).1;
            Run(after, files, again, dryRun) == (Done(SkipSteps(files)), after)
  {
    ProcessKeepsLedger(db.(tracking := true), ExistingTables(db), files, engine);
    var after := Run(db, files, engine, false).1;
    RecordedFilesAreSkipped(Begin(after, dryRun), files, after.records, again, dryRun);
    assert [] + SkipSteps(files) == SkipSteps(files);
  }

  // ---------------------------------------------------------------- two batches

  /** Executing a file adds exactly the tables it declares. */
  ghost predicate AddsDeclared(engine: Engine) {
    forall f, tables ::
      engine.exec(f, tables).Some? ==>
        engine.exec(f, tables).value == tables + (set t | t in f.declared && t != TRACKING_TABLE)
  }

  ghost predicate OnlyTrackingFileDeclaresTracking(files: seq<File>) {
    forall i :: 0 <= i < |files| && files[i].name != TRACKING_FILE ==> TRACKING_TABLE !in files[i].declared
  }

  /** The two sets agree, the tracking table aside. */
  ghost predicate SameTables(a: set<string>, b: set<string>) {
    forall t :: t != TRACKING_TABLE ==> (t in a <==> t in b)
  }

  /** In a run, the tables believed to exist are the tables that do. */
  lemma {:induction false} BeliefMatchesTables(
    db: Db, existing: set<string>, files: seq<File>, applied: map<string, Record>, engine: Engine)
    requires AddsDeclared(engine) && SameTables(existing, db.tables)
    ensures var p := ProcessAll(Going(db, existing, []), files, applied, engine, false);
            p.Going? ==> SameTables(p.existing, p.db.tables)
    decreases |files|
  {
    if files != [] {
      BeliefMatchesTables(db, existing, files[..|files| - 1], applied, engine);
    }
  }

  lemma {:induction false} ProcessInTwoParts(
    p: Pass, first: seq<File>, rest: seq<File>, applied: map<string, Record>, engine: Engine, dryRun: bool)
    ensures ProcessAll(p, first + rest, applied, engine, dryRun)
         == ProcessAll(ProcessAll(p, first, applied, engine, dryRun), rest, applied, engine, dryRun)
    decreases |rest|
  {
    if rest == [] {
      assert first + rest == first;
    } else {
      assert (first + rest)[..|first + rest| - 1] == first + rest[..|rest| - 1];
      ProcessInTwoParts(p, first, rest[..|rest| - 1], applied, engine, dryRun);
    }
  }

  /** The tables declared by the files that have no record yet. */
  function Announced(files: seq<File>, records: map<string, Record>): set<string>
    decreases |files|
  {
    if files == [] then {}
    else
      var f := files[|files| - 1];
      Announced(files[..|files| - 1], records)
      + if f.name == TRACKING_FILE || f.name in records then {} else set t | t in f.declared
  }

  /** Files that are backfilled declare nothing new, so only the declarations count. */
  lemma {:induction false} BelievedTables(
    p: Pass, files: seq<File>, applied: map<string, Record>, engine: Engine, dryRun: bool)
    requires p.Going?
    ensures var q := ProcessAll(p, files, applied, engine, dryRun);
            q.Going? ==> q.existing == p.existing + Announced(files, applied)
    decreases |files|
  {
    if files != [] { BelievedTables(p, files[..|files| - 1], applied, engine, dryRun); }
  }

  /** A file without a record that declares the tracking table, which is not thought to exist, and otherwise only
      tables that are. */
  predicate IsTwin(f: File, existing: set<string>, records: map<string, Record>) {
    && f.name != TRACKING_FILE && f.name !in records
    && TRACKING_TABLE in f.declared && TRACKING_TABLE !in existing
    && forall t :: t in f.declared && t != TRACKING_TABLE ==> t in existing
  }

  /** `p` is the pass of a run over all files, `q` the second of two; they differ in what they think of the tracking
      table at most. */
  ghost predicate InStep(p: Pass, q: Pass) {
    && p.Going? && q.Going? && p.db.tables == q.db.tables
    && SameTables(p.existing, q.existing) && TRACKING_TABLE in q.existing && SameTables(p.existing, p.db.tables)
  }

  /** They have done the same so far. */
  ghost predicate Alike(p: Pass, q: Pass) {
    InStep(p, q) && p.db == q.db
  }

  /** They disagree on the record of this file for good. */
  ghost predicate Apart(p: Pass, q: Pass, name: string) {
    && InStep(p, q) && TRACKING_TABLE in p.existing
    && name in p.db.records && name in q.db.records && p.db.records[name] != q.db.records[name]
  }

  ghost predicate SameRecord(name: string, early: map<string, Record>, late: map<string, Record>) {
    (name in early <==> name in late) && (name in early ==> early[name] == late[name])
  }

  lemma TwinStep(p: Pass, q: Pass, f: File, early: map<string, Record>, late: map<string, Record>, engine: Engine)
    requires Alike(p, q) && AddsDeclared(engine) && SameRecord(f.name, early, late)
    requires IsTwin(f, p.existing, early)
    ensures var p', q' := ProcessFile(p, f, early, engine, false), ProcessFile(q, f, late, engine, false);
            p'.Going? ==> Apart(p', q', f.name)
  {
    var p' := ProcessFile(p, f, early, engine, false);
    assert Plan(f, p.existing, early) == Applied && Plan(f, q.existing, late) == Backfilled;
    if p'.Going? { assert p'.db.tables == p.db.tables; }
  }

  lemma LevelStep(p: Pass, q: Pass, f: File, early: map<string, Record>, late: map<string, Record>, engine: Engine)
    requires Alike(p, q) && AddsDeclared(engine) && SameRecord(f.name, early, late)
    requires !IsTwin(f, p.existing, early)
    ensures var p', q' := ProcessFile(p, f, early, engine, false), ProcessFile(q, f, late, engine, false);
            p'.Going? ==> Alike(p', q')
  {
    if f.name != TRACKING_FILE { assert Plan(f, p.existing, early) == Plan(f, q.existing, late); }
  }

  lemma ApartStep(p: Pass, q: Pass, f: File, early: map<string, Record>, late: map<string, Record>, engine: Engine,
                  name: string)
    requires Apart(p, q, name) && f.name != name && AddsDeclared(engine) && SameRecord(f.name, early, late)
    ensures var p', q' := ProcessFile(p, f, early, engine, false), ProcessFile(q, f, late, engine, false);
            p'.Going? ==> Apart(p', q', name)
  {
    if f.name != TRACKING_FILE { assert Plan(f, p.existing, early) == Plan(f, q.existing, late); }
  }

  /** Whether file `k` is a twin when its turn comes. */
  predicate TwinAt(files: seq<File>, k: nat, existing: set<string>, records: map<string, Record>)
    requires k < |files|
  {
    IsTwin(files[k], existing + Announced(files[..k], records), records)
  }

  predicate HasTwin(files: seq<File>, existing: set<string>, records: map<string, Record>) {
    exists k :: 0 <= k < |files| && TwinAt(files, k, existing, records)
  }

  lemma LastTwin(files: seq<File>, existing: set<string>, records: map<string, Record>)
    requires files != []
    ensures HasTwin(files, existing, records)
       <==> HasTwin(files[..|files| - 1], existing, records) || TwinAt(files, |files| - 1, existing, records)
  {
    var n := |files| - 1;
    forall k | 0 <= k < n ensures TwinAt(files, k, existing, records) == TwinAt(files[..n], k, existing, records) {
      assert files[..n][..k] == files[..k] && files[..n][k] == files[k];
    }
  }

  /** Both passes over the same files: level to the end, or apart from a twin on. */
  ghost predicate TwinDecides(p: Pass, q: Pass, files: seq<File>, twin: bool) {
    p.Going? ==>
      if twin then exists name :: HasName(files, name) && Apart(p, q, name) else Alike(p, q)
  }

  lemma {:induction false} RestDecides(p: Pass, q: Pass, files: seq<File>, early: map<string, Record>,
                                       late: map<string, Record>, engine: Engine)
    requires Alike(p, q) && AddsDeclared(engine) && Listing(files)
    requires forall i :: 0 <= i < |files| ==> SameRecord(files[i].name, early, late)
    ensures TwinDecides(ProcessAll(p, files, early, engine, false), ProcessAll(q, files, late, engine, false),
                        files, HasTwin(files, p.existing, early))
    decreases |files|
  {
    if files != [] {
      var n := |files| - 1;
      assert forall i :: 0 <= i < n ==> files[..n][i] == files[i];
      RestDecides(p, q, files[..n], early, late, engine);
      BelievedTables(p, files[..n], early, engine, false);
      LastTwin(files, p.existing, early);
      LastDecides(ProcessAll(p, files[..n], early, engine, false), ProcessAll(q, files[..n], late, engine, false),
                  files, early, late, engine, HasTwin(files[..n], p.existing, early));
    }
  }

  lemma LastDecides(p: Pass, q: Pass, files: seq<File>, early: map<string, Record>, late: map<string, Record>,
                    engine: Engine, twin: bool)
    requires files != [] && Listing(files) && AddsDeclared(engine)
    requires SameRecord(files[|files| - 1].name, early, late)
    requires TwinDecides(p, q, files[..|files| - 1], twin)
    ensures var f := files[|files| - 1];
            p.Going? ==>
              TwinDecides(ProcessFile(p, f, early, engine, false), ProcessFile(q, f, late, engine, false), files,
                          twin || IsTwin(f, p.existing, early))
    ensures p.Stopped? ==> ProcessFile(p, files[|files| - 1], early, engine, false) == p
  {
    var f, shorter := files[|files| - 1], files[..|files| - 1];
    if p.Going? {
      LastName(files, f.name);
      if twin {
        var name :| HasName(shorter, name) && Apart(p, q, name);
        LastName(files, name);
        ApartStep(p, q, f, early, late, engine, name);
      } else if IsTwin(f, p.existing, early) {
        TwinStep(p, q, f, early, late, engine);
      } else {
        LevelStep(p, q, f, early, late, engine);
      }
    }
  }

  /** Migrating a prefix of the files and then all of them always succeeds when one run over all of them does. It
      ends in the same database if and only if no later file is a twin of the tracking file when its turn comes:
      one without a record that declares the tracking table, before anything is known to have made it, and otherwise
      only tables that exist by then. */
  lemma TwoBatchesEqualExactly(db: Db, first: seq<File>, rest: seq<File>, engine: Engine)
    requires Ledger(db) && Listing(first + rest) && HasName(first, TRACKING_FILE) && AddsDeclared(engine)
    requires Run(db, first + rest, engine, false).0.Done?
    ensures Run(db, first, engine, false).0.Done?
    ensures var halfway := Run(db, first, engine, false).1;
            && Run(halfway, first + rest, engine, false).0.Done?
            && (Run(halfway, first + rest, engine, false).1 == Run(db, first + rest, engine, false).1
                <==> !HasTwin(rest, ExistingTables(db) + Announced(first, db.records), db.records))
  {
    var files := first + rest;
    assert HasName(files, TRACKING_FILE) by {
      var i :| 0 <= i < |first| && first[i].name == TRACKING_FILE;
      assert files[i] == first[i];
    }
    assert Listing(first) by { assert forall i :: 0 <= i < |first| ==> files[i] == first[i]; }
    assert Listing(rest) by { assert forall i :: 0 <= i < |rest| ==> files[|first| + i] == rest[i]; }
    var begun, applied := Begin(db, false), db.records;
    ProcessInTwoParts(begun, first, rest, applied, engine, false);
    var middle := ProcessAll(begun, first, applied, engine, false);
    assert middle.Going? by {
      if middle.Stopped? { ProcessFromStopped(middle, rest, applied, engine); }
    }
    var halfway := middle.db;
    ProcessKeepsLedger(db.(tracking := true), ExistingTables(db), first, engine);
    var resumed := Begin(halfway, false);
    ProcessInTwoParts(resumed, first, rest, halfway.records, engine, false);
    RecordedFilesAreSkipped(resumed, first, halfway.records, engine, false);
    BeliefMatchesTables(db.(tracking := true), ExistingTables(db), first, applied, engine);
    BelievedTables(begun, first, applied, engine, false);
    RestIsUntouched(first, rest, applied, halfway.records);
    var skipped := resumed.(steps := resumed.steps + SkipSteps(first));
    assert Alike(middle, skipped);
    RestDecides(middle, skipped, rest, applied, halfway.records, engine);
  }

  /** In particular, when the tracking table is there from the start, or only its own file declares it. */
  lemma TwoBatchesEqualOne(db: Db, first: seq<File>, rest: seq<File>, engine: Engine)
    requires Ledger(db) && Listing(first + rest) && HasName(first, TRACKING_FILE) && AddsDeclared(engine)
    requires db.tracking || OnlyTrackingFileDeclaresTracking(rest)
    requires Run(db, first + rest, engine, false).0.Done?
    ensures Run(db, first, engine, false).0.Done?
    ensures var halfway := Run(db, first, engine, false).1;
            && Run(halfway, first + rest, engine, false).0.Done?
            && Run(halfway, first + rest, engine, false).1 == Run(db, first + rest, engine, false).1
  {
    TwoBatchesEqualExactly(db, first, rest, engine);
  }

  lemma RestIsUntouched(first: seq<File>, rest: seq<File>, applied: map<string, Record>, later: map<string, Record>)
    requires Listing(first + rest)
    requires forall n :: n in applied ==> n in later && later[n] == applied[n]
    requires forall n :: n in later ==> n in applied || HasName(first, n)
    ensures forall i :: 0 <= i < |rest| ==> SameRecord(rest[i].name, applied, later)
  {
    forall i | 0 <= i < |rest| ensures !HasName(first, rest[i].name) {
      assert (first + rest)[|first| + i] == rest[i];
      assert forall j :: 0 <= j < |first| ==> (first + rest)[j] == first[j];
    }
  }

  lemma {:induction false} ProcessFromStopped(p: Pass, files: seq<File>, applied: map<string, Record>, engine: Engine)
    requires p.Stopped?
    ensures ProcessAll(p, files, applied, engine, false) == p
    decreases |files|
  {
    if files != [] { ProcessFromStopped(p, files[..|files| - 1], applied, engine); }
  }

  /** The condition on the tracking table is needed: a later file that declares only that table is
      applied by one run from scratch, but backfilled when it comes in a second batch. */
  lemma SecondBatchBackfillsTrackingTwin(tracker: File, twin: File, engine: Engine)
    requires tracker.name == TRACKING_FILE && twin.name != TRACKING_FILE
    requires twin.declared == [TRACKING_TABLE]
    requires engine.trackingSqlWorks && AddsDeclared(engine) && engine.exec(twin, {}).Some?
    ensures var fresh0 := Db({}, false, map[], []);
            var once := Run(fresh0, [tracker, twin], engine, false).1;
            var twice := Run(Run(fresh0, [tracker], engine, false).1, [tracker, twin], engine, false).1;
            && once.records == map[twin.name := Record(twin.sha, false)]
            && twice.records == map[twin.name := Record(twin.sha, true)]
  {
    var fresh0 := Db({}, false, map[], []);
    var both, one := [tracker, twin], [tracker];
    assert both[..1] == one && one[..0] == [] && both[0] == tracker && one[0] == tracker;
    var begun := Begin(fresh0, false);
    assert ProcessAll(begun, one, map[], engine, false) == begun;
    var halfway := Run(fresh0, one, engine, false).1;
    assert halfway == fresh0.(tracking := true);
    assert ProcessAll(Begin(halfway, false), one, map[], engine, false) == Begin(halfway, false);
  }
}
