/** Which files a run of the migration runner executes, backfills or skips, what it reports and when it fails
    (database/src/helpers/migration_runner.py, `run_schemas` and `_process_file`), said of whole runs. */
module MigrationPlans {
  import opened Basics
  import opened Migration

  // ---------------------------------------------------------------- which files are due

  predicate Unrecorded(f: File, records: map<string, Record>) {
    f.name != TRACKING_FILE && f.name !in records
  }

  /** The table is there at the start, or an earlier file without a record declares it. */
  predicate Known(files: seq<File>, k: nat, db: Db, t: string)
    requires k <= |files|
  {
    || t in ExistingTables(db)
    || exists j :: 0 <= j < k && Unrecorded(files[j], db.records) && t in files[j].declared
  }

  /** File `k` has no record, and declares nothing or something that is not known by then. */
  predicate IsDue(files: seq<File>, k: nat, db: Db)
    requires k < |files|
  {
    && Unrecorded(files[k], db.records)
    && (files[k].declared == [] || exists t :: t in files[k].declared && !Known(files, k, db, t))
  }

  /** The file is not what it was when it was recorded. */
  predicate IsChanged(f: File, records: map<string, Record>) {
    f.name != TRACKING_FILE && f.name in records && records[f.name].sha != f.sha
  }

  /** What a run reports of file `k`. */
  function StepOf(files: seq<File>, k: nat, db: Db): Step
    requires k < |files|
  {
    Step(files[k].name, if IsDue(files, k, db) then Applied else if files[k].name in db.records then Skipped else Backfilled,
         files[k].sha, files[k].declared)
  }

  /** The positions of the files other than the tracking file. */
  function Places(files: seq<File>): seq<nat>
    decreases |files|
  {
    if files == [] then []
    else
      var n := |files| - 1;
      Places(files[..n]) + if files[n].name == TRACKING_FILE then [] else [n]
  }

  /** What the SQL of the first `k` files, as far as they are due, makes of the tables one after the other. */
  function TablesAfter(files: seq<File>, k: nat, db: Db, engine: Engine): Option<set<string>>
    requires k <= |files|
  {
    if k == 0 then Some(db.tables)
    else
      match TablesAfter(files, k - 1, db, engine)
      case None => None
      case Some(tables) => if IsDue(files, k - 1, db) then engine.exec(files[k - 1], tables) else Some(tables)
  }

  // ---------------------------------------------------------------- what a file meets

  lemma {:induction false} AnnouncedExactly(files: seq<File>, k: nat, records: map<string, Record>, t: string)
    requires k <= |files|
    ensures t in Announced(files[..k], records)
       <==> exists j :: 0 <= j < k && Unrecorded(files[j], records) && t in files[j].declared
    decreases k
  {
    if k > 0 {
      AnnouncedExactly(files, k - 1, records, t);
      assert files[..k][..k - 1] == files[..k - 1];
    }
  }

  lemma PlannedWhenDue(files: seq<File>, k: nat, db: Db)
    requires k < |files| && Unrecorded(files[k], db.records)
    ensures Plan(files[k], ExistingTables(db) + Announced(files[..k], db.records), db.records)
         == if IsDue(files, k, db) then Applied else Backfilled
  {
    forall t ensures t in ExistingTables(db) + Announced(files[..k], db.records) <==> Known(files, k, db, t) {
      AnnouncedExactly(files, k, db.records, t);
    }
  }

  /** The pass through the first `k` files. */
  function PassTo(db: Db, files: seq<File>, k: nat, engine: Engine, dryRun: bool): Pass
    requires k <= |files|
  {
    ProcessAll(Begin(db, dryRun), files[..k], db.records, engine, dryRun)
  }

  lemma PassStep(db: Db, files: seq<File>, k: nat, engine: Engine, dryRun: bool)
    requires k < |files|
    ensures PassTo(db, files, k + 1, engine, dryRun)
         == ProcessFile(PassTo(db, files, k, engine, dryRun), files[k], db.records, engine, dryRun)
  {
    assert files[..k + 1][..k] == files[..k];
  }

  /** What one file does to a pass that is still going. */
  lemma FileMeets(db: Db, files: seq<File>, k: nat, engine: Engine, dryRun: bool)
    requires k < |files| && PassTo(db, files, k, engine, dryRun).Going? && files[k].name != TRACKING_FILE
    ensures var p, q := PassTo(db, files, k, engine, dryRun), PassTo(db, files, k + 1, engine, dryRun);
            var f, step := files[k], StepOf(files, k, db);
            if IsChanged(f, db.records) then q == Stopped(HashMismatch(f.name))
            else if !dryRun && IsDue(files, k, db) && engine.exec(f, p.db.tables).None? then q == Stopped(SqlFailed(f.name))
            else
              && q.Going? && q.steps == p.steps + [step]
              && q.db == (if dryRun || step.outcome == Skipped then p.db
                          else if step.outcome == Applied then
                            p.db.(tables := engine.exec(f, p.db.tables).value,
                                  records := p.db.records[f.name := Record(f.sha, false)],
                                  executed := p.db.executed + [f.name])
                          else p.db.(records := p.db.records[f.name := Record(f.sha, true)]))
  {
    PassStep(db, files, k, engine, dryRun);
    BelievedTables(Begin(db, dryRun), files[..k], db.records, engine, dryRun);
    if Unrecorded(files[k], db.records) { PlannedWhenDue(files, k, db); }
  }

  // ---------------------------------------------------------------- a run up to some file

  function StepsAt(files: seq<File>, places: seq<nat>, db: Db): (steps: seq<Step>)
    requires forall i :: 0 <= i < |places| ==> places[i] < |files|
    ensures |steps| == |places|
  {
    seq(|places|, i requires 0 <= i < |places| => StepOf(files, places[i], db))
  }

  lemma {:induction false} PlacesAreThere(files: seq<File>, k: nat)
    requires k <= |files|
    ensures forall i :: 0 <= i < |Places(files[..k])| ==> Places(files[..k])[i] < k
    decreases k
  {
    if k > 0 {
      PlacesAreThere(files, k - 1);
      assert files[..k][..k - 1] == files[..k - 1];
    }
  }

  /** The names of the files among the first `k` that are due, in order. */
  function DueNames(files: seq<File>, k: nat, db: Db): seq<string>
    requires k <= |files|
  {
    if k == 0 then [] else DueNames(files, k - 1, db) + if IsDue(files, k - 1, db) then [files[k - 1].name] else []
  }

  /** After the first `k` files. */
  ghost predicate GoneTo(db: Db, files: seq<File>, k: nat, engine: Engine, dryRun: bool, p: Pass)
    requires k <= |files|
  {
    PlacesAreThere(files, k);
    && (p.Going? <==> (forall j :: 0 <= j < k ==> !IsChanged(files[j], db.records))
                      && (dryRun || TablesAfter(files, k, db, engine).Some?))
    && (p.Going? ==> p.steps == StepsAt(files, Places(files[..k]), db))
    && (p.Going? && dryRun ==> p.db == db)
    && (p.Going? && !dryRun ==>
          && p.db.tracking && p.db.executed == db.executed + DueNames(files, k, db)
          && TablesAfter(files, k, db, engine) == Some(p.db.tables))
  }

  lemma GoesOn(db: Db, files: seq<File>, k: nat, engine: Engine, dryRun: bool)
    requires k < |files| && GoneTo(db, files, k, engine, dryRun, PassTo(db, files, k, engine, dryRun))
    ensures GoneTo(db, files, k + 1, engine, dryRun, PassTo(db, files, k + 1, engine, dryRun))
  {
    var p := PassTo(db, files, k, engine, dryRun);
    PassStep(db, files, k, engine, dryRun);
    PlacesAreThere(files, k);
    assert files[..k + 1][..k] == files[..k];
    if p.Going? && files[k].name != TRACKING_FILE {
      FileMeets(db, files, k, engine, dryRun);
    }
  }

  lemma {:induction false} EveryPassGoes(db: Db, files: seq<File>, k: nat, engine: Engine, dryRun: bool)
    requires k <= |files|
    ensures GoneTo(db, files, k, engine, dryRun, PassTo(db, files, k, engine, dryRun))
    decreases k
  {
    if k == 0 {
      assert files[..0] == [];
    } else {
      EveryPassGoes(db, files, k - 1, engine, dryRun);
      GoesOn(db, files, k - 1, engine, dryRun);
    }
  }

  // ---------------------------------------------------------------- what is recorded

  /** What a successful real run leaves for file `k`: the old record, or a new one that says whether the file was
      executed. */
  predicate LeftFor(files: seq<File>, k: nat, db: Db, records: map<string, Record>)
    requires k < |files|
  {
    var f := files[k];
    f.name != TRACKING_FILE ==>
      && f.name in records
      && records[f.name] == if f.name in db.records then db.records[f.name] else Record(f.sha, !IsDue(files, k, db))
  }

  lemma RecordsOneMore(db: Db, files: seq<File>, k: nat, engine: Engine)
    requires Listing(files) && k < |files| && PassTo(db, files, k + 1, engine, false).Going?
    requires PassTo(db, files, k, engine, false).Going?
    requires var p := PassTo(db, files, k, engine, false);
             && (forall j :: 0 <= j < k ==> LeftFor(files, j, db, p.db.records))
             && (forall n :: n in db.records ==> n in p.db.records && p.db.records[n] == db.records[n])
    ensures var q := PassTo(db, files, k + 1, engine, false);
            && (forall j :: 0 <= j <= k ==> LeftFor(files, j, db, q.db.records))
            && (forall n :: n in db.records ==> n in q.db.records && q.db.records[n] == db.records[n])
  {
    PassStep(db, files, k, engine, false);
    if files[k].name != TRACKING_FILE {
      FileMeets(db, files, k, engine, false);
      forall j | 0 <= j < k ensures files[j].name != files[k].name {}
      var p, q := PassTo(db, files, k, engine, false), PassTo(db, files, k + 1, engine, false);
      forall j | 0 <= j < k ensures LeftFor(files, j, db, q.db.records) { assert LeftFor(files, j, db, p.db.records); }
      assert LeftFor(files, k, db, q.db.records);
    }
  }

  lemma {:induction false} RecordsUpTo(db: Db, files: seq<File>, k: nat, engine: Engine)
    requires Listing(files) && k <= |files| && PassTo(db, files, k, engine, false).Going?
    ensures var p := PassTo(db, files, k, engine, false);
            && (forall j :: 0 <= j < k ==> LeftFor(files, j, db, p.db.records))
            && (forall n :: n in db.records ==> n in p.db.records && p.db.records[n] == db.records[n])
    decreases k
  {
    if k == 0 {
      assert files[..0] == [];
    } else {
      PassStep(db, files, k - 1, engine, false);
      RecordsUpTo(db, files, k - 1, engine);
      RecordsOneMore(db, files, k - 1, engine);
    }
  }

  // ---------------------------------------------------------------- the theorems

  lemma RunIsPass(db: Db, files: seq<File>, engine: Engine, dryRun: bool)
    requires Consistent(db) && HasName(files, TRACKING_FILE) && (dryRun || engine.trackingSqlWorks)
    ensures Run(db, files, engine, dryRun)
         == match PassTo(db, files, |files|, engine, dryRun)
            case Stopped(error) => (Raised(error), db)
            case Going(after, _, steps) => (Done(steps), after)
  {
    assert files[..|files|] == files;
  }

  /** A run succeeds if and only if there is nothing to do, or the tracking file is there, no recorded file has
      changed, and (unless it is a dry run) the SQL of the tracking file and of every due file works, one after the
      other. It then reports every other file, in order: as applied, if and only if the file is due, as skipped if it
      has a record, and otherwise as backfilled. */
  lemma RunIsDoneExactly(db: Db, files: seq<File>, engine: Engine, dryRun: bool)
    requires Consistent(db)
    ensures Run(db, files, engine, dryRun).0.Done? <==>
              || files == []
              || (&& HasName(files, TRACKING_FILE)
                  && (forall j :: 0 <= j < |files| ==> !IsChanged(files[j], db.records))
                  && (dryRun || (engine.trackingSqlWorks && TablesAfter(files, |files|, db, engine).Some?)))
    ensures forall i :: 0 <= i < |Places(files)| ==> Places(files)[i] < |files|
    ensures Run(db, files, engine, dryRun).0.Done? ==>
              Run(db, files, engine, dryRun).0.steps == StepsAt(files, Places(files), db)
  {
    PlacesAreThere(files, |files|);
    assert files[..|files|] == files;
    if HasName(files, TRACKING_FILE) && (dryRun || engine.trackingSqlWorks) {
      RunIsPass(db, files, engine, dryRun);
      EveryPassGoes(db, files, |files|, engine, dryRun);
    }
  }

  /** A successful real run executes exactly the files that are due: those without a record that declare nothing, or
      some table that is neither there at the start nor declared by an earlier file without a record. It executes
      them in order, and records them as executed; every other file without a record it records as backfilled, and
      what was recorded before it leaves as it is. */
  lemma RunExecutesTheDue(db: Db, files: seq<File>, engine: Engine)
    requires Ledger(db) && Listing(files) && files != [] && Run(db, files, engine, false).0.Done?
    ensures var after := Run(db, files, engine, false).1;
            && after.executed == db.executed + DueNames(files, |files|, db)
            && TablesAfter(files, |files|, db, engine) == Some(after.tables)
            && (forall n :: n in db.records ==> n in after.records && after.records[n] == db.records[n])
            && (forall k :: 0 <= k < |files| ==> LeftFor(files, k, db, after.records))
            && (forall k :: 0 <= k < |files| && Unrecorded(files[k], db.records) ==>
                  (files[k].name in after.executed <==> IsDue(files, k, db)))
  {
    RunIsPass(db, files, engine, false);
    EveryPassGoes(db, files, |files|, engine, false);
    RecordsUpTo(db, files, |files|, engine);
    RunKeepsLedger(db, files, engine, false);
    var after := Run(db, files, engine, false).1;
    forall k | 0 <= k < |files| && Unrecorded(files[k], db.records)
      ensures files[k].name in after.executed <==> IsDue(files, k, db)
    {
      assert LeftFor(files, k, db, after.records);
    }
  }

  /** In particular a file without a record that declares no table, such as one that only alters tables or fills
      them, is executed by any run that succeeds. */
  lemma SilentFileIsExecuted(db: Db, files: seq<File>, engine: Engine, k: nat)
    requires Ledger(db) && Listing(files) && k < |files| && Run(db, files, engine, false).0.Done?
    requires Unrecorded(files[k], db.records) && files[k].declared == []
    ensures var after := Run(db, files, engine, false).1;
            && files[k].name in after.executed && files[k].name in after.records
            && after.records[files[k].name] == Record(files[k].sha, false)
  {
    RunExecutesTheDue(db, files, engine);
    assert LeftFor(files, k, db, Run(db, files, engine, false).1.records);
  }

  /** A run that gets past the tracking file and fails says so of the first file that has changed, or that is due
      and whose SQL fails on the tables as the files before it left them. */
  lemma RunRaisesTheFirst(db: Db, files: seq<File>, engine: Engine, dryRun: bool) returns (k: nat)
    requires Consistent(db) && HasName(files, TRACKING_FILE) && (dryRun || engine.trackingSqlWorks)
    requires Run(db, files, engine, dryRun).0.Raised?
    ensures k < |files| && forall j :: 0 <= j < k ==> !IsChanged(files[j], db.records)
    ensures dryRun || TablesAfter(files, k, db, engine).Some?
    ensures if IsChanged(files[k], db.records) then
              Run(db, files, engine, dryRun) == (Raised(HashMismatch(files[k].name)), db)
            else
              && !dryRun && TablesAfter(files, k + 1, db, engine).None?
              && Run(db, files, engine, dryRun) == (Raised(SqlFailed(files[k].name)), db)
  {
    RunIsPass(db, files, engine, dryRun);
    k := FirstStop(db, files, |files|, engine, dryRun);
    EveryPassGoes(db, files, k, engine, dryRun);
    EveryPassGoes(db, files, k + 1, engine, dryRun);
    PassStep(db, files, k, engine, dryRun);
    FileMeets(db, files, k, engine, dryRun);
  }

  lemma {:induction false} FirstStop(db: Db, files: seq<File>, m: nat, engine: Engine, dryRun: bool) returns (k: nat)
    requires m <= |files| && PassTo(db, files, m, engine, dryRun).Stopped?
    ensures k < m && PassTo(db, files, k, engine, dryRun).Going?
    ensures PassTo(db, files, k + 1, engine, dryRun) == PassTo(db, files, m, engine, dryRun)
    decreases m
  {
    assert files[..0] == [];
    PassStep(db, files, m - 1, engine, dryRun);
    if PassTo(db, files, m - 1, engine, dryRun).Going? {
      k := m - 1;
    } else {
      k := FirstStop(db, files, m - 1, engine, dryRun);
    }
  }
}
