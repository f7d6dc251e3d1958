/**
 * The numbered SQL migration runner (packages/database/src/migration-runner.ts).
 *
 * A run is one serialised transaction over the ledger. SQL bodies are opaque: a run is told
 * for which files they execute without error.
 */
module Migrations {
  import opened Common

  const FIRST_TRACKED_VERSION := 22

  /** A directory entry; the version is what its name parses to, if it has the form NNNN_*.sql. */
  datatype Entry = Entry(filename: string, version: Option<int>, body: string)

  datatype File = File(version: int, filename: string, body: string)

  /** A ledger row; older rows have no checksum. An empty checksum is falsy in the source and counts as none. */
  datatype Row = Row(filename: string, checksum: Option<string>)

  type Ledger = map<int, Row>

  predicate HasChecksum(row: Row) {
    row.checksum.Some? && row.checksum.value != ""
  }

  /** The ledger and, for the record, the versions whose bodies have been executed for good, in order. */
  datatype Db = Db(ledger: Ledger, executed: seq<int>)

  type Hash = string -> string

  ghost predicate HashOk(sha: Hash) {
    forall body :: sha(body) != ""
  }

  // ----- Listing the tracked files --------------------------------------------

  function Insert(files: seq<File>, f: File): (r: seq<File>)
    ensures multiset(r) == multiset(files) + multiset{f}
  {
    if files == [] then [f]
    else
      var n := |files| - 1;
      assert files == files[..n] + [files[n]];
      if files[n].version <= f.version then files + [f] else Insert(files[..n], f) + [files[n]]
  }

  /** The files from version 22 on, in ascending order, files of equal version in directory order. */
  function Tracked(entries: seq<Entry>): seq<File> {
    if entries == [] then []
    else
      var n := |entries| - 1;
      var e := entries[n];
      var rest := Tracked(entries[..n]);
      if e.version.Some? && e.version.value >= FIRST_TRACKED_VERSION
      then Insert(rest, File(e.version.value, e.filename, e.body)) else rest
  }

  ghost predicate Ascending(files: seq<File>) {
    forall i, j :: 0 <= i < j < |files| ==> files[i].version <= files[j].version
  }

  lemma {:induction false} InsertAscending(files: seq<File>, f: File)
    requires Ascending(files)
    ensures Ascending(Insert(files, f))
  {
    if files != [] && files[|files| - 1].version > f.version {
      var n := |files| - 1;
      InsertAscending(files[..n], f);
      InsertBounded(files[..n], f, files[n].version);
    }
  }

  lemma {:induction false} InsertBounded(files: seq<File>, f: File, v: int)
    requires f.version <= v && forall i :: 0 <= i < |files| ==> files[i].version <= v
    ensures forall i :: 0 <= i < |Insert(files, f)| ==> Insert(files, f)[i].version <= v
  {
    if files != [] && files[|files| - 1].version > f.version {
      InsertBounded(files[..|files| - 1], f, v);
    }
  }

  /** Exactly the tracked entries, in ascending version order. */
  lemma {:induction false} TrackedIsSorted(entries: seq<Entry>)
    ensures Ascending(Tracked(entries))
    ensures forall f :: f in Tracked(entries) <==>
      f.version >= FIRST_TRACKED_VERSION && Entry(f.filename, Some(f.version), f.body) in entries
  {
    if entries != [] {
      var n := |entries| - 1;
      var e := entries[n];
      TrackedIsSorted(entries[..n]);
      assert entries == entries[..n] + [e];
      if e.version.Some? && e.version.value >= FIRST_TRACKED_VERSION {
        var g := File(e.version.value, e.filename, e.body);
        InsertAscending(Tracked(entries[..n]), g);
        forall f ensures f in Insert(Tracked(entries[..n]), g) <==> f in Tracked(entries[..n]) || f == g {
          assert f in Insert(Tracked(entries[..n]), g) <==> f in multiset(Insert(Tracked(entries[..n]), g));
        }
      }
    }
  }

  // ----- One run --------------------------------------------------------------

  predicate DistinctVersions(files: seq<File>) {
    forall i, j :: 0 <= i < j < |files| ==> files[i].version != files[j].version
  }

  /** A recorded file was renamed or its body changed. */
  predicate Drifted(ledger: Ledger, f: File, sha: Hash) {
    && f.version in ledger
    && (ledger[f.version].filename != f.filename
        || (HasChecksum(ledger[f.version]) && ledger[f.version].checksum.value != sha(f.body)))
  }

  function Pending(ledger: Ledger, files: seq<File>): (r: seq<File>)
    ensures forall f :: f in r <==> f in files && f.version !in ledger
  {
    if files == [] then []
    else
      var n := |files| - 1;
      assert files == files[..n] + [files[n]];
      Pending(ledger, files[..n]) + if files[n].version !in ledger then [files[n]] else []
  }

  /** Missing checksums of recorded files are filled in. */
  function FillAll(ledger: Ledger, files: seq<File>, sha: Hash): Ledger {
    if files == [] then ledger
    else
      var n := |files| - 1;
      var m := FillAll(ledger, files[..n], sha);
      var f := files[n];
      if f.version in ledger && !HasChecksum(ledger[f.version])
      then m[f.version := ledger[f.version].(checksum := Some(sha(f.body)))] else m
  }

  function InsertAll(ledger: Ledger, files: seq<File>, sha: Hash): Ledger {
    if files == [] then ledger
    else
      var n := |files| - 1;
      InsertAll(ledger, files[..n], sha)[files[n].version := Row(files[n].filename, Some(sha(files[n].body)))]
  }

  function Recorded(ledger: Ledger, files: seq<File>, sha: Hash): Ledger {
    InsertAll(FillAll(ledger, files, sha), Pending(ledger, files), sha)
  }

  function Versions(files: seq<File>): (r: seq<int>)
    ensures |r| == |files|
  {
    seq(|files|, i requires 0 <= i < |files| => files[i].version)
  }

  function Names(files: seq<File>): (r: seq<string>)
    ensures |r| == |files|
  {
    seq(|files|, i requires 0 <= i < |files| => files[i].filename)
  }

  /** The run commits: no duplicate version, no drift, every pending body executes. */
  ghost predicate Commits(ledger: Ledger, files: seq<File>, sha: Hash, executes: File -> bool) {
    && DistinctVersions(files) && (forall f <- files :: !Drifted(ledger, f, sha))
    && forall f <- Pending(ledger, files) :: executes(f)
  }

  ghost function After(db: Db, entries: seq<Entry>, sha: Hash, executes: File -> bool): Db {
    var files := Tracked(entries);
    if Commits(db.ledger, files, sha, executes)
    then Db(Recorded(db.ledger, files, sha), db.executed + Versions(Pending(db.ledger, files)))
    else db
  }

  datatype RunError = DuplicateVersion | Drift(filename: string) | SqlFailed(filename: string)

  /** The database as the runner sees it; a failing transaction leaves the fields untouched. */
  class Database {
    var ledger: Ledger
    ghost var executed: seq<int>

    ghost function Snapshot(): Db
      reads this
    {
      Db(ledger, executed)
    }

    constructor (initial: Ledger)
      ensures Snapshot() == Db(initial, [])
    {
      ledger, executed := initial, [];
    }

    method RunPendingSqlMigrations(entries: seq<Entry>, sha: Hash, executes: File -> bool)
      returns (r: Result<seq<string>, RunError>)
      modifies this
      ensures Snapshot() == After(old(Snapshot()), entries, sha, executes)
      ensures r.Ok? <==> Commits(old(ledger), Tracked(entries), sha, executes)
      ensures r.Ok? ==> r.value == Names(Pending(old(ledger), Tracked(entries)))
      ensures r.Err? ==> FirstFault(old(ledger), Tracked(entries), sha, executes, r.error)
    {
      var files := Tracked(entries);
      if !DistinctVersions(files) {
        return Err(DuplicateVersion);
      }
      var filled := CheckInstalled(ledger, files, sha);
      if filled.Err? {
        return Err(filled.error);
      }
      var pending := Pending(ledger, files);
      var applied := ApplyPending(filled.value, pending, sha, executes);
      if applied.Err? {
        return Err(applied.error);
      }
      ledger := applied.value.0;
      executed := executed + Versions(pending);
      r := Ok(applied.value.1);
    }
  }

  /** Why a run fails: a duplicate version, or else the first drifted file, or else the first body that fails. */
  ghost predicate FirstFault(ledger: Ledger, files: seq<File>, sha: Hash, executes: File -> bool, error: RunError) {
    if !DistinctVersions(files) then error == DuplicateVersion
    else if exists f <- files :: Drifted(ledger, f, sha) then
      exists k :: 0 <= k < |files| && FirstDrift(ledger, files, sha, k) && error == Drift(files[k].filename)
    else
      var pending := Pending(ledger, files);
      exists k :: 0 <= k < |pending| && FirstFailure(pending, executes, k) && error == SqlFailed(pending[k].filename)
  }

  ghost predicate FirstDrift(ledger: Ledger, files: seq<File>, sha: Hash, k: nat)
    requires k < |files|
  {
    Drifted(ledger, files[k], sha) && forall i :: 0 <= i < k ==> !Drifted(ledger, files[i], sha)
  }

  ghost predicate FirstFailure(pending: seq<File>, executes: File -> bool, k: nat)
    requires k < |pending|
  {
    !executes(pending[k]) && forall i :: 0 <= i < k ==> executes(pending[i])
  }

  /** The loop over all files: refuse drift, fill in missing checksums. */
  method CheckInstalled(installed: Ledger, files: seq<File>, sha: Hash) returns (r: Result<Ledger, RunError>)
    ensures r.Ok? <==> forall f <- files :: !Drifted(installed, f, sha)
    ensures r.Ok? ==> r.value == FillAll(installed, files, sha)
    ensures r.Err? ==>
      exists k :: 0 <= k < |files| && FirstDrift(installed, files, sha, k) && r.error == Drift(files[k].filename)
  {
    hide Drifted;
    var tx := installed;
    for n := 0 to |files|
      invariant tx == FillAll(installed, files[..n], sha)
      invariant forall i :: 0 <= i < n ==> !Drifted(installed, files[i], sha)
    {
      var file := files[n];
      assert files[..n + 1][..n] == files[..n];
      if Drifted(installed, file, sha) {
        assert FirstDrift(installed, files, sha, n);
        return Err(Drift(file.filename));
      }
      if file.version in installed && !HasChecksum(installed[file.version]) {
        tx := tx[file.version := installed[file.version].(checksum := Some(sha(file.body)))];
      }
    }
    assert files[..|files|] == files;
    r := Ok(tx);
  }

  /** The loop over the pending files: execute and record. */
  method ApplyPending(filled: Ledger, pending: seq<File>, sha: Hash, executes: File -> bool)
    returns (r: Result<(Ledger, seq<string>), RunError>)
    ensures r.Ok? <==> forall f <- pending :: executes(f)
    ensures r.Ok? ==> r.value == (InsertAll(filled, pending, sha), Names(pending))
    ensures r.Err? ==>
      exists k :: 0 <= k < |pending| && FirstFailure(pending, executes, k) && r.error == SqlFailed(pending[k].filename)
  {
    var tx := filled;
    var applied: seq<string> := [];
    for n := 0 to |pending|
      invariant tx == InsertAll(filled, pending[..n], sha)
      invariant applied == Names(pending[..n])
      invariant forall i :: 0 <= i < n ==> executes(pending[i])
    {
      var migration := pending[n];
      assert pending[..n + 1][..n] == pending[..n];
      if !executes(migration) {
        assert FirstFailure(pending, executes, n);
        return Err(SqlFailed(migration.filename));
      }
      tx := tx[migration.version := Row(migration.filename, Some(sha(migration.body)))];
      applied := applied + [migration.filename];
    }
    assert pending[..|pending|] == pending;
    r := Ok((tx, applied));
  }

  // ----- What a successful run records ----------------------------------------

  lemma {:induction false} FillAt(ledger: Ledger, files: seq<File>, sha: Hash, v: int)
    requires DistinctVersions(files)
    ensures v in FillAll(ledger, files, sha) <==> v in ledger
    ensures v in ledger ==>
      FillAll(ledger, files, sha)[v] == ledger[v]
      || (!HasChecksum(ledger[v]) && exists f <- files ::
          f.version == v && FillAll(ledger, files, sha)[v] == ledger[v].(checksum := Some(sha(f.body))))
    ensures forall f <- files :: f.version in ledger && !HasChecksum(ledger[f.version]) ==>
      f.version in FillAll(ledger, files, sha) && FillAll(ledger, files, sha)[f.version].checksum == Some(sha(f.body))
  {
    if files != [] {
      var n := |files| - 1;
      FillAt(ledger, files[..n], sha, v);
      assert files == files[..n] + [files[n]];
      assert forall f <- files[..n] :: f.version != files[n].version;
    }
  }

  lemma {:induction false} InsertAt(ledger: Ledger, files: seq<File>, sha: Hash)
    requires DistinctVersions(files)
    ensures forall v :: v in InsertAll(ledger, files, sha) <==> v in ledger || v in Versions(files)
    ensures forall v :: v in ledger && v !in Versions(files) ==> InsertAll(ledger, files, sha)[v] == ledger[v]
    ensures forall f <- files ::
      f.version in InsertAll(ledger, files, sha)
      && InsertAll(ledger, files, sha)[f.version] == Row(f.filename, Some(sha(f.body)))
  {
    if files != [] {
      var n := |files| - 1;
      InsertAt(ledger, files[..n], sha);
      assert files == files[..n] + [files[n]];
      assert Versions(files) == Versions(files[..n]) + [files[n].version];
      assert forall f <- files[..n] :: f.version != files[n].version;
    }
  }

  lemma {:induction false} PendingOrder(ledger: Ledger, files: seq<File>)
    requires DistinctVersions(files) && Ascending(files)
    ensures DistinctVersions(Pending(ledger, files)) && Ascending(Pending(ledger, files))
  {
    if files != [] {
      var n := |files| - 1;
      PendingOrder(ledger, files[..n]);
      var rest := Pending(ledger, files[..n]);
      forall i | 0 <= i < |rest| ensures rest[i].version < files[n].version {
        assert rest[i] in files[..n];
        SmallerThanLast(files, rest[i]);
      }
      hide DistinctVersions, Ascending;
      SnocOrder(rest, files[n]);
    }
  }

  lemma SmallerThanLast(files: seq<File>, f: File)
    requires DistinctVersions(files) && Ascending(files) && files != [] && f in files[..|files| - 1]
    ensures f.version < files[|files| - 1].version
  {
    var k :| 0 <= k < |files| - 1 && files[k] == f;
  }

  lemma SnocOrder(files: seq<File>, f: File)
    requires DistinctVersions(files) && Ascending(files)
      && forall i :: 0 <= i < |files| ==> files[i].version < f.version
    ensures DistinctVersions(files + [f]) && Ascending(files + [f])
  {}

  /**
   * A committed run applies exactly the unrecorded tracked files, in strictly ascending version
   * order, and records each with its name and checksum.
   */
  lemma RunAppliesExactly(db: Db, entries: seq<Entry>, sha: Hash, executes: File -> bool)
    requires Commits(db.ledger, Tracked(entries), sha, executes)
    ensures var pending := Pending(db.ledger, Tracked(entries));
      var after := After(db, entries, sha, executes);
      && after.executed == db.executed + Versions(pending)
      && (forall i, j :: 0 <= i < j < |pending| ==> pending[i].version < pending[j].version)
      && (forall f :: f in pending <==>
            f.version >= FIRST_TRACKED_VERSION && Entry(f.filename, Some(f.version), f.body) in entries
            && f.version !in db.ledger)
      && (forall f <- pending ::
          f.version in after.ledger && after.ledger[f.version] == Row(f.filename, Some(sha(f.body))))
  {
    var files := Tracked(entries);
    TrackedIsSorted(entries);
    PendingOrder(db.ledger, files);
    InsertAt(FillAll(db.ledger, files, sha), Pending(db.ledger, files), sha);
  }

  /**
   * When a run commits: no two tracked files share a version, every recorded one has its recorded name and,
   * if a checksum is recorded, that checksum, and every unrecorded one executes.
   */
  lemma CommitsExactly(ledger: Ledger, files: seq<File>, sha: Hash, executes: File -> bool)
    ensures Commits(ledger, files, sha, executes) <==>
      && (forall i, j :: 0 <= i < j < |files| ==> files[i].version != files[j].version)
      && (forall f <- files :: f.version in ledger ==>
            ledger[f.version].filename == f.filename
            && ledger[f.version].checksum in {None, Some(""), Some(sha(f.body))})
      && forall f <- files :: f.version !in ledger ==> executes(f)
  {
    forall f | f in files
      ensures Drifted(ledger, f, sha) <==>
        f.version in ledger && !(ledger[f.version].filename == f.filename
                                 && ledger[f.version].checksum in {None, Some(""), Some(sha(f.body))})
    {}
    hide Drifted, HasChecksum;
  }

  /** What a committed run leaves: every tracked file with its name and checksum, every other row as it was. */
  lemma LedgerAfterRun(db: Db, entries: seq<Entry>, sha: Hash, executes: File -> bool)
    requires HashOk(sha) && Commits(db.ledger, Tracked(entries), sha, executes)
    ensures
      var files, after := Tracked(entries), After(db, entries, sha, executes).ledger;
      && (forall f <- files :: f.version in after && after[f.version] == Row(f.filename, Some(sha(f.body))))
      && (forall v :: v in after && (forall f <- files :: f.version != v) ==>
            v in db.ledger && after[v] == db.ledger[v])
      && forall v :: v in db.ledger ==> v in after
  {
    var files := Tracked(entries);
    var r := Recorded(db.ledger, files, sha);
    TrackedIsSorted(entries);
    RecordedKeeps(db.ledger, files, sha);
    forall f | f in files ensures f.version in r && r[f.version] == Row(f.filename, Some(sha(f.body))) {
      RecordedCovers(db.ledger, files, sha, f);
    }
    forall v | v in r && forall f <- files :: f.version != v ensures v in db.ledger && r[v] == db.ledger[v] {
      RecordedOnly(db.ledger, files, sha, v);
    }
    hide Recorded, Commits;
  }

  lemma RecordedOnly(ledger: Ledger, files: seq<File>, sha: Hash, v: int)
    requires DistinctVersions(files) && Ascending(files) && forall f <- files :: f.version != v
    requires v in Recorded(ledger, files, sha)
    ensures v in ledger && Recorded(ledger, files, sha)[v] == ledger[v]
  {
    var pending := Pending(ledger, files);
    PendingOrder(ledger, files);
    InsertAt(FillAll(ledger, files, sha), pending, sha);
    FillAt(ledger, files, sha, v);
    assert v !in Versions(pending) by {
      forall i | 0 <= i < |pending| ensures Versions(pending)[i] != v { assert pending[i] in pending; }
    }
  }

  // ----- Histories ------------------------------------------------------------

  /** Nothing recorded is lost, renamed or re-summed. */
  ghost predicate Keeps(a: Ledger, b: Ledger) {
    forall v :: v in a ==> v in b && b[v].filename == a[v].filename && (HasChecksum(a[v]) ==> b[v] == a[v])
  }

  /** No version has been executed twice, and every executed version is recorded. */
  ghost predicate DbInv(db: Db) {
    Distinct(db.executed) && forall v <- db.executed :: v in db.ledger
  }

  lemma RecordedKeeps(ledger: Ledger, files: seq<File>, sha: Hash)
    requires DistinctVersions(files) && Ascending(files)
    ensures Keeps(ledger, Recorded(ledger, files, sha))
  {
    hide HasChecksum;
    var pending := Pending(ledger, files);
    PendingOrder(ledger, files);
    InsertAt(FillAll(ledger, files, sha), pending, sha);
    forall v | v in ledger
      ensures v in Recorded(ledger, files, sha)
      ensures Recorded(ledger, files, sha)[v].filename == ledger[v].filename
      ensures HasChecksum(ledger[v]) ==> Recorded(ledger, files, sha)[v] == ledger[v]
    {
      FillAt(ledger, files, sha, v);
      assert v !in Versions(pending) by {
        forall i | 0 <= i < |pending| ensures Versions(pending)[i] != v { assert pending[i] in pending; }
      }
    }
  }

  /** Every run keeps what is recorded and executes no version again; a run that fails changes nothing. */
  lemma RunIsSafe(db: Db, entries: seq<Entry>, sha: Hash, executes: File -> bool)
    requires DbInv(db)
    ensures var after := After(db, entries, sha, executes);
      && DbInv(after) && Keeps(db.ledger, after.ledger) && db.executed <= after.executed
      && (!Commits(db.ledger, Tracked(entries), sha, executes) ==> after == db)
  {
    var files := Tracked(entries);
    if Commits(db.ledger, files, sha, executes) {
      hide Commits, FillAll, InsertAll;
      var pending := Pending(db.ledger, files);
      TrackedIsSorted(entries);
      CommitsDistinct(db.ledger, files, sha, executes);
      RecordedKeeps(db.ledger, files, sha);
      PendingOrder(db.ledger, files);
      InsertAt(FillAll(db.ledger, files, sha), pending, sha);
      FreshVersions(db, pending);
    }
  }

  lemma CommitsDistinct(ledger: Ledger, files: seq<File>, sha: Hash, executes: File -> bool)
    requires Commits(ledger, files, sha, executes)
    ensures DistinctVersions(files)
  {}

  lemma FreshVersions(db: Db, pending: seq<File>)
    requires DbInv(db) && DistinctVersions(pending) && forall f <- pending :: f.version !in db.ledger
    ensures Distinct(db.executed + Versions(pending))
  {
    var all := db.executed + Versions(pending);
    forall i, j | 0 <= i < j < |all| ensures all[i] != all[j] {
      if j >= |db.executed| {
        assert all[j] == pending[j - |db.executed|].version && pending[j - |db.executed|] in pending;
        if i < |db.executed| {
          assert all[i] in db.executed;
        }
      }
    }
  }

  datatype RunOf = RunOf(entries: seq<Entry>, executes: File -> bool)

  ghost predicate History(states: seq<Db>, runs: seq<RunOf>, sha: Hash) {
    && |states| == |runs| + 1
    && forall i :: 0 <= i < |runs| ==> states[i + 1] == After(states[i], runs[i].entries, sha, runs[i].executes)
  }

  /**
   * Over any history of runs, with the directory changing between them and starting from any
   * ledger: no version is ever executed twice, and filenames and checksums once recorded stay.
   */
  lemma {:induction false} HistoryIsSafe(states: seq<Db>, runs: seq<RunOf>, sha: Hash, i: nat, j: nat)
    requires History(states, runs, sha) && DbInv(states[0]) && i <= j < |states|
    ensures DbInv(states[i]) && DbInv(states[j])
    ensures Keeps(states[i].ledger, states[j].ledger) && states[i].executed <= states[j].executed
    decreases j, i
  {
    hide After, DbInv;
    if i < j {
      HistoryIsSafe(states, runs, sha, i, j - 1);
      RunIsSafe(states[j - 1], runs[j - 1].entries, sha, runs[j - 1].executes);
    } else if j > 0 {
      HistoryIsSafe(states, runs, sha, 0, j - 1);
      RunIsSafe(states[j - 1], runs[j - 1].entries, sha, runs[j - 1].executes);
    }
  }

  // ----- Running again --------------------------------------------------------

  lemma {:induction false} FillNothing(ledger: Ledger, files: seq<File>, sha: Hash)
    requires forall f <- files :: f.version in ledger && HasChecksum(ledger[f.version])
    ensures FillAll(ledger, files, sha) == ledger
  {
    if files != [] {
      var n := |files| - 1;
      assert files[n] in files;
      FillNothing(ledger, files[..n], sha);
    }
  }

  lemma {:induction false} PendingNothing(ledger: Ledger, files: seq<File>)
    requires forall f <- files :: f.version in ledger
    ensures Pending(ledger, files) == []
  {
    if files != [] {
      var n := |files| - 1;
      assert files[n] in files;
      PendingNothing(ledger, files[..n]);
    }
  }

  lemma RecordedCovers(ledger: Ledger, files: seq<File>, sha: Hash, f: File)
    requires DistinctVersions(files) && Ascending(files) && HashOk(sha) && f in files && !Drifted(ledger, f, sha)
    ensures var r := Recorded(ledger, files, sha);
      f.version in r && r[f.version].filename == f.filename && r[f.version].checksum == Some(sha(f.body))
  {
    var pending := Pending(ledger, files);
    PendingOrder(ledger, files);
    InsertAt(FillAll(ledger, files, sha), pending, sha);
    FillAt(ledger, files, sha, f.version);
    if f.version in ledger {
      assert f.version !in Versions(pending) by {
        forall i | 0 <= i < |pending| ensures Versions(pending)[i] != f.version { assert pending[i] in pending; }
      }
    } else {
      assert f in pending;
    }
  }

  lemma NothingRecorded(r: Ledger, files: seq<File>, sha: Hash)
    requires FillAll(r, files, sha) == r && Pending(r, files) == []
    ensures Recorded(r, files, sha) == r
  {}

  /** Running again on the same directory succeeds, applies nothing and changes nothing. */
  lemma RerunAppliesNothing(db: Db, entries: seq<Entry>, sha: Hash, executes: File -> bool, again: File -> bool)
    requires HashOk(sha) && Commits(db.ledger, Tracked(entries), sha, executes)
    ensures var after := After(db, entries, sha, executes);
      && Commits(after.ledger, Tracked(entries), sha, again) && Pending(after.ledger, Tracked(entries)) == []
      && After(after, entries, sha, again) == after
  {
    var files := Tracked(entries);
    TrackedIsSorted(entries);
    var r := Recorded(db.ledger, files, sha);
    hide Recorded;
    forall f | f in files
      ensures f.version in r && HasChecksum(r[f.version]) && !Drifted(r, f, sha)
    {
      RecordedCovers(db.ledger, files, sha, f);
    }
    FillNothing(r, files, sha);
    PendingNothing(r, files);
    NothingRecorded(r, files, sha);
    assert After(db, entries, sha, executes).ledger == r;
    assert Versions([]) == [];
  }
}
