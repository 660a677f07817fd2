/**
  The migration runner: which files it loads and in what order, and how a run applies the
  pending ones, one transaction each, until it is done, a migration fails, or it is stopped.
*/
module Migrations {
  import opened Shared
  import opened Strings

  datatype Migration = Migration(version: string, description: string, filename: string, content: string,
                                 checksum: string)

  /** The schema, and `schema_migrations` as version to checksum. */
  datatype Db<S> = Db(schema: S, applied: map<string, string>)

  /** `Stopped`: the process died, or the database failed, before that pending migration was committed. */
  datatype Outcome = NoFiles | Drift | UpToDate | Succeeded | SqlFailed(at: nat) | Stopped(at: nat)

  /** What a migration does to a schema; `None` if its SQL fails. */
  type Effect<!S> = (string, S) -> Option<S>

  // ---------------------------------------------------------------- what a run means

  predicate Modified<S>(db: Db<S>, m: Migration) {
    m.version in db.applied && db.applied[m.version] != m.checksum
  }

  predicate HasDrift<S>(db: Db<S>, ms: seq<Migration>) { exists i | 0 <= i < |ms| :: Modified(db, ms[i]) }

  /** Drift: a file whose version is on record with another checksum. */
  lemma DriftMeans<S>(db: Db<S>, ms: seq<Migration>)
    ensures HasDrift(db, ms) <==> exists i | 0 <= i < |ms| ::
      ms[i].version in db.applied && db.applied[ms[i].version] != ms[i].checksum
  {
    if HasDrift(db, ms) { var i :| 0 <= i < |ms| && Modified(db, ms[i]); }
    if i :| 0 <= i < |ms| && ms[i].version in db.applied && db.applied[ms[i].version] != ms[i].checksum {
      assert Modified(db, ms[i]);
    }
  }

  function Unapplied<S>(db: Db<S>, ms: seq<Migration>): seq<Migration> {
    if ms == [] then [] else (if ms[0].version in db.applied then [] else [ms[0]]) + Unapplied(db, ms[1..])
  }

  function Recorded<S>(db: Db<S>, m: Migration, schema: S): Db<S> { Db(schema, db.applied[m.version := m.checksum]) }

  /** The migrations of `ms`, one transaction each, unless one fails. */
  function ApplyAll<S>(run: Effect<S>, db: Db<S>, ms: seq<Migration>): Option<Db<S>>
    decreases |ms|
  {
    if ms == [] then Some(db)
    else match run(ms[0].content, db.schema)
      case None => None
      case Some(schema) => ApplyAll(run, Recorded(db, ms[0], schema), ms[1..])
  }

  /** The uninterrupted run. */
  function Complete<S>(run: Effect<S>, db: Db<S>, ms: seq<Migration>): Option<Db<S>> {
    ApplyAll(run, db, Unapplied(db, ms))
  }

  ghost predicate UniqueVersions(ms: seq<Migration>) {
    forall i, j | 0 <= i < j < |ms| :: ms[i].version != ms[j].version
  }

  // ---------------------------------------------------------------- the runner

  class Runner<S(==)> {
    const run: Effect<S>
    var db: Db<S>

    constructor (run: Effect<S>, db: Db<S>)
      ensures this.run == run && this.db == db
    {
      this.run := run;
      this.db := db;
    }

    /** One transaction: the migration and its row, or neither. */
    method ApplyOne(m: Migration) returns (ok: bool)
      modifies this`db
      ensures ok <==> run(m.content, old(db.schema)).Some?
      ensures db == if ok then Recorded(old(db), m, run(m.content, old(db.schema)).value) else old(db)
    {
      var result := run(m.content, db.schema);
      ok := result.Some?;
      if ok { db := Recorded(db, m, result.value); }
    }

    /**
      `main`, stopped before the COMMIT of pending migration `stopAt` if it gets that far. What it
      leaves behind is a prefix of the pending migrations, each whole; `Succeeded` means all of them.
    */
    method ApplyMigrations(ms: seq<Migration>, stopAt: nat) returns (outcome: Outcome, done: nat)
      modifies this`db
      ensures outcome == NoFiles <==> ms == []
      ensures outcome == Drift <==> ms != [] && HasDrift(old(db), ms)
      ensures outcome == UpToDate <==> ms != [] && !HasDrift(old(db), ms) && Unapplied(old(db), ms) == []
      ensures outcome == NoFiles || outcome == Drift || outcome == UpToDate ==> db == old(db) && done == 0
      ensures done <= |Unapplied(old(db), ms)| && Some(db) == ApplyAll(run, old(db), Unapplied(old(db), ms)[..done])
      ensures outcome == Succeeded ==> done == |Unapplied(old(db), ms)| && Some(db) == Complete(run, old(db), ms)
      ensures outcome.SqlFailed? ==> outcome.at == done < |Unapplied(old(db), ms)|
      ensures outcome.SqlFailed? ==> ApplyAll(run, old(db), Unapplied(old(db), ms)[..done + 1]).None?
      ensures outcome.SqlFailed? ==> Complete(run, old(db), ms).None?
      ensures outcome.Stopped? ==> outcome.at == done == stopAt < |Unapplied(old(db), ms)|
    {
      done := 0;
      if ms == [] { return NoFiles, 0; }
      if HasDrift(db, ms) { return Drift, 0; }
      var pending := Unapplied(db, ms);
      if pending == [] { return UpToDate, 0; }
      while done < |pending|
        invariant done <= |pending| && Some(db) == ApplyAll(run, old(db), pending[..done])
      {
        if done == stopAt { return Stopped(done), done; }
        ApplyAllSnoc(run, old(db), pending, done);
        var ok := ApplyOne(pending[done]);
        if !ok {
          FailsOn(run, old(db), pending, done + 1);
          return SqlFailed(done), done;
        }
        done := done + 1;
      }
      assert pending[..done] == pending;
      outcome := Succeeded;
    }
  }

  /** One more transaction. */
  lemma {:induction false} ApplyAllSnoc<S>(run: Effect<S>, db: Db<S>, ms: seq<Migration>, k: nat)
    requires k < |ms| && ApplyAll(run, db, ms[..k]).Some?
    ensures var before := ApplyAll(run, db, ms[..k]).value;
      ApplyAll(run, db, ms[..k + 1]) ==
        match run(ms[k].content, before.schema)
        case None => None
        case Some(schema) => Some(Recorded(before, ms[k], schema))
    decreases k
  {
    if k > 0 {
      assert ms[..k][0] == ms[0] && ms[..k][1..] == ms[1..][..k - 1] && ms[..k + 1][1..] == ms[1..][..k];
      ApplyAllSnoc(run, Recorded(db, ms[0], run(ms[0].content, db.schema).value), ms[1..], k - 1);
    }
  }

  /** What fails on a prefix fails. */
  lemma {:induction false} FailsOn<S>(run: Effect<S>, db: Db<S>, ms: seq<Migration>, k: nat)
    requires k <= |ms| && ApplyAll(run, db, ms[..k]).None?
    ensures ApplyAll(run, db, ms).None?
    decreases k
  {
    if k > 0 && run(ms[0].content, db.schema).Some? {
      assert ms[..k][1..] == ms[1..][..k - 1];
      FailsOn(run, Recorded(db, ms[0], run(ms[0].content, db.schema).value), ms[1..], k - 1);
    }
  }

  // ---------------------------------------------------------------- resuming

  /** Applying in two goes is applying in one. */
  lemma {:induction false} ApplyAllSplit<S>(run: Effect<S>, db: Db<S>, ms: seq<Migration>, k: nat)
    requires k <= |ms| && ApplyAll(run, db, ms[..k]).Some?
    ensures ApplyAll(run, db, ms) == ApplyAll(run, ApplyAll(run, db, ms[..k]).value, ms[k..])
    decreases k
  {
    if k > 0 {
      assert ms[..k][0] == ms[0] && ms[..k][1..] == ms[1..][..k - 1] && ms[1..][k - 1..] == ms[k..];
      ApplyAllSplit(run, Recorded(db, ms[0], run(ms[0].content, db.schema).value), ms[1..], k - 1);
    }
  }

  /** The versions on record afterwards, with their checksums. */
  lemma {:induction false} AppliedAfter<S>(run: Effect<S>, db: Db<S>, ms: seq<Migration>, v: string)
    requires ApplyAll(run, db, ms).Some?
    ensures v in ApplyAll(run, db, ms).value.applied <==>
      v in db.applied || exists i | 0 <= i < |ms| :: ms[i].version == v
    ensures (forall i | 0 <= i < |ms| :: ms[i].version != v) && v in db.applied ==>
      v in ApplyAll(run, db, ms).value.applied && ApplyAll(run, db, ms).value.applied[v] == db.applied[v]
    decreases |ms|
  {
    if ms != [] {
      AppliedAfter(run, Recorded(db, ms[0], run(ms[0].content, db.schema).value), ms[1..], v);
      assert ms == [ms[0]] + ms[1..];
    }
  }

  lemma {:induction false} PendingMeans<S>(db: Db<S>, ms: seq<Migration>, m: Migration)
    ensures m in Unapplied(db, ms) <==> m in ms && m.version !in db.applied
    decreases |ms|
  {
    if ms != [] { PendingMeans(db, ms[1..], m); }
  }

  /** Pending is every file whose version is not on record, as often as it is there. */
  lemma {:induction false} PendingCounts<S>(db: Db<S>, ms: seq<Migration>, m: Migration)
    ensures multiset(Unapplied(db, ms))[m] == if m.version in db.applied then 0 else multiset(ms)[m]
    decreases |ms|
  {
    if ms != [] {
      PendingCounts(db, ms[1..], m);
      assert ms == [ms[0]] + ms[1..];
    }
  }

  /** And in the order of the files. */
  lemma {:induction false} PendingInOrder<S>(db: Db<S>, ms: seq<Migration>, name: Migration -> string)
    requires Ascending(name, ms)
    ensures Ascending(name, Unapplied(db, ms))
    decreases |ms|
  {
    if ms != [] {
      PendingInOrder(db, ms[1..], name);
      forall m | m in Unapplied(db, ms[1..]) ensures AtMost(name(ms[0]), name(m)) {
        PendingMeans(db, ms[1..], m);
        var i :| 0 <= i < |ms[1..]| && ms[1..][i] == m;
        assert AtMost(name(ms[0]), name(ms[i + 1]));
      }
      FirstOfAscending(name, ms[0], Unapplied(db, ms[1..]));
    }
  }

  lemma FirstOfAscending(name: Migration -> string, first: Migration, rest: seq<Migration>)
    requires Ascending(name, rest) && forall m | m in rest :: AtMost(name(first), name(m))
    ensures Ascending(name, [first] + rest)
  {
  }

  /** With `done` recorded, exactly they are no longer pending. */
  lemma {:induction false} PendingShrinks<S>(db: Db<S>, later: Db<S>, ms: seq<Migration>, done: set<string>)
    requires later.applied.Keys == db.applied.Keys + done
    ensures Unapplied(later, ms) == Without(Unapplied(db, ms), done)
    decreases |ms|
  {
    if ms != [] {
      PendingShrinks(db, later, ms[1..], done);
      var rest := Unapplied(db, ms[1..]);
      assert ([ms[0]] + rest)[1..] == rest && [] + rest == rest;
      assert later.applied.Keys == db.applied.Keys + done;
      assert ms[0].version in later.applied <==> ms[0].version in db.applied || ms[0].version in done;
    }
  }

  function Without(ms: seq<Migration>, done: set<string>): seq<Migration> {
    if ms == [] then [] else (if ms[0].version in done then [] else [ms[0]]) + Without(ms[1..], done)
  }

  ghost function Versions(ms: seq<Migration>): set<string> { set i | 0 <= i < |ms| :: ms[i].version }

  lemma {:induction false} WithoutConcat(x: seq<Migration>, y: seq<Migration>, done: set<string>)
    ensures Without(x + y, done) == Without(x, done) + Without(y, done)
  {
    if x == [] {
      assert x + y == y;
    } else {
      assert (x + y)[1..] == x[1..] + y;
      WithoutConcat(x[1..], y, done);
    }
  }

  lemma {:induction false} WithoutAll(ms: seq<Migration>, done: set<string>)
    requires forall i | 0 <= i < |ms| :: ms[i].version in done
    ensures Without(ms, done) == []
  {
    if ms != [] { WithoutAll(ms[1..], done); }
  }

  lemma {:induction false} WithoutNone(ms: seq<Migration>, done: set<string>)
    requires forall i | 0 <= i < |ms| :: ms[i].version !in done
    ensures Without(ms, done) == ms
  {
    if ms != [] { WithoutNone(ms[1..], done); }
  }

  lemma RecordedVersions<S>(run: Effect<S>, db: Db<S>, ms: seq<Migration>)
    requires ApplyAll(run, db, ms).Some?
    ensures ApplyAll(run, db, ms).value.applied.Keys == db.applied.Keys + Versions(ms)
  {
    var later := ApplyAll(run, db, ms).value;
    forall v ensures v in later.applied.Keys <==> v in db.applied.Keys + Versions(ms) {
      AppliedAfter(run, db, ms, v);
    }
  }

  /** After a stop, what was applied is no longer pending, nor is anything with one of its versions. */
  lemma PendingAfterStop<S>(run: Effect<S>, db: Db<S>, ms: seq<Migration>, k: nat)
    requires k <= |Unapplied(db, ms)| && ApplyAll(run, db, Unapplied(db, ms)[..k]).Some?
    ensures var pending := Unapplied(db, ms);
      var later := ApplyAll(run, db, pending[..k]).value;
      Unapplied(later, ms) == Without(pending[k..], Versions(pending[..k]))
  {
    var pending := Unapplied(db, ms);
    var done := Versions(pending[..k]);
    var later := ApplyAll(run, db, pending[..k]).value;
    RecordedVersions(run, db, pending[..k]);
    PendingShrinks(db, later, ms, done);
    assert pending == pending[..k] + pending[k..];
    WithoutConcat(pending[..k], pending[k..], done);
    WithoutAll(pending[..k], done);
  }

  /** If the pending versions are unique, the rest stays pending, and unique. */
  lemma UniqueAfterStop<S>(run: Effect<S>, db: Db<S>, ms: seq<Migration>, k: nat)
    requires UniqueVersions(Unapplied(db, ms))
    requires k <= |Unapplied(db, ms)| && ApplyAll(run, db, Unapplied(db, ms)[..k]).Some?
    ensures Unapplied(ApplyAll(run, db, Unapplied(db, ms)[..k]).value, ms) == Unapplied(db, ms)[k..]
    ensures UniqueVersions(Unapplied(db, ms)[k..])
  {
    var pending := Unapplied(db, ms);
    PendingAfterStop(run, db, ms, k);
    forall i | 0 <= i < |pending[k..]| ensures pending[k..][i].version !in Versions(pending[..k]) {
      assert pending[k..][i] == pending[k + i];
    }
    WithoutNone(pending[k..], Versions(pending[..k]));
  }

  /** Where a run was stopped makes no difference to where the uninterrupted run from there ends. */
  lemma ResumeOnce<S>(run: Effect<S>, db: Db<S>, ms: seq<Migration>, k: nat)
    requires UniqueVersions(Unapplied(db, ms))
    requires k <= |Unapplied(db, ms)| && ApplyAll(run, db, Unapplied(db, ms)[..k]).Some?
    ensures var later := ApplyAll(run, db, Unapplied(db, ms)[..k]).value;
      Complete(run, later, ms) == Complete(run, db, ms) && UniqueVersions(Unapplied(later, ms))
  {
    UniqueAfterStop(run, db, ms, k);
    ApplyAllSplit(run, db, Unapplied(db, ms), k);
  }

  /** The databases that runs stopped at `stops`, one after another, can leave behind. */
  ghost predicate StoppedRuns<S(!new)>(run: Effect<S>, db: Db<S>, ms: seq<Migration>, stops: seq<nat>, last: Db<S>)
    decreases |stops|
  {
    if stops == [] then last == db
    else
      && stops[0] <= |Unapplied(db, ms)|
      && ApplyAll(run, db, Unapplied(db, ms)[..stops[0]]).Some?
      && StoppedRuns(run, ApplyAll(run, db, Unapplied(db, ms)[..stops[0]]).value, ms, stops[1..], last)
  }

  /**
    Resume refinement: after any number of runs that failed or died anywhere, a run that
    succeeds leaves the same schema and the same versions as one uninterrupted run would have.
  */
  lemma {:induction false} ResumeRefines<S(!new)>(run: Effect<S>, db: Db<S>, ms: seq<Migration>, stops: seq<nat>,
                                                  last: Db<S>)
    requires UniqueVersions(Unapplied(db, ms)) && StoppedRuns(run, db, ms, stops, last)
    ensures Complete(run, last, ms) == Complete(run, db, ms)
    decreases |stops|
  {
    if stops != [] {
      ResumeOnce(run, db, ms, stops[0]);
      ResumeRefines(run, ApplyAll(run, db, Unapplied(db, ms)[..stops[0]]).value, ms, stops[1..], last);
    }
  }

  /** A further run finds nothing pending. */
  lemma NothingLeft<S>(run: Effect<S>, db: Db<S>, ms: seq<Migration>)
    requires Complete(run, db, ms).Some?
    ensures Unapplied(Complete(run, db, ms).value, ms) == []
    ensures Complete(run, Complete(run, db, ms).value, ms) == Complete(run, db, ms)
  {
    var later := Complete(run, db, ms).value;
    if Unapplied(later, ms) != [] {
      var m := Unapplied(later, ms)[0];
      PendingMeans(later, ms, m);
      PendingMeans(db, ms, m);
      AppliedAfter(run, db, Unapplied(db, ms), m.version);
    }
  }

  // ---------------------------------------------------------------- effects, once each

  /** A schema that remembers the SQL it was given. */
  function Remember(content: string, schema: seq<string>): Option<seq<string>> { Some(schema + [content]) }

  function Contents(ms: seq<Migration>): seq<string> { seq(|ms|, i requires 0 <= i < |ms| => ms[i].content) }

  /** Every pending migration takes effect exactly once, in file order, and nothing else does. */
  lemma {:induction false} EachOnce(db: Db<seq<string>>, ms: seq<Migration>)
    ensures ApplyAll(Remember, db, ms).Some?
    ensures ApplyAll(Remember, db, ms).value.schema == db.schema + Contents(ms)
    decreases |ms|
  {
    if ms == [] {
      assert db.schema + Contents(ms) == db.schema;
    } else {
      EachOnce(Recorded(db, ms[0], db.schema + [ms[0].content]), ms[1..]);
      assert Contents(ms) == [ms[0].content] + Contents(ms[1..]);
    }
  }

  // ---------------------------------------------------------------- duplicate versions

  ghost predicate Consistent(ms: seq<Migration>) {
    forall i, j | 0 <= i < |ms| && 0 <= j < |ms| && ms[i].version == ms[j].version :: ms[i].checksum == ms[j].checksum
  }

  ghost predicate ChecksumOf(ms: seq<Migration>, i: int, v: string, checksum: string) {
    0 <= i < |ms| && ms[i].version == v && ms[i].checksum == checksum
  }

  lemma {:induction false} RecordedChecksum<S>(run: Effect<S>, db: Db<S>, ms: seq<Migration>, v: string)
    requires ApplyAll(run, db, ms).Some? && exists i :: 0 <= i < |ms| && ms[i].version == v
    ensures v in ApplyAll(run, db, ms).value.applied
    ensures exists i :: ChecksumOf(ms, i, v, ApplyAll(run, db, ms).value.applied[v])
    decreases |ms|
  {
    var next := Recorded(db, ms[0], run(ms[0].content, db.schema).value);
    AppliedAfter(run, db, ms, v);
    if exists i :: 0 <= i < |ms[1..]| && ms[1..][i].version == v {
      RecordedChecksum(run, next, ms[1..], v);
      var i :| ChecksumOf(ms[1..], i, v, ApplyAll(run, next, ms[1..]).value.applied[v]);
      assert ChecksumOf(ms, i + 1, v, ApplyAll(run, db, ms).value.applied[v]);
    } else {
      assert ms[0].version == v by { assert forall i | 1 <= i < |ms| :: ms[i] == ms[1..][i - 1]; }
      AppliedAfter(run, next, ms[1..], v);
      assert ChecksumOf(ms, 0, v, ApplyAll(run, db, ms).value.applied[v]);
    }
  }

  /** The checksum on record for any file's version is that of some file with this version. */
  lemma OnRecord<S>(run: Effect<S>, db: Db<S>, ms: seq<Migration>, k: nat)
    requires Complete(run, db, ms).Some? && !HasDrift(db, ms) && k < |ms|
    ensures ms[k].version in Complete(run, db, ms).value.applied
    ensures exists i :: ChecksumOf(ms, i, ms[k].version, Complete(run, db, ms).value.applied[ms[k].version])
  {
    var pending, v := Unapplied(db, ms), ms[k].version;
    var later := Complete(run, db, ms).value;
    PendingMeans(db, ms, ms[k]);
    if v in db.applied {
      forall i | 0 <= i < |pending| ensures pending[i].version != v { PendingMeans(db, ms, pending[i]); }
      AppliedAfter(run, db, pending, v);
      assert !Modified(db, ms[k]);
      assert ChecksumOf(ms, k, v, later.applied[v]);
    } else {
      RecordedChecksum(run, db, pending, v);
      var i :| ChecksumOf(pending, i, v, later.applied[v]);
      PendingMeans(db, ms, pending[i]);
      var j :| 0 <= j < |ms| && ms[j] == pending[i];
      assert ChecksumOf(ms, j, v, later.applied[v]);
    }
  }

  /**
    Nothing stops two files from carrying the same version. A successful run applies both, and
    the next run then refuses to start, unless all files of a version have the same checksum.
  */
  lemma DriftAfterSuccess<S>(run: Effect<S>, db: Db<S>, ms: seq<Migration>)
    requires Complete(run, db, ms).Some? && !HasDrift(db, ms)
    ensures !HasDrift(Complete(run, db, ms).value, ms) <==> Consistent(ms)
  {
    var later := Complete(run, db, ms).value;
    if Consistent(ms) {
      forall k | 0 <= k < |ms| ensures !Modified(later, ms[k]) {
        OnRecord(run, db, ms, k);
        var i :| ChecksumOf(ms, i, ms[k].version, later.applied[ms[k].version]);
      }
    } else {
      var i, j :| 0 <= i < |ms| && 0 <= j < |ms| && ms[i].version == ms[j].version && ms[i].checksum != ms[j].checksum;
      OnRecord(run, db, ms, i);
      assert Modified(later, ms[i]) || Modified(later, ms[j]);
    }
  }

  /**
    If pending files of one version have one checksum, wherever a run is stopped, the next one gets
    past the drift check.
  */
  lemma StopLeavesNoDrift<S>(run: Effect<S>, db: Db<S>, ms: seq<Migration>, k: nat)
    requires Consistent(Unapplied(db, ms)) && !HasDrift(db, ms)
    requires k <= |Unapplied(db, ms)| && ApplyAll(run, db, Unapplied(db, ms)[..k]).Some?
    ensures !HasDrift(ApplyAll(run, db, Unapplied(db, ms)[..k]).value, ms)
  {
    var done := Unapplied(db, ms)[..k];
    var later := ApplyAll(run, db, done).value;
    forall i | 0 <= i < |ms| ensures !Modified(later, ms[i]) {
      var v := ms[i].version;
      assert !Modified(db, ms[i]);
      AppliedAfter(run, db, done, v);
      if exists j :: 0 <= j < |done| && done[j].version == v {
        RecordedChecksum(run, db, done, v);
        var j :| ChecksumOf(done, j, v, later.applied[v]);
        PendingMeans(db, ms, done[j]);
        PendingMeans(db, ms, ms[i]);
      }
    }
  }

  /** What is pending after a stop was pending before. */
  lemma ConsistentAfterStop<S>(run: Effect<S>, db: Db<S>, ms: seq<Migration>, k: nat)
    requires Consistent(Unapplied(db, ms))
    requires k <= |Unapplied(db, ms)| && ApplyAll(run, db, Unapplied(db, ms)[..k]).Some?
    ensures Consistent(Unapplied(ApplyAll(run, db, Unapplied(db, ms)[..k]).value, ms))
  {
    var later := ApplyAll(run, db, Unapplied(db, ms)[..k]).value;
    forall m | m in Unapplied(later, ms) ensures m in Unapplied(db, ms) {
      PendingMeans(later, ms, m);
      PendingMeans(db, ms, m);
      AppliedAfter(run, db, Unapplied(db, ms)[..k], m.version);
    }
    forall i, j | 0 <= i < |Unapplied(later, ms)| && 0 <= j < |Unapplied(later, ms)|
                  && Unapplied(later, ms)[i].version == Unapplied(later, ms)[j].version
      ensures Unapplied(later, ms)[i].checksum == Unapplied(later, ms)[j].checksum
    {
      assert Unapplied(later, ms)[i] in Unapplied(db, ms) && Unapplied(later, ms)[j] in Unapplied(db, ms);
    }
  }

  lemma {:induction false} StopsLeaveNoDrift<S(!new)>(run: Effect<S>, db: Db<S>, ms: seq<Migration>, stops: seq<nat>,
                                                      last: Db<S>)
    requires Consistent(Unapplied(db, ms)) && !HasDrift(db, ms) && StoppedRuns(run, db, ms, stops, last)
    ensures !HasDrift(last, ms)
    decreases |stops|
  {
    if stops != [] {
      StopLeavesNoDrift(run, db, ms, stops[0]);
      ConsistentAfterStop(run, db, ms, stops[0]);
      StopsLeaveNoDrift(run, ApplyAll(run, db, Unapplied(db, ms)[..stops[0]]).value, ms, stops[1..], last);
    }
  }

  // ---------------------------------------------------------------- when resuming works, exactly

  lemma OneStop<S(!new)>(run: Effect<S>, db: Db<S>, ms: seq<Migration>, k: nat)
    requires k <= |Unapplied(db, ms)| && ApplyAll(run, db, Unapplied(db, ms)[..k]).Some?
    ensures StoppedRuns(run, db, ms, [k], ApplyAll(run, db, Unapplied(db, ms)[..k]).value)
  {
    var later := ApplyAll(run, db, Unapplied(db, ms)[..k]).value;
    assert StoppedRuns(run, later, ms, [], later) && [k][1..] == [];
  }

  lemma {:induction false} WithoutShrinks(ms: seq<Migration>, done: set<string>)
    ensures |Without(ms, done)| <= |ms|
    ensures (exists i :: 0 <= i < |ms| && ms[i].version in done) ==> |Without(ms, done)| < |ms|
  {
    if ms != [] {
      WithoutShrinks(ms[1..], done);
      if ms[0].version !in done && exists i :: 0 <= i < |ms| && ms[i].version in done {
        var i :| 0 <= i < |ms| && ms[i].version in done;
        assert ms[1..][i - 1] == ms[i];
      }
    }
  }

  /** Two pending files of one version, and a stop after the first: the second is never applied. */
  lemma StopBetweenDuplicates(db: Db<seq<string>>, ms: seq<Migration>, i: nat, j: nat)
    requires i < j < |Unapplied(db, ms)| && Unapplied(db, ms)[i].version == Unapplied(db, ms)[j].version
    ensures ApplyAll(Remember, db, Unapplied(db, ms)[..i + 1]).Some?
    ensures Complete(Remember, ApplyAll(Remember, db, Unapplied(db, ms)[..i + 1]).value, ms) !=
      Complete(Remember, db, ms)
  {
    var pending := Unapplied(db, ms);
    var before, rest := pending[..i + 1], pending[i + 1..];
    EachOnce(db, before);
    var later := ApplyAll(Remember, db, before).value;
    PendingAfterStop(Remember, db, ms, i + 1);
    assert rest[j - (i + 1)].version in Versions(before) by {
      assert before[i].version == rest[j - (i + 1)].version;
    }
    WithoutShrinks(rest, Versions(before));
    EachOnce(later, Unapplied(later, ms));
    EachOnce(db, pending);
  }

  /** The same, over the schema that remembers everything. */
  ghost predicate Stops(db: Db<seq<string>>, ms: seq<Migration>, stops: seq<nat>, last: Db<seq<string>>) {
    StoppedRuns(Remember, db, ms, stops, last)
  }

  /** Wherever runs are stopped, the uninterrupted run from there ends as one from the start does. */
  ghost predicate Resumes(db: Db<seq<string>>, ms: seq<Migration>) {
    forall stops, last | Stops(db, ms, stops, last) :: Complete(Remember, last, ms) == Complete(Remember, db, ms)
  }

  /** Wherever runs are stopped, the next one gets past the drift check. */
  ghost predicate NeverDrifts(db: Db<seq<string>>, ms: seq<Migration>) {
    forall stops, last | Stops(db, ms, stops, last) :: !HasDrift(last, ms)
  }

  /** Stopped runs make no difference exactly if no two pending files share a version. */
  lemma ResumesExactlyIfUnique(db: Db<seq<string>>, ms: seq<Migration>)
    ensures Resumes(db, ms) <==> UniqueVersions(Unapplied(db, ms))
  {
    var pending := Unapplied(db, ms);
    if UniqueVersions(pending) {
      forall stops, last | Stops(db, ms, stops, last)
        ensures Complete(Remember, last, ms) == Complete(Remember, db, ms)
      {
        ResumeRefines(Remember, db, ms, stops, last);
      }
    } else {
      var i, j :| 0 <= i < j < |pending| && pending[i].version == pending[j].version;
      StopBetweenDuplicates(db, ms, i, j);
      OneStop(Remember, db, ms, i + 1);
      assert Stops(db, ms, [i + 1], ApplyAll(Remember, db, pending[..i + 1]).value);
    }
  }

  /** A stop right after the later of two pending files of one version leaves its checksum on record. */
  lemma StopAfterDuplicate(db: Db<seq<string>>, ms: seq<Migration>, i: nat, j: nat)
    requires i < |Unapplied(db, ms)| && j < |Unapplied(db, ms)|
    requires Unapplied(db, ms)[i].version == Unapplied(db, ms)[j].version
    requires Unapplied(db, ms)[i].checksum != Unapplied(db, ms)[j].checksum
    ensures ApplyAll(Remember, db, Unapplied(db, ms)[..j + 1]).Some?
    ensures HasDrift(ApplyAll(Remember, db, Unapplied(db, ms)[..j + 1]).value, ms)
  {
    var pending := Unapplied(db, ms);
    EachOnce(db, pending[..j]);
    ApplyAllSnoc(Remember, db, pending, j);
    PendingMeans(db, ms, pending[i]);
    var k :| 0 <= k < |ms| && ms[k] == pending[i];
    assert Modified(ApplyAll(Remember, db, pending[..j + 1]).value, ms[k]);
  }

  /** And the drift check never stops the next run exactly if pending files of one version have one checksum. */
  lemma NoDriftExactlyIfConsistent(db: Db<seq<string>>, ms: seq<Migration>)
    requires !HasDrift(db, ms)
    ensures NeverDrifts(db, ms) <==> Consistent(Unapplied(db, ms))
  {
    var pending := Unapplied(db, ms);
    if Consistent(pending) {
      forall stops, last | Stops(db, ms, stops, last) ensures !HasDrift(last, ms) {
        StopsLeaveNoDrift(Remember, db, ms, stops, last);
      }
    } else {
      var i, j :| 0 <= i < |pending| && 0 <= j < |pending| && pending[i].version == pending[j].version
                  && pending[i].checksum != pending[j].checksum;
      StopAfterDuplicate(db, ms, i, j);
      OneStop(Remember, db, ms, j + 1);
      assert Stops(db, ms, [j + 1], ApplyAll(Remember, db, pending[..j + 1]).value);
    }
  }

  const TWICE := [Migration("1", "a", "1_a.sql", "x", "c"), Migration("1", "b", "1_b.sql", "x", "c")]

  /**
    With a version twice, resuming is not refinement: the uninterrupted run applies both files, the
    resumed one only the first.
  */
  lemma DuplicatesBreakResume() returns (first: Db<seq<string>>)
    ensures Consistent(TWICE) && StoppedRuns(Remember, Db([], map[]), TWICE, [1], first)
    ensures Complete(Remember, Db([], map[]), TWICE).Some? && Complete(Remember, first, TWICE).Some?
    ensures Complete(Remember, Db([], map[]), TWICE).value.schema == ["x", "x"]
    ensures Complete(Remember, first, TWICE).value.schema == ["x"]
  {
    var empty: Db<seq<string>> := Db([], map[]);
    first := Db(["x"], map["1" := "c"]);
    assert TWICE[1..] == [TWICE[1]] && TWICE[1..][1..] == [];
    assert Unapplied(empty, TWICE) == TWICE by {
      assert Unapplied(empty, TWICE[1..]) == [TWICE[1]] + Unapplied(empty, []);
    }
    assert Unapplied(first, TWICE) == [] by { assert Unapplied(first, TWICE[1..]) == [] + Unapplied(first, []); }
    EachOnce(empty, TWICE);
    assert TWICE[..1] == [TWICE[0]] && [TWICE[0]][1..] == [];
    assert [] + ["x"] == ["x"];
    assert ApplyAll(Remember, empty, TWICE[..1]) == Some(first) by {
      assert ApplyAll(Remember, first, []) == Some(first);
      assert Recorded(empty, TWICE[0], ["x"]) == first;
    }
    assert StoppedRuns(Remember, first, TWICE, [], first) && [1][1..] == [];
  }
}
