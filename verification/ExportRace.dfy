// Exactly when the race can lose a row.
module ExportRaces {
  import opened Options
  import opened Sequences
  import opened ArchiveTypes
  import opened Exports
  import opened ExportLogs
  import opened ExportOnce

  lemma RunMore(w: World, moves: seq<Move>, m: Move)
    ensures Run(w, moves + [m]) == Do(Run(w, moves), m)
  {
    assert (moves + [m])[..|moves|] == moves;
  }

  lemma {:induction false} RunOn(w: World, before: seq<Move>, after: seq<Move>)
    ensures Run(w, before + after) == Run(Run(w, before), after)
    decreases |after|
  {
    if |after| == 0 {
      NothingMore(before);
    } else {
      FrontOfAppend(before, after);
      RunOn(w, before, after[..|after| - 1]);
    }
  }

  // What exports have found out is about writes that have happened.
  ghost predicate Told(seen: Seen) {
    && (forall s | s in seen.absent :: s.version <= VersionOf(seen, s.e))
    && (forall s | s in seen.skipped :: s.version <= VersionOf(seen, s.e))
  }

  // ----- a row that comes back is lost ----------------------------------------------

  // The last word on the row is a delete.
  ghost predicate Sealed(fs: Fs, e: Entity) {
    |fs.v1| in fs.v2 && LastIn(fs.v2[|fs.v1|], e) == Some(Deleted(e))
  }

  // The row is there to be upserted, and no export has seen this version.
  ghost predicate Back(w: World, e: Entity, version: nat) {
    && VerdictOf(w.db.rows, e).Upsert? && e in w.seen.versions && w.seen.versions[e] == version
    && Stamp(e, version) !in w.seen.skipped && Stamp(e, version) !in w.seen.absent
  }

  ghost predicate KeysIn(db: Db, e: Entity, keys: set<nat>) {
    forall k | k in db.dirty && db.dirty[k] == e :: k in keys
  }

  function TodoKeys(todo: seq<(nat, Entity)>): set<nat> {
    set i | 0 <= i < |todo| :: todo[i].0
  }

  function DoneKeys(done: seq<Done>): set<nat> {
    set i | 0 <= i < |done| :: done[i].key
  }

  // The export has republished the delete of the row, and only its own steps are
  // to come.
  ghost predicate Doomed(w: World, e: Entity, version: nat) {
    Back(w, e, version) &&
    match w.pc
    case Idle => Sealed(w.fs, e) && e !in w.db.dirty.Values
    case Pruning(job, tombs) => tombs == {} && e in job.emitted
    case Draining(job, todo) =>
      e in job.emitted && KeysIn(w.db, e, TodoKeys(todo) + DoneKeys(job.processed))
    case Committing(job, stage) =>
      && e in job.emitted && KeysIn(w.db, e, DoneKeys(job.processed))
      && (stage.PutV1? || stage.PutV2? || Sealed(w.fs, e))
    case Clearing(done) => Sealed(w.fs, e) && KeysIn(w.db, e, DoneKeys(done))
  }

  function StagesLeft(stage: Stage): nat {
    match stage
    case PutV1 => 7
    case PutV2 => 6
    case PutV3 => 5
    case PutTombs => 4
    case PutHistory => 3
  }

  // More than the steps that are left.
  function Left(w: World): nat {
    match w.pc
    case Idle => 0
    case Pruning(job, _) => 2 * |Queue(w.db.dirty, w.db.nextDirty)| + |job.processed| + 9
    case Draining(job, todo) => 2 * |todo| + |job.processed| + 8
    case Committing(job, stage) => |job.processed| + StagesLeft(stage)
    case Clearing(done) => |done| + 1
  }

  lemma {:induction false} QueueListsAll(dirty: map<nat, Entity>, n: nat, k: nat)
    requires k in dirty && k < n
    ensures exists i :: 0 <= i < |Queue(dirty, n)| && Queue(dirty, n)[i] == (k, dirty[k])
  {
    var before := Queue(dirty, n - 1);
    if k < n - 1 {
      QueueListsAll(dirty, n - 1, k);
      var i :| 0 <= i < |before| && before[i] == (k, dirty[k]);
      assert Queue(dirty, n)[i] == before[i];
    } else {
      assert Queue(dirty, n)[|before|] == (k, dirty[k]);
    }
  }

  lemma SnapshotDooms(w: World, e: Entity, version: nat)
    requires QueueInv(w.db, w.seen) && Doomed(w, e, version) && w.pc.Pruning?
    ensures Doomed(Snapshot(w), e, version) && Left(Snapshot(w)) < Left(w)
  {
    var todo := Queue(w.db.dirty, w.db.nextDirty);
    forall k | k in w.db.dirty && w.db.dirty[k] == e
      ensures k in TodoKeys(todo)
    {
      QueueListsAll(w.db.dirty, w.db.nextDirty, k);
      var i :| 0 <= i < |todo| && todo[i] == (k, w.db.dirty[k]);
    }
  }

  lemma FirstDone(todo: seq<(nat, Entity)>, done: seq<Done>, d: Done)
    requires |todo| > 0 && d.key == todo[0].0
    ensures TodoKeys(todo) + DoneKeys(done) <= TodoKeys(todo[1..]) + DoneKeys(done + [d])
  {
    forall i | 0 <= i < |todo|
      ensures todo[i].0 in TodoKeys(todo[1..]) + DoneKeys(done + [d])
    {
      if i == 0 {
        assert (done + [d])[|done|].key == todo[0].0;
      } else {
        assert todo[1..][i - 1] == todo[i];
      }
    }
    forall i | 0 <= i < |done|
      ensures done[i].key in DoneKeys(done + [d])
    {
      assert (done + [d])[i] == done[i];
    }
  }

  lemma FetchKeepsBack(w: World, e: Entity, version: nat)
    requires Back(w, e, version) && w.pc.Draining? && |w.pc.todo| > 0
    ensures Back(Fetch(w), e, version) && Fetch(w).db == w.db
  {
  }

  lemma FetchMoves(w: World)
    requires w.pc.Draining? && |w.pc.todo| > 0
    ensures var todo, job, job' := w.pc.todo, w.pc.job, Fetch(w).pc.job;
            && Fetch(w).pc == Draining(job', todo[1..]) && job.emitted <= job'.emitted
            && job'.processed == job.processed + [Done(todo[0].0, todo[0].1, VersionOf(w.seen, todo[0].1))]
  {
  }

  lemma FetchDooms(w: World, e: Entity, version: nat)
    requires Doomed(w, e, version) && w.pc.Draining? && |w.pc.todo| > 0
    ensures Doomed(Fetch(w), e, version) && Left(Fetch(w)) < Left(w)
  {
    var job, todo := w.pc.job, w.pc.todo;
    FetchKeepsBack(w, e, version);
    FetchMoves(w);
    FirstDone(todo, job.processed, Done(todo[0].0, todo[0].1, VersionOf(w.seen, todo[0].1)));
  }

  lemma FinishDooms(w: World, e: Entity, version: nat)
    requires Doomed(w, e, version) && w.pc.Draining? && w.pc.todo == []
    ensures Doomed(Finish(w), e, version) && Left(Finish(w)) < Left(w)
  {
    assert TodoKeys(w.pc.todo) == {};
  }

  // The file with the republished delete is the last one.
  lemma PutSeals(w: World, e: Entity)
    requires Inv(w) && w.pc.Committing? && w.pc.stage.PutV2? && e in w.pc.job.emitted
    ensures Sealed(Commit(w).fs, e)
  {
    assert LastIn(w.pc.job.v2, e) == Some(Deleted(e));
    assert w.pc.job.v2 != [];
  }

  // Putting the second file will seal it.
  ghost predicate WillSeal(w: World, e: Entity) {
    w.pc.Committing? && w.pc.stage.PutV2? && e in w.pc.job.emitted ==> Sealed(Commit(w).fs, e)
  }

  lemma InvSeals(w: World, e: Entity)
    requires Inv(w)
    ensures QueueInv(w.db, w.seen) && WillSeal(w, e)
  {
    if w.pc.Committing? && w.pc.stage.PutV2? && e in w.pc.job.emitted {
      PutSeals(w, e);
    }
  }

  lemma CommitDooms(w: World, e: Entity, version: nat)
    requires WillSeal(w, e) && Doomed(w, e, version) && w.pc.Committing?
    ensures Doomed(Commit(w), e, version) && Left(Commit(w)) < Left(w)
  {
  }

  lemma ClearDooms(w: World, e: Entity, version: nat)
    requires Doomed(w, e, version) && w.pc.Clearing?
    ensures Doomed(Clear(w), e, version) && Left(Clear(w)) < Left(w)
  {
    var done := w.pc.done;
    if |done| == 0 {
      assert DoneKeys(done) == {};
    } else {
      forall k | k in w.db.dirty && w.db.dirty[k] == e && k != done[0].key
        ensures k in DoneKeys(done[1..])
      {
        var i :| 0 <= i < |done| && done[i].key == k;
        assert done[1..][i - 1] == done[i];
      }
    }
  }

  lemma GoDooms(w: World, e: Entity, version: nat)
    requires QueueInv(w.db, w.seen) && WillSeal(w, e) && Doomed(w, e, version) && !w.pc.Idle?
    ensures Doomed(Do(w, Go), e, version) && Left(Do(w, Go)) < Left(w)
  {
    match w.pc
    case Pruning(_, _) => SnapshotDooms(w, e, version);
    case Draining(_, todo) =>
      if |todo| > 0 {
        FetchDooms(w, e, version);
      } else {
        FinishDooms(w, e, version);
      }
    case Committing(_, _) => CommitDooms(w, e, version);
    case Clearing(_) => ClearDooms(w, e, version);
  }

  // Left alone, the export ends.
  lemma {:induction false} RunsOut(w: World, moves: seq<Move>, e: Entity, version: nat) returns (all: seq<Move>)
    requires Resting(w) && Doomed(Run(w, moves), e, version)
    ensures Run(w, all).pc.Idle? && Doomed(Run(w, all), e, version)
    decreases Left(Run(w, moves))
  {
    all := moves;
    if !Run(w, moves).pc.Idle? {
      RunKeepsInv(w, moves);
      InvSeals(Run(w, moves), e);
      GoDooms(Run(w, moves), e, version);
      RunMore(w, moves, Go);
      all := RunsOut(w, moves + [Go], e, version);
    }
  }

  // ----- up to there -------------------------------------------------------------------

  // The saved tombstones are being looked at, and that of the row is republished.
  ghost predicate Primed(w: World, db: Db, e: Entity) {
    && w.pc.Pruning? && w.pc.job.recovery && w.db == db && Told(w.seen)
    && (e in w.pc.tombs || e in w.pc.job.emitted)
  }

  lemma CheckPrimes(w: World, db: Db, e: Entity, x: Entity)
    requires Primed(w, db, e) && IsGone(db.rows, e) && x in w.pc.tombs
    ensures Primed(Prune(w, x), db, e) && Prune(w, x).pc.tombs == w.pc.tombs - {x}
  {
  }

  lemma {:induction false} ChecksAll(w: World, moves: seq<Move>, db: Db, e: Entity, tombs: set<Entity>)
      returns (all: seq<Move>)
    requires Primed(Run(w, moves), db, e) && IsGone(db.rows, e) && Run(w, moves).pc.tombs == tombs
    ensures Primed(Run(w, all), db, e) && Run(w, all).pc.tombs == {}
    decreases tombs
  {
    all := moves;
    if tombs != {} {
      var x :| x in tombs;
      CheckPrimes(Run(w, moves), db, e, x);
      RunMore(w, moves, Check(x));
      all := ChecksAll(w, moves + [Check(x)], db, e, tombs - {x});
    }
  }

  lemma WriteDooms(w: World, db: Db, e: Entity, row: Row)
    requires Primed(w, db, e) && w.pc.tombs == {}
    requires Tracked(db.rows, e, row) && VerdictOf(db.rows[e := row], e).Upsert?
    ensures Doomed(Do(w, Write(e, Some(row))), e, VersionOf(w.seen, e) + 1)
  {
  }

  // The row is there and will not be looked at, and the log says it is deleted.
  ghost predicate Loses(w: World, moves: seq<Move>, e: Entity) {
    e in Run(w, moves).seen.versions && Lost(Run(w, moves).fs, e, Run(w, moves).seen.versions[e])
  }

  lemma SealedIsLost(w: World, moves: seq<Move>, e: Entity, version: nat)
    requires Resting(w) && Doomed(Run(w, moves), e, version) && Run(w, moves).pc.Idle?
    ensures Loses(w, moves, e)
  {
    RunKeepsInv(w, moves);
    PublishedIffNotLost(w, moves, e);
  }

  // Main result: from any state in which the delete history has to be rebuilt, a
  // row that is gone and whose tombstone is saved is lost if it comes back while
  // the export runs: in the end it is there and not queued, and the last word of
  // the log on it is a delete.
  lemma RecoveryLosesRow(w: World, e: Entity, row: Row) returns (moves: seq<Move>)
    requires Resting(w) && Told(w.seen) && Recovers(w) && e in w.db.tombs && IsGone(w.db.rows, e)
    requires Tracked(w.db.rows, e, row) && VerdictOf(w.db.rows[e := row], e).Upsert?
    ensures var r := Run(w, moves);
            && r.pc.Idle? && e in r.db.rows && e !in r.db.dirty.Values && Loses(w, moves, e)
            && LastWord(r.fs, e) == Some(Deleted(e))
  {
    var begin := [Begin(false, false, [])];
    RunMore(w, [], begin[0]);
    assert [] + begin == begin;
    var checked := ChecksAll(w, begin, w.db, e, w.db.tombs);
    WriteDooms(Run(w, checked), w.db, e, row);
    RunMore(w, checked, Write(e, Some(row)));
    var version := VersionOf(Run(w, checked).seen, e) + 1;
    moves := RunsOut(w, checked + [Write(e, Some(row))], e, version);
    SealedIsLost(w, moves, e, version);
  }

  // ----- otherwise nothing is lost -----------------------------------------------------

  ghost predicate JobCalm(job: Job) {
    && job.raced == {} && (forall e | e in job.emitted :: IsProcessed(job, e))
    && (job.recovery ==> job.tombs <= job.emitted)
  }

  // What an export has found when it began.
  ghost predicate AsBegun(w: World, job: Job) {
    && (job.hadV2 <==> w.fs.v2 != map[])
    && (job.recovery <==> !job.hadV2 && w.db.history)
  }

  // What it has made of it when the second directory has been put.
  ghost predicate AsPut(w: World, job: Job) {
    && (job.hadV2 || job.v2 != [] <==> w.fs.v2 != map[])
    && (job.recovery <==> !job.hadV2 && w.db.history)
  }

  // As long as delete history has to be rebuilt there is no tombstone to republish.
  ghost predicate Calm(w: World) {
    (Recovers(w) ==> w.db.tombs == {}) &&
    match w.pc
    case Idle => true
    case Clearing(_) => true
    case Pruning(job, tombs) => JobCalm(job) && AsBegun(w, job) && (job.recovery ==> tombs == {})
    case Draining(job, _) => JobCalm(job) && AsBegun(w, job)
    case Committing(job, stage) =>
      JobCalm(job) && if stage.PutV1? || stage.PutV2? then AsBegun(w, job) else AsPut(w, job)
  }

  lemma FetchStaysCalm(w: World)
    requires Inv(w) && Calm(w) && w.pc.Draining? && |w.pc.todo| > 0
    ensures Calm(Fetch(w)) && Fetch(w).seen.races == w.seen.races
  {
    var (key, e) := w.pc.todo[0];
    var job, job' := w.pc.job, Fetch(w).pc.job;
    var d := Done(key, e, VersionOf(w.seen, e));
    assert job'.processed == job.processed + [d];
    assert d in job'.processed;
    forall x | IsProcessed(job, x)
      ensures IsProcessed(job', x)
    {
      var y :| y in job.processed && y.e == x;
      assert y in job'.processed;
    }
  }

  lemma CommitStaysCalm(w: World)
    requires Inv(w) && Calm(w) && w.pc.Committing?
    ensures Calm(Commit(w)) && Commit(w).seen.races == w.seen.races
  {
    var job := w.pc.job;
    if job.v2 == [] {
      forall e
        ensures e !in job.emitted
      {
        assert LastIn(job.v2, e).None?;
      }
      assert job.emitted == {};
    }
  }

  lemma {:induction false} BackfillKeepsHistory(w: World, rows: seq<Entity>)
    ensures Backfill(w, rows).db.tombs == w.db.tombs && Backfill(w, rows).db.history == w.db.history
    decreases |rows|
  {
    if |rows| > 0 {
      BackfillKeepsHistory(w, rows[..|rows| - 1]);
    }
  }

  lemma DoStaysCalm(w: World, m: Move)
    requires Inv(w) && Calm(w)
    ensures Calm(Do(w, m)) && Do(w, m).seen.races == w.seen.races
  {
    match m
    case Begin(_, _, rows) =>
      BackfillSameRaces(w, rows);
      BackfillKeepsFs(w, rows);
      BackfillKeepsHistory(w, rows);
    case Go =>
      match w.pc {
        case Draining(_, todo) =>
          if |todo| > 0 {
            FetchStaysCalm(w);
          }
        case Committing(_, _) => CommitStaysCalm(w);
        case _ =>
      }
    case _ =>
  }

  lemma {:induction false} RunStaysCalm(w: World, moves: seq<Move>)
    requires Resting(w) && Calm(w)
    ensures Calm(Run(w, moves)) && Run(w, moves).seen.races == w.seen.races
    decreases |moves|
  {
    if |moves| > 0 {
      RunStaysCalm(w, moves[..|moves| - 1]);
      RunKeepsInv(w, moves[..|moves| - 1]);
      DoStaysCalm(Run(w, moves[..|moves| - 1]), moves[|moves| - 1]);
    }
  }

  ghost predicate Ready(w: World, e: Entity) {
    Resting(w) && Told(w.seen) && Recovers(w) && e in w.db.tombs
  }

  lemma WriteStaysReady(w: World, x: Entity, row: Option<Row>, e: Entity)
    requires Ready(w, e)
    ensures Ready(Do(w, Write(x, row)), e)
  {
    AppWriteKeepsInv(w, x, row);
  }

  // A thread with a message, or a child of such a thread.
  function LocalRow(e: Entity): Row {
    Row(0, Some(e.id), false, false, true, false)
  }

  // Writes that leave the row gone and make room for it to come back.
  function WayMoves(e: Entity): seq<Move> {
    [Write(Entity(Threads, e.id), Some(LocalRow(e)))] + [Write(e, None)]
  }

  lemma WayIsMade(w: World, e: Entity)
    ensures var rows := Do(Do(w, Write(Entity(Threads, e.id), Some(LocalRow(e)))), Write(e, None)).db.rows;
            && IsGone(rows, e)
            && Tracked(rows, e, LocalRow(e)) && VerdictOf(rows[e := LocalRow(e)], e).Upsert?
  {
  }

  lemma MakesWay(w: World, e: Entity)
    requires Ready(w, e)
    ensures var w1 := Run(w, WayMoves(e));
            && Ready(w1, e) && IsGone(w1.db.rows, e)
            && Tracked(w1.db.rows, e, LocalRow(e)) && VerdictOf(w1.db.rows[e := LocalRow(e)], e).Upsert?
  {
    var thread := Entity(Threads, e.id);
    var put := Write(thread, Some(LocalRow(e)));
    assert [] + [put] == [put];
    RunMore(w, [], put);
    RunMore(w, [put], Write(e, None));
    WriteStaysReady(w, thread, Some(LocalRow(e)), e);
    WriteStaysReady(Do(w, put), e, None, e);
    WayIsMade(w, e);
  }

  // Main result: a device whose log shows no loss so far can lose a row exactly when
  // the delete history has to be rebuilt and a tombstone is saved.
  lemma LossIff(w: World)
    requires Resting(w) && Told(w.seen) && FilesOnce(w.fs, w.seen) && w.seen.races == {}
    ensures (exists moves, e :: Loses(w, moves, e)) <==> Recovers(w) && w.db.tombs != {}
  {
    if Recovers(w) && w.db.tombs != {} {
      var e :| e in w.db.tombs;
      MakesWay(w, e);
      var after := RecoveryLosesRow(Run(w, WayMoves(e)), e, LocalRow(e));
      RunOn(w, WayMoves(e), after);
      assert Loses(w, WayMoves(e) + after, e);
    } else {
      forall moves, e
        ensures !Loses(w, moves, e)
      {
        RunStaysCalm(w, moves);
        AtMostOneOperation(w, moves);
        var r := Run(w, moves);
        if Loses(w, moves, e) {
          LostIsRaced(r.fs, r.seen, e, r.seen.versions[e]);
        }
      }
    }
  }

  // A device that has published a delete, whose second directory is then lost.
  lemma SuchDeviceExists(e: Entity)
    ensures var w := World(Db(map[], map[], 0, {e}, true), Fs(map[1 := [Extra]], map[], {}),
                           Seen(map[], {}, {}, {}), Idle);
            && Resting(w) && Told(w.seen) && FilesOnce(w.fs, w.seen) && w.seen.races == {}
            && Recovers(w) && w.db.tombs != {}
  {
    assert Upto(1) == {1};
    assert Once([Extra]);
    assert e in {e};
  }
}
