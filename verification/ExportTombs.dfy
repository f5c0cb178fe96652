// The saved tombstones while the application writes and exports stop anywhere.
module ExportTombs {
  import opened Options
  import opened ArchiveTypes
  import opened Exports
  import opened ExportLogs
  import opened ExportPolicies

  // Every tombstone names a row that is gone or about to be looked at again.
  ghost predicate TombsHold(db: Db, tombs: set<Entity>) {
    forall e | e in tombs :: IsGone(db.rows, e) || e in db.dirty.Values
  }

  // An entry whose row was found gone: as long as it has not been replaced, the
  // row is gone.
  ghost predicate DoneHolds(db: Db, tombs: set<Entity>, d: Done) {
    d.e in tombs && d.key in db.dirty ==> IsGone(db.rows, d.e)
  }

  ghost predicate JobHolds(db: Db, job: Job) {
    TombsHold(db, job.tombs) && forall d | d in job.processed :: DoneHolds(db, job.tombs, d)
  }

  ghost predicate TombInv(w: World) {
    TombsHold(w.db, w.db.tombs) &&
    match w.pc
    case Idle => true
    case Pruning(job, _) => JobHolds(w.db, job)
    case Draining(job, _) => JobHolds(w.db, job)
    case Committing(job, stage) => JobHolds(w.db, job) && (stage.PutHistory? ==> w.db.tombs == job.tombs)
    case Clearing(done) => forall d | d in done :: DoneHolds(w.db, w.db.tombs, d)
  }

  // Every write of the run is to a row of this device.
  predicate IsRecorded(w: World, m: Move) {
    m.Write? && (m.row.Some? || m.e in w.db.rows) ==> WritesOwn(w.db.rows, m.e, m.row)
  }

  ghost predicate RecordedRun(w: World, moves: seq<Move>) {
    |moves| == 0 ||
    (RecordedRun(w, moves[..|moves| - 1]) && IsRecorded(Run(w, moves[..|moves| - 1]), moves[|moves| - 1]))
  }

  // ----- writes -----------------------------------------------------------------------

  // What a recorded write does to the rows and the queue.
  ghost predicate RowWritten(db: Db, e: Entity, db': Db) {
    && db'.dirty == Enqueue(db, e).dirty && db'.nextDirty == db.nextDirty + 1 && db'.tombs == db.tombs
    && (forall x | x != e :: (x in db'.rows <==> x in db.rows) && (x in db.rows ==> db'.rows[x] == db.rows[x]))
  }

  lemma WriteKeepsTombs(db: Db, seen: Seen, e: Entity, db': Db, tombs: set<Entity>)
    requires QueueInv(db, seen) && RowWritten(db, e, db') && TombsHold(db, tombs)
    ensures TombsHold(db', tombs)
  {
    EnqueueKeeps(db, e);
  }

  lemma WriteKeepsDoneHolds(db: Db, seen: Seen, e: Entity, db': Db, tombs: set<Entity>, d: Done)
    requires QueueInv(db, seen) && RowWritten(db, e, db') && Linked(db, d.key, d.e) && DoneHolds(db, tombs, d)
    ensures DoneHolds(db', tombs, d)
  {
    EnqueueKeeps(db, e);
  }

  lemma WriteKeepsJobHolds(db: Db, seen: Seen, e: Entity, db': Db, job: Job)
    requires QueueInv(db, seen) && DoneInv(db, seen, job) && RowWritten(db, e, db') && JobHolds(db, job)
    ensures JobHolds(db', job)
  {
    WriteKeepsTombs(db, seen, e, db', job.tombs);
    forall d | d in job.processed
      ensures DoneHolds(db', job.tombs, d)
    {
      WriteKeepsDoneHolds(db, seen, e, db', job.tombs, d);
    }
  }

  lemma AppWriteKeepsTombs(w: World, e: Entity, row: Option<Row>)
    requires Inv(w) && TombInv(w) && IsRecorded(w, Write(e, row))
    ensures TombInv(AppWrite(w, e, row))
  {
    var db, db' := w.db, AppWrite(w, e, row).db;
    OwnWritesAreQueued(w, e, row);
    if db' != db {
      WriteKeepsTombs(db, w.seen, e, db', db.tombs);
      match w.pc
      case Idle =>
      case Pruning(job, _) => WriteKeepsJobHolds(db, w.seen, e, db', job);
      case Draining(job, _) => WriteKeepsJobHolds(db, w.seen, e, db', job);
      case Committing(job, _) => WriteKeepsJobHolds(db, w.seen, e, db', job);
      case Clearing(done) =>
        forall d | d in done
          ensures DoneHolds(db', db'.tombs, d)
        {
          WriteKeepsDoneHolds(db, w.seen, e, db', db.tombs, d);
        }
    }
  }

  // ----- the export's steps ---------------------------------------------------------------

  lemma BackfillKeepsTombs(w: World, rows: seq<Entity>)
    requires TombsHold(w.db, w.db.tombs) && QueueInv(w.db, w.seen) && KeptUp(w.db, w.seen, w.fs)
    ensures var b := Backfill(w, rows);
            TombsHold(b.db, b.db.tombs) && b.db.tombs == w.db.tombs && b.db.rows == w.db.rows
    decreases |rows|
  {
    if |rows| > 0 {
      BackfillKeepsTombs(w, rows[..|rows| - 1]);
      BackfillKeeps(w, rows[..|rows| - 1]);
      var b := Backfill(w, rows[..|rows| - 1]);
      MoreDirty(b.db, rows[|rows| - 1]);
    }
  }

  lemma MoreDirty(db: Db, e: Entity)
    requires forall k | k in db.dirty :: k < db.nextDirty
    ensures forall x | x in db.dirty.Values :: x in db.dirty[db.nextDirty := e].Values
  {
    forall x | x in db.dirty.Values
      ensures x in db.dirty[db.nextDirty := e].Values
    {
      var k :| k in db.dirty && db.dirty[k] == x;
      assert db.dirty[db.nextDirty := e][k] == x;
    }
  }

  lemma PruneKeepsTombs(w: World, e: Entity)
    requires Inv(w) && TombInv(w) && w.pc.Pruning?
    ensures TombInv(Prune(w, e))
  {
  }

  // A row found gone joins the tombstones, any other leaves them.
  lemma FetchKeepsHolds(db: Db, seen: Seen, job: Job, job': Job, d: Done, todo: seq<(nat, Entity)>)
    requires JobHolds(db, job) && |todo| > 0 && TodoInv(db, job, todo) && d.e == todo[0].1
    requires job'.processed == job.processed + [d]
    requires (job'.tombs == job.tombs + {d.e} && IsGone(db.rows, d.e)) || job'.tombs == job.tombs - {d.e}
    ensures JobHolds(db, job')
  {
    forall x | x in job'.processed
      ensures DoneHolds(db, job'.tombs, x)
    {
      if x != d {
        assert x in job.processed && DoneHolds(db, job.tombs, x);
      }
    }
  }

  lemma FetchKeepsTombs(w: World)
    requires Inv(w) && TombInv(w) && w.pc.Draining? && |w.pc.todo| > 0
    ensures TombInv(Fetch(w))
  {
    var e := w.pc.todo[0].1;
    FetchShape(w);
    FetchKeepsHolds(w.db, w.seen, w.pc.job, Fetch(w).pc.job, Done(w.pc.todo[0].0, e, VersionOf(w.seen, e)), w.pc.todo);
  }

  lemma CommitKeepsTombs(w: World)
    requires TombInv(w) && w.pc.Committing?
    ensures TombInv(Commit(w))
  {
  }

  lemma ClearKeepsTombs(w: World)
    requires Inv(w) && TombInv(w) && w.pc.Clearing? && |w.pc.done| > 0
    ensures TombInv(Clear(w))
  {
    var d, db, db' := w.pc.done[0], w.db, Clear(w).db;
    assert d in w.pc.done;
    forall e | e in db.tombs
      ensures IsGone(db.rows, e) || e in db'.dirty.Values
    {
      if !IsGone(db.rows, e) {
        var k :| k in db.dirty && db.dirty[k] == e;
        assert k != d.key;
        assert db'.dirty[k] == e;
      }
    }
  }

  lemma GoKeepsTombs(w: World)
    requires Inv(w) && TombInv(w)
    ensures TombInv(Do(w, Go))
  {
    match w.pc
    case Draining(_, todo) =>
      if |todo| > 0 {
        FetchKeepsTombs(w);
      }
    case Committing(_, _) => CommitKeepsTombs(w);
    case Clearing(done) =>
      if |done| > 0 {
        ClearKeepsTombs(w);
      }
    case _ =>
  }

  lemma DoKeepsTombs(w: World, m: Move)
    requires Inv(w) && TombInv(w) && IsRecorded(w, m)
    ensures TombInv(Do(w, m))
  {
    match m
    case Write(e, row) => AppWriteKeepsTombs(w, e, row);
    case Crash =>
    case Begin(_, _, rows) =>
      if w.pc.Idle? {
        BackfillKeepsTombs(w, rows);
      }
    case Check(e) =>
      if w.pc.Pruning? {
        PruneKeepsTombs(w, e);
      }
    case Go => GoKeepsTombs(w);
  }

  // Main result: with recorded writes between any two steps and a stop anywhere,
  // every saved tombstone names a row that is absent, an empty thread, or queued
  // to be looked at again.
  lemma {:induction false} SavedTombstonesHold(w: World, moves: seq<Move>)
    requires Resting(w) && TombsHold(w.db, w.db.tombs) && RecordedRun(w, moves)
    ensures TombInv(Run(w, moves)) && TombsHold(Run(w, moves).db, Run(w, moves).db.tombs)
    decreases |moves|
  {
    if |moves| > 0 {
      SavedTombstonesHold(w, moves[..|moves| - 1]);
      RunKeepsInv(w, moves[..|moves| - 1]);
      DoKeepsTombs(Run(w, moves[..|moves| - 1]), moves[|moves| - 1]);
    }
  }
}
