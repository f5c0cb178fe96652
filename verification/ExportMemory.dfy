// The deletes in the log are remembered, so that a lost second directory can be
// rebuilt from the saved tombstones.
module ExportMemories {
  import opened Options
  import opened ArchiveTypes
  import opened Exports
  import opened ExportLogs
  import opened ExportPolicies

  // The last word on the row is a delete.
  ghost predicate SaysDeleted(fs: Fs, e: Entity) {
    LastWord(fs, e) == Some(Deleted(e))
  }

  // The row is back, is to be looked at, or is kept back as it is.
  ghost predicate IsBack(db: Db, seen: Seen, e: Entity) {
    !IsGone(db.rows, e) || Stamp(e, VersionOf(seen, e)) in seen.skipped
  }

  ghost predicate Remembers(db: Db, seen: Seen, e: Entity, tombs: set<Entity>) {
    e in tombs || e in db.dirty.Values || IsBack(db, seen, e)
  }

  // What was processed for the row, as long as it has not been written again.
  ghost predicate DonesRemember(db: Db, seen: Seen, e: Entity, tombs: set<Entity>, done: seq<Done>) {
    forall d | d in done && d.e == e && d.key in db.dirty :: e in tombs || IsBack(db, seen, e)
  }

  ghost predicate JobRemembers(db: Db, seen: Seen, e: Entity, job: Job) {
    && (e in db.tombs || e in job.emitted ==> Remembers(db, seen, e, job.tombs))
    && (e in job.emitted ==> Remembers(db, seen, e, db.tombs))
    && DonesRemember(db, seen, e, job.tombs, job.processed)
  }

  ghost predicate Memory(w: World, e: Entity) {
    && (SaysDeleted(w.fs, e) ==> Remembers(w.db, w.seen, e, w.db.tombs))
    && match w.pc
       case Idle => true
       case Pruning(job, tombs) =>
         && (e in w.db.tombs || e in job.emitted ==> e in tombs || Remembers(w.db, w.seen, e, job.tombs))
         && (e in job.emitted ==> Remembers(w.db, w.seen, e, w.db.tombs))
         && tombs <= w.db.tombs && job.processed == []
       case Draining(job, _) => JobRemembers(w.db, w.seen, e, job)
       case Committing(job, _) => JobRemembers(w.db, w.seen, e, job)
       case Clearing(done) => DonesRemember(w.db, w.seen, e, w.db.tombs, done)
  }

  // ----- writes --------------------------------------------------------------------------

  // Keys that were read from the queue and are still there belong to their entry.
  ghost predicate ReadFrom(db: Db, done: seq<Done>) {
    forall d | d in done :: Linked(db, d.key, d.e)
  }

  function DonesOf(pc: Pc): seq<Done> {
    match pc
    case Draining(job, _) => job.processed
    case Committing(job, _) => job.processed
    case Clearing(done) => done
    case _ => []
  }

  lemma DonesAreRead(w: World)
    requires Inv(w)
    ensures ReadFrom(w.db, DonesOf(w.pc))
  {
    forall d | d in DonesOf(w.pc)
      ensures Linked(w.db, d.key, d.e)
    {
      assert DoneLinked(w.db, w.seen, d);
    }
  }

  lemma OwnWriteRemembers(w: World, e: Entity, row: Option<Row>)
    requires Inv(w) && Memory(w, e) && (row.Some? || e in w.db.rows ==> WritesOwn(w.db.rows, e, row))
    ensures Memory(Do(w, Write(e, row)), e)
  {
    OwnWritesAreQueued(w, e, row);
    if WritesOwn(w.db.rows, e, row) {
      DonesAreRead(w);
      FreshKey(w.db, e, DonesOf(w.pc));
    }
  }

  // A new entry makes way for itself.
  lemma FreshKey(db: Db, e: Entity, done: seq<Done>)
    requires ReadFrom(db, done) && forall k | k in db.dirty :: k < db.nextDirty
    ensures forall d | d in done && d.e == e :: d.key !in Enqueue(db, e).dirty
  {
    EnqueueKeeps(db, e);
    forall d | d in done && d.e == e
      ensures d.key !in Enqueue(db, e).dirty
    {
      assert Linked(db, d.key, d.e);
    }
  }

  lemma OtherWriteRemembers(w: World, x: Entity, row: Option<Row>, e: Entity)
    requires Inv(w) && Memory(w, e) && x != e
    ensures Memory(Do(w, Write(x, row)), e)
  {
    OwnWritesAreQueued(w, x, row);
    var w' := Do(w, Write(x, row));
    assert IsBack(w'.db, w'.seen, e) <==> IsBack(w.db, w.seen, e);
    DonesAreRead(w);
    forall d | d in DonesOf(w.pc) && d.e == e && d.key in w'.db.dirty
      ensures d.key in w.db.dirty
    {
      assert Linked(w.db, d.key, d.e);
      EnqueueKeeps(w.db, x);
    }
  }

  // ----- the export's steps ------------------------------------------------------------

  lemma BeginRemembers(w: World, settings: bool, skills: bool, rows: seq<Entity>, e: Entity)
    requires Inv(w) && Memory(w, e) && w.pc.Idle?
    ensures Memory(Start(w, settings, skills, rows), e)
  {
    BackfillSeesSame(w, rows, e);
    BackfillCollects(w, rows, e);
    BackfillTombs(w, rows);
  }

  lemma {:induction false} BackfillTombs(w: World, rows: seq<Entity>)
    ensures Backfill(w, rows).db.tombs == w.db.tombs
    decreases |rows|
  {
    if |rows| > 0 {
      BackfillTombs(w, rows[..|rows| - 1]);
    }
  }

  lemma CheckRemembers(w: World, x: Entity, e: Entity)
    requires Memory(w, e) && w.pc.Pruning?
    ensures Memory(Prune(w, x), e)
  {
  }

  lemma FetchRemembers(w: World, e: Entity)
    requires Inv(w) && Memory(w, e) && w.pc.Draining? && |w.pc.todo| > 0
    ensures Memory(Fetch(w), e)
  {
    FetchFollowsRow(w);
    FetchShape(w);
    var todo, job, job' := w.pc.todo, w.pc.job, Fetch(w).pc.job;
    var x := todo[0].1;
    assert x == e ==> e in w.db.dirty.Values;
    forall d | d in job'.processed && d.e == e && d.key in w.db.dirty
      ensures e in job'.tombs || IsBack(w.db, Fetch(w).seen, e)
    {
      if d in job.processed {
        assert x != e;
      }
    }
  }

  lemma PutV1Says(w: World, e: Entity)
    requires Inv(w) && w.pc.Committing? && w.pc.stage.PutV1?
    ensures SaysDeleted(Commit(w).fs, e) ==> SaysDeleted(w.fs, e) || e in w.db.dirty.Values
  {
    var job := w.pc.job;
    if job.v1 != [] && LastIn(job.v1, e).None? {
      PutV1KeepsWords(w.fs, job, e);
    }
  }

  lemma PutV2Says(w: World, e: Entity)
    requires Inv(w) && w.pc.Committing? && w.pc.stage.PutV2?
    ensures SaysDeleted(Commit(w).fs, e) ==> SaysDeleted(w.fs, e) || e in w.pc.job.emitted
  {
    var job := w.pc.job;
    if job.v2 != [] {
      PutV2KeepsWord(w.fs, Commit(w).fs, job, e);
    }
  }

  lemma CommitRemembers(w: World, e: Entity)
    requires Inv(w) && Memory(w, e) && w.pc.Committing?
    requires w.pc.stage.PutHistory? ==> w.db.tombs == w.pc.job.tombs
    ensures Memory(Commit(w), e)
  {
    match w.pc.stage
    case PutV1 => PutV1Says(w, e);
    case PutV2 => PutV2Says(w, e);
    case PutV3 => LastOpFrame(w.fs, Commit(w).fs, e, |w.fs.v1|);
    case _ =>
  }

  lemma ClearRemembers(w: World, e: Entity)
    requires Inv(w) && Memory(w, e) && w.pc.Clearing?
    ensures Memory(Clear(w), e)
  {
    var done := w.pc.done;
    if |done| > 0 {
      DonesAreRead(w);
      var key, dirty := done[0].key, w.db.dirty;
      assert done[0] in done && forall d | d in done[1..] :: d in done;
      LastEntry(dirty, key, e);
    }
  }

  lemma LastEntry(dirty: map<nat, Entity>, key: nat, e: Entity)
    ensures e in dirty.Values ==> e in (dirty - {key}).Values || (key in dirty && dirty[key] == e)
  {
    if e in dirty.Values {
      var k :| k in dirty && dirty[k] == e;
      if k != key {
        assert (dirty - {key})[k] == e;
      }
    }
  }

  // ----- runs -------------------------------------------------------------------------------

  // What an export is about to finish has been saved.
  ghost predicate SavesFirst(w: World) {
    w.pc.Committing? && w.pc.stage.PutHistory? ==> w.db.tombs == w.pc.job.tombs
  }

  lemma DoSavesFirst(w: World, m: Move)
    requires SavesFirst(w)
    ensures SavesFirst(Do(w, m))
  {
    if m.Write? {
      AppWriteTombs(w, m.e, m.row);
    }
  }

  lemma AppWriteTombs(w: World, e: Entity, row: Option<Row>)
    ensures AppWrite(w, e, row).db.tombs == w.db.tombs && AppWrite(w, e, row).pc == w.pc
  {
  }

  lemma DoRemembers(w: World, m: Move, e: Entity)
    requires Inv(w) && Memory(w, e) && SavesFirst(w)
    requires m.Write? && m.e == e && (m.row.Some? || e in w.db.rows) ==> WritesOwn(w.db.rows, e, m.row)
    ensures Memory(Do(w, m), e)
  {
    match m
    case Write(x, row) =>
      if x == e {
        OwnWriteRemembers(w, e, row);
      } else {
        OtherWriteRemembers(w, x, row, e);
      }
    case Crash =>
    case Begin(settings, skills, rows) =>
      if w.pc.Idle? {
        BeginRemembers(w, settings, skills, rows, e);
      }
    case Check(x) =>
      if w.pc.Pruning? {
        CheckRemembers(w, x, e);
      }
    case Go => GoRemembers(w, e);
  }

  lemma GoRemembers(w: World, e: Entity)
    requires Inv(w) && Memory(w, e) && SavesFirst(w)
    ensures Memory(Do(w, Go), e)
  {
    match w.pc
    case Draining(_, todo) =>
      if |todo| > 0 {
        FetchRemembers(w, e);
      }
    case Committing(_, _) => CommitRemembers(w, e);
    case Clearing(_) => ClearRemembers(w, e);
    case _ =>
  }

  // Main result: over every run whose writes to a row are this device's own, with
  // any other writes and with stops anywhere: when the last word of the log on the
  // row is a delete, its tombstone is saved, or it is queued, back, or kept back.
  lemma {:induction false} DeletesAreRemembered(w: World, moves: seq<Move>, e: Entity)
    requires Resting(w) && Memory(w, e) && OwnRun(w, moves, e)
    ensures Memory(Run(w, moves), e) && SavesFirst(Run(w, moves))
    ensures var r := Run(w, moves);
            SaysDeleted(r.fs, e) ==>
              e in r.db.tombs || e in r.db.dirty.Values || !IsGone(r.db.rows, e)
              || Stamp(e, VersionOf(r.seen, e)) in r.seen.skipped
    decreases |moves|
  {
    if |moves| > 0 {
      var r := Run(w, moves[..|moves| - 1]);
      DeletesAreRemembered(w, moves[..|moves| - 1], e);
      RunKeepsInv(w, moves[..|moves| - 1]);
      DoRemembers(r, moves[|moves| - 1], e);
      DoSavesFirst(r, moves[|moves| - 1]);
    }
  }

  // ----- what an export leaves in the directories --------------------------------------

  function After(w: World, n: nat): World {
    if n == 0 then w else Do(After(w, n - 1), Go)
  }

  // Main result: an export publishes its number in the first directory exactly when it
  // has anything to publish or there is no first directory yet, with a marker when it
  // has nothing else to put there; and in the others exactly what belongs there.
  lemma ExportPublishes(w: World)
    requires w.pc.Draining? && w.pc.todo == []
    ensures var job, fs, fs' := w.pc.job, w.fs, After(w, 4).fs;
            && After(w, 4).pc.Committing? && After(w, 4).pc.stage.PutTombs?
            && fs'.v1 == (if job.v1 != [] then fs.v1[job.number := job.v1]
                          else if job.v2 != [] || job.skills || !job.hadV1 then fs.v1[job.number := [Extra]]
                          else fs.v1)
            && fs'.v2 == (if job.v2 != [] then fs.v2[job.number := job.v2] else fs.v2)
            && fs'.v3 == (if job.skills then fs.v3 + {job.number} else fs.v3)
  {
    var w1 := Finish(w);
    assert After(w, 1) == w1;
    var w2 := Commit(w1);
    assert After(w, 2) == w2;
    var w3 := Commit(w2);
    assert After(w, 3) == w3;
    assert After(w, 4) == Commit(w3);
  }

  // What an export has found when it began, and what it knows when the second
  // directory has been put.
  ghost predicate KnowsHistory(w: World) {
    match w.pc
    case Idle => true
    case Pruning(job, _) => FoundAtStart(w, job)
    case Draining(job, _) => FoundAtStart(w, job)
    case Committing(job, stage) =>
      && (job.recovery <==> !job.hadV2 && w.db.history)
      && (if stage.PutV1? || stage.PutV2? then job.hadV2 <==> w.fs.v2 != map[]
          else job.hadV2 || job.v2 != [] <==> w.fs.v2 != map[])
    case Clearing(_) => w.db.history <==> w.fs.v2 != map[]
  }

  ghost predicate FoundAtStart(w: World, job: Job) {
    && (job.recovery <==> !job.hadV2 && w.db.history)
    && (job.hadV2 <==> w.fs.v2 != map[])
  }

  lemma {:induction false} BackfillHistory(w: World, rows: seq<Entity>)
    ensures Backfill(w, rows).db.history == w.db.history && Backfill(w, rows).fs == w.fs
    decreases |rows|
  {
    if |rows| > 0 {
      BackfillHistory(w, rows[..|rows| - 1]);
    }
  }

  lemma DoKnowsHistory(w: World, m: Move)
    requires KnowsHistory(w)
    ensures KnowsHistory(Do(w, m))
  {
    match m
    case Begin(_, _, rows) => BackfillHistory(w, rows);
    case Go =>
      if w.pc.Committing? && w.pc.stage.PutV2? && w.pc.job.v2 != [] {
        assert w.pc.job.number in Do(w, m).fs.v2;
      }
    case _ =>
  }

  // Main result: when an export has run to the end, it is known exactly then that
  // deletes have been published when there is a second directory. An export that had
  // nothing to rebuild it from stops looking for it.
  lemma {:induction false} HistoryIsKnown(w: World, moves: seq<Move>)
    requires w.pc.Idle?
    ensures KnowsHistory(Run(w, moves))
    ensures var r := Run(w, moves); r.pc.Clearing? ==> (r.db.history <==> r.fs.v2 != map[])
    decreases |moves|
  {
    if |moves| > 0 {
      HistoryIsKnown(w, moves[..|moves| - 1]);
      DoKnowsHistory(Run(w, moves[..|moves| - 1]), moves[|moves| - 1]);
    }
  }
}
