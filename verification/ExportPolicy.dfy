// Which rows are published, which are deleted and which are kept back.
module ExportPolicies {
  import opened Options
  import opened Sequences
  import opened ArchiveTypes
  import opened Exports
  import opened ExportLogs

  // ----- what a row is to an export ------------------------------------------------

  // Mirrors of other devices, threads of schedules and new chats that nobody has
  // touched stay here, and so do the children of the first two and of no thread.
  predicate KeptBack(rows: map<Entity, Row>, e: Entity) {
    e in rows &&
    if e.table.Threads? then rows[e].imported || rows[e].scheduled || (!rows[e].hasHead && rows[e].untouched)
    else
      rows[e].thread.Some? ==>
        var t := Entity(Threads, rows[e].thread.value);
        t in rows ==> rows[t].imported || rows[t].scheduled
  }

  // A thread of this device that has lost its last message.
  predicate Emptied(rows: map<Entity, Row>, e: Entity) {
    && e.table.Threads? && e in rows && !rows[e].imported && !rows[e].scheduled
    && !rows[e].hasHead && !rows[e].untouched
  }

  predicate IsDeleted(rows: map<Entity, Row>, e: Entity) {
    e !in rows || Emptied(rows, e)
  }

  predicate IsShown(rows: map<Entity, Row>, e: Entity) {
    e in rows && !KeptBack(rows, e) && !Emptied(rows, e)
  }

  // ----- one entry of the queue -----------------------------------------------------

  // Main result: an entry is upserted, deleted or skipped exactly as its row says. A
  // delete is published once, and it is the only case that saves a tombstone.
  lemma FetchFollowsRow(w: World)
    requires w.pc.Draining? && |w.pc.todo| > 0
    ensures var e, job, job' := w.pc.todo[0].1, w.pc.job, Fetch(w).pc.job;
            && (IsShown(w.db.rows, e) <==> job'.v1 == job.v1 + [Upserted(e, VersionOf(w.seen, e))])
            && (!IsShown(w.db.rows, e) <==> job'.v1 == job.v1)
            && (IsDeleted(w.db.rows, e) && e !in job.emitted <==> job'.v2 == job.v2 + [Deleted(e)])
            && (!IsDeleted(w.db.rows, e) || e in job.emitted <==> job'.v2 == job.v2)
            && (e in job'.emitted <==> e in job.emitted || IsDeleted(w.db.rows, e))
            && job'.tombs == (if IsDeleted(w.db.rows, e) then job.tombs + {e} else job.tombs - {e})
            && (Stamp(e, VersionOf(w.seen, e)) in Fetch(w).seen.skipped <==>
                  KeptBack(w.db.rows, e) || Stamp(e, VersionOf(w.seen, e)) in w.seen.skipped)
  {
    var e, job := w.pc.todo[0].1, w.pc.job;
    LongerDiffers(job.v1, Upserted(e, VersionOf(w.seen, e)));
    LongerDiffers(job.v2, Deleted(e));
  }

  lemma LongerDiffers(a: seq<Emit>, x: Emit)
    ensures a + [x] != a
  {
  }

  // ----- which writes are recorded -----------------------------------------------------

  // The row is not part of another device's archive.
  predicate IsOwn(rows: map<Entity, Row>, e: Entity, row: Row) {
    if e.table.Threads? then !row.imported
    else
      row.thread.Some? ==>
        var t := Entity(Threads, row.thread.value);
        t in rows ==> !rows[t].imported
  }

  // The new row, or the one that is deleted.
  predicate WritesOwn(rows: map<Entity, Row>, e: Entity, row: Option<Row>) {
    if row.Some? then IsOwn(rows, e, row.value) else e in rows && IsOwn(rows, e, rows[e])
  }

  // Main result: every insert, update and delete of a row of this device is queued,
  // under a key that no export has read, and no other write is.
  lemma OwnWritesAreQueued(w: World, e: Entity, row: Option<Row>)
    requires forall k | k in w.db.dirty :: k < w.db.nextDirty
    ensures var w' := Do(w, Write(e, row));
            && (row.Some? ==> e in w'.db.rows && w'.db.rows[e] == row.value)
            && (row.None? ==> e !in w'.db.rows)
            && (forall x | x != e :: x in w'.db.rows <==> x in w.db.rows)
            && (forall x | x != e && x in w.db.rows :: w'.db.rows[x] == w.db.rows[x])
            && (WritesOwn(w.db.rows, e, row) ==>
                  && w.db.nextDirty in w'.db.dirty && w'.db.dirty[w.db.nextDirty] == e
                  && e in w'.seen.versions && w'.seen.versions[e] == VersionOf(w.seen, e) + 1)
            && (!WritesOwn(w.db.rows, e, row) ==> w'.db.dirty == w.db.dirty && w'.seen == w.seen)
            && (forall x | x != e :: x in w'.db.dirty.Values <==> x in w.db.dirty.Values)
            && w'.fs == w.fs && w'.pc == w.pc && w'.db.tombs == w.db.tombs
  {
    if WritesOwn(w.db.rows, e, row) {
      EnqueueKeeps(w.db, e);
    }
  }

  // Every write to the row in the run is one of this device's.
  ghost predicate OwnRun(w: World, moves: seq<Move>, e: Entity) {
    |moves| == 0 ||
    var last, r := moves[|moves| - 1], Run(w, moves[..|moves| - 1]);
    && OwnRun(w, moves[..|moves| - 1], e)
    && (last.Write? && last.e == e && (last.row.Some? || e in r.db.rows) ==> WritesOwn(r.db.rows, e, last.row))
  }

  // ----- what the log says about a row ---------------------------------------------------

  // What is remembered of a row's present version is true of the row.
  ghost predicate SeenRight(rows: map<Entity, Row>, seen: Seen, e: Entity) {
    var v := VersionOf(seen, e);
    && (forall s | s in seen.skipped && s.e == e :: s.version <= v)
    && (forall s | s in seen.absent && s.e == e :: s.version <= v)
    && (Stamp(e, v) in seen.skipped ==> e in rows && (e.table.Threads? ==> KeptBack(rows, e)))
    && (Stamp(e, v) in seen.absent ==> IsGone(rows, e))
  }

  // An upsert that is published, or about to be, is of a version that was shown.
  ghost predicate UpsertsRight(rows: map<Entity, Row>, seen: Seen, ops: seq<Emit>, e: Entity) {
    forall op | op in ops && op.Upserted? && op.e == e ::
      && op.version <= VersionOf(seen, e)
      && (op.version == VersionOf(seen, e) ==> e in rows && (e.table.Threads? ==> IsShown(rows, e)))
  }

  ghost predicate FilesRight(rows: map<Entity, Row>, seen: Seen, fs: Fs, e: Entity) {
    && (forall n | n in fs.v1 :: UpsertsRight(rows, seen, fs.v1[n], e))
    && (forall n | n in fs.v2 :: UpsertsRight(rows, seen, fs.v2[n], e))
  }

  ghost predicate JobRight(rows: map<Entity, Row>, seen: Seen, job: Job, e: Entity) {
    UpsertsRight(rows, seen, job.v1, e) && UpsertsRight(rows, seen, job.v2, e)
  }

  ghost predicate Right(w: World, e: Entity) {
    && SeenRight(w.db.rows, w.seen, e) && FilesRight(w.db.rows, w.seen, w.fs, e)
    && match w.pc
       case Pruning(job, _) => JobRight(w.db.rows, w.seen, job, e)
       case Draining(job, _) => JobRight(w.db.rows, w.seen, job, e)
       case Committing(job, _) => JobRight(w.db.rows, w.seen, job, e)
       case _ => true
  }

  lemma WriteStaysRight(w: World, x: Entity, row: Option<Row>, e: Entity)
    requires Right(w, e) && forall k | k in w.db.dirty :: k < w.db.nextDirty
    requires x == e && (row.Some? || e in w.db.rows) ==> WritesOwn(w.db.rows, e, row)
    ensures Right(Do(w, Write(x, row)), e)
  {
    OwnWritesAreQueued(w, x, row);
  }

  lemma {:induction false} BackfillSeesSame(w: World, rows: seq<Entity>, e: Entity)
    ensures var w' := Backfill(w, rows);
            && w'.db.rows == w.db.rows && w'.fs == w.fs && VersionOf(w'.seen, e) == VersionOf(w.seen, e)
            && w'.seen.skipped == w.seen.skipped && w'.seen.absent == w.seen.absent
    decreases |rows|
  {
    if |rows| > 0 {
      BackfillSeesSame(w, rows[..|rows| - 1], e);
    }
  }

  lemma StartStaysRight(w: World, settings: bool, skills: bool, rows: seq<Entity>, e: Entity)
    requires Right(w, e)
    ensures Right(Start(w, settings, skills, rows), e)
  {
    BackfillSeesSame(w, rows, e);
  }

  lemma FetchStaysRight(w: World, e: Entity)
    requires Right(w, e) && w.pc.Draining? && |w.pc.todo| > 0
    ensures Right(Fetch(w), e)
  {
    FetchFollowsRow(w);
  }

  lemma CommitStaysRight(w: World, e: Entity)
    requires Right(w, e) && w.pc.Committing?
    ensures Right(Commit(w), e)
  {
  }

  lemma DoStaysRight(w: World, m: Move, e: Entity)
    requires Right(w, e) && forall k | k in w.db.dirty :: k < w.db.nextDirty
    requires m.Write? && m.e == e && (m.row.Some? || e in w.db.rows) ==> WritesOwn(w.db.rows, e, m.row)
    ensures Right(Do(w, m), e)
  {
    match m
    case Write(x, row) => WriteStaysRight(w, x, row, e);
    case Begin(settings, skills, rows) => StartStaysRight(w, settings, skills, rows, e);
    case Go =>
      match w.pc {
        case Draining(_, todo) =>
          if |todo| > 0 {
            FetchStaysRight(w, e);
          }
        case Committing(_, _) => CommitStaysRight(w, e);
        case _ =>
      }
    case _ =>
  }

  lemma {:induction false} RunStaysRight(w: World, moves: seq<Move>, e: Entity)
    requires Resting(w) && Right(w, e) && OwnRun(w, moves, e)
    ensures Right(Run(w, moves), e)
    decreases |moves|
  {
    if |moves| > 0 {
      RunStaysRight(w, moves[..|moves| - 1], e);
      RunKeepsInv(w, moves[..|moves| - 1]);
      DoStaysRight(Run(w, moves[..|moves| - 1]), moves[|moves| - 1], e);
    }
  }

  lemma {:induction false} LastInIsThere(ops: seq<Emit>, e: Entity)
    ensures LastIn(ops, e).Some? ==> LastIn(ops, e).value in ops
    decreases |ops|
  {
    if |ops| > 0 && !About(ops[|ops| - 1], e) {
      LastInIsThere(ops[..|ops| - 1], e);
    }
  }

  ghost predicate IsPublished(fs: Fs, op: Emit) {
    exists n :: (n in fs.v1 && op in fs.v1[n]) || (n in fs.v2 && op in fs.v2[n])
  }

  // A word of the log comes from a file.
  lemma {:induction false} WordIsPublished(fs: Fs, e: Entity, n: nat)
    ensures var word := LastOp(fs, e, n); word.Some? ==> IsPublished(fs, word.value)
  {
    if n > 0 {
      WordIsPublished(fs, e, n - 1);
      if n in fs.v1 {
        LastInIsThere(fs.v1[n], e);
      }
      if n in fs.v2 {
        LastInIsThere(fs.v2[n], e);
      }
    }
  }

  lemma LostIsPublished(fs: Fs, e: Entity, version: nat)
    requires Lost(fs, e, version)
    ensures IsPublished(fs, Upserted(e, version))
  {
    var n :| LostAt(fs, e, version, n);
    LastInIsThere(fs.v1[n], e);
  }

  lemma RightlyPublished(w: World, e: Entity)
    requires Right(w, e) && IsPublished(w.fs, Upserted(e, VersionOf(w.seen, e)))
    ensures e in w.db.rows && (e.table.Threads? ==> IsShown(w.db.rows, e))
  {
    var op := Upserted(e, VersionOf(w.seen, e));
    var n :| (n in w.fs.v1 && op in w.fs.v1[n]) || (n in w.fs.v2 && op in w.fs.v2[n]);
  }

  // Main result: over every run whose writes to a row are this device's own, with
  // any other writes and with stops anywhere, the log has followed the row as soon
  // as it is not queued: a row that is gone, and a thread emptied after use, has been
  // deleted; a thread that is shown is told as it is (or lost, as LossIff says);
  // a thread that is kept back is not told.
  lemma LogFollowsRow(w: World, moves: seq<Move>, e: Entity)
    requires Resting(w) && Right(w, e) && OwnRun(w, moves, e)
    requires e in Run(w, moves).seen.versions && e !in Run(w, moves).db.dirty.Values
    ensures var r := Run(w, moves);
            var now := Upserted(e, r.seen.versions[e]);
            && (IsDeleted(r.db.rows, e) ==> LastWord(r.fs, e) == Some(Deleted(e)))
            && (e.table.Threads? && IsShown(r.db.rows, e) ==>
                  LastWord(r.fs, e) == Some(now) || Lost(r.fs, e, r.seen.versions[e]))
            && (e.table.Threads? && KeptBack(r.db.rows, e) ==> !IsPublished(r.fs, now))
  {
    var r := Run(w, moves);
    RunStaysRight(w, moves, e);
    NoUpdateIsLost(w, moves, e);
    WordIsPublished(r.fs, e, |r.fs.v1|);
    if Lost(r.fs, e, r.seen.versions[e]) {
      LostIsPublished(r.fs, e, r.seen.versions[e]);
    }
    if IsPublished(r.fs, Upserted(e, r.seen.versions[e])) {
      RightlyPublished(r, e);
    }
  }

  // ----- what is never told --------------------------------------------------------------

  ghost predicate NoUpsert(ops: seq<Emit>, e: Entity) {
    forall op | op in ops && op.Upserted? :: op.e != e
  }

  ghost predicate Untold(w: World, e: Entity) {
    && (forall n | n in w.fs.v1 :: NoUpsert(w.fs.v1[n], e)) && (forall n | n in w.fs.v2 :: NoUpsert(w.fs.v2[n], e))
    && match w.pc
       case Pruning(job, _) => NoUpsert(job.v1, e) && NoUpsert(job.v2, e)
       case Draining(job, _) => NoUpsert(job.v1, e) && NoUpsert(job.v2, e)
       case Committing(job, _) => NoUpsert(job.v1, e) && NoUpsert(job.v2, e)
       case _ => true
  }

  // At every moment of the run the row is absent, empty or kept back.
  ghost predicate NeverShown(w: World, moves: seq<Move>, e: Entity) {
    !IsShown(Run(w, moves).db.rows, e) && (|moves| == 0 || NeverShown(w, moves[..|moves| - 1], e))
  }

  lemma DoStaysUntold(w: World, m: Move, e: Entity)
    requires Untold(w, e) && !IsShown(w.db.rows, e)
    ensures Untold(Do(w, m), e)
  {
    match m
    case Begin(settings, skills, rows) => BackfillSeesSame(w, rows, e);
    case Go =>
      if w.pc.Draining? && |w.pc.todo| > 0 {
        FetchFollowsRow(w);
        FetchStaysUntold(w, e);
      }
    case _ =>
  }

  lemma FetchStaysUntold(w: World, e: Entity)
    requires Untold(w, e) && w.pc.Draining? && |w.pc.todo| > 0 && !IsShown(w.db.rows, e)
    ensures Untold(Fetch(w), e)
  {
    FetchFollowsRow(w);
  }

  // Main result: a mirror of another device's thread, a thread of a schedule, an
  // untouched chat, and a child of one of the first two, is never published.
  lemma {:induction false} KeptBackIsNeverTold(w: World, moves: seq<Move>, e: Entity)
    requires Untold(w, e) && NeverShown(w, moves, e)
    ensures Untold(Run(w, moves), e)
    decreases |moves|
  {
    if |moves| > 0 {
      KeptBackIsNeverTold(w, moves[..|moves| - 1], e);
      DoStaysUntold(Run(w, moves[..|moves| - 1]), moves[|moves| - 1], e);
    }
  }

  // ----- a log that is rebuilt -----------------------------------------------------------

  // A row of this device, as a full export collects them.
  predicate IsCollected(rows: map<Entity, Row>, e: Entity) {
    && e in rows
    && if e.table.Threads? then !rows[e].imported
       else
         && rows[e].thread.Some? && Entity(Threads, rows[e].thread.value) in rows
         && !rows[Entity(Threads, rows[e].thread.value)].imported
  }

  lemma {:induction false} BackfillCollects(w: World, rows: seq<Entity>, e: Entity)
    requires QueueInv(w.db, w.seen) && KeptUp(w.db, w.seen, w.fs)
    ensures var w' := Backfill(w, rows);
            && w'.db.rows == w.db.rows
            && (e in w'.db.dirty.Values <==> e in w.db.dirty.Values || (e in rows && IsCollected(w.db.rows, e)))
    decreases |rows|
  {
    if |rows| > 0 {
      var front, last := rows[..|rows| - 1], rows[|rows| - 1];
      BackfillCollects(w, front, e);
      BackfillKeeps(w, front);
      FrontAndLast(rows);
      BackfillAdds(Backfill(w, front), last, e);
    }
  }

  lemma BackfillAdds(w: World, last: Entity, e: Entity)
    requires w.db.nextDirty !in w.db.dirty
    ensures var dirty := w.db.dirty[w.db.nextDirty := last];
            e in dirty.Values <==> e in w.db.dirty.Values || e == last
  {
    var dirty := w.db.dirty[w.db.nextDirty := last];
    assert dirty[w.db.nextDirty] == last;
    if e in w.db.dirty.Values {
      var k :| k in w.db.dirty && w.db.dirty[k] == e;
      assert dirty[k] == e;
    }
  }

  // There is no first directory, or there is delete history without a second one.
  predicate NeedsResync(w: World) {
    w.fs.v1 == map[] || (w.fs.v2 == map[] && w.db.history)
  }

  // Main result: an export that has to rebuild the log queues every row of this
  // device, and any other export queues none.
  lemma ResyncQueuesEveryRow(w: World, settings: bool, skills: bool, rows: seq<Entity>, e: Entity)
    requires QueueInv(w.db, w.seen) && KeptUp(w.db, w.seen, w.fs) && w.pc.Idle?
    ensures var w' := Do(w, Begin(settings, skills, rows));
            e in w'.db.dirty.Values <==>
              e in w.db.dirty.Values || (NeedsResync(w) && e in rows && IsCollected(w.db.rows, e))
  {
    BackfillCollects(w, rows, e);
  }

  lemma {:induction false} BackfillNotes(w: World, rows: seq<Entity>, e: Entity)
    requires e in w.seen.versions
    ensures e in Backfill(w, rows).seen.versions
    decreases |rows|
  {
    if |rows| > 0 {
      BackfillNotes(w, rows[..|rows| - 1], e);
    }
  }

  lemma DoNotes(w: World, m: Move, e: Entity)
    requires e in w.seen.versions
    ensures e in Do(w, m).seen.versions
  {
    if m.Begin? {
      BackfillNotes(w, m.rows, e);
    }
  }

  // A row that has been queued stays under the eyes of LogFollowsRow.
  lemma {:induction false} QueuedIsNoted(w: World, moves: seq<Move>, k: nat, e: Entity)
    requires Resting(w) && k <= |moves| && e in Run(w, moves[..k]).db.dirty.Values
    ensures e in Run(w, moves).seen.versions
    decreases |moves|
  {
    if k == |moves| {
      assert moves[..k] == moves;
      RunKeepsInv(w, moves);
    } else {
      assert moves[..|moves| - 1][..k] == moves[..k];
      QueuedIsNoted(w, moves[..|moves| - 1], k, e);
      DoNotes(Run(w, moves[..|moves| - 1]), moves[|moves| - 1], e);
    }
  }
}
