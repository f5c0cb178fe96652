// One export publishes at most one operation per row, but for one race.
module ExportOnce {
  import opened Options
  import opened ArchiveTypes
  import opened Exports
  import opened ExportLogs

  // No row twice.
  ghost predicate Once(ops: seq<Emit>) {
    forall i, j | 0 <= i < j < |ops| && !ops[i].Extra? && !ops[j].Extra? :: ops[i].e != ops[j].e
  }

  ghost predicate InBoth(a: seq<Emit>, b: seq<Emit>, e: Entity) {
    LastIn(a, e).Some? && LastIn(b, e).Some?
  }

  // The two files of one number: a row is in both exactly when it was raced.
  ghost predicate PairOnce(a: seq<Emit>, b: seq<Emit>, raced: set<Entity>) {
    Once(a) && Once(b) && forall e :: InBoth(a, b, e) <==> e in raced
  }

  ghost predicate JobOnce(job: Job) {
    && PairOnce(job.v1, job.v2, job.raced)
    && (!job.recovery ==> job.raced == {} && forall e | e in job.emitted :: IsProcessed(job, e))
  }

  ghost predicate IsProcessed(job: Job, e: Entity) {
    exists d | d in job.processed :: d.e == e
  }

  ghost predicate BothNamed(fs: Fs, n: nat, e: Entity) {
    n in fs.v1 && n in fs.v2 && InBoth(fs.v1[n], fs.v2[n], e)
  }

  // Every published number.
  ghost predicate FilesOnce(fs: Fs, seen: Seen) {
    && (forall n | n in fs.v1 :: Once(fs.v1[n]))
    && (forall n | n in fs.v2 :: Once(fs.v2[n]))
    && (forall n, e :: BothNamed(fs, n, e) <==> Race(n, e) in seen.races)
  }

  ghost predicate OnceInv(w: World) {
    FilesOnce(w.fs, w.seen) &&
    match w.pc
    case Pruning(job, tombs) => JobOnce(job) && tombs !! job.emitted
    case Draining(job, _) => JobOnce(job)
    case Committing(job, _) => JobOnce(job)
    case _ => true
  }

  lemma {:induction false} NotAbout(ops: seq<Emit>, e: Entity)
    requires LastIn(ops, e).None?
    ensures forall op | op in ops :: !About(op, e)
  {
    if |ops| > 0 {
      NotAbout(ops[..|ops| - 1], e);
      assert ops == ops[..|ops| - 1] + [ops[|ops| - 1]];
    }
  }

  lemma OnceMore(ops: seq<Emit>, op: Emit)
    requires Once(ops) && (!op.Extra? ==> LastIn(ops, op.e).None?)
    ensures Once(ops + [op])
  {
    if !op.Extra? {
      NotAbout(ops, op.e);
      assert forall i | 0 <= i < |ops| :: ops[i] in ops;
    }
  }

  lemma MoreUpserts(a: seq<Emit>, b: seq<Emit>, raced: set<Entity>, e: Entity, version: nat)
    requires PairOnce(a, b, raced) && LastIn(a, e).None?
    ensures PairOnce(a + [Upserted(e, version)], b, if LastIn(b, e).Some? then raced + {e} else raced)
  {
    LastInMore(a, Upserted(e, version));
    OnceMore(a, Upserted(e, version));
  }

  lemma MoreDeletes(a: seq<Emit>, b: seq<Emit>, raced: set<Entity>, e: Entity)
    requires PairOnce(a, b, raced) && LastIn(a, e).None? && LastIn(b, e).None?
    ensures PairOnce(a, b + [Deleted(e)], raced)
  {
    LastInMore(b, Deleted(e));
    OnceMore(b, Deleted(e));
  }

  lemma PruneKeepsOnce(w: World, e: Entity)
    requires Inv(w) && OnceInv(w) && w.pc.Pruning?
    ensures OnceInv(Prune(w, e))
  {
    if e in w.pc.tombs && w.pc.job.recovery {
      MoreDeletes(w.pc.job.v1, w.pc.job.v2, w.pc.job.raced, e);
    }
  }

  lemma ProcessedMore(job: Job, job': Job, d: Done)
    requires job'.processed == job.processed + [d]
    ensures IsProcessed(job', d.e) && forall e | IsProcessed(job, e) :: IsProcessed(job', e)
  {
    assert d in job'.processed;
    forall e | IsProcessed(job, e)
      ensures IsProcessed(job', e)
    {
      var x :| x in job.processed && x.e == e;
      assert x in job'.processed;
    }
  }

  lemma UpsertKeepsOnce(job: Job, job': Job, d: Done)
    requires JobOnce(job) && LastIn(job.v1, d.e).None? && !IsProcessed(job, d.e)
    requires LastIn(job.v2, d.e).Some? <==> d.e in job.emitted
    requires job'.processed == job.processed + [d] && job'.v1 == job.v1 + [Upserted(d.e, d.version)]
    requires job'.v2 == job.v2 && job'.emitted == job.emitted && job'.recovery == job.recovery
    requires job'.raced == if d.e in job.emitted then job.raced + {d.e} else job.raced
    ensures JobOnce(job')
  {
    ProcessedMore(job, job', d);
    MoreUpserts(job.v1, job.v2, job.raced, d.e, d.version);
  }

  lemma DeleteKeepsOnce(job: Job, job': Job, d: Done)
    requires JobOnce(job) && LastIn(job.v1, d.e).None?
    requires LastIn(job.v2, d.e).Some? <==> d.e in job.emitted
    requires job'.processed == job.processed + [d] && job'.v1 == job.v1
    requires job'.raced == job.raced && job'.recovery == job.recovery
    requires (job'.emitted == job.emitted && job'.v2 == job.v2)
             || (d.e !in job.emitted && job'.emitted == job.emitted + {d.e} && job'.v2 == job.v2 + [Deleted(d.e)])
    ensures JobOnce(job')
  {
    ProcessedMore(job, job', d);
    if d.e !in job.emitted {
      MoreDeletes(job.v1, job.v2, job.raced, d.e);
    }
  }

  lemma FetchKeepsOnce(w: World)
    requires Inv(w) && OnceInv(w) && w.pc.Draining? && |w.pc.todo| > 0
    ensures OnceInv(Fetch(w))
  {
    var job, job', e := w.pc.job, Fetch(w).pc.job, w.pc.todo[0].1;
    var d := Done(w.pc.todo[0].0, e, VersionOf(w.seen, e));
    assert LastIn(job.v1, e).None? && !IsProcessed(job, e);
    if VerdictOf(w.db.rows, e).Upsert? {
      UpsertKeepsOnce(job, job', d);
    } else {
      DeleteKeepsOnce(job, job', d);
    }
    SameRacesKeepOnce(w.fs, w.seen, Fetch(w).seen);
  }

  lemma FinishKeepsOnce(w: World)
    requires OnceInv(w) && w.pc.Draining?
    ensures OnceInv(Finish(w))
  {
    assert [Extra][..0] == [];
    assert Once([Extra]);
  }

  lemma PutV1KeepsOnce(fs: Fs, seen: Seen, job: Job)
    requires FilesOnce(fs, seen) && JobOnce(job) && job.number !in fs.v2
    ensures FilesOnce(fs.(v1 := fs.v1[job.number := job.v1]), seen)
  {
    var fs' := fs.(v1 := fs.v1[job.number := job.v1]);
    forall n, e
      ensures BothNamed(fs', n, e) <==> Race(n, e) in seen.races
    {
      assert BothNamed(fs', n, e) <==> BothNamed(fs, n, e);
    }
  }

  lemma PutV2KeepsOnce(fs: Fs, seen: Seen, job: Job)
    requires FilesOnce(fs, seen) && JobOnce(job) && job.number !in fs.v2
    requires job.number in fs.v1 && fs.v1[job.number] == job.v1
    ensures FilesOnce(fs.(v2 := fs.v2[job.number := job.v2]), seen.(races := seen.races + RacesOf(job)))
  {
    var fs' := fs.(v2 := fs.v2[job.number := job.v2]);
    forall n, e
      ensures BothNamed(fs', n, e) <==> Race(n, e) in seen.races + RacesOf(job)
    {
      assert n != job.number ==> (BothNamed(fs', n, e) <==> BothNamed(fs, n, e));
      assert !BothNamed(fs, job.number, e);
    }
  }

  lemma CommitKeepsOnce(w: World)
    requires Inv(w) && OnceInv(w) && w.pc.Committing?
    ensures OnceInv(Commit(w))
  {
    var job := w.pc.job;
    match w.pc.stage
    case PutV1 =>
      assert job.number !in Upto(|w.fs.v1|);
      PutV1KeepsOnce(w.fs, w.seen, job);
    case PutV2 =>
      if job.v2 != [] {
        PutV2KeepsOnce(w.fs, w.seen, job);
      }
    case _ =>
  }

  lemma BackfillSameRaces(w: World, rows: seq<Entity>)
    ensures Backfill(w, rows).seen.races == w.seen.races && Backfill(w, rows).fs == w.fs
    decreases |rows|
  {
    if |rows| > 0 {
      BackfillSameRaces(w, rows[..|rows| - 1]);
    }
  }

  lemma SameRacesKeepOnce(fs: Fs, seen: Seen, seen': Seen)
    requires FilesOnce(fs, seen) && seen'.races == seen.races
    ensures FilesOnce(fs, seen')
  {
    forall n, e
      ensures BothNamed(fs, n, e) <==> Race(n, e) in seen'.races
    {
    }
  }

  lemma StartKeepsOnce(w: World, settings: bool, skills: bool, rows: seq<Entity>)
    requires OnceInv(w) && w.pc.Idle?
    ensures OnceInv(Start(w, settings, skills, rows))
  {
    BackfillSameRaces(w, rows);
    assert [Extra][..0] == [];
    SameRacesKeepOnce(w.fs, w.seen, Start(w, settings, skills, rows).seen);
  }

  lemma AppWriteKeepsOnce(w: World, e: Entity, row: Option<Row>)
    requires OnceInv(w)
    ensures OnceInv(AppWrite(w, e, row))
  {
    SameRacesKeepOnce(w.fs, w.seen, AppWrite(w, e, row).seen);
  }

  lemma DoKeepsOnce(w: World, m: Move)
    requires Inv(w) && OnceInv(w)
    ensures OnceInv(Do(w, m))
  {
    match m
    case Write(e, row) => AppWriteKeepsOnce(w, e, row);
    case Crash =>
    case Begin(settings, skills, rows) =>
      if w.pc.Idle? {
        StartKeepsOnce(w, settings, skills, rows);
      }
    case Check(e) =>
      if w.pc.Pruning? {
        PruneKeepsOnce(w, e);
      }
    case Go =>
      match w.pc {
        case Draining(_, todo) =>
          if |todo| > 0 {
            FetchKeepsOnce(w);
          } else {
            FinishKeepsOnce(w);
          }
        case Committing(_, _) => CommitKeepsOnce(w);
        case _ =>
      }
  }

  // Main result: under any writes and stops, each file of each number names a row
  // at most once, and both files of a number name it exactly when it was upserted
  // in that export after its delete had been republished.
  lemma {:induction false} AtMostOneOperation(w: World, moves: seq<Move>)
    requires Resting(w) && FilesOnce(w.fs, w.seen)
    ensures OnceInv(Run(w, moves)) && FilesOnce(Run(w, moves).fs, Run(w, moves).seen)
    decreases |moves|
  {
    if |moves| > 0 {
      RunKeepsInv(w, moves[..|moves| - 1]);
      AtMostOneOperation(w, moves[..|moves| - 1]);
      DoKeepsOnce(Run(w, moves[..|moves| - 1]), moves[|moves| - 1]);
    }
  }

  // ----- the guard -----------------------------------------------------------------

  // An export would rebuild the delete history.
  predicate Recovers(w: World) {
    w.fs.v2 == map[] && w.db.history
  }

  // No export of the run begins while the delete history has to be rebuilt.
  ghost predicate NeverRecovers(w: World, moves: seq<Move>) {
    |moves| == 0 ||
    (NeverRecovers(w, moves[..|moves| - 1])
     && (moves[|moves| - 1].Begin? ==> !Recovers(Run(w, moves[..|moves| - 1]))))
  }

  ghost predicate NotRecovering(w: World) {
    match w.pc
    case Pruning(job, _) => !job.recovery
    case Draining(job, _) => !job.recovery
    case Committing(job, _) => !job.recovery
    case _ => true
  }

  lemma DoMeetsNoRace(w: World, m: Move)
    requires OnceInv(w) && NotRecovering(w) && (m.Begin? ==> !Recovers(w))
    ensures NotRecovering(Do(w, m)) && Do(w, m).seen.races == w.seen.races
  {
    match m
    case Begin(_, _, rows) => BackfillSameRaces(w, rows);
    case _ =>
  }

  lemma {:induction false} NoRaceWithoutRecovery(w: World, moves: seq<Move>)
    requires Resting(w) && FilesOnce(w.fs, w.seen) && NeverRecovers(w, moves)
    ensures NotRecovering(Run(w, moves)) && Run(w, moves).seen.races == w.seen.races
    decreases |moves|
  {
    if |moves| > 0 {
      NoRaceWithoutRecovery(w, moves[..|moves| - 1]);
      AtMostOneOperation(w, moves[..|moves| - 1]);
      DoMeetsNoRace(Run(w, moves[..|moves| - 1]), moves[|moves| - 1]);
    }
  }

  lemma LostIsRaced(fs: Fs, seen: Seen, e: Entity, version: nat)
    requires FilesOnce(fs, seen) && Lost(fs, e, version)
    ensures exists n :: Race(n, e) in seen.races
  {
    var n :| LostAt(fs, e, version, n);
    assert BothNamed(fs, n, e);
  }

  // Main result: as long as no export begins that has to rebuild the delete
  // history, which its caller can see, nothing is lost at all.
  lemma NothingIsLostWithoutRecovery(w: World, moves: seq<Move>, e: Entity)
    requires Resting(w) && FilesOnce(w.fs, w.seen) && w.seen.races == {} && NeverRecovers(w, moves)
    requires e in Run(w, moves).seen.versions
    ensures var r := Run(w, moves);
            var version := r.seen.versions[e];
            || e in r.db.dirty.Values
            || Stamp(e, version) in r.seen.skipped
            || LastWord(r.fs, e) == Some(Upserted(e, version))
            || (LastWord(r.fs, e) == Some(Deleted(e)) && Stamp(e, version) in r.seen.absent)
  {
    NoUpdateIsLost(w, moves, e);
    NoRaceWithoutRecovery(w, moves);
    AtMostOneOperation(w, moves);
    var r := Run(w, moves);
    if Lost(r.fs, e, r.seen.versions[e]) {
      LostIsRaced(r.fs, r.seen, e, r.seen.versions[e]);
    }
  }

  // ----- the race -------------------------------------------------------------------

  // It takes a write: a row that is gone is not upserted.
  lemma GoneIsNotUpserted(rows: map<Entity, Row>, e: Entity)
    requires IsGone(rows, e)
    ensures !VerdictOf(rows, e).Upsert?
  {
  }
}
