// The code of an export: left alone, it is a run of the steps.
module ExportStores {
  import opened ArchiveTypes
  import opened Exports
  import opened ExportLogs
  import opened ExportOnce

  // No write and no stop.
  ghost predicate Quiet(moves: seq<Move>) {
    forall m | m in moves :: !m.Write? && !m.Crash?
  }

  ghost predicate AllGone(rows: map<Entity, Row>, tombs: set<Entity>) {
    forall e | e in tombs :: IsGone(rows, e)
  }

  ghost predicate QuietJob(rows: map<Entity, Row>, job: Job) {
    AllGone(rows, job.tombs) && AllGone(rows, job.emitted) && job.raced == {}
  }

  // While nobody else writes, what the export has found gone stays gone.
  ghost predicate QuietInv(w: World) {
    match w.pc
    case Idle => true
    case Pruning(job, _) => QuietJob(w.db.rows, job)
    case Draining(job, _) => QuietJob(w.db.rows, job)
    case Committing(job, stage) => QuietJob(w.db.rows, job) && (stage.PutHistory? ==> AllGone(w.db.rows, w.db.tombs))
    case Clearing(_) => AllGone(w.db.rows, w.db.tombs)
  }

  lemma QuietStep(w: World, m: Move)
    requires QuietInv(w) && !m.Write? && !m.Crash?
    ensures QuietInv(Do(w, m)) && Do(w, m).db.rows == w.db.rows && Do(w, m).seen.races == w.seen.races
  {
    match m
    case Begin(_, _, rows) =>
      BackfillLeavesTombs(w, rows);
      BackfillSameRaces(w, rows);
    case Check(_) =>
    case Go =>
      if w.pc.Draining? && |w.pc.todo| > 0 && IsGone(w.db.rows, w.pc.todo[0].1) {
        GoneIsNotUpserted(w.db.rows, w.pc.todo[0].1);
      }
  }

  lemma {:induction false} QuietRun(w: World, moves: seq<Move>)
    requires QuietInv(w) && Quiet(moves)
    ensures QuietInv(Run(w, moves)) && Run(w, moves).db.rows == w.db.rows && Run(w, moves).seen.races == w.seen.races
    decreases |moves|
  {
    if |moves| > 0 {
      var front, last := moves[..|moves| - 1], moves[|moves| - 1];
      assert last in moves && forall m | m in front :: m in moves;
      QuietRun(w, front);
      QuietStep(Run(w, front), last);
    }
  }

  lemma BackfillLeavesTombs(w: World, rows: seq<Entity>)
    ensures Backfill(w, rows).db.tombs == w.db.tombs && Backfill(w, rows).db.history == w.db.history
    ensures Backfill(w, rows).fs == w.fs && Backfill(w, rows).pc == w.pc && Backfill(w, rows).db.rows == w.db.rows
    decreases |rows|
  {
    if |rows| > 0 {
      BackfillLeavesTombs(w, rows[..|rows| - 1]);
    }
  }

  lemma RunMore(w: World, moves: seq<Move>, m: Move)
    ensures Run(w, moves + [m]) == Do(Run(w, moves), m)
  {
    assert (moves + [m])[..|moves|] == moves;
  }

  lemma {:induction false} RunAppend(w: World, a: seq<Move>, b: seq<Move>)
    ensures Run(w, a + b) == Run(Run(w, a), b)
    decreases |b|
  {
    if |b| == 0 {
      assert a + b == a;
    } else {
      assert (a + b)[..|a + b| - 1] == a + b[..|b| - 1];
      RunAppend(w, a, b[..|b| - 1]);
    }
  }

  class ExportStore {
    const rows: map<Entity, Row>
    var dirty: map<nat, Entity>
    var nextDirty: nat
    var tombs: set<Entity>
    var history: bool
    var v1: map<nat, seq<Emit>>
    var v2: map<nat, seq<Emit>>
    var v3: set<nat>
    var seen: Seen           // the record of the run; nothing depends on it

    ghost function At(pc: Pc): World
      reads this
    {
      World(Db(rows, dirty, nextDirty, tombs, history), Fs(v1, v2, v3), seen, pc)
    }

    constructor (rows: map<Entity, Row>)
      ensures this.rows == rows && Resting(At(Idle)) && FilesOnce(At(Idle).fs, seen)
    {
      this.rows := rows;
      dirty, nextDirty, tombs, history, v1, v2, v3 := map[], 0, {}, false, map[], map[], {};
      seen := Seen(map[], {}, {}, {});
      assert Upto(0) == {};
    }

    // One more than the largest number in any directory.
    method NextNumber() returns (number: nat)
      ensures number == NextExportSeq(Fs(v1, v2, v3))
    {
      var largest := 0;
      var numbers := v1.Keys + v2.Keys + v3;
      var todo := numbers;
      while todo != {}
        invariant todo <= numbers && (largest == 0 || largest in numbers)
        invariant forall n | n in numbers && n !in todo :: n <= largest
      {
        var n :| n in todo;
        if n > largest {
          largest := n;
        }
        todo := todo - {n};
      }
      number := largest + 1;
    }

    method BackfillDirty(order: seq<Entity>)
      modifies `dirty, `nextDirty, `seen
      ensures At(Idle) == Backfill(old(At(Idle)), order)
    {
      ghost var start := At(Idle);
      for i := 0 to |order|
        invariant At(Idle) == Backfill(start, order[..i])
      {
        assert order[..i + 1][..i] == order[..i];
        var e := order[i];
        if IsLocal(rows, e) && e !in dirty.Values {
          dirty := dirty[nextDirty := e];
          nextDirty := nextDirty + 1;
          seen := seen.(versions := seen.versions[e := VersionOf(seen, e)]);
        }
      }
      assert order[..|order|] == order;
    }

    method BeginJob(settings: bool, skills: bool, order: seq<Entity>) returns (job: Job)
      modifies `dirty, `nextDirty, `seen
      ensures At(Pruning(job, tombs)) == Start(old(At(Idle)), settings, skills, order)
    {
      var number := NextNumber();
      var hadV1, hadV2 := v1 != map[], v2 != map[];
      var recovery := !hadV2 && history;
      job := Job(number, hadV1, hadV2, recovery, skills, {}, {}, {}, if settings then [Extra] else [], [], []);
      BackfillLeavesTombs(At(Idle), order);
      if !hadV1 || recovery {
        BackfillDirty(order);
      }
    }

    method PruneOne(job: Job, e: Entity, ghost todo: set<Entity>) returns (job': Job)
      requires e in todo
      modifies `seen
      ensures At(Pruning(job', todo - {e})) == Prune(old(At(Pruning(job, todo))), e)
    {
      job' := job;
      if !IsGone(rows, e) {
        return;
      }
      job' := job'.(tombs := job'.tombs + {e});
      if job.recovery {
        job' := job'.(emitted := job'.emitted + {e}, v2 := job'.v2 + [Deleted(e)]);
        seen := MarkAbsent(seen, e);
      }
    }

    method PruneTombstones(job: Job) returns (job': Job, ghost moves: seq<Move>)
      modifies `seen
      ensures Quiet(moves) && At(Pruning(job', {})) == Run(old(At(Pruning(job, tombs))), moves)
    {
      ghost var start := At(Pruning(job, tombs));
      job', moves := job, [];
      var todo := tombs;
      while todo != {}
        invariant Quiet(moves) && At(Pruning(job', todo)) == Run(start, moves)
      {
        var e :| e in todo;
        RunMore(start, moves, Check(e));
        job' := PruneOne(job', e, todo);
        moves := moves + [Check(e)];
        todo := todo - {e};
      }
    }

    method FetchOne(job: Job, key: nat, e: Entity, ghost rest: seq<(nat, Entity)>) returns (job': Job)
      modifies `seen
      ensures At(Draining(job', rest)) == Fetch(old(At(Draining(job, [(key, e)] + rest))))
    {
      var version := VersionOf(seen, e);
      ghost var before := At(Draining(job, [(key, e)] + rest));
      assert before.pc.todo[1..] == rest;
      job' := job.(processed := job.processed + [Done(key, e, version)]);
      match VerdictOf(rows, e) {
        case Tombstone =>
          job' := job'.(tombs := job'.tombs + {e});
          if e !in job.emitted {
            job' := job'.(emitted := job'.emitted + {e}, v2 := job'.v2 + [Deleted(e)]);
          }
          seen := MarkAbsent(seen, e);
        case Skip =>
          job' := job'.(tombs := job'.tombs - {e});
          seen := seen.(skipped := seen.skipped + {Stamp(e, version)});
        case Upsert =>
          job' := job'.(tombs := job'.tombs - {e}, v1 := job'.v1 + [Upserted(e, version)]);
          if e in job.emitted {
            job' := job'.(raced := job'.raced + {e});
          }
      }
    }
  
    method DrainQueue(job: Job) returns (job': Job, ghost moves: seq<Move>)
      modifies `seen
      ensures Quiet(moves) && At(Committing(job', PutV1)) == Run(old(At(Pruning(job, {}))), moves)
    {
      ghost var start := At(Pruning(job, {}));
      job', moves := job, [Go];
      var todo := Queue(dirty, nextDirty);
      RunMore(start, [], Go);
      assert [] + [Go] == [Go];
      while |todo| > 0
        invariant Quiet(moves) && At(Draining(job', todo)) == Run(start, moves)
        decreases |todo|
      {
        var (key, e) := todo[0];
        assert todo == [(key, e)] + todo[1..];
        RunMore(start, moves, Go);
        job' := FetchOne(job', key, e, todo[1..]);
        moves := moves + [Go];
        todo := todo[1..];
      }
      RunMore(start, moves, Go);
      moves := moves + [Go];
      if job'.v1 == [] && (!job'.hadV1 || job'.v2 != [] || job'.skills) {
        job' := job'.(v1 := [Extra]);
      }
    }

    // The three files, the first one first.
    method PutFiles(job: Job) returns (ghost moves: seq<Move>)
      modifies `v1, `v2, `v3, `seen
      ensures Quiet(moves) && At(Committing(job, PutTombs)) == Run(old(At(Committing(job, PutV1))), moves)
    {
      ghost var start := At(Committing(job, PutV1));
      if job.v1 != [] {
        v1 := v1[job.number := job.v1];
      }
      assert At(Committing(job, PutV2)) == Do(start, Go);
      if job.v2 != [] {
        v2 := v2[job.number := job.v2];
        seen := seen.(races := seen.races + RacesOf(job));
      }
      assert At(Committing(job, PutV3)) == Do(Do(start, Go), Go);
      if job.skills {
        v3 := v3 + {job.number};
      }
      moves := [Go, Go, Go];
      ThreeGos(start);
    }

    method SaveState(job: Job) returns (ghost moves: seq<Move>)
      modifies `tombs, `history
      ensures Quiet(moves) && At(Clearing(job.processed)) == Run(old(At(Committing(job, PutTombs))), moves)
    {
      ghost var start := At(Committing(job, PutTombs));
      tombs := job.tombs;
      assert At(Committing(job, PutHistory)) == Do(start, Go);
      if job.v2 != [] || job.hadV2 {
        history := true;
      } else if job.recovery {
        history := false;
      }
      moves := [Go, Go];
      TwoGos(start);
    }

    method ClearProcessed(done: seq<Done>) returns (ghost moves: seq<Move>)
      modifies `dirty
      ensures Quiet(moves) && At(Clearing([])) == Run(old(At(Clearing(done))), moves)
    {
      ghost var start := At(Clearing(done));
      moves := [];
      var rest := done;
      while |rest| > 0
        invariant Quiet(moves) && At(Clearing(rest)) == Run(start, moves)
        decreases |rest|
      {
        RunMore(start, moves, Go);
        dirty := dirty - {rest[0].key};
        rest := rest[1..];
        moves := moves + [Go];
      }
    }

    // Main result: an export that nobody disturbs is a quiet run of the steps, and
    // the tombstones it saves name rows that are gone.
    method ExportOps(settings: bool, skills: bool, order: seq<Entity>) returns (ghost moves: seq<Move>)
      modifies this
      ensures At(Clearing([])) == Run(old(At(Idle)), moves) && Quiet(moves)
      ensures seen.races == old(seen.races) && AllGone(rows, tombs)
    {
      ghost var start := At(Idle);
      var job := BeginJob(settings, skills, order);
      moves := [Begin(settings, skills, order)];
      RunMore(start, [], Begin(settings, skills, order));
      assert [] + moves == moves;
      ghost var more;
      job, more := PruneTombstones(job);
      RunAppend(start, moves, more);
      moves := moves + more;
      job, more := DrainQueue(job);
      RunAppend(start, moves, more);
      moves := moves + more;
      more := PutFiles(job);
      RunAppend(start, moves, more);
      moves := moves + more;
      more := SaveState(job);
      RunAppend(start, moves, more);
      moves := moves + more;
      more := ClearProcessed(job.processed);
      RunAppend(start, moves, more);
      moves := moves + more;
      QuietRun(start, moves);
    }
  }

  lemma TwoGos(w: World)
    ensures Run(w, [Go, Go]) == Do(Do(w, Go), Go)
  {
    RunMore(w, [Go], Go);
    RunMore(w, [], Go);
    assert [] + [Go] == [Go] && [Go] + [Go] == [Go, Go];
  }

  lemma ThreeGos(w: World)
    ensures Run(w, [Go, Go, Go]) == Do(Do(Do(w, Go), Go), Go)
  {
    TwoGos(w);
    RunMore(w, [Go, Go], Go);
    assert [Go, Go] + [Go] == [Go, Go, Go];
  }
}
