// What the published log says about each row, at every moment.
module ExportLogs {
  import opened Options
  import opened ArchiveTypes
  import opened Exports

  predicate About(op: Emit, e: Entity) {
    !op.Extra? && op.e == e
  }

  function LastIn(ops: seq<Emit>, e: Entity): Option<Emit> {
    if |ops| == 0 then None
    else if About(ops[|ops| - 1], e) then Some(ops[|ops| - 1])
    else LastIn(ops[..|ops| - 1], e)
  }

  // The last word on e in the files up to n. A peer reads the first directory's
  // file of a number before the second's.
  function LastOp(fs: Fs, e: Entity, n: nat): Option<Emit> {
    if n == 0 then None
    else if n in fs.v2 && LastIn(fs.v2[n], e).Some? then LastIn(fs.v2[n], e)
    else if n in fs.v1 && LastIn(fs.v1[n], e).Some? then LastIn(fs.v1[n], e)
    else LastOp(fs, e, n - 1)
  }

  function LastWord(fs: Fs, e: Entity): Option<Emit> {
    LastOp(fs, e, |fs.v1|)
  }

  // The log says what the row was at its n-th write.
  ghost predicate Says(seen: Seen, word: Option<Emit>, e: Entity, version: nat) {
    word == Some(Upserted(e, version)) || (word == Some(Deleted(e)) && Stamp(e, version) in seen.absent)
  }

  // Number n publishes this version of the row, and its delete, which is read last.
  ghost predicate LostAt(fs: Fs, e: Entity, version: nat, n: nat) {
    && n in fs.v1 && n in fs.v2
    && LastIn(fs.v1[n], e) == Some(Upserted(e, version)) && LastIn(fs.v2[n], e) == Some(Deleted(e))
  }

  ghost predicate Lost(fs: Fs, e: Entity, version: nat) {
    LastWord(fs, e) == Some(Deleted(e)) && exists n :: LostAt(fs, e, version, n)
  }

  ghost predicate Settled(seen: Seen, fs: Fs, e: Entity, version: nat) {
    Stamp(e, version) in seen.skipped || Says(seen, LastWord(fs, e), e, version) || Lost(fs, e, version)
  }

  // Every row written so far is still queued or what it is now has been settled.
  ghost predicate KeptUp(db: Db, seen: Seen, fs: Fs) {
    forall e | e in seen.versions :: e in db.dirty.Values || Settled(seen, fs, e, seen.versions[e])
  }

  ghost predicate QueueInv(db: Db, seen: Seen) {
    && (forall k | k in db.dirty :: k < db.nextDirty && db.dirty[k] in seen.versions)
    && (forall k, l | k in db.dirty && l in db.dirty && db.dirty[k] == db.dirty[l] :: k == l)
  }

  // An entry that was read from the queue: if it is still there, the row has not
  // been written since.
  ghost predicate Linked(db: Db, key: nat, e: Entity) {
    key < db.nextDirty && (key in db.dirty ==> db.dirty[key] == e)
  }

  ghost predicate DoneLinked(db: Db, seen: Seen, d: Done) {
    Linked(db, d.key, d.e) && (d.key in db.dirty ==> VersionOf(seen, d.e) == d.version)
  }

  // What became of an entry.
  ghost predicate Processed(job: Job, seen: Seen, d: Done) {
    || Stamp(d.e, d.version) in seen.skipped
    || LastIn(job.v1, d.e) == Some(Upserted(d.e, d.version))
    || (d.e in job.emitted && Stamp(d.e, d.version) in seen.absent)
  }

  ghost predicate DoneInv(db: Db, seen: Seen, job: Job) {
    forall d | d in job.processed ::
      DoneLinked(db, seen, d) && d.e in db.dirty.Values && Processed(job, seen, d)
  }

  ghost predicate EmitInv(db: Db, seen: Seen, job: Job) {
    && (forall e :: LastIn(job.v2, e) == if e in job.emitted then Some(Deleted(e)) else None)
    && (forall e | LastIn(job.v1, e).Some? :: e in db.dirty.Values)
    && (forall e | e in job.emitted && e in seen.versions ::
          e in db.dirty.Values || Stamp(e, seen.versions[e]) in seen.absent)
  }

  ghost predicate JobInv(db: Db, seen: Seen, job: Job) {
    DoneInv(db, seen, job) && EmitInv(db, seen, job)
  }

  // The entries still to be looked at.
  ghost predicate TodoInv(db: Db, job: Job, todo: seq<(nat, Entity)>) {
    && (forall i | 0 <= i < |todo| :: Linked(db, todo[i].0, todo[i].1) && todo[i].1 in db.dirty.Values)
    && (forall i, j | 0 <= i < j < |todo| :: todo[i].1 != todo[j].1)
    && (forall d, i | d in job.processed && 0 <= i < |todo| :: d.e != todo[i].1)
    && (forall i | 0 <= i < |todo| :: LastIn(job.v1, todo[i].1).None?)
  }

  // What has been put so far.
  ghost predicate PutInv(fs: Fs, job: Job, stage: Stage) {
    match stage
    case PutV1 => job.number == |fs.v1| + 1
    case PutV2 => (job.v1 != [] ==> Put1(fs, job)) && job.number !in fs.v2
    case _ => (job.v1 != [] ==> Put1(fs, job)) && (if job.v2 == [] then job.number !in fs.v2 else Put2(fs, job))
  }

  ghost predicate Put1(fs: Fs, job: Job) {
    job.number == |fs.v1| && job.number in fs.v1 && fs.v1[job.number] == job.v1
  }

  ghost predicate Put2(fs: Fs, job: Job) {
    job.number in fs.v2 && fs.v2[job.number] == job.v2
  }

  ghost predicate PcInv(w: World) {
    match w.pc
    case Idle => true
    case Pruning(job, _) => JobInv(w.db, w.seen, job) && job.processed == [] && forall e :: LastIn(job.v1, e).None?
    case Draining(job, todo) => JobInv(w.db, w.seen, job) && TodoInv(w.db, job, todo)
    case Committing(job, stage) => JobInv(w.db, w.seen, job) && PutInv(w.fs, job, stage)
    case Clearing(done) => forall d | d in done ::
      DoneLinked(w.db, w.seen, d) && Settled(w.seen, w.fs, d.e, d.version)
  }

  ghost predicate Inv(w: World) {
    NumberInv(w) && QueueInv(w.db, w.seen) && KeptUp(w.db, w.seen, w.fs) && PcInv(w)
  }

  // ----- the application's writes -----------------------------------------------------

  lemma EnqueueKeeps(db: Db, e: Entity)
    requires forall k | k in db.dirty :: k < db.nextDirty
    ensures var q := Enqueue(db, e);
            && q.nextDirty == db.nextDirty + 1
            && (forall x :: x in q.dirty.Values <==> x in db.dirty.Values || x == e)
            && (forall k | k in q.dirty ::
                  k == db.nextDirty || (k in db.dirty && q.dirty[k] == db.dirty[k] && db.dirty[k] != e))
  {
    var q := Enqueue(db, e);
    assert q.dirty[db.nextDirty] == e;
    forall x | x in db.dirty.Values && x != e
      ensures x in q.dirty.Values
    {
      var k :| k in db.dirty && db.dirty[k] == x;
      assert q.dirty[k] == x;
    }
  }

  // A recorded write.
  ghost predicate Written(db: Db, seen: Seen, e: Entity, db': Db, seen': Seen) {
    && db'.dirty == Enqueue(db, e).dirty && db'.nextDirty == db.nextDirty + 1
    && seen' == seen.(versions := seen.versions[e := VersionOf(seen, e) + 1])
  }

  lemma WriteKeepsQueue(db: Db, seen: Seen, fs: Fs, e: Entity, db': Db, seen': Seen)
    requires QueueInv(db, seen) && KeptUp(db, seen, fs) && Written(db, seen, e, db', seen')
    ensures QueueInv(db', seen') && KeptUp(db', seen', fs)
  {
    EnqueueKeeps(db, e);
  }

  lemma WriteKeepsDone(db: Db, seen: Seen, e: Entity, db': Db, seen': Seen, d: Done)
    requires QueueInv(db, seen) && Written(db, seen, e, db', seen') && DoneLinked(db, seen, d)
    ensures DoneLinked(db', seen', d)
  {
    EnqueueKeeps(db, e);
  }

  lemma WriteKeepsJob(db: Db, seen: Seen, e: Entity, db': Db, seen': Seen, job: Job)
    requires QueueInv(db, seen) && Written(db, seen, e, db', seen') && JobInv(db, seen, job)
    ensures JobInv(db', seen', job)
  {
    EnqueueKeeps(db, e);
    forall d | d in job.processed
      ensures DoneLinked(db', seen', d)
    {
      WriteKeepsDone(db, seen, e, db', seen', d);
    }
  }

  lemma WriteKeepsTodo(db: Db, seen: Seen, e: Entity, db': Db, seen': Seen, job: Job, todo: seq<(nat, Entity)>)
    requires QueueInv(db, seen) && Written(db, seen, e, db', seen') && TodoInv(db, job, todo)
    ensures TodoInv(db', job, todo)
  {
    EnqueueKeeps(db, e);
  }

  lemma WriteKeepsPc(w: World, e: Entity, w': World)
    requires Inv(w) && Written(w.db, w.seen, e, w'.db, w'.seen) && w'.fs == w.fs && w'.pc == w.pc
    ensures PcInv(w')
  {
    match w.pc
    case Idle =>
    case Pruning(job, _) => WriteKeepsJob(w.db, w.seen, e, w'.db, w'.seen, job);
    case Draining(job, todo) =>
      WriteKeepsJob(w.db, w.seen, e, w'.db, w'.seen, job);
      WriteKeepsTodo(w.db, w.seen, e, w'.db, w'.seen, job, todo);
    case Committing(job, _) => WriteKeepsJob(w.db, w.seen, e, w'.db, w'.seen, job);
    case Clearing(done) =>
      forall d | d in done
        ensures DoneLinked(w'.db, w'.seen, d) && Settled(w'.seen, w'.fs, d.e, d.version)
      {
        WriteKeepsDone(w.db, w.seen, e, w'.db, w'.seen, d);
      }
  }

  // The invariant does not look at rows, tombstones or the history mark.
  ghost predicate SameQueue(db: Db, db': Db) {
    db'.dirty == db.dirty && db'.nextDirty == db.nextDirty
  }

  lemma SameQueueKeepsJob(db: Db, seen: Seen, db': Db, job: Job)
    requires JobInv(db, seen, job) && SameQueue(db, db')
    ensures JobInv(db', seen, job)
  {
  }

  lemma SameQueueKeepsInv(w: World, db': Db)
    requires Inv(w) && SameQueue(w.db, db')
    ensures Inv(w.(db := db'))
  {
    match w.pc
    case Idle =>
    case Pruning(job, _) => SameQueueKeepsJob(w.db, w.seen, db', job);
    case Draining(job, todo) =>
      SameQueueKeepsJob(w.db, w.seen, db', job);
      assert TodoInv(db', job, todo);
    case Committing(job, _) => SameQueueKeepsJob(w.db, w.seen, db', job);
    case Clearing(_) =>
  }

  lemma AppWriteKeepsInv(w: World, e: Entity, row: Option<Row>)
    requires Inv(w)
    ensures Inv(AppWrite(w, e, row))
  {
    var w' := AppWrite(w, e, row);
    if w'.seen == w.seen && SameQueue(w.db, w'.db) {
      SameQueueKeepsInv(w, w'.db);
      assert w' == w.(db := w'.db);
    } else {
      WriteKeepsQueue(w.db, w.seen, w.fs, e, w'.db, w'.seen);
      WriteKeepsPc(w, e, w');
      DoKeepsNumbers(w, Write(e, row));
    }
  }

  // ----- beginning --------------------------------------------------------------------

  lemma BackfillOne(w: World, e: Entity)
    requires QueueInv(w.db, w.seen) && KeptUp(w.db, w.seen, w.fs) && e !in w.db.dirty.Values
    ensures var db := w.db.(dirty := w.db.dirty[w.db.nextDirty := e], nextDirty := w.db.nextDirty + 1);
            var seen := w.seen.(versions := w.seen.versions[e := VersionOf(w.seen, e)]);
            QueueInv(db, seen) && KeptUp(db, seen, w.fs)
  {
    var dirty := w.db.dirty[w.db.nextDirty := e];
    assert dirty[w.db.nextDirty] == e;
    forall x | x in w.db.dirty.Values
      ensures x in dirty.Values
    {
      var k :| k in w.db.dirty && w.db.dirty[k] == x;
      assert dirty[k] == x;
    }
  }

  lemma {:induction false} BackfillKeeps(w: World, rows: seq<Entity>)
    requires QueueInv(w.db, w.seen) && KeptUp(w.db, w.seen, w.fs)
    ensures var b := Backfill(w, rows);
            QueueInv(b.db, b.seen) && KeptUp(b.db, b.seen, b.fs) && b.fs == w.fs
    decreases |rows|
  {
    if |rows| > 0 {
      BackfillKeeps(w, rows[..|rows| - 1]);
      var w1, e := Backfill(w, rows[..|rows| - 1]), rows[|rows| - 1];
      if IsLocal(w1.db.rows, e) && e !in w1.db.dirty.Values {
        BackfillOne(w1, e);
      }
    }
  }

  lemma NothingYet(e: Entity)
    ensures LastIn([], e).None? && LastIn([Extra], e).None?
  {
    assert [Extra][..0] == [];
  }

  lemma StartKeepsInv(w: World, settings: bool, skills: bool, rows: seq<Entity>)
    requires Inv(w) && w.pc.Idle?
    ensures Inv(Start(w, settings, skills, rows))
  {
    BackfillKeeps(w, rows);
    DoKeepsNumbers(w, Begin(settings, skills, rows));
    var job := Start(w, settings, skills, rows).pc.job;
    forall e
      ensures LastIn(job.v1, e).None? && LastIn(job.v2, e).None?
    {
      NothingYet(e);
    }
  }

  // ----- looking at rows ------------------------------------------------------------------

  lemma LastInMore(ops: seq<Emit>, op: Emit)
    ensures forall e :: LastIn(ops + [op], e) == if About(op, e) then Some(op) else LastIn(ops, e)
  {
    assert (ops + [op])[..|ops|] == ops;
  }

  ghost predicate SeesMore(seen: Seen, seen': Seen) {
    && seen'.versions == seen.versions && seen.absent <= seen'.absent && seen.skipped <= seen'.skipped
  }

  lemma SeesMoreKeeps(db: Db, seen: Seen, fs: Fs, seen': Seen)
    requires SeesMore(seen, seen') && QueueInv(db, seen) && KeptUp(db, seen, fs)
    ensures QueueInv(db, seen') && KeptUp(db, seen', fs)
  {
  }

  lemma SeesMoreKeepsJob(db: Db, seen: Seen, seen': Seen, job: Job)
    requires SeesMore(seen, seen') && JobInv(db, seen, job)
    ensures JobInv(db, seen', job)
  {
    forall d | d in job.processed
      ensures Processed(job, seen', d)
    {
    }
  }

  lemma PruneKeepsJob(db: Db, seen: Seen, job: Job, e: Entity)
    requires JobInv(db, seen, job) && job.processed == [] && forall x :: LastIn(job.v1, x).None?
    ensures JobInv(db, seen, job.(tombs := job.tombs + {e}))
    ensures JobInv(db, MarkAbsent(seen, e),
                   job.(tombs := job.tombs + {e}, emitted := job.emitted + {e}, v2 := job.v2 + [Deleted(e)]))
  {
    LastInMore(job.v2, Deleted(e));
  }

  lemma PruneKeepsInv(w: World, e: Entity)
    requires Inv(w) && w.pc.Pruning?
    ensures Inv(Prune(w, e))
  {
    DoKeepsNumbers(w, Check(e));
    PruneKeepsPc(w, e);
    SeesMoreKeeps(w.db, w.seen, w.fs, Prune(w, e).seen);
  }

  lemma PruneKeepsPc(w: World, e: Entity)
    requires PcInv(w) && w.pc.Pruning?
    ensures PcInv(Prune(w, e))
  {
    PruneKeepsJob(w.db, w.seen, w.pc.job, e);
  }

  lemma {:induction false} QueueIsListed(dirty: map<nat, Entity>, n: nat)
    ensures forall i | 0 <= i < |Queue(dirty, n)| ::
              Queue(dirty, n)[i].0 in dirty && dirty[Queue(dirty, n)[i].0] == Queue(dirty, n)[i].1
                  && Queue(dirty, n)[i].0 < n
    ensures forall i, j | 0 <= i < j < |Queue(dirty, n)| :: Queue(dirty, n)[i].0 < Queue(dirty, n)[j].0
  {
    if n > 0 {
      QueueIsListed(dirty, n - 1);
    }
  }

  lemma ListedIsTodo(db: Db, seen: Seen, job: Job, todo: seq<(nat, Entity)>)
    requires QueueInv(db, seen) && job.processed == [] && forall e :: LastIn(job.v1, e).None?
    requires forall i | 0 <= i < |todo| :: todo[i].0 in db.dirty && db.dirty[todo[i].0] == todo[i].1
    requires forall i, j | 0 <= i < j < |todo| :: todo[i].0 < todo[j].0
    ensures TodoInv(db, job, todo)
  {
  }

  lemma SnapshotKeepsInv(w: World)
    requires Inv(w) && w.pc.Pruning? && w.pc.tombs == {}
    ensures Inv(Snapshot(w))
  {
    DoKeepsNumbers(w, Go);
    QueueIsListed(w.db.dirty, w.db.nextDirty);
    ListedIsTodo(w.db, w.seen, w.pc.job, Queue(w.db.dirty, w.db.nextDirty));
  }

  // One entry processed: what it needs and what it leaves for the others.
  lemma FetchKeepsJob(db: Db, seen: Seen, seen': Seen, job: Job, job': Job, d: Done, todo: seq<(nat, Entity)>)
    requires JobInv(db, seen, job) && |todo| > 0 && TodoInv(db, job, todo)
    requires d == Done(todo[0].0, todo[0].1, VersionOf(seen, todo[0].1)) && FetchedAs(seen, seen', job, job', d)
    ensures JobInv(db, seen', job') && TodoInv(db, job', todo[1..])
  {
    FetchKeepsEmits(db, seen, seen', job, job', d);
    FetchKeepsDone(db, seen, seen', job, job', d);
    FetchKeepsTodo(db, job, job', d, todo);
  }

  lemma FetchKeepsEmits(db: Db, seen: Seen, seen': Seen, job: Job, job': Job, d: Done)
    requires EmitInv(db, seen, job) && FetchedAs(seen, seen', job, job', d)
    requires d.e in db.dirty.Values && d.version == VersionOf(seen, d.e)
    ensures EmitInv(db, seen', job')
  {
    LastInMore(job.v2, Deleted(d.e));
    LastInMore(job.v1, Upserted(d.e, d.version));
  }

  lemma FetchKeepsDone(db: Db, seen: Seen, seen': Seen, job: Job, job': Job, d: Done)
    requires DoneInv(db, seen, job) && FetchedAs(seen, seen', job, job', d)
    requires DoneLinked(db, seen, d) && d.e in db.dirty.Values && forall x | x in job.processed :: x.e != d.e
    ensures DoneInv(db, seen', job')
  {
    forall x | x in job.processed
      ensures Processed(job', seen', x)
    {
      OthersStayProcessed(seen, seen', job, job', d, x);
    }
  }

  lemma OthersStayProcessed(seen: Seen, seen': Seen, job: Job, job': Job, d: Done, x: Done)
    requires FetchedAs(seen, seen', job, job', d) && Processed(job, seen, x) && x.e != d.e
    ensures Processed(job', seen', x)
  {
    LastInMore(job.v1, Upserted(d.e, d.version));
  }

  lemma FetchKeepsTodo(db: Db, job: Job, job': Job, d: Done, todo: seq<(nat, Entity)>)
    requires |todo| > 0 && TodoInv(db, job, todo) && d.e == todo[0].1
    requires job'.processed == job.processed + [d]
    requires job'.v1 == job.v1 || job'.v1 == job.v1 + [Upserted(d.e, d.version)]
    ensures TodoInv(db, job', todo[1..])
  {
    LastInMore(job.v1, Upserted(d.e, d.version));
    var rest := todo[1..];
    assert forall i | 0 <= i < |rest| :: rest[i] == todo[i + 1];
  }

  // How the three verdicts change the job.
  ghost predicate FetchedAs(seen: Seen, seen': Seen, job: Job, job': Job, d: Done) {
    && job'.processed == job.processed + [d] && Processed(job', seen', d)
    && (job'.emitted == job.emitted || (job'.emitted == job.emitted + {d.e} && Stamp(d.e, d.version) in seen'.absent))
    && job'.v2 == (if job'.emitted == job.emitted then job.v2 else job.v2 + [Deleted(d.e)])
    && (job'.v1 == job.v1 || job'.v1 == job.v1 + [Upserted(d.e, d.version)])
    && SeesMore(seen, seen')
  }

  lemma FetchShape(w: World)
    requires w.pc.Draining? && |w.pc.todo| > 0
    ensures var (key, e) := w.pc.todo[0];
            var w' := Fetch(w);
            && w'.db == w.db && w'.fs == w.fs && w'.pc.Draining? && w'.pc.todo == w.pc.todo[1..]
            && FetchedAs(w.seen, w'.seen, w.pc.job, w'.pc.job, Done(key, e, VersionOf(w.seen, e)))
  {
    var job, e := w.pc.job, w.pc.todo[0].1;
    LastInMore(job.v1, Upserted(e, VersionOf(w.seen, e)));
    assert e !in job.emitted ==> job.emitted + {e} != job.emitted;
  }

  lemma FetchKeepsInv(w: World)
    requires Inv(w) && w.pc.Draining? && |w.pc.todo| > 0
    ensures Inv(Fetch(w))
  {
    DoKeepsNumbers(w, Go);
    FetchShape(w);
    FetchedKeepsInv(w, Fetch(w));
  }

  lemma FetchedKeepsInv(w: World, w': World)
    requires QueueInv(w.db, w.seen) && KeptUp(w.db, w.seen, w.fs) && PcInv(w)
    requires w.pc.Draining? && |w.pc.todo| > 0 && NumberInv(w')
    requires w'.db == w.db && w'.fs == w.fs && w'.pc.Draining? && w'.pc.todo == w.pc.todo[1..]
    requires var (key, e) := w.pc.todo[0];
             FetchedAs(w.seen, w'.seen, w.pc.job, w'.pc.job, Done(key, e, VersionOf(w.seen, e)))
    ensures Inv(w')
  {
    SeesMoreKeeps(w.db, w.seen, w.fs, w'.seen);
    FetchKeepsPc(w.db, w.seen, w.fs, w.pc.job, w.pc.todo, w');
  }

  lemma FetchKeepsPc(db: Db, seen: Seen, fs: Fs, job: Job, todo: seq<(nat, Entity)>, w': World)
    requires JobInv(db, seen, job) && |todo| > 0 && TodoInv(db, job, todo)
    requires w'.db == db && w'.pc.Draining? && w'.pc.todo == todo[1..]
    requires FetchedAs(seen, w'.seen, job, w'.pc.job, Done(todo[0].0, todo[0].1, VersionOf(seen, todo[0].1)))
    ensures PcInv(w')
  {
    var d := Done(todo[0].0, todo[0].1, VersionOf(seen, todo[0].1));
    FetchKeepsJob(db, seen, w'.seen, job, w'.pc.job, d, todo);
  }

  lemma FinishKeepsInv(w: World)
    requires Inv(w) && w.pc.Draining? && |w.pc.todo| == 0
    ensures Inv(Finish(w))
  {
    DoKeepsNumbers(w, Go);
    var job, job' := w.pc.job, Finish(w).pc.job;
    assert forall e :: LastIn(job'.v1, e) == LastIn(job.v1, e) by {
      assert [Extra][..0] == [];
    }
  }

  // ----- publishing -------------------------------------------------------------------

  lemma {:induction false} LastOpFrame(fs: Fs, fs': Fs, e: Entity, n: nat)
    requires forall k: nat | k <= n ::
               (k in fs.v1 <==> k in fs'.v1) && (k in fs.v1 ==> fs.v1[k] == fs'.v1[k])
               && (k in fs.v2 <==> k in fs'.v2) && (k in fs.v2 ==> fs.v2[k] == fs'.v2[k])
    ensures LastOp(fs', e, n) == LastOp(fs, e, n)
  {
    if n > 0 {
      LastOpFrame(fs, fs', e, n - 1);
    }
  }

  // Files are only added.
  ghost predicate Extends(fs: Fs, fs': Fs) {
    && (forall n | n in fs.v1 :: n in fs'.v1 && fs'.v1[n] == fs.v1[n])
    && (forall n | n in fs.v2 :: n in fs'.v2 && fs'.v2[n] == fs.v2[n])
  }

  // What is settled stays settled while the last word does not change.
  lemma SettledStays(seen: Seen, fs: Fs, fs': Fs, e: Entity, version: nat)
    requires Settled(seen, fs, e, version) && Extends(fs, fs') && LastWord(fs', e) == LastWord(fs, e)
    ensures Settled(seen, fs', e, version)
  {
    if Lost(fs, e, version) {
      var n :| LostAt(fs, e, version, n);
      assert LostAt(fs', e, version, n);
    }
  }

  lemma PutV1KeepsWords(fs: Fs, job: Job, e: Entity)
    requires Numbered(fs) && job.number == |fs.v1| + 1 && job.v1 != [] && LastIn(job.v1, e).None?
    ensures LastWord(fs.(v1 := fs.v1[job.number := job.v1]), e) == LastWord(fs, e)
  {
    PutKeepsNumbers(fs, job.v1);
    assert job.number !in Upto(|fs.v1|);
    LastOpFrame(fs, fs.(v1 := fs.v1[job.number := job.v1]), e, |fs.v1|);
  }

  lemma PutV1KeepsInv(w: World)
    requires Inv(w) && w.pc.Committing? && w.pc.stage.PutV1?
    ensures Inv(Commit(w))
  {
    DoKeepsNumbers(w, Go);
    var job, fs' := w.pc.job, Commit(w).fs;
    assert job.number !in Upto(|w.fs.v1|);
    if job.v1 != [] {
      PutKeepsNumbers(w.fs, job.v1);
      PutV1KeepsUp(w.db, w.seen, w.fs, job);
    }
  }

  lemma PutV1KeepsUp(db: Db, seen: Seen, fs: Fs, job: Job)
    requires KeptUp(db, seen, fs) && EmitInv(db, seen, job)
    requires Numbered(fs) && job.number == |fs.v1| + 1 && job.v1 != []
    ensures KeptUp(db, seen, fs.(v1 := fs.v1[job.number := job.v1]))
  {
    var fs' := fs.(v1 := fs.v1[job.number := job.v1]);
    assert job.number !in Upto(|fs.v1|);
    forall e | e in seen.versions
      ensures e in db.dirty.Values || Settled(seen, fs', e, seen.versions[e])
    {
      if LastIn(job.v1, e).None? {
        PutV1KeepsWords(fs, job, e);
        if e !in db.dirty.Values {
          SettledStays(seen, fs, fs', e, seen.versions[e]);
        }
      }
    }
  }

  // The last word once a number has both its files.
  lemma WordOfJob(fs: Fs, job: Job, e: Entity)
    requires job.v1 != [] && job.number > 0 && Put1(fs, job)
    requires if job.v2 == [] then job.number !in fs.v2 else Put2(fs, job)
    ensures LastIn(job.v2, e).Some? ==> LastWord(fs, e) == LastIn(job.v2, e)
    ensures LastIn(job.v2, e).None? && LastIn(job.v1, e).Some? ==> LastWord(fs, e) == LastIn(job.v1, e)
    ensures LastIn(job.v2, e).None? && LastIn(job.v1, e).None? ==> LastWord(fs, e) == LastOp(fs, e, job.number - 1)
  {
  }

  lemma PutV2KeepsWord(fs: Fs, fs': Fs, job: Job, e: Entity)
    requires Numbered(fs) && job.v1 != [] && Put1(fs, job) && job.number !in fs.v2
    requires fs' == fs.(v2 := fs.v2[job.number := job.v2]) && job.v2 != []
    ensures LastWord(fs', e) == if LastIn(job.v2, e).Some? then LastIn(job.v2, e) else LastWord(fs, e)
  {
    assert job.number in Upto(|fs.v1|);
    WordOfJob(fs', job, e);
    WordOfJob(fs, job.(v2 := []), e);
    LastOpFrame(fs, fs', e, job.number - 1);
  }

  lemma PutV2KeepsInv(w: World)
    requires Inv(w) && w.pc.Committing? && w.pc.stage.PutV2?
    ensures Inv(Commit(w))
  {
    DoKeepsNumbers(w, Go);
    var job, fs' := w.pc.job, Commit(w).fs;
    if job.v2 != [] {
      PutV2KeepsUp(w.db, w.seen, w.fs, fs', job);
      SeesMoreKeeps(w.db, w.seen, fs', Commit(w).seen);
      SeesMoreKeepsJob(w.db, w.seen, Commit(w).seen, job);
    }
  }

  lemma PutV2KeepsUp(db: Db, seen: Seen, fs: Fs, fs': Fs, job: Job)
    requires KeptUp(db, seen, fs) && EmitInv(db, seen, job)
    requires Numbered(fs) && job.v1 != [] && Put1(fs, job) && job.number !in fs.v2
    requires fs' == fs.(v2 := fs.v2[job.number := job.v2]) && job.v2 != []
    ensures KeptUp(db, seen, fs')
  {
    forall e | e in seen.versions
      ensures e in db.dirty.Values || Settled(seen, fs', e, seen.versions[e])
    {
      PutV2KeepsWord(fs, fs', job, e);
      if e !in db.dirty.Values && e !in job.emitted {
        SettledStays(seen, fs, fs', e, seen.versions[e]);
      }
    }
  }

  lemma DoneIsSettled(fs: Fs, db: Db, seen: Seen, job: Job, d: Done)
    requires Numbered(fs) && EmitInv(db, seen, job) && Processed(job, seen, d) && PutInv(fs, job, PutHistory)
    requires job.v1 == [] ==> job.v2 == []
    ensures Settled(seen, fs, d.e, d.version)
  {
    if job.v1 != [] {
      assert job.number in Upto(|fs.v1|);
      WordOfJob(fs, job, d.e);
      if LastIn(job.v1, d.e) == Some(Upserted(d.e, d.version)) && d.e in job.emitted {
        assert LostAt(fs, d.e, d.version, job.number);
      }
    }
  }

  lemma LastPutsKeepInv(w: World)
    requires Inv(w) && w.pc.Committing? && (w.pc.stage.PutV3? || w.pc.stage.PutTombs?)
    ensures Inv(Commit(w))
  {
    DoKeepsNumbers(w, Go);
    var w' := Commit(w);
    SameQueueKeepsJob(w.db, w.seen, w'.db, w.pc.job);
    forall e | e in w.seen.versions
      ensures e in w'.db.dirty.Values || Settled(w.seen, w'.fs, e, w.seen.versions[e])
    {
      LastOpFrame(w.fs, w'.fs, e, |w.fs.v1|);
      if e !in w.db.dirty.Values {
        SettledStays(w.seen, w.fs, w'.fs, e, w.seen.versions[e]);
      }
    }
  }

  lemma PutHistoryKeepsInv(w: World)
    requires Inv(w) && w.pc.Committing? && w.pc.stage.PutHistory?
    ensures Inv(Commit(w))
  {
    DoKeepsNumbers(w, Go);
    var job := w.pc.job;
    forall d | d in job.processed
      ensures Settled(w.seen, w.fs, d.e, d.version)
    {
      DoneIsSettled(w.fs, w.db, w.seen, job, d);
    }
  }

  lemma ClearKeepsInv(w: World)
    requires Inv(w) && w.pc.Clearing? && |w.pc.done| > 0
    ensures Inv(Clear(w))
  {
    DoKeepsNumbers(w, Go);
    var d, w' := w.pc.done[0], Clear(w);
    assert d in w.pc.done;
    forall e | e in w.seen.versions
      ensures e in w'.db.dirty.Values || Settled(w.seen, w.fs, e, w.seen.versions[e])
    {
      if e in w.db.dirty.Values {
        var k :| k in w.db.dirty && w.db.dirty[k] == e;
        if k != d.key {
          assert w'.db.dirty[k] == e;
        }
      }
    }
  }

  // ----- main results -------------------------------------------------------------------

  lemma GoKeepsInv(w: World)
    requires Inv(w)
    ensures Inv(Do(w, Go))
  {
    match w.pc
    case Idle =>
    case Pruning(_, tombs) =>
      if tombs == {} {
        SnapshotKeepsInv(w);
      }
    case Draining(_, todo) =>
      if |todo| > 0 {
        FetchKeepsInv(w);
      } else {
        FinishKeepsInv(w);
      }
    case Committing(_, stage) =>
      match stage {
        case PutV1 => PutV1KeepsInv(w);
        case PutV2 => PutV2KeepsInv(w);
        case PutHistory => PutHistoryKeepsInv(w);
        case _ => LastPutsKeepInv(w);
      }
    case Clearing(done) =>
      if |done| > 0 {
        ClearKeepsInv(w);
      }
  }

  lemma DoKeepsInv(w: World, m: Move)
    requires Inv(w)
    ensures Inv(Do(w, m))
  {
    match m
    case Write(e, row) => AppWriteKeepsInv(w, e, row);
    case Crash =>
    case Begin(settings, skills, rows) =>
      if w.pc.Idle? {
        StartKeepsInv(w, settings, skills, rows);
      }
    case Check(e) =>
      if w.pc.Pruning? {
        PruneKeepsInv(w, e);
      }
    case Go => GoKeepsInv(w);
  }

  // Between exports: nothing has been recorded yet, or what has been is kept up.
  ghost predicate Resting(w: World) {
    Numbered(w.fs) && w.pc.Idle? && QueueInv(w.db, w.seen) && KeptUp(w.db, w.seen, w.fs)
  }

  lemma {:induction false} RunKeepsInv(w: World, moves: seq<Move>)
    requires Resting(w)
    ensures Inv(Run(w, moves))
    decreases |moves|
  {
    if |moves| > 0 {
      RunKeepsInv(w, moves[..|moves| - 1]);
      DoKeepsInv(Run(w, moves[..|moves| - 1]), moves[|moves| - 1]);
    }
  }

  // Main result: with writes between any two steps and a stop anywhere, a row
  // that was written is still queued, or its last version was skipped by policy,
  // or the log's last word on it is that version (a delete, if an export found it
  // gone), or it is lost: published under one number with its delete.
  lemma NoUpdateIsLost(w: World, moves: seq<Move>, e: Entity)
    requires Resting(w) && e in Run(w, moves).seen.versions
    ensures var r := Run(w, moves);
            var version := r.seen.versions[e];
            || e in r.db.dirty.Values
            || Stamp(e, version) in r.seen.skipped
            || LastWord(r.fs, e) == Some(Upserted(e, version))
            || (LastWord(r.fs, e) == Some(Deleted(e)) && Stamp(e, version) in r.seen.absent)
            || Lost(r.fs, e, version)
  {
    RunKeepsInv(w, moves);
  }

  // Main result: of a row that is neither queued nor skipped nor gone, the log
  // tells the last version exactly unless it is lost.
  lemma PublishedIffNotLost(w: World, moves: seq<Move>, e: Entity)
    requires Resting(w) && e in Run(w, moves).seen.versions
    requires var r := Run(w, moves);
             var stamp := Stamp(e, r.seen.versions[e]);
             e !in r.db.dirty.Values && stamp !in r.seen.skipped && stamp !in r.seen.absent
    ensures var r := Run(w, moves);
            LastWord(r.fs, e) == Some(Upserted(e, r.seen.versions[e])) <==> !Lost(r.fs, e, r.seen.versions[e])
  {
    NoUpdateIsLost(w, moves, e);
  }
}
