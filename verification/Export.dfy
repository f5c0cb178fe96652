// Exporting local changes: the queue the triggers fill, the numbered files, and
// an export that runs step by step while the application writes and that may
// stop anywhere.
module Exports {
  import opened Options
  import opened ArchiveTypes

  // What an export looks at in a row.
  datatype Row = Row(content: nat, thread: Option<Id>, imported: bool, scheduled: bool, hasHead: bool, untouched: bool)

  datatype Emit = Upserted(e: Entity, version: nat) | Deleted(e: Entity) | Extra

  // Rows, the dirty queue (keys only grow), saved tombstones, and whether delete
  // history is known to have been published.
  datatype Db = Db(rows: map<Entity, Row>, dirty: map<nat, Entity>, nextDirty: nat, tombs: set<Entity>, history: bool)

  // The device's three directories.
  datatype Fs = Fs(v1: map<nat, seq<Emit>>, v2: map<nat, seq<Emit>>, v3: set<nat>)

  // A row as of its n-th recorded write.
  datatype Stamp = Stamp(e: Entity, version: nat)

  // A published number in which a row was upserted after its delete had been
  // republished.
  datatype Race = Race(number: nat, e: Entity)

  // How often each row was written, and what exports made of it: found absent (or
  // an empty thread), skipped by policy, published twice under one number.
  datatype Seen = Seen(versions: map<Entity, nat>, absent: set<Stamp>, skipped: set<Stamp>, races: set<Race>)

  datatype Done = Done(key: nat, e: Entity, version: nat)

  // An export in memory.
  datatype Job = Job(number: nat, hadV1: bool, hadV2: bool, recovery: bool, skills: bool, tombs: set<Entity>,
                     emitted: set<Entity>, raced: set<Entity>, v1: seq<Emit>, v2: seq<Emit>, processed: seq<Done>)

  datatype Stage = PutV1 | PutV2 | PutV3 | PutTombs | PutHistory

  datatype Pc =
    | Idle
    | Pruning(job: Job, tombs: set<Entity>)
    | Draining(job: Job, todo: seq<(nat, Entity)>)
    | Committing(job: Job, stage: Stage)
    | Clearing(done: seq<Done>)

  datatype World = World(db: Db, fs: Fs, seen: Seen, pc: Pc)

  // ----- policy ----------------------------------------------------------------------

  predicate ShouldNotExport(row: Row) {
    row.imported || row.scheduled
  }

  datatype Verdict = Upsert | Tombstone | Skip

  function VerdictOf(rows: map<Entity, Row>, e: Entity): Verdict {
    if e !in rows then Tombstone
    else
      var row := rows[e];
      if e.table.Threads? then
        if ShouldNotExport(row) || (!row.hasHead && row.untouched) then Skip
        else if !row.hasHead then Tombstone
        else Upsert
      else if row.thread.None? then Skip
      else
        var t := Entity(Threads, row.thread.value);
        if t !in rows || ShouldNotExport(rows[t]) then Skip else Upsert
  }

  // archive_entity_is_deleted
  predicate IsGone(rows: map<Entity, Row>, e: Entity) {
    e !in rows || (e.table.Threads? && !rows[e].hasHead)
  }

  // ----- the application's writes ---------------------------------------------------

  predicate ThreadIsLocal(rows: map<Entity, Row>, thread: Option<Id>) {
    thread.Some? && Entity(Threads, thread.value) in rows ==> !rows[Entity(Threads, thread.value)].imported
  }

  // The triggers' WHEN clauses.
  predicate Tracked(rows: map<Entity, Row>, e: Entity, row: Row) {
    if e.table.Threads? then !row.imported else ThreadIsLocal(rows, row.thread)
  }

  // INSERT OR REPLACE: an earlier entry of the row gives way to one with a new key.
  function Enqueue(db: Db, e: Entity): Db {
    db.(dirty := (map k | k in db.dirty && db.dirty[k] != e :: db.dirty[k])[db.nextDirty := e],
        nextDirty := db.nextDirty + 1)
  }

  function VersionOf(seen: Seen, e: Entity): nat {
    if e in seen.versions then seen.versions[e] else 0
  }

  function AppWrite(w: World, e: Entity, row: Option<Row>): World {
    if row.None? && e !in w.db.rows then w
    else
      var rows := if row.Some? then w.db.rows[e := row.value] else w.db.rows - {e};
      var db := w.db.(rows := rows);
      if Tracked(w.db.rows, e, if row.Some? then row.value else w.db.rows[e]) then
        w.(db := Enqueue(db, e), seen := w.seen.(versions := w.seen.versions[e := VersionOf(w.seen, e) + 1]))
      else w.(db := db)
  }

  // ----- the export, step by step ------------------------------------------------------

  function Largest(numbers: set<nat>): nat {
    if numbers == {} then 0
    else
      LargestExists(numbers);
      var n :| n in numbers && forall m | m in numbers :: m <= n;
      n
  }

  lemma LargestExists(numbers: set<nat>)
    requires numbers != {}
    ensures exists n :: n in numbers && forall m | m in numbers :: m <= n
  {
    var largest := LargestOf(numbers);
  }

  lemma {:induction false} LargestOf(numbers: set<nat>) returns (largest: nat)
    requires numbers != {}
    ensures largest in numbers && forall m | m in numbers :: m <= largest
    decreases numbers
  {
    var x :| x in numbers;
    var rest := numbers - {x};
    largest := x;
    if rest != {} {
      var y := LargestOf(rest);
      largest := if x <= y then y else x;
    }
    assert forall m | m in numbers :: m == x || m in rest;
  }

  function NextExportSeq(fs: Fs): nat {
    Largest(fs.v1.Keys + fs.v2.Keys + fs.v3) + 1
  }

  predicate IsLocal(rows: map<Entity, Row>, e: Entity) {
    e in rows &&
    if e.table.Threads? then !rows[e].imported
    else rows[e].thread.Some? && Entity(Threads, rows[e].thread.value) in rows
         && !rows[Entity(Threads, rows[e].thread.value)].imported
  }

  // INSERT OR IGNORE, one row after the other.
  function Backfill(w: World, rows: seq<Entity>): World {
    if |rows| == 0 then w
    else
      var w1, e := Backfill(w, rows[..|rows| - 1]), rows[|rows| - 1];
      if !IsLocal(w1.db.rows, e) || e in w1.db.dirty.Values then w1
      else w1.(db := w1.db.(dirty := w1.db.dirty[w1.db.nextDirty := e], nextDirty := w1.db.nextDirty + 1),
               seen := w1.seen.(versions := w1.seen.versions[e := VersionOf(w1.seen, e)]))
  }

  // A full resync queues every local row; `rows` is the order the database yields.
  function Start(w: World, settings: bool, skills: bool, rows: seq<Entity>): World {
    var hadV1, hadV2 := w.fs.v1 != map[], w.fs.v2 != map[];
    var recovery := !hadV2 && w.db.history;
    var v1 := if settings then [Extra] else [];
    var job := Job(NextExportSeq(w.fs), hadV1, hadV2, recovery, skills, {}, {}, {}, v1, [], []);
    var w1 := if !hadV1 || recovery then Backfill(w, rows) else w;
    w1.(pc := Pruning(job, w.db.tombs))
  }

  function MarkAbsent(seen: Seen, e: Entity): Seen {
    seen.(absent := seen.absent + {Stamp(e, VersionOf(seen, e))})
  }

  // One saved tombstone: dropped if its row is back; published again when the
  // delete history has to be rebuilt.
  function Prune(w: World, e: Entity): World
    requires w.pc.Pruning?
  {
    var job, rest := w.pc.job, w.pc.tombs - {e};
    if e !in w.pc.tombs then w
    else if !IsGone(w.db.rows, e) then w.(pc := Pruning(job, rest))
    else if !job.recovery then w.(pc := Pruning(job.(tombs := job.tombs + {e}), rest))
    else w.(pc := Pruning(job.(tombs := job.tombs + {e}, emitted := job.emitted + {e}, v2 := job.v2 + [Deleted(e)]),
        rest),
            seen := MarkAbsent(w.seen, e))
  }

  // SELECT ... ORDER BY seq
  function Queue(dirty: map<nat, Entity>, n: nat): seq<(nat, Entity)> {
    if n == 0 then []
    else Queue(dirty, n - 1) + (if n - 1 in dirty then [(n - 1, dirty[n - 1])] else [])
  }

  function Snapshot(w: World): World
    requires w.pc.Pruning?
  {
    w.(pc := Draining(w.pc.job, Queue(w.db.dirty, w.db.nextDirty)))
  }

  // One entry of the queue.
  function Fetch(w: World): World
    requires w.pc.Draining? && |w.pc.todo| > 0
  {
    var job, (key, e) := w.pc.job, w.pc.todo[0];
    var version := VersionOf(w.seen, e);
    var job1 := job.(processed := job.processed + [Done(key, e, version)]);
    var rest := w.pc.todo[1..];
    match VerdictOf(w.db.rows, e)
    case Tombstone =>
      var job2 := job1.(tombs := job.tombs + {e});
      w.(pc := Draining(if e in job.emitted then job2
                        else job2.(emitted := job.emitted + {e}, v2 := job.v2 + [Deleted(e)]), rest),
         seen := MarkAbsent(w.seen, e))
    case Skip =>
      w.(pc := Draining(job1.(tombs := job.tombs - {e}), rest),
         seen := w.seen.(skipped := w.seen.skipped + {Stamp(e, version)}))
    case Upsert =>
      var job2 := job1.(tombs := job.tombs - {e}, v1 := job.v1 + [Upserted(e, version)]);
      w.(pc := Draining(if e in job.emitted then job2.(raced := job.raced + {e}) else job2, rest))
  }

  // A sequence marker keeps the first directory gap-free.
  function Finish(w: World): World
    requires w.pc.Draining?
  {
    var job := w.pc.job;
    var marker := job.v1 == [] && (!job.hadV1 || job.v2 != [] || job.skills);
    w.(pc := Committing(if marker then job.(v1 := [Extra]) else job, PutV1))
  }

  function RacesOf(job: Job): set<Race> {
    set e | e in job.raced :: Race(job.number, e)
  }

  function Commit(w: World): World
    requires w.pc.Committing?
  {
    var job, db, fs := w.pc.job, w.db, w.fs;
    match w.pc.stage
    case PutV1 => w.(fs := if job.v1 == [] then fs else fs.(v1 := fs.v1[job.number := job.v1]),
        pc := Committing(job, PutV2))
    case PutV2 =>
      var w1 := w.(pc := Committing(job, PutV3));
      if job.v2 == [] then w1
      else w1.(fs := fs.(v2 := fs.v2[job.number := job.v2]),
               seen := w.seen.(races := w.seen.races + RacesOf(job)))
    case PutV3 => w.(fs := if job.skills then fs.(v3 := fs.v3 + {job.number}) else fs, pc := Committing(job, PutTombs))
    case PutTombs => w.(db := db.(tombs := job.tombs), pc := Committing(job, PutHistory))
    case PutHistory =>
      w.(db := db.(history := if job.v2 != [] || job.hadV2 then true else if job.recovery then false else db.history),
         pc := Clearing(job.processed))
  }

  function Clear(w: World): World
    requires w.pc.Clearing?
  {
    if |w.pc.done| == 0 then w.(pc := Idle)
    else w.(db := w.db.(dirty := w.db.dirty - {w.pc.done[0].key}), pc := Clearing(w.pc.done[1..]))
  }

  datatype Move =
    | Write(e: Entity, row: Option<Row>)
    | Crash
    | Begin(settings: bool, skills: bool, rows: seq<Entity>)
    | Check(e: Entity)
    | Go

  // A move that is not possible changes nothing.
  function Do(w: World, m: Move): World {
    match m
    case Write(e, row) => AppWrite(w, e, row)
    case Crash => w.(pc := Idle)
    case Begin(settings, skills, rows) => if w.pc.Idle? then Start(w, settings, skills, rows) else w
    case Check(e) => if w.pc.Pruning? then Prune(w, e) else w
    case Go =>
      match w.pc
      case Idle => w
      case Pruning(_, tombs) => if tombs == {} then Snapshot(w) else w
      case Draining(_, todo) => if |todo| > 0 then Fetch(w) else Finish(w)
      case Committing(_, _) => Commit(w)
      case Clearing(_) => Clear(w)
  }

  function Run(w: World, moves: seq<Move>): World {
    if |moves| == 0 then w else Do(Run(w, moves[..|moves| - 1]), moves[|moves| - 1])
  }

  // ----- numbering ---------------------------------------------------------------------

  // 1..n
  function Upto(n: nat): (r: set<nat>)
    ensures forall i :: i in r <==> 1 <= i <= n
  {
    if n == 0 then {} else Upto(n - 1) + {n}
  }

  // The first directory holds 1..n, the others nothing else.
  ghost predicate Numbered(fs: Fs) {
    fs.v1.Keys == Upto(|fs.v1|) && fs.v2.Keys <= fs.v1.Keys && fs.v3 <= fs.v1.Keys
  }

  ghost predicate NumberInv(w: World) {
    Numbered(w.fs) &&
    match w.pc
    case Idle => true
    case Clearing(_) => true
    case Pruning(job, _) => job.number == |w.fs.v1| + 1
    case Draining(job, _) => job.number == |w.fs.v1| + 1
    case Committing(job, stage) =>
      && (job.v1 == [] ==> job.v2 == [] && !job.skills)
      && (if stage.PutV1? then job.number == |w.fs.v1| + 1 else job.v1 != [] ==> job.number in w.fs.v1)
  }

  lemma LargestOfUpto(n: nat)
    ensures Largest(Upto(n)) == n
  {
    if n > 0 {
      assert n in Upto(n);
    } else {
      assert Upto(n) == {};
    }
  }

  lemma NextIsOneMore(fs: Fs)
    requires Numbered(fs)
    ensures NextExportSeq(fs) == |fs.v1| + 1
  {
    assert fs.v1.Keys + fs.v2.Keys + fs.v3 == fs.v1.Keys;
    LargestOfUpto(|fs.v1|);
  }

  lemma PutKeepsNumbers(fs: Fs, ops: seq<Emit>)
    requires Numbered(fs)
    ensures Numbered(fs.(v1 := fs.v1[|fs.v1| + 1 := ops]))
    ensures |fs.v1[|fs.v1| + 1 := ops]| == |fs.v1| + 1
  {
    var n := |fs.v1| + 1;
    assert n !in Upto(|fs.v1|);
    assert Upto(n) == Upto(|fs.v1|) + {n};
    assert fs.v1[n := ops].Keys == fs.v1.Keys + {n};
    assert |fs.v1[n := ops].Keys| == |fs.v1.Keys| + 1;
  }

  lemma {:induction false} BackfillKeepsFs(w: World, rows: seq<Entity>)
    ensures Backfill(w, rows).fs == w.fs
    decreases |rows|
  {
    if |rows| > 0 {
      BackfillKeepsFs(w, rows[..|rows| - 1]);
    }
  }

  lemma PutV1KeepsNumbers(w: World)
    requires NumberInv(w) && w.pc.Committing? && w.pc.stage.PutV1?
    ensures NumberInv(Commit(w))
  {
    PutKeepsNumbers(w.fs, w.pc.job.v1);
  }

  lemma CommitKeepsNumbers(w: World)
    requires NumberInv(w) && w.pc.Committing?
    ensures NumberInv(Commit(w))
  {
    match w.pc.stage
    case PutV1 => PutV1KeepsNumbers(w);
    case PutV2 => assert Numbered(Commit(w).fs);
    case _ =>
  }

  lemma FetchKeepsNumbers(w: World)
    requires NumberInv(w) && w.pc.Draining?
    ensures |w.pc.todo| > 0 ==> NumberInv(Fetch(w))
    ensures NumberInv(Finish(w))
  {
  }

  lemma BeginKeepsNumbers(w: World, settings: bool, skills: bool, rows: seq<Entity>)
    requires NumberInv(w)
    ensures NumberInv(Start(w, settings, skills, rows))
  {
    BackfillKeepsFs(w, rows);
    NextIsOneMore(w.fs);
  }

  lemma GoKeepsNumbers(w: World)
    requires NumberInv(w)
    ensures NumberInv(Do(w, Go))
  {
    match w.pc
    case Draining(_, _) => FetchKeepsNumbers(w);
    case Committing(_, _) => CommitKeepsNumbers(w);
    case _ =>
  }

  lemma DoKeepsNumbers(w: World, m: Move)
    requires NumberInv(w)
    ensures NumberInv(Do(w, m))
  {
    match m
    case Begin(settings, skills, rows) => BeginKeepsNumbers(w, settings, skills, rows);
    case Go => GoKeepsNumbers(w);
    case _ =>
  }

  // Main result: whatever is written meanwhile and wherever exports stop, the
  // first directory holds exactly 1..n and the others no further number.
  lemma {:induction false} RunKeepsNumbers(w: World, moves: seq<Move>)
    requires Numbered(w.fs) && w.pc.Idle?
    ensures NumberInv(Run(w, moves)) && Numbered(Run(w, moves).fs)
    decreases |moves|
  {
    if |moves| > 0 {
      RunKeepsNumbers(w, moves[..|moves| - 1]);
      DoKeepsNumbers(Run(w, moves[..|moves| - 1]), moves[|moves| - 1]);
    }
  }
}
