// One thread of another device over any run of imports, whatever is visible when.
module LogRuns {
  import opened Options
  import opened ArchiveTypes
  import opened ExportLogs
  import opened Imports
  import opened LogReplays

  // The operations on a row by the number they are published under.
  ghost predicate IsCatalog(c: map<nat, Op>, d: Device, e: Entity) {
    && !e.table.Others?
    && (forall n | n in c ::
          && c[n].entity == e && c[n].device == d && c[n].seqNo == n
          && if e.table.Threads? then c[n].kind == ThreadUpsert(false) || c[n].kind.ThreadDelete?
             else c[n].kind.ChildUpsert? || c[n].kind.ChildDelete?)
    && (forall m, n | m in c && n in c && c[m].id == c[n].id :: m == n)
  }

  predicate KindAgrees(op: Op) {
    match op.kind
    case ThreadUpsert(_) => op.entity.table.Threads?
    case ThreadDelete => op.entity.table.Threads?
    case ChildUpsert(_, _) => op.entity.table.Messages? || op.entity.table.ToolCalls?
    case ChildDelete => op.entity.table.Messages? || op.entity.table.ToolCalls?
    case Elsewhere => op.entity.table.Others?
  }

  // An operation on the row is one of the catalog.
  ghost predicate Fits(c: map<nat, Op>, e: Entity, op: Op) {
    KindAgrees(op) &&
    if op.entity == e then op.seqNo >= 0 && op.seqNo in c && c[op.seqNo] == op
    else forall n | n in c :: c[n].id != op.id
  }

  ghost predicate Newest(c: map<nat, Op>, applied: map<OpId, AppliedRow>, n: nat) {
    n in c && c[n].id in applied && forall m | m in c && c[m].id in applied :: m <= n
  }

  ghost predicate ThreadSays(rows: Rows, op: Op) {
    if op.kind.ThreadDelete? then op.entity.id !in rows.threads
    else op.entity.id in rows.threads && rows.threads[op.entity.id] == Thread(Some(op.device), op.content)
  }

  // What is recorded as applied on the row is in the catalog.
  ghost predicate Recorded(c: map<nat, Op>, d: Device, e: Entity, applied: map<OpId, AppliedRow>) {
    && (forall id | id in applied && applied[id].entity == e && applied[id].device == d ::
          exists n :: n in c && c[n].id == id)
    && (forall n | n in c && c[n].id in applied :: applied[c[n].id] == AppliedRow(d, n, e))
  }

  // The thread is as the newest operation on it that has been applied says.
  ghost predicate AsNewest(c: map<nat, Op>, d: Device, e: Entity, s: Site) {
    && e.table.Threads? && Recorded(c, d, e, s.log.applied)
    && (forall n | Newest(c, s.log.applied, n) :: ThreadSays(s.rows, c[n]))
    && ((forall n | n in c :: c[n].id !in s.log.applied) ==> e.id !in s.rows.threads)
    && (forall id | id in s.log.deferred :: Fits(c, e, s.log.deferred[id]))
  }

  // ----- one operation -----------------------------------------------------------------

  lemma OthersLeaveThread(c: map<nat, Op>, d: Device, e: Entity, s: Site, op: Op, scheduled: set<Id>)
    requires IsCatalog(c, d, e) && AsNewest(c, d, e, s) && Fits(c, e, op) && op.entity != e
    ensures AsNewest(c, d, e, Visit(s, op, scheduled))
  {
    var t := Visit(s, op, scheduled);
    forall n | n in c
      ensures c[n].id in t.log.applied <==> c[n].id in s.log.applied
    {
    }
    assert e.id in t.rows.threads <==> e.id in s.rows.threads;
    assert e.id in s.rows.threads ==> t.rows.threads[e.id] == s.rows.threads[e.id];
    forall n | Newest(c, t.log.applied, n)
      ensures ThreadSays(t.rows, c[n])
    {
      assert Newest(c, s.log.applied, n);
    }
  }

  // Some operation on the thread is the newest one applied, if any is.
  lemma {:induction false} NewestBelow(c: map<nat, Op>, applied: map<OpId, AppliedRow>, n: nat)
    requires forall m | m in c && c[m].id in applied :: m < n
    ensures (forall m | m in c :: c[m].id !in applied) || exists m :: Newest(c, applied, m)
  {
    if n > 0 {
      if n - 1 in c && c[n - 1].id in applied {
        assert Newest(c, applied, n - 1);
      } else {
        NewestBelow(c, applied, n - 1);
      }
    }
  }

  lemma NewerIsListed(c: map<nat, Op>, d: Device, e: Entity, s: Site, n: nat)
    requires IsCatalog(c, d, e) && Recorded(c, d, e, s.log.applied) && n in c
    ensures NewerApplied(s.log.applied, c[n]) <==> exists m :: m in c && m > n && c[m].id in s.log.applied
  {
    if NewerApplied(s.log.applied, c[n]) {
      var id :| id in s.log.applied && s.log.applied[id].device == d && s.log.applied[id].seqNo > n
                && s.log.applied[id].entity == e;
      var m :| m in c && c[m].id == id;
    }
  }

  lemma AppliedAlready(c: map<nat, Op>, d: Device, e: Entity, s: Site, n: nat, scheduled: set<Id>)
    requires IsCatalog(c, d, e) && AsNewest(c, d, e, s) && n in c && c[n].id in s.log.applied
    ensures AsNewest(c, d, e, Visit(s, c[n], scheduled))
  {
    assert Visit(s, c[n], scheduled).log.applied == s.log.applied;
  }

  lemma ComesLate(c: map<nat, Op>, d: Device, e: Entity, s: Site, n: nat, scheduled: set<Id>)
    requires IsCatalog(c, d, e) && AsNewest(c, d, e, s) && n in c && c[n].id !in s.log.applied
    requires NewerApplied(s.log.applied, c[n])
    ensures AsNewest(c, d, e, Visit(s, c[n], scheduled))
  {
    var t := Visit(s, c[n], scheduled);
    NewerIsListed(c, d, e, s, n);
    var m :| m in c && m > n && c[m].id in s.log.applied;
    assert c[m].id in t.log.applied;
    forall k | Newest(c, t.log.applied, k)
      ensures Newest(c, s.log.applied, k)
    {
      assert m <= k;
    }
  }

  lemma ComesNext(c: map<nat, Op>, d: Device, e: Entity, s: Site, n: nat, scheduled: set<Id>)
    requires IsCatalog(c, d, e) && AsNewest(c, d, e, s) && n in c && c[n].id !in s.log.applied
    requires !NewerApplied(s.log.applied, c[n])
    ensures AsNewest(c, d, e, Visit(s, c[n], scheduled))
  {
    var t := Visit(s, c[n], scheduled);
    NewerIsListed(c, d, e, s, n);
    NewestBelow(c, s.log.applied, n);
    assert e.id in s.rows.threads ==> s.rows.threads[e.id].origin == Some(d);
    assert ThreadSays(t.rows, c[n]);
    forall k | Newest(c, t.log.applied, k)
      ensures k == n
    {
      assert c[n].id in t.log.applied;
    }
  }

  lemma VisitAsNewest(c: map<nat, Op>, d: Device, e: Entity, s: Site, op: Op, scheduled: set<Id>)
    requires IsCatalog(c, d, e) && AsNewest(c, d, e, s) && Fits(c, e, op)
    ensures AsNewest(c, d, e, Visit(s, op, scheduled))
  {
    if op.entity != e {
      OthersLeaveThread(c, d, e, s, op, scheduled);
    } else if op.id in s.log.applied {
      AppliedAlready(c, d, e, s, op.seqNo, scheduled);
    } else if NewerApplied(s.log.applied, op) {
      ComesLate(c, d, e, s, op.seqNo, scheduled);
    } else {
      ComesNext(c, d, e, s, op.seqNo, scheduled);
    }
  }

  lemma {:induction false} VisitAllAsNewest(c: map<nat, Op>, d: Device, e: Entity, s: Site, ops: seq<Op>,
                                            scheduled: set<Id>)
    requires IsCatalog(c, d, e) && AsNewest(c, d, e, s) && forall op | op in ops :: Fits(c, e, op)
    ensures AsNewest(c, d, e, VisitAll(s, ops, scheduled))
    decreases |ops|
  {
    if |ops| > 0 {
      var front, last := ops[..|ops| - 1], ops[|ops| - 1];
      assert last in ops && forall op | op in front :: op in ops;
      VisitAllAsNewest(c, d, e, s, front, scheduled);
      VisitAsNewest(c, d, e, VisitAll(s, front, scheduled), last, scheduled);
    }
  }

  // ----- runs ------------------------------------------------------------------------------

  ghost predicate ReadsFit(c: map<nat, Op>, e: Entity, read: ImportFile -> Attempt) {
    forall f: ImportFile, op | op in read(f).ops :: Fits(c, e, op)
  }

  // The device itself leaves the thread alone.
  ghost predicate SameThread(a: Rows, b: Rows, e: Entity) {
    && (e.id in a.threads <==> e.id in b.threads)
    && (e.id in a.threads ==> a.threads[e.id] == b.threads[e.id])
  }

  ghost predicate MoveFits(c: map<nat, Op>, e: Entity, s: Site, m: Move) {
    if m.Import? then ReadsFit(c, e, m.read) else SameThread(s.rows, m.rows, e)
  }

  ghost predicate FittingRun(c: map<nat, Op>, e: Entity, s: Site, local: Option<Device>, moves: seq<Move>) {
    |moves| == 0 ||
    (FittingRun(c, e, s, local, moves[..|moves| - 1])
     && MoveFits(c, e, Run(s, local, moves[..|moves| - 1]), moves[|moves| - 1]))
  }

  lemma {:induction false} ReadFilesAsNewest(c: map<nat, Op>, d: Device, e: Entity, s: Site, files: seq<ImportFile>,
                                             read: ImportFile -> Attempt, scheduled: set<Id>)
    requires IsCatalog(c, d, e) && AsNewest(c, d, e, s) && ReadsFit(c, e, read)
    ensures AsNewest(c, d, e, ReadFiles(s, files, read, scheduled).site)
    decreases |files|
  {
    if |files| > 0 {
      var front, last := files[..|files| - 1], files[|files| - 1];
      ReadFilesAsNewest(c, d, e, s, front, read, scheduled);
      var p := ReadFiles(s, front, read, scheduled);
      var reading := p.site.(past := p.site.past.(begun := p.site.past.begun + [last.key]));
      VisitAllAsNewest(c, d, e, reading, read(last).ops, scheduled);
    }
  }

  lemma DoAsNewest(c: map<nat, Op>, d: Device, e: Entity, s: Site, local: Option<Device>, m: Move)
    requires IsCatalog(c, d, e) && AsNewest(c, d, e, s) && MoveFits(c, e, s, m)
    ensures AsNewest(c, d, e, Do(s, local, m))
  {
    if m.Import? {
      var scan := ScanPaths(s.log.completed, local, m.paths);
      ReadFilesAsNewest(c, d, e, s, scan.files, m.read, m.scheduled);
      var p := ReadFiles(s, scan.files, m.read, m.scheduled);
      if InRetryOrder(m.order, p.site.log.deferred) {
        VisitAllAsNewest(c, d, e, p.site, Retried(m), m.scheduled);
      }
    }
  }

  // Main result: over every run of imports, with any files visible in any order,
  // failures, repetitions and retries, a thread of another device is as the newest
  // operation on it that has been applied says.
  lemma {:induction false} RunFollowsNewest(c: map<nat, Op>, d: Device, e: Entity, rows: Rows, local: Option<Device>,
                                            moves: seq<Move>)
    requires IsCatalog(c, d, e) && e.table.Threads? && e.id !in rows.threads
    requires FittingRun(c, e, Begin(rows), local, moves)
    ensures AsNewest(c, d, e, Run(Begin(rows), local, moves))
    decreases |moves|
  {
    if |moves| > 0 {
      RunFollowsNewest(c, d, e, rows, local, moves[..|moves| - 1]);
      DoAsNewest(c, d, e, Run(Begin(rows), local, moves[..|moves| - 1]), local, moves[|moves| - 1]);
    }
  }

  // ----- what has been opened and completed ------------------------------------------------

  function FileOps(files: Files, key: Key): seq<Op> {
    if key.seqNo >= 0 && key.dir.V1? && key.seqNo in files.v1 then files.v1[key.seqNo]
    else if key.seqNo >= 0 && key.dir.V2? && key.seqNo in files.v2 then files.v2[key.seqNo]
    else []
  }

  // An operation on the thread is read from a file of its number, and a file of the
  // device that is read to its end holds what was published.
  ghost predicate ReadsPublished(c: map<nat, Op>, files: Files, d: Device, e: Entity, read: ImportFile -> Attempt) {
    && ReadsFit(c, e, read)
    && (forall f: ImportFile, op | op in read(f).ops && op.entity == e ::
          f.key.device == d && f.key.seqNo == op.seqNo)
    && (forall f: ImportFile | f.key.device == d && read(f).end.Whole? :: read(f).ops == FileOps(files, f.key))
  }

  ghost predicate PublishedRun(c: map<nat, Op>, files: Files, d: Device, e: Entity, moves: seq<Move>) {
    forall m | m in moves && m.Import? :: ReadsPublished(c, files, d, e, m.read)
  }

  ghost predicate FromOpened(c: map<nat, Op>, d: Device, s: Site) {
    forall n | n in c && c[n].id in s.log.applied :: Opened(s.past.begun, d, n)
  }

  ghost predicate HoldsPublished(files: Files, d: Device, s: Site) {
    forall k | k in s.past.contents && k.device == d :: s.past.contents[k] == FileOps(files, k)
  }

  lemma {:induction false} VisitAllApplies(s: Site, ops: seq<Op>, scheduled: set<Id>, id: OpId)
    requires id in VisitAll(s, ops, scheduled).log.applied
    ensures id in s.log.applied || exists op :: op in ops && op.id == id
    decreases |ops|
  {
    if |ops| > 0 {
      var front, last := ops[..|ops| - 1], ops[|ops| - 1];
      assert last in ops && forall op | op in front :: op in ops;
      if id in VisitAll(s, front, scheduled).log.applied {
        VisitAllApplies(s, front, scheduled, id);
      }
    }
  }

  lemma OpenedMore(begun: seq<Key>, key: Key, d: Device, n: nat)
    requires Opened(begun, d, n) || (key.device == d && key.seqNo == n)
    ensures Opened(begun + [key], d, n)
  {
    if Opened(begun, d, n) {
      var j :| 0 <= j < |begun| && begun[j].device == d && begun[j].seqNo == n;
      assert (begun + [key])[j] == begun[j];
    } else {
      assert (begun + [key])[|begun|] == key;
    }
  }

  lemma ReadFileFromOpened(c: map<nat, Op>, files: Files, d: Device, e: Entity, p: Progress, file: ImportFile,
                           read: ImportFile -> Attempt, scheduled: set<Id>)
    requires IsCatalog(c, d, e) && ReadsPublished(c, files, d, e, read)
    requires FromOpened(c, d, p.site) && HoldsPublished(files, d, p.site)
    ensures var q := ReadFile(p, file, read(file), scheduled).site;
            FromOpened(c, d, q) && HoldsPublished(files, d, q)
  {
    var s := p.site.(past := p.site.past.(begun := p.site.past.begun + [file.key]));
    var t := VisitAll(s, read(file).ops, scheduled);
    VisitAllKeepsFiles(s, read(file).ops, scheduled);
    VisitAllVisits(s, read(file).ops, scheduled);
    forall n | n in c && c[n].id in t.log.applied
      ensures Opened(s.past.begun, d, n)
    {
      VisitAllApplies(s, read(file).ops, scheduled, c[n].id);
      if c[n].id !in p.site.log.applied {
        var op :| op in read(file).ops && op.id == c[n].id;
        assert Fits(c, e, op);
      }
      OpenedMore(p.site.past.begun, file.key, d, n);
    }
  }

  lemma {:induction false} ReadFilesFromOpened(c: map<nat, Op>, files: Files, d: Device, e: Entity, s: Site,
                                               list: seq<ImportFile>, read: ImportFile -> Attempt, scheduled: set<Id>)
    requires IsCatalog(c, d, e) && ReadsPublished(c, files, d, e, read)
    requires FromOpened(c, d, s) && HoldsPublished(files, d, s)
    ensures var t := ReadFiles(s, list, read, scheduled).site; FromOpened(c, d, t) && HoldsPublished(files, d, t)
    decreases |list|
  {
    if |list| > 0 {
      ReadFilesFromOpened(c, files, d, e, s, list[..|list| - 1], read, scheduled);
      var p := ReadFiles(s, list[..|list| - 1], read, scheduled);
      ReadFileFromOpened(c, files, d, e, p, list[|list| - 1], read, scheduled);
    }
  }

  // Only children wait, so nothing on a thread is retried.
  lemma RetriesAreOthers(c: map<nat, Op>, d: Device, e: Entity, s: Site, id: OpId)
    requires IsCatalog(c, d, e) && AsNewest(c, d, e, s) && OpsInv(s) && id in s.log.deferred
    ensures forall n | n in c :: c[n].id != id
  {
    assert Fits(c, e, s.log.deferred[id]);
  }

  lemma RetryFromOpened(c: map<nat, Op>, files: Files, d: Device, e: Entity, s: Site, order: seq<Op>,
                        scheduled: set<Id>)
    requires IsCatalog(c, d, e) && AsNewest(c, d, e, s) && OpsInv(s)
    requires FromOpened(c, d, s) && HoldsPublished(files, d, s)
    requires forall op | op in order :: op.id in s.log.deferred
    ensures var t := VisitAll(s, order, scheduled); FromOpened(c, d, t) && HoldsPublished(files, d, t)
  {
    VisitAllKeepsFiles(s, order, scheduled);
    VisitAllVisits(s, order, scheduled);
    forall n | n in c && c[n].id in VisitAll(s, order, scheduled).log.applied
      ensures c[n].id in s.log.applied
    {
      VisitAllApplies(s, order, scheduled, c[n].id);
      if c[n].id !in s.log.applied {
        var op :| op in order && op.id == c[n].id;
        RetriesAreOthers(c, d, e, s, op.id);
      }
    }
  }

  lemma DoFromOpened(c: map<nat, Op>, files: Files, d: Device, e: Entity, s: Site, local: Option<Device>, m: Move)
    requires IsCatalog(c, d, e) && AsNewest(c, d, e, s) && OpsInv(s)
    requires m.Import? ==> ReadsPublished(c, files, d, e, m.read)
    requires FromOpened(c, d, s) && HoldsPublished(files, d, s)
    ensures FromOpened(c, d, Do(s, local, m)) && HoldsPublished(files, d, Do(s, local, m))
  {
    if m.Import? {
      var scan := ScanPaths(s.log.completed, local, m.paths);
      ReadFilesFromOpened(c, files, d, e, s, scan.files, m.read, m.scheduled);
      ReadFilesAsNewest(c, d, e, s, scan.files, m.read, m.scheduled);
      ReadFilesKeepsOps(s, scan.files, m.read, m.scheduled);
      var p := ReadFiles(s, scan.files, m.read, m.scheduled);
      if InRetryOrder(m.order, p.site.log.deferred) {
        assert forall op | op in Retried(m) :: op in m.order;
        RetryFromOpened(c, files, d, e, p.site, Retried(m), m.scheduled);
      }
    }
  }

  lemma {:induction false} RunFromOpened(c: map<nat, Op>, files: Files, d: Device, e: Entity, rows: Rows,
                                         local: Option<Device>, moves: seq<Move>)
    requires IsCatalog(c, d, e) && e.table.Threads? && e.id !in rows.threads
    requires FittingRun(c, e, Begin(rows), local, moves)
    requires PublishedRun(c, files, d, e, moves)
    ensures var s := Run(Begin(rows), local, moves); FromOpened(c, d, s) && HoldsPublished(files, d, s)
    decreases |moves|
  {
    if |moves| > 0 {
      var front, last := moves[..|moves| - 1], moves[|moves| - 1];
      assert last in moves && forall m | m in front :: m in moves;
      RunFromOpened(c, files, d, e, rows, local, front);
      RunFollowsNewest(c, d, e, rows, local, front);
      RunKeepsOps(rows, local, front);
      DoFromOpened(c, files, d, e, Run(Begin(rows), local, front), local, last);
    }
  }

  // ----- the log's last word -----------------------------------------------------------------

  ghost predicate InNumber(files: Files, n: nat, op: Op) {
    (n in files.v1 && op in files.v1[n]) || (n in files.v2 && op in files.v2[n])
  }

  // The catalog holds the one operation on the thread in the files of each number.
  ghost predicate Lists(c: map<nat, Op>, files: Files, e: Entity) {
    && (forall n | n in c :: InNumber(files, n, c[n]))
    && (forall n, op | InNumber(files, n, op) :: KindAgrees(op) && (op.entity == e ==> n in c && c[n] == op))
  }

  lemma {:induction false} LastInIs(ops: seq<E.Emit>, e: Entity)
    ensures LastIn(ops, e).Some? ==>
              About(LastIn(ops, e).value, e) && exists i :: 0 <= i < |ops| && ops[i] == LastIn(ops, e).value
    ensures LastIn(ops, e).None? ==> forall i | 0 <= i < |ops| :: !About(ops[i], e)
    decreases |ops|
  {
    if |ops| > 0 && !About(ops[|ops| - 1], e) {
      LastInIs(ops[..|ops| - 1], e);
    }
  }

  lemma Spoken(c: map<nat, Op>, files: Files, fs: E.Fs, d: Device, e: Entity, n: nat, ops: seq<Op>, emits: seq<E.Emit>)
    requires IsCatalog(c, d, e) && Lists(c, files, e) && RendersAll(ops, emits, d, n)
    requires forall op | op in ops :: InNumber(files, n, op)
    ensures var word := LastIn(emits, e);
            && (word.Some? ==> About(word.value, e) && n in c && Renders(c[n], word.value, d, n))
            && (word.None? ==> forall op | op in ops :: op.entity != e)
  {
    LastInIs(emits, e);
    if LastIn(emits, e).Some? {
      var i :| 0 <= i < |emits| && emits[i] == LastIn(emits, e).value;
      assert Renders(ops[i], emits[i], d, n) && ops[i] in ops && InNumber(files, n, ops[i]);
    } else {
      forall op | op in ops
        ensures op.entity != e
      {
        var i :| 0 <= i < |ops| && ops[i] == op;
        assert Renders(ops[i], emits[i], d, n) && InNumber(files, n, op);
      }
    }
  }

  // The newest operation of the catalog up to k.
  ghost predicate NewestUpTo(c: map<nat, Op>, k: nat, n: nat) {
    n in c && n <= k && forall m | m in c && m <= k :: m <= n
  }

  // What number k says last.
  function WordAt(fs: E.Fs, e: Entity, k: nat): Option<E.Emit> {
    if k in fs.v2 && LastIn(fs.v2[k], e).Some? then LastIn(fs.v2[k], e)
    else if k in fs.v1 then LastIn(fs.v1[k], e)
    else None
  }

  lemma NumberSays(c: map<nat, Op>, files: Files, fs: E.Fs, d: Device, e: Entity, k: nat)
    requires IsCatalog(c, d, e) && Lists(c, files, e) && Publishes(files, fs, d)
    ensures k in c <==> WordAt(fs, e, k).Some?
    ensures k in c ==> About(WordAt(fs, e, k).value, e) && Renders(c[k], WordAt(fs, e, k).value, d, k)
  {
    if k in files.v1 {
      Spoken(c, files, fs, d, e, k, files.v1[k], fs.v1[k]);
    }
    if k in files.v2 {
      Spoken(c, files, fs, d, e, k, files.v2[k], fs.v2[k]);
    }
  }

  lemma LastOpStep(fs: E.Fs, e: Entity, k: nat)
    requires k > 0
    ensures LastOp(fs, e, k) == if WordAt(fs, e, k).Some? then WordAt(fs, e, k) else LastOp(fs, e, k - 1)
  {
  }

  lemma {:induction false} LastSpoken(c: map<nat, Op>, fs: E.Fs, e: Entity, k: nat) returns (n: nat)
    requires forall m :: m in c <==> m > 0 && WordAt(fs, e, m).Some?
    ensures LastOp(fs, e, k).None? ==> forall m | m in c :: m > k
    ensures LastOp(fs, e, k).Some? ==> NewestUpTo(c, k, n) && LastOp(fs, e, k) == WordAt(fs, e, n)
  {
    n := k;
    if k > 0 {
      LastOpStep(fs, e, k);
      if WordAt(fs, e, k).None? {
        n := LastSpoken(c, fs, e, k - 1);
      }
    }
  }

  lemma WordIsNewest(c: map<nat, Op>, files: Files, fs: E.Fs, d: Device, e: Entity, k: nat) returns (n: nat)
    requires IsCatalog(c, d, e) && Lists(c, files, e) && Publishes(files, fs, d) && E.Numbered(fs)
    ensures var word := LastOp(fs, e, k);
            && (word.None? ==> forall m | m in c :: m > k)
            && (word.Some? ==> NewestUpTo(c, k, n) && About(word.value, e) && Renders(c[n], word.value, d, n))
  {
    NoNumberZero(c, files, fs, d, e);
    forall m: nat
      ensures m in c <==> m > 0 && WordAt(fs, e, m).Some?
    {
      NumberSays(c, files, fs, d, e, m);
    }
    n := LastSpoken(c, fs, e, k);
    NumberSays(c, files, fs, d, e, n);
  }

  lemma NoNumberZero(c: map<nat, Op>, files: Files, fs: E.Fs, d: Device, e: Entity)
    requires IsCatalog(c, d, e) && Lists(c, files, e) && Publishes(files, fs, d) && E.Numbered(fs)
    ensures 0 !in c
  {
    assert 0 !in fs.v1.Keys;
  }

  ghost predicate CompletedUpTo(s: Site, files: Files, d: Device, k: nat) {
    && (forall n | n in files.v1 && n <= k :: Key(d, V1, n) in s.log.completed)
    && (forall n | n in files.v2 && n <= k :: Key(d, V2, n) in s.log.completed)
    && (forall n | n > k :: !Opened(s.past.begun, d, n))
  }

  lemma CompletedIsApplied(c: map<nat, Op>, files: Files, d: Device, e: Entity, s: Site, k: nat, n: nat)
    requires IsCatalog(c, d, e) && Lists(c, files, e) && AsNewest(c, d, e, s) && OpsInv(s)
    requires HoldsPublished(files, d, s) && CompletedUpTo(s, files, d, k) && n in c && n <= k
    ensures c[n].id in s.log.applied
  {
    assert InNumber(files, n, c[n]);
    var key := if n in files.v1 && c[n] in files.v1[n] then Key(d, V1, n) else Key(d, V2, n);
    assert key in s.past.contents && c[n] in s.past.contents[key];
    if c[n].id in s.log.deferred {
      RetriesAreOthers(c, d, e, s, c[n].id);
    }
  }

  // Main result: after any run of imports that has completed a device's files up to
  // number k and opened none above, a thread that no number names in both files is
  // as the last word of the log up to k says.
  lemma RunGivesLastWord(c: map<nat, Op>, files: Files, fs: E.Fs, d: Device, e: Entity, rows: Rows,
                         local: Option<Device>, moves: seq<Move>, k: nat)
    requires IsCatalog(c, d, e) && Lists(c, files, e) && Publishes(files, fs, d) && E.Numbered(fs)
    requires e.table.Threads? && e.id !in rows.threads && FittingRun(c, e, Begin(rows), local, moves)
    requires PublishedRun(c, files, d, e, moves) && CompletedUpTo(Run(Begin(rows), local, moves), files, d, k)
    ensures ThreadIs(Run(Begin(rows), local, moves).rows, e, LastOp(fs, e, k), d)
  {
    var s := Run(Begin(rows), local, moves);
    RunFollowsNewest(c, d, e, rows, local, moves);
    RunFromOpened(c, files, d, e, rows, local, moves);
    RunKeepsOps(rows, local, moves);
    forall n | n in c
      ensures c[n].id in s.log.applied <==> n <= k
    {
      if n <= k {
        CompletedIsApplied(c, files, d, e, s, k, n);
      }
    }
    var n := WordIsNewest(c, files, fs, d, e, k);
    if LastOp(fs, e, k).Some? {
      assert Newest(c, s.log.applied, n);
    }
  }

  // A number that names the thread in both files: with the second directory visible
  // first, the delete is applied before the upsert it should follow.
  lemma RacedFilesNeedOrder(e: Entity, delete: Op, upsert: Op)
    requires e.table.Threads? && delete.entity == e == upsert.entity && delete.device == upsert.device
    requires delete.kind.ThreadDelete? && upsert.kind == ThreadUpsert(false)
    requires delete.seqNo == upsert.seqNo && delete.id != upsert.id
    ensures e.id !in VisitAll(Begin(Rows(map[], map[])), [upsert] + [delete], {}).rows.threads
    ensures e.id in VisitAll(Begin(Rows(map[], map[])), [delete] + [upsert], {}).rows.threads
  {
    var s := Begin(Rows(map[], map[]));
    VisitTwo(s, upsert, delete);
    VisitTwo(s, delete, upsert);
  }

  lemma VisitTwo(s: Site, a: Op, b: Op)
    ensures VisitAll(s, [a] + [b], {}) == Visit(Visit(s, a, {}), b, {})
  {
    assert ([a] + [b])[..1] == [a];
    assert [a][..0] == [];
    assert VisitAll(s, [], {}) == s;
    assert VisitAll(s, [a], {}) == Visit(s, a, {});
  }
}
