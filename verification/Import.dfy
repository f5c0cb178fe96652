// Importing the other devices' operation logs: which files are read, what an
// operation does to the archive and when it has to wait.
module Imports {
  import opened Options
  import opened Sequences
  import opened ArchiveTypes

  type OpId(==, !new)
  // Ids are compared as the log's index orders them.
  type Device = nat

  datatype Dir = V1 | V2 | V3

  // devices/<device>/<dir>/<number>.jsonl
  datatype Key = Key(device: Device, dir: Dir, seqNo: int)

  // Size and modification time.
  type Sig = (int, int)

  // A file as listed; without a signature its metadata could not be read.
  datatype Listed = Listed(key: Key, sig: Option<Sig>)

  datatype ImportFile = ImportFile(key: Key, sig: Sig)

  datatype Kind =
    | ThreadUpsert(scheduled: bool)
    | ThreadDelete
    | ChildUpsert(thread: Option<Id>, about: set<Id>)
    | ChildDelete
    | Elsewhere              // settings, skills, sequence markers, unknown kinds

  datatype Op = Op(id: OpId, device: Device, seqNo: int, entity: Entity, kind: Kind, content: int)

  datatype AppliedRow = AppliedRow(device: Device, seqNo: int, entity: Entity)

  datatype Thread = Thread(origin: Option<Device>, content: int)

  // A message or a tool call, with the messages a tool call belongs to.
  datatype Child = Child(thread: Id, about: set<Id>, content: int)

  datatype Rows = Rows(threads: map<Id, Thread>, children: map<Entity, Child>)

  datatype Log = Log(completed: map<Key, Sig>, applied: map<OpId, AppliedRow>, deferred: map<OpId, Op>,
                     skipped: set<Id>)

  // ----- which files are read ----------------------------------------------------

  function Numbers(completed: map<Key, Sig>, device: Device): set<int> {
    set k | k in completed && k.device == device :: k.seqNo
  }

  function FirstMissing(numbers: set<int>, n: int): int
    decreases |numbers|
  {
    if n in numbers then FirstMissing(numbers - {n}, n + 1) else n
  }

  lemma {:induction false} FirstMissingIs(numbers: set<int>, n: int)
    ensures n <= FirstMissing(numbers, n) && FirstMissing(numbers, n) !in numbers
    ensures forall k | n <= k < FirstMissing(numbers, n) :: k in numbers
    decreases |numbers|
  {
    if n in numbers {
      var rest := numbers - {n};
      FirstMissingIs(rest, n + 1);
      forall k | n <= k < FirstMissing(numbers, n)
        ensures k in numbers
      {
        if k > n {
          assert k in rest;
        }
      }
    }
  }

  // The number an import expects next from a device.
  function NextImportSeq(completed: map<Key, Sig>, device: Device): int {
    FirstMissing(Numbers(completed, device), 1)
  }

  datatype Scan = Scan(files: seq<ImportFile>, next: map<Device, int>, failed: bool)

  function Expected(completed: map<Key, Sig>, next: map<Device, int>, device: Device): int {
    if device in next then next[device] else NextImportSeq(completed, device)
  }

  function ScanPath(completed: map<Key, Sig>, local: Option<Device>, scan: Scan, path: Listed): Scan {
    var d := path.key.device;
    if scan.failed || Some(d) == local then scan
    else
      var expected := Expected(completed, scan.next, d);
      if path.key.seqNo > expected then scan.(next := scan.next[d := expected])
      else if path.sig.None? then scan.(next := scan.next[d := expected], failed := true)
      else
        var known := path.key in completed && completed[path.key] == path.sig.value;
        Scan(if known then scan.files else scan.files + [ImportFile(path.key, path.sig.value)],
             scan.next[d := if path.key.seqNo == expected then expected + 1 else expected], false)
  }

  function ScanPaths(completed: map<Key, Sig>, local: Option<Device>, paths: seq<Listed>): Scan {
    if |paths| == 0 then Scan([], map[], false)
    else ScanPath(completed, local, ScanPaths(completed, local, paths[..|paths| - 1]), paths[|paths| - 1])
  }

  // ----- what an operation does -----------------------------------------------------

  predicate NewerApplied(applied: map<OpId, AppliedRow>, op: Op) {
    exists id | id in applied ::
      applied[id].device == op.device && applied[id].seqNo > op.seqNo && applied[id].entity == op.entity
  }

  predicate BelongsToSchedule(op: Op, scheduled: set<Id>) {
    match op.kind
    case ThreadUpsert(own) => own
    case ChildUpsert(thread, _) => thread.Some? && thread.value in scheduled
    case _ => false
  }

  predicate ParentExists(rows: Rows, op: Op)
    requires op.kind.ChildUpsert?
  {
    op.kind.thread.Some? && op.kind.thread.value in rows.threads
  }

  predicate OriginMatches(rows: Rows, thread: Id, device: Device) {
    thread in rows.threads && rows.threads[thread].origin == Some(device)
  }

  datatype Verdict = Counted | Skipped | Deferred

  function VerdictOf(log: Log, rows: Rows, op: Op, scheduled: set<Id>): Verdict {
    if op.id in log.applied || NewerApplied(log.applied, op) || BelongsToSchedule(op, scheduled) then Skipped
    else if op.kind.ChildUpsert? && !ParentExists(rows, op) then Deferred
    else Counted
  }

  predicate DeletesChild(rows: Rows, op: Op) {
    && op.kind.ChildDelete? && op.entity in rows.children
    && OriginMatches(rows, rows.children[op.entity].thread, op.device)
  }

  // The tool call belongs to the message, wherever it is.
  predicate GoesWith(rows: Rows, op: Op, e: Entity) {
    && op.entity.table.Messages? && e.table.ToolCalls?
    && e in rows.children && op.entity.id in rows.children[e].about
  }

  function Effect(rows: Rows, op: Op): Rows {
    match op.kind
    case ThreadUpsert(_) =>
      var id := op.entity.id;
      if id !in rows.threads then rows.(threads := rows.threads[id := Thread(Some(op.device), op.content)])
      else if OriginMatches(rows, id, op.device) then
        rows.(threads := rows.threads[id := rows.threads[id].(content := op.content)])
      else rows
    case ThreadDelete =>
      var id := op.entity.id;
      if OriginMatches(rows, id, op.device) then
        Rows(rows.threads - {id}, map e | e in rows.children && rows.children[e].thread != id :: rows.children[e])
      else rows
    case ChildUpsert(thread, about) =>
      if thread.Some? && (op.entity !in rows.children || OriginMatches(rows, thread.value, op.device)) then
        rows.(children := rows.children[op.entity := Child(thread.value, about, op.content)])
      else rows
    case ChildDelete =>
      if DeletesChild(rows, op) then
        rows.(children := map e | e in rows.children && e != op.entity && !GoesWith(rows, op, e) :: rows.children[e])
      else rows
    case Elsewhere => rows
  }

  function Mark(applied: map<OpId, AppliedRow>, op: Op): map<OpId, AppliedRow> {
    if op.id in applied then applied else applied[op.id := AppliedRow(op.device, op.seqNo, op.entity)]
  }

  function LogAfter(log: Log, op: Op, verdict: Verdict): Log {
    log.(applied := if verdict.Deferred? then log.applied else Mark(log.applied, op),
         deferred := if verdict.Deferred? then log.deferred[op.id := op] else log.deferred - {op.id},
         skipped := if op.kind == ThreadUpsert(true) then log.skipped + {op.entity.id} else log.skipped)
  }

  // ----- a device, with what has happened to it -----------------------------------

  // Files in the order they were opened, what the completed ones held, operations
  // that were read, operations that took effect.
  datatype Past = Past(begun: seq<Key>, contents: map<Key, seq<Op>>, visited: set<OpId>, effects: seq<Op>)

  datatype Site = Site(log: Log, rows: Rows, past: Past)

  function Visit(s: Site, op: Op, scheduled: set<Id>): Site {
    var verdict := VerdictOf(s.log, s.rows, op, scheduled);
    Site(LogAfter(s.log, op, verdict),
         if verdict.Counted? then Effect(s.rows, op) else s.rows,
         s.past.(visited := s.past.visited + {op.id},
                 effects := if verdict.Counted? then s.past.effects + [op] else s.past.effects))
  }

  function VisitAll(s: Site, ops: seq<Op>, scheduled: set<Id>): Site {
    if |ops| == 0 then s else Visit(VisitAll(s, ops[..|ops| - 1], scheduled), ops[|ops| - 1], scheduled)
  }

  // How reading a file ends: at its end, with an error that is taken for an
  // unfinished download, or with one that aborts the import.
  datatype End = Whole | Transient | Fatal

  datatype Attempt = Attempt(ops: seq<Op>, end: End)

  datatype Progress = Progress(site: Site, blocked: set<Device>, failed: bool)

  function Completed(s: Site, file: ImportFile, ops: seq<Op>): Site {
    s.(log := s.log.(completed := s.log.completed[file.key := file.sig]),
       past := s.past.(contents := s.past.contents[file.key := ops]))
  }

  function ReadFile(p: Progress, file: ImportFile, attempt: Attempt, scheduled: set<Id>): Progress {
    if p.failed || file.key.device in p.blocked then p
    else
      var s := p.site.(past := p.site.past.(begun := p.site.past.begun + [file.key]));
      var s1 := VisitAll(s, attempt.ops, scheduled);
      match attempt.end
      case Whole => p.(site := Completed(s1, file, attempt.ops))
      case Transient => p.(site := s1, blocked := p.blocked + {file.key.device})
      case Fatal => p.(site := s1, failed := true)
  }

  function ReadFiles(s: Site, files: seq<ImportFile>, read: ImportFile -> Attempt, scheduled: set<Id>): Progress {
    if |files| == 0 then Progress(s, {}, false)
    else
      var last := files[|files| - 1];
      ReadFile(ReadFiles(s, files[..|files| - 1], read, scheduled), last, read(last), scheduled)
  }

  // ORDER BY device_id, seq
  predicate RetriedBefore(a: Op, b: Op) {
    a.device < b.device || (a.device == b.device && a.seqNo <= b.seqNo)
  }

  // The deferred operations in the order they are retried.
  ghost predicate InRetryOrder(order: seq<Op>, deferred: map<OpId, Op>) {
    && (forall op :: op in order ==> op.id in deferred && deferred[op.id] == op)
    && (forall id :: id in deferred && deferred[id].id == id ==> deferred[id] in order)
    && forall i, j | 0 <= i < j < |order| :: RetriedBefore(order[i], order[j])
  }

  datatype Move =
    | Application(rows: Rows)
    | Import(paths: seq<Listed>, read: ImportFile -> Attempt, scheduled: set<Id>, order: seq<Op>, retried: nat)

  // The import may stop before all waiting operations have been retried.
  function Retried(m: Move): seq<Op>
    requires m.Import?
  {
    if m.retried < |m.order| then m.order[..m.retried] else m.order
  }

  datatype ImportResult = ImportResult(site: Site, succeeded: bool)

  ghost function RunImport(s: Site, local: Option<Device>, m: Move): ImportResult
    requires m.Import?
  {
    var scan := ScanPaths(s.log.completed, local, m.paths);
    if scan.failed then ImportResult(s, false)
    else
      var p := ReadFiles(s, scan.files, m.read, m.scheduled);
      if p.failed || !InRetryOrder(m.order, p.site.log.deferred) then ImportResult(p.site, false)
      else ImportResult(VisitAll(p.site, Retried(m), m.scheduled), m.retried >= |m.order|)
  }

  ghost function Do(s: Site, local: Option<Device>, m: Move): Site {
    if m.Application? then s.(rows := m.rows) else RunImport(s, local, m).site
  }

  ghost function Run(s: Site, local: Option<Device>, moves: seq<Move>): Site {
    if |moves| == 0 then s else Do(Run(s, local, moves[..|moves| - 1]), local, moves[|moves| - 1])
  }

  const NOTHING := Log(map[], map[], map[], {})

  function Begin(rows: Rows): Site {
    Site(NOTHING, rows, Past([], map[], {}, []))
  }

  // ----- gap-free numbers -------------------------------------------------------------

  ghost predicate Has(completed: map<Key, Sig>, device: Device, n: int) {
    n in Numbers(completed, device)
  }

  // Behind every completed number above 1 its predecessor is completed.
  ghost predicate GapFree(completed: map<Key, Sig>) {
    forall k | k in completed && k.seqNo > 1 :: Has(completed, k.device, k.seqNo - 1)
  }

  // The completed positive numbers of a device are exactly 1..n.
  lemma GapFreeMeansPrefix(completed: map<Key, Sig>, device: Device)
    requires GapFree(completed)
    ensures forall n | n > 0 :: Has(completed, device, n) <==> n < NextImportSeq(completed, device)
  {
    var next := NextImportSeq(completed, device);
    FirstMissingIs(Numbers(completed, device), 1);
    forall n | n >= next && Has(completed, device, n)
      ensures false
    {
      NothingAbove(completed, device, next, n);
    }
  }

  lemma {:induction false} NothingAbove(completed: map<Key, Sig>, device: Device, missing: int, n: int)
    requires GapFree(completed) && 1 <= missing <= n && !Has(completed, device, missing)
    ensures !Has(completed, device, n)
    decreases n - missing
  {
    if n > missing {
      NothingAbove(completed, device, missing, n - 1);
    }
  }

  // The predecessor of a planned number is done or planned earlier.
  ghost predicate Planned(files: seq<ImportFile>, device: Device, n: int) {
    exists j :: 0 <= j < |files| && files[j].key.device == device && files[j].key.seqNo == n
  }

  ghost predicate Contiguous(completed: map<Key, Sig>, files: seq<ImportFile>) {
    forall i | 0 <= i < |files| && files[i].key.seqNo > 1 ::
      Has(completed, files[i].key.device, files[i].key.seqNo - 1)
      || Planned(files[..i], files[i].key.device, files[i].key.seqNo - 1)
  }

  // Everything below the expected number is done or planned.
  ghost predicate UpTo(completed: map<Key, Sig>, scan: Scan, device: Device) {
    forall n | 1 <= n < Expected(completed, scan.next, device) ::
      Has(completed, device, n) || Planned(scan.files, device, n)
  }

  ghost predicate ScanInv(completed: map<Key, Sig>, scan: Scan) {
    Contiguous(completed, scan.files) && forall d :: UpTo(completed, scan, d)
  }

  lemma PlannedMore(files: seq<ImportFile>, file: ImportFile, device: Device, n: int)
    requires Planned(files, device, n)
    ensures Planned(files + [file], device, n)
  {
    var j :| 0 <= j < |files| && files[j].key.device == device && files[j].key.seqNo == n;
    assert (files + [file])[j] == files[j];
  }

  lemma ContiguousMore(completed: map<Key, Sig>, files: seq<ImportFile>, file: ImportFile)
    requires Contiguous(completed, files)
    requires file.key.seqNo > 1 ==>
               Has(completed, file.key.device, file.key.seqNo - 1)
                   || Planned(files, file.key.device, file.key.seqNo - 1)
    ensures Contiguous(completed, files + [file])
  {
    var more := files + [file];
    forall i | 0 <= i < |more| && more[i].key.seqNo > 1
      ensures Has(completed, more[i].key.device, more[i].key.seqNo - 1)
              || Planned(more[..i], more[i].key.device, more[i].key.seqNo - 1)
    {
      if i < |files| {
        assert more[..i] == files[..i];
      } else {
        assert more[..i] == files;
      }
    }
  }

  lemma UpToMore(completed: map<Key, Sig>, scan: Scan, path: Listed, d: Device)
    requires UpTo(completed, scan, d) && !scan.failed && path.sig.Some?
    requires path.key.seqNo <= Expected(completed, scan.next, path.key.device)
    ensures UpTo(completed, ScanPath(completed, None, scan, path), d)
  {
    var after := ScanPath(completed, None, scan, path);
    forall n | 1 <= n < Expected(completed, after.next, d)
      ensures Has(completed, d, n) || Planned(after.files, d, n)
    {
      if n < Expected(completed, scan.next, d) {
        if !Has(completed, d, n) && after.files != scan.files {
          PlannedMore(scan.files, ImportFile(path.key, path.sig.value), d, n);
        }
      } else if after.files != scan.files {
        assert after.files[|scan.files|].key == path.key;
      }
    }
  }

  lemma ScanPathKeepsInv(completed: map<Key, Sig>, local: Option<Device>, scan: Scan, path: Listed)
    requires ScanInv(completed, scan)
    ensures ScanInv(completed, ScanPath(completed, local, scan, path))
  {
    var after := ScanPath(completed, local, scan, path);
    var d := path.key.device;
    if scan.failed || Some(d) == local {
    } else if path.key.seqNo > Expected(completed, scan.next, d) || path.sig.None? {
      forall e
        ensures UpTo(completed, after, e)
      {
        assert UpTo(completed, scan, e);
      }
    } else {
      forall e
        ensures UpTo(completed, after, e)
      {
        UpToMore(completed, scan, path, e);
      }
      assert UpTo(completed, scan, d);
      ContiguousMore(completed, scan.files, ImportFile(path.key, path.sig.value));
    }
  }

  // Main result: under any listing, in any order, the plan skips no number.
  lemma {:induction false} PlanIsContiguous(completed: map<Key, Sig>, local: Option<Device>, paths: seq<Listed>)
    ensures ScanInv(completed, ScanPaths(completed, local, paths))
  {
    if |paths| == 0 {
      forall d
        ensures UpTo(completed, Scan([], map[], false), d)
      {
        FirstMissingIs(Numbers(completed, d), 1);
      }
    } else {
      PlanIsContiguous(completed, local, paths[..|paths| - 1]);
      ScanPathKeepsInv(completed, local, ScanPaths(completed, local, paths[..|paths| - 1]), paths[|paths| - 1]);
    }
  }

  // ----- reading keeps the numbers gap-free ----------------------------------------

  // Every file that was opened had its predecessor opened before.
  ghost predicate InOrder(begun: seq<Key>) {
    forall i | 0 <= i < |begun| && begun[i].seqNo > 1 :: Opened(begun[..i], begun[i].device, begun[i].seqNo - 1)
  }

  ghost predicate Opened(begun: seq<Key>, device: Device, n: int) {
    exists j :: 0 <= j < |begun| && begun[j].device == device && begun[j].seqNo == n
  }

  ghost predicate FilesInv(s: Site) {
    && GapFree(s.log.completed) && InOrder(s.past.begun)
    && forall k | k in s.log.completed :: k in s.past.begun
  }

  // What a device that is not blocked has behind it.
  ghost predicate Caught(p: Progress, files: seq<ImportFile>) {
    forall j | 0 <= j < |files| && files[j].key.device !in p.blocked ::
      Has(p.site.log.completed, files[j].key.device, files[j].key.seqNo)
  }

  ghost predicate Keeps(before: map<Key, Sig>, after: map<Key, Sig>) {
    forall k | k in before :: k in after
  }

  lemma {:induction false} VisitAllKeepsFiles(s: Site, ops: seq<Op>, scheduled: set<Id>)
    ensures VisitAll(s, ops, scheduled).log.completed == s.log.completed
    ensures VisitAll(s, ops, scheduled).past.begun == s.past.begun
    decreases |ops|
  {
    if |ops| > 0 {
      VisitAllKeepsFiles(s, ops[..|ops| - 1], scheduled);
    }
  }

  lemma OpenAnother(begun: seq<Key>, key: Key)
    requires InOrder(begun) && (key.seqNo > 1 ==> Opened(begun, key.device, key.seqNo - 1))
    ensures InOrder(begun + [key])
  {
    var more := begun + [key];
    forall i | 0 <= i < |more| && more[i].seqNo > 1
      ensures Opened(more[..i], more[i].device, more[i].seqNo - 1)
    {
      if i < |begun| {
        assert more[..i] == begun[..i];
      } else {
        assert more[..i] == begun;
      }
    }
  }

  lemma CompletedWasOpened(s: Site, device: Device, n: int)
    requires FilesInv(s) && Has(s.log.completed, device, n)
    ensures Opened(s.past.begun, device, n)
  {
    var k :| k in s.log.completed && k.device == device && k.seqNo == n;
    assert k in s.past.begun;
  }

  lemma ReadFileKeepsFiles(p: Progress, files: seq<ImportFile>, file: ImportFile, attempt: Attempt, scheduled: set<Id>,
                           start: map<Key, Sig>)
    requires FilesInv(p.site) && Caught(p, files) && Keeps(start, p.site.log.completed) && !p.failed
    requires file.key.seqNo > 1 ==>
               Has(start, file.key.device, file.key.seqNo - 1) || Planned(files, file.key.device, file.key.seqNo - 1)
    ensures var q := ReadFile(p, file, attempt, scheduled);
            FilesInv(q.site) && Keeps(start, q.site.log.completed) && (!q.failed ==> Caught(q, files + [file]))
  {
    var d, n := file.key.device, file.key.seqNo;
    var q := ReadFile(p, file, attempt, scheduled);
    if d !in p.blocked {
      var s := p.site.(past := p.site.past.(begun := p.site.past.begun + [file.key]));
      VisitAllKeepsFiles(s, attempt.ops, scheduled);
      assert n > 1 ==> Has(p.site.log.completed, d, n - 1) by {
        if n > 1 && Has(start, d, n - 1) {
          var k :| k in start && k.device == d && k.seqNo == n - 1;
          assert k in p.site.log.completed;
        }
      }
      if n > 1 {
        CompletedWasOpened(p.site, d, n - 1);
      }
      OpenAnother(p.site.past.begun, file.key);
      CompletedGrows(p.site.log.completed, file.key, file.sig);
    }
  }

  lemma CompletedGrows(completed: map<Key, Sig>, key: Key, sig: Sig)
    requires GapFree(completed) && (key.seqNo > 1 ==> Has(completed, key.device, key.seqNo - 1))
    ensures GapFree(completed[key := sig])
    ensures forall d, n | Has(completed, d, n) :: Has(completed[key := sig], d, n)
    ensures Has(completed[key := sig], key.device, key.seqNo)
  {
    var after := completed[key := sig];
    forall d, n | Has(completed, d, n)
      ensures Has(after, d, n)
    {
      var k :| k in completed && k.device == d && k.seqNo == n;
      assert k in after;
    }
    assert key in after;
  }

  lemma {:induction false} ReadFilesKeepsFiles(s: Site, files: seq<ImportFile>, read: ImportFile -> Attempt,
                                               scheduled: set<Id>)
    requires FilesInv(s) && Contiguous(s.log.completed, files)
    ensures var p := ReadFiles(s, files, read, scheduled);
            FilesInv(p.site) && Keeps(s.log.completed, p.site.log.completed) && (!p.failed ==> Caught(p, files))
    decreases |files|
  {
    if |files| > 0 {
      var front, last := files[..|files| - 1], files[|files| - 1];
      ContiguousFront(s.log.completed, files);
      ReadFilesKeepsFiles(s, front, read, scheduled);
      var p := ReadFiles(s, front, read, scheduled);
      assert front + [last] == files;
      if !p.failed {
        ReadFileKeepsFiles(p, front, last, read(last), scheduled, s.log.completed);
      }
    }
  }

  lemma ContiguousFront(completed: map<Key, Sig>, files: seq<ImportFile>)
    requires Contiguous(completed, files) && |files| > 0
    ensures Contiguous(completed, files[..|files| - 1])
    ensures var last := files[|files| - 1];
            last.key.seqNo > 1 ==> Has(completed, last.key.device, last.key.seqNo - 1)
                                   || Planned(files[..|files| - 1], last.key.device, last.key.seqNo - 1)
  {
    var front := files[..|files| - 1];
    forall i | 0 <= i < |front|
      ensures front[..i] == files[..i]
    {
    }
  }

  lemma DoKeepsFiles(s: Site, local: Option<Device>, m: Move)
    requires FilesInv(s)
    ensures FilesInv(Do(s, local, m))
  {
    if m.Import? {
      PlanIsContiguous(s.log.completed, local, m.paths);
      var scan := ScanPaths(s.log.completed, local, m.paths);
      ReadFilesKeepsFiles(s, scan.files, m.read, m.scheduled);
      var p := ReadFiles(s, scan.files, m.read, m.scheduled);
      VisitAllKeepsFiles(p.site, Retried(m), m.scheduled);
    }
  }

  lemma {:induction false} RunKeepsFiles(rows: Rows, local: Option<Device>, moves: seq<Move>)
    ensures FilesInv(Run(Begin(rows), local, moves))
    decreases |moves|
  {
    if |moves| > 0 {
      RunKeepsFiles(rows, local, moves[..|moves| - 1]);
      DoKeepsFiles(Run(Begin(rows), local, moves[..|moves| - 1]), local, moves[|moves| - 1]);
    }
  }

  // Main result: starting empty, whatever is visible and whatever fails, the
  // completed positive numbers of every device are exactly 1..k, and no file was
  // opened before one of every smaller positive number.
  lemma ImportKeepsPrefix(rows: Rows, local: Option<Device>, moves: seq<Move>, device: Device)
    ensures var s := Run(Begin(rows), local, moves);
            && (forall n | n > 0 :: Has(s.log.completed, device, n) <==> n < NextImportSeq(s.log.completed, device))
            && InOrder(s.past.begun)
  {
    RunKeepsFiles(rows, local, moves);
    GapFreeMeansPrefix(Run(Begin(rows), local, moves).log.completed, device);
  }

  lemma {:induction false} EverySmallerOpened(begun: seq<Key>, i: nat, n: int)
    requires InOrder(begun) && i < |begun| && 1 <= n < begun[i].seqNo
    ensures Opened(begun[..i], begun[i].device, n)
    decreases i
  {
    var j: nat :| j < i && begun[..i][j].device == begun[i].device && begun[..i][j].seqNo == begun[i].seqNo - 1;
    if n < begun[i].seqNo - 1 {
      EverySmallerOpened(begun, j, n);
      var k: nat :| k < j && begun[..j][k].device == begun[j].device && begun[..j][k].seqNo == n;
      assert begun[..i][k] == begun[..j][k];
    }
  }

  // ----- every operation is accounted for ---------------------------------------------

  ghost predicate AllEffective(effects: seq<Op>, applied: map<OpId, AppliedRow>) {
    forall op | op in effects :: op.id in applied && applied[op.id] == AppliedRow(op.device, op.seqNo, op.entity)
  }

  ghost predicate EffectsOnce(effects: seq<Op>) {
    forall i, j | 0 <= i < j < |effects| :: effects[i].id != effects[j].id
  }

  // On one entity the operations of one device take effect in the order of their
  // numbers.
  ghost predicate EffectsOrdered(effects: seq<Op>) {
    forall i, j | 0 <= i < j < |effects| ::
      effects[i].device == effects[j].device && effects[i].entity == effects[j].entity ==>
        effects[i].seqNo <= effects[j].seqNo
  }

  ghost predicate OpsInv(s: Site) {
    && (forall id | id in s.past.visited :: id in s.log.applied || id in s.log.deferred)
    && (forall k | k in s.log.completed :: k in s.past.contents)
    && (forall k | k in s.past.contents :: forall op | op in s.past.contents[k] :: op.id in s.past.visited)
    && (forall id | id in s.log.deferred :: id !in s.log.applied && s.log.deferred[id].id == id
                                            && s.log.deferred[id].kind.ChildUpsert?)
    && AllEffective(s.past.effects, s.log.applied)
    && EffectsOnce(s.past.effects) && EffectsOrdered(s.past.effects)
  }

  lemma EffectsMore(effects: seq<Op>, applied: map<OpId, AppliedRow>, op: Op)
    requires AllEffective(effects, applied) && EffectsOnce(effects) && EffectsOrdered(effects)
    requires op.id !in applied && !NewerApplied(applied, op)
    ensures AllEffective(effects + [op], Mark(applied, op)) && EffectsOnce(effects + [op])
              && EffectsOrdered(effects + [op])
  {
    forall i | 0 <= i < |effects|
      ensures effects[i].id != op.id
      ensures effects[i].device == op.device && effects[i].entity == op.entity ==> effects[i].seqNo <= op.seqNo
    {
      assert effects[i] in effects;
      assert effects[i].id in applied;
    }
  }

  lemma VisitKeepsOps(s: Site, op: Op, scheduled: set<Id>)
    requires OpsInv(s)
    ensures OpsInv(Visit(s, op, scheduled))
  {
    if VerdictOf(s.log, s.rows, op, scheduled).Counted? {
      EffectsMore(s.past.effects, s.log.applied, op);
    }
  }

  lemma {:induction false} VisitAllKeepsOps(s: Site, ops: seq<Op>, scheduled: set<Id>)
    requires OpsInv(s)
    ensures OpsInv(VisitAll(s, ops, scheduled))
    decreases |ops|
  {
    if |ops| > 0 {
      VisitAllKeepsOps(s, ops[..|ops| - 1], scheduled);
      VisitKeepsOps(VisitAll(s, ops[..|ops| - 1], scheduled), ops[|ops| - 1], scheduled);
    }
  }

  lemma {:induction false} VisitAllVisits(s: Site, ops: seq<Op>, scheduled: set<Id>)
    ensures forall op | op in ops :: op.id in VisitAll(s, ops, scheduled).past.visited
    ensures s.past.visited <= VisitAll(s, ops, scheduled).past.visited
    ensures s.past.contents == VisitAll(s, ops, scheduled).past.contents
    decreases |ops|
  {
    if |ops| > 0 {
      VisitAllVisits(s, ops[..|ops| - 1], scheduled);
    }
  }

  lemma {:induction false} ReadFilesKeepsOps(s: Site, files: seq<ImportFile>, read: ImportFile -> Attempt,
                                             scheduled: set<Id>)
    requires OpsInv(s)
    ensures OpsInv(ReadFiles(s, files, read, scheduled).site)
    decreases |files|
  {
    if |files| > 0 {
      var front, last := files[..|files| - 1], files[|files| - 1];
      ReadFilesKeepsOps(s, front, read, scheduled);
      var p := ReadFiles(s, front, read, scheduled);
      var reading := p.site.(past := p.site.past.(begun := p.site.past.begun + [last.key]));
      assert OpsInv(reading);
      VisitAllKeepsOps(reading, read(last).ops, scheduled);
      VisitAllVisits(reading, read(last).ops, scheduled);
      VisitAllKeepsFiles(reading, read(last).ops, scheduled);
    }
  }

  lemma DoKeepsOps(s: Site, local: Option<Device>, m: Move)
    requires OpsInv(s)
    ensures OpsInv(Do(s, local, m))
  {
    if m.Import? {
      var scan := ScanPaths(s.log.completed, local, m.paths);
      ReadFilesKeepsOps(s, scan.files, m.read, m.scheduled);
      VisitAllKeepsOps(ReadFiles(s, scan.files, m.read, m.scheduled).site, Retried(m), m.scheduled);
    }
  }

  // Main result: in every reachable state every operation of a completed file is
  // either applied or waiting, never both; its effect has happened at most once;
  // and on one entity the operations of one device have taken effect in order.
  lemma {:induction false} RunKeepsOps(rows: Rows, local: Option<Device>, moves: seq<Move>)
    ensures OpsInv(Run(Begin(rows), local, moves))
    decreases |moves|
  {
    if |moves| > 0 {
      RunKeepsOps(rows, local, moves[..|moves| - 1]);
      DoKeepsOps(Run(Begin(rows), local, moves[..|moves| - 1]), local, moves[|moves| - 1]);
    }
  }

  // ----- what is left waiting ------------------------------------------------------

  lemma ChildLeavesThreads(s: Site, op: Op, scheduled: set<Id>)
    requires op.kind.ChildUpsert?
    ensures Visit(s, op, scheduled).rows.threads == s.rows.threads
  {
  }

  ghost predicate Orphans(ops: seq<Op>, log: Log, threads: map<Id, Thread>) {
    forall op | op in ops && op.id in log.deferred ::
      op.kind.ChildUpsert? && (op.kind.thread.Some? ==> op.kind.thread.value !in threads)
  }

  lemma OneRetry(s: Site, done: seq<Op>, op: Op, scheduled: set<Id>)
    requires op.kind.ChildUpsert?
    ensures VisitAll(s, done + [op], scheduled) == Visit(VisitAll(s, done, scheduled), op, scheduled)
    ensures VisitAll(s, done + [op], scheduled).rows.threads == VisitAll(s, done, scheduled).rows.threads
  {
    FrontOf(done, op);
    ChildLeavesThreads(VisitAll(s, done, scheduled), op, scheduled);
  }

  ghost predicate Waiting(ops: seq<Op>, deferred: map<OpId, Op>) {
    forall op | op in ops :: op.kind.ChildUpsert? && op.id in deferred && deferred[op.id] == op
  }

  lemma {:induction false} RetryAll(s: Site, ops: seq<Op>, scheduled: set<Id>)
    requires Waiting(ops, s.log.deferred)
    ensures var t := VisitAll(s, ops, scheduled);
            && t.rows.threads == s.rows.threads && Orphans(ops, t.log, s.rows.threads)
            && forall id | id in t.log.deferred :: id in s.log.deferred && t.log.deferred[id] == s.log.deferred[id]
    decreases |ops|
  {
    if |ops| > 0 {
      var front, last := ops[..|ops| - 1], ops[|ops| - 1];
      FrontAndLast(ops);
      assert last in ops && forall op | op in front :: op in ops;
      RetryAll(s, front, scheduled);
      OneRetry(s, front, last, scheduled);
    }
  }

  // Main result: after an import that succeeded, an operation waits only if it is
  // a child upsert whose thread is absent.
  lemma OnlyOrphansWait(s: Site, local: Option<Device>, m: Move)
    requires m.Import? && OpsInv(s)
    ensures var r := RunImport(s, local, m);
            r.succeeded ==> forall id | id in r.site.log.deferred ::
              r.site.log.deferred[id].kind.ChildUpsert? && !ParentExists(r.site.rows, r.site.log.deferred[id])
  {
    var scan := ScanPaths(s.log.completed, local, m.paths);
    var p := ReadFiles(s, scan.files, m.read, m.scheduled);
    var r := RunImport(s, local, m);
    if r.succeeded {
      ReadFilesKeepsOps(s, scan.files, m.read, m.scheduled);
      RetryAll(p.site, m.order, m.scheduled);
      forall id | id in r.site.log.deferred
        ensures r.site.log.deferred[id].kind.ChildUpsert? && !ParentExists(r.site.rows, r.site.log.deferred[id])
      {
        assert p.site.log.deferred[id] in m.order;
      }
    }
  }

  // ----- whose rows an import touches ------------------------------------------------

  // The operation names a child of a thread that is not its device's, and a thread
  // that is.
  predicate TakesChild(rows: Rows, op: Op) {
    && op.kind.ChildUpsert? && op.kind.thread.Some? && OriginMatches(rows, op.kind.thread.value, op.device)
    && op.entity in rows.children && !OriginMatches(rows, rows.children[op.entity].thread, op.device)
  }

  // A thread that exists changes only at the hands of the device it came from. A
  // child of such a thread changes at the hands of another device exactly when an
  // upsert with its id names a thread of that device, and moves there, or when it
  // is a tool call and that device deletes a message of its own that it belongs to.
  lemma EffectRespectsOrigin(rows: Rows, op: Op)
    ensures var after := Effect(rows, op);
            && (forall t | t in rows.threads && rows.threads[t].origin != Some(op.device) ::
                  t in after.threads && after.threads[t] == rows.threads[t])
            && (forall e | e in rows.children && !OriginMatches(rows, rows.children[e].thread, op.device) ::
                  (e in after.children && after.children[e] == rows.children[e])
                  <==> !(e == op.entity && TakesChild(rows, op)) && !(DeletesChild(rows, op) && GoesWith(rows, op, e)))
            && (TakesChild(rows, op) ==>
                  after.children[op.entity] == Child(op.kind.thread.value, op.kind.about, op.content))
  {
  }

  // Two operations that do so: the first moves a message out of a thread of this
  // device, the second deletes it and with it a tool call that no operation names.
  lemma TakenIdRemovesLocalChildren(own: Id, other: Id, device: Device, message: Entity, call: Entity, take: Op,
                                    delete: Op)
    requires own != other && message.table.Messages? && call.table.ToolCalls?
    requires take.kind == ChildUpsert(Some(other), {}) && delete.kind.ChildDelete? && take.id != delete.id
    requires take.device == device == delete.device && take.entity == message == delete.entity
    requires take.seqNo <= delete.seqNo
    ensures var rows := Rows(map[own := Thread(None, 0), other := Thread(Some(device), 0)],
                             map[message := Child(own, {}, 0), call := Child(own, {message.id}, 0)]);
            var taken := Visit(Begin(rows), take, {});
            && TakesChild(rows, take)
            && taken.rows.children == map[message := Child(other, {}, take.content),
                                          call := Child(own, {message.id}, 0)]
            && Visit(taken, delete, {}).rows == Rows(rows.threads, map[])
  {
  }

  // A child of a thread of this device.
  ghost predicate IsLocalChild(rows: Rows, e: Entity) {
    && e in rows.children && rows.children[e].thread in rows.threads
    && rows.threads[rows.children[e].thread].origin.None?
  }

  ghost predicate KeepsChild(a: Rows, b: Rows, e: Entity) {
    IsLocalChild(b, e) && e in a.children && b.children[e] == a.children[e]
  }

  ghost predicate NoUpsertNames(ops: set<Op>, e: Entity) {
    forall op | op in ops :: op.kind.ChildUpsert? ==> op.entity != e
  }

  // Nothing takes the message away: it is not deleted, or it stays a child of a
  // thread of this device, whose deletion is refused to others.
  ghost predicate MessageStays(rows: Rows, ops: set<Op>, message: Entity) {
    || (forall op | op in ops :: op.kind.ChildDelete? ==> op.entity != message)
    || (IsLocalChild(rows, message) && NoUpsertNames(ops, message))
  }

  // The operations that leave a child alone: none upserts it, and none takes away a
  // message it belongs to.
  ghost predicate LeavesAlone(rows: Rows, ops: set<Op>, e: Entity) {
    && IsLocalChild(rows, e) && NoUpsertNames(ops, e)
    && (e.table.ToolCalls? ==>
          forall id | id in rows.children[e].about :: MessageStays(rows, ops, Entity(Messages, id)))
  }

  lemma VisitKeepsMessage(s: Site, op: Op, ops: set<Op>, scheduled: set<Id>, message: Entity)
    requires message.table.Messages? && op in ops && MessageStays(s.rows, ops, message)
    ensures MessageStays(Visit(s, op, scheduled).rows, ops, message)
    ensures Effect(s.rows, op) == Visit(s, op, scheduled).rows || s.rows == Visit(s, op, scheduled).rows
  {
    EffectRespectsOrigin(s.rows, op);
  }

  lemma VisitKeepsChild(s: Site, op: Op, ops: set<Op>, scheduled: set<Id>, e: Entity)
    requires op in ops && LeavesAlone(s.rows, ops, e)
    ensures KeepsChild(s.rows, Visit(s, op, scheduled).rows, e) && LeavesAlone(Visit(s, op, scheduled).rows, ops, e)
  {
    EffectRespectsOrigin(s.rows, op);
    if e.table.ToolCalls? {
      forall id | id in s.rows.children[e].about
        ensures MessageStays(Visit(s, op, scheduled).rows, ops, Entity(Messages, id))
      {
        VisitKeepsMessage(s, op, ops, scheduled, Entity(Messages, id));
      }
    }
  }

  lemma {:induction false} VisitAllKeepsChild(s: Site, list: seq<Op>, ops: set<Op>, scheduled: set<Id>, e: Entity)
    requires LeavesAlone(s.rows, ops, e) && forall op | op in list :: op in ops
    ensures var t := VisitAll(s, list, scheduled); KeepsChild(s.rows, t.rows, e) && LeavesAlone(t.rows, ops, e)
    decreases |list|
  {
    if |list| > 0 {
      var front, last := list[..|list| - 1], list[|list| - 1];
      assert last in list && forall op | op in front :: op in list;
      VisitAllKeepsChild(s, front, ops, scheduled, e);
      VisitKeepsChild(VisitAll(s, front, scheduled), last, ops, scheduled, e);
    }
  }

  lemma {:induction false} ReadFilesKeepsChild(s: Site, files: seq<ImportFile>, read: ImportFile -> Attempt,
                                               ops: set<Op>, scheduled: set<Id>, e: Entity)
    requires LeavesAlone(s.rows, ops, e)
    requires forall f, op | f in files && op in read(f).ops :: op in ops
    ensures var t := ReadFiles(s, files, read, scheduled).site;
            KeepsChild(s.rows, t.rows, e) && LeavesAlone(t.rows, ops, e)
    decreases |files|
  {
    if |files| > 0 {
      var front, last := files[..|files| - 1], files[|files| - 1];
      assert last in files && forall f | f in front :: f in files;
      ReadFilesKeepsChild(s, front, read, ops, scheduled, e);
      var p := ReadFiles(s, front, read, scheduled);
      var reading := p.site.(past := p.site.past.(begun := p.site.past.begun + [last.key]));
      VisitAllKeepsChild(reading, read(last).ops, ops, scheduled, e);
    }
  }

  // Main result: an import leaves a message or tool call of a thread of this
  // device alone unless some upsert in it has the same id, or, for a tool call, it
  // deletes a message the call belongs to and that message is not one of a thread
  // of this device or is named by an upsert.
  lemma ImportKeepsLocalChildren(s: Site, local: Option<Device>, m: Move, ops: set<Op>, e: Entity)
    requires m.Import? && LeavesAlone(s.rows, ops, e)
    requires forall f, op | f in ScanPaths(s.log.completed, local, m.paths).files && op in m.read(f).ops :: op in ops
    requires forall op | op in m.order :: op in ops
    ensures KeepsChild(s.rows, RunImport(s, local, m).site.rows, e)
  {
    var scan := ScanPaths(s.log.completed, local, m.paths);
    ReadFilesKeepsChild(s, scan.files, m.read, ops, m.scheduled, e);
    assert forall op | op in Retried(m) :: op in m.order;
    VisitAllKeepsChild(ReadFiles(s, scan.files, m.read, m.scheduled).site, Retried(m), ops, m.scheduled, e);
  }

  ghost predicate SameLocal(a: Rows, b: Rows) {
    forall t | t in a.threads && a.threads[t].origin.None? :: t in b.threads && b.threads[t] == a.threads[t]
  }

  lemma {:induction false} VisitAllKeepsLocal(s: Site, ops: seq<Op>, scheduled: set<Id>)
    ensures SameLocal(s.rows, VisitAll(s, ops, scheduled).rows)
    decreases |ops|
  {
    if |ops| > 0 {
      VisitAllKeepsLocal(s, ops[..|ops| - 1], scheduled);
      EffectRespectsOrigin(VisitAll(s, ops[..|ops| - 1], scheduled).rows, ops[|ops| - 1]);
    }
  }

  lemma {:induction false} ReadFilesKeepsLocal(s: Site, files: seq<ImportFile>, read: ImportFile -> Attempt,
                                               scheduled: set<Id>)
    ensures SameLocal(s.rows, ReadFiles(s, files, read, scheduled).site.rows)
    decreases |files|
  {
    if |files| > 0 {
      var front, last := files[..|files| - 1], files[|files| - 1];
      ReadFilesKeepsLocal(s, front, read, scheduled);
      var p := ReadFiles(s, front, read, scheduled);
      var reading := p.site.(past := p.site.past.(begun := p.site.past.begun + [last.key]));
      VisitAllKeepsLocal(reading, read(last).ops, scheduled);
    }
  }

  // Main result: no import changes or removes a thread of this device.
  lemma ImportKeepsLocalThreads(s: Site, local: Option<Device>, m: Move)
    requires m.Import?
    ensures SameLocal(s.rows, RunImport(s, local, m).site.rows)
  {
    var scan := ScanPaths(s.log.completed, local, m.paths);
    ReadFilesKeepsLocal(s, scan.files, m.read, m.scheduled);
    VisitAllKeepsLocal(ReadFiles(s, scan.files, m.read, m.scheduled).site, Retried(m), m.scheduled);
  }
}
