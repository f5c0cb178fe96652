// From one device's published log to another device's threads.
module LogReplays {
  import opened Options
  import opened Sequences
  import opened ArchiveTypes
  import E = Exports
  import opened ExportLogs
  import opened Imports

  // The operation a file of number n holds for what the exporter has emitted.
  ghost predicate Renders(op: Op, emit: E.Emit, d: Device, n: nat) {
    op.device == d && op.seqNo == n &&
    match emit
    case Extra => op.kind.Elsewhere?
    case Upserted(e, version) =>
      op.entity == e && op.content == version
      && (if e.table.Threads? then op.kind == ThreadUpsert(false) else op.kind.ChildUpsert?)
    case Deleted(e) => op.entity == e && (if e.table.Threads? then op.kind.ThreadDelete? else op.kind.ChildDelete?)
  }

  ghost predicate RendersAll(ops: seq<Op>, emits: seq<E.Emit>, d: Device, n: nat) {
    |ops| == |emits| && forall i | 0 <= i < |ops| :: Renders(ops[i], emits[i], d, n)
  }

  // A device's files as another one reads them.
  datatype Files = Files(v1: map<nat, seq<Op>>, v2: map<nat, seq<Op>>)

  ghost predicate Publishes(files: Files, fs: E.Fs, d: Device) {
    && files.v1.Keys == fs.v1.Keys && files.v2.Keys == fs.v2.Keys
    && (forall n | n in fs.v1 :: RendersAll(files.v1[n], fs.v1[n], d, n))
    && (forall n | n in fs.v2 :: RendersAll(files.v2[n], fs.v2[n], d, n))
  }

  // The operations of the numbers up to n, the first directory before the second.
  function OpsUpTo(files: Files, n: nat): seq<Op> {
    if n == 0 then []
    else
      OpsUpTo(files, n - 1) + (if n in files.v1 then files.v1[n] else []) + (if n in files.v2 then files.v2[n] else [])
  }

  function EmitsUpTo(fs: E.Fs, n: nat): seq<E.Emit> {
    if n == 0 then []
    else
      EmitsUpTo(fs, n - 1) + (if n in fs.v1 then fs.v1[n] else []) + (if n in fs.v2 then fs.v2[n] else [])
  }

  // ----- the last word is the last of all emits --------------------------------------

  lemma {:induction false} LastInAppend(a: seq<E.Emit>, b: seq<E.Emit>, e: Entity)
    ensures LastIn(a + b, e) == if LastIn(b, e).Some? then LastIn(b, e) else LastIn(a, e)
    decreases |b|
  {
    if |b| == 0 {
      NothingMore(a);
    } else {
      FrontOfAppend(a, b);
      LastInAppend(a, b[..|b| - 1], e);
    }
  }

  lemma {:induction false} LastOfAll(fs: E.Fs, e: Entity, n: nat)
    ensures LastIn(EmitsUpTo(fs, n), e) == LastOp(fs, e, n)
  {
    if n > 0 {
      LastOfAll(fs, e, n - 1);
      var first := if n in fs.v1 then fs.v1[n] else [];
      LastInAppend(EmitsUpTo(fs, n - 1), first, e);
      LastInAppend(EmitsUpTo(fs, n - 1) + first, if n in fs.v2 then fs.v2[n] else [], e);
    }
  }

  // ----- reading them in order ------------------------------------------------------------

  // Numbers do not decrease, and each operation renders its emit.
  ghost predicate InStep(ops: seq<Op>, emits: seq<E.Emit>, d: Device) {
    && |ops| == |emits|
    && (forall i | 0 <= i < |ops| :: ops[i].seqNo >= 0 && Renders(ops[i], emits[i], d, ops[i].seqNo))
    && (forall i, j | 0 <= i < j < |ops| :: ops[i].seqNo <= ops[j].seqNo)
  }

  lemma StepAppend(a: seq<Op>, x: seq<E.Emit>, b: seq<Op>, y: seq<E.Emit>, d: Device, n: nat)
    requires InStep(a, x, d) && RendersAll(b, y, d, n) && forall i | 0 <= i < |a| :: a[i].seqNo <= n
    ensures InStep(a + b, x + y, d) && forall i | 0 <= i < |a + b| :: (a + b)[i].seqNo <= n
  {
  }

  lemma {:induction false} UpToInStep(files: Files, fs: E.Fs, d: Device, n: nat)
    requires Publishes(files, fs, d)
    ensures InStep(OpsUpTo(files, n), EmitsUpTo(fs, n), d)
    ensures forall i | 0 <= i < |OpsUpTo(files, n)| :: OpsUpTo(files, n)[i].seqNo <= n
  {
    if n > 0 {
      UpToInStep(files, fs, d, n - 1);
      var a, x := OpsUpTo(files, n - 1), EmitsUpTo(fs, n - 1);
      var b, y := if n in files.v1 then files.v1[n] else [], if n in fs.v1 then fs.v1[n] else [];
      StepAppend(a, x, b, y, d, n);
      StepAppend(a + b, x + y, if n in files.v2 then files.v2[n] else [], if n in fs.v2 then fs.v2[n] else [], d, n);
    }
  }

  // Nothing of the device has been applied, and the thread is not there.
  ghost predicate Unread(s: Site, d: Device, e: Entity, ops: seq<Op>) {
    && (forall id | id in s.log.applied :: s.log.applied[id].device != d)
    && (forall op | op in ops :: op.id !in s.log.applied)
    && (forall i, j | 0 <= i < j < |ops| :: ops[i].id != ops[j].id)
    && e.id !in s.rows.threads
  }

  // The thread as the last word says.
  ghost predicate ThreadIs(rows: Rows, e: Entity, word: Option<E.Emit>, d: Device) {
    if word.Some? && word.value.Upserted? then
      e.id in rows.threads && rows.threads[e.id] == Thread(Some(d), word.value.version)
    else e.id !in rows.threads
  }

  // What has been applied when the first k operations have been read.
  ghost predicate AppliedUpTo(s: Site, ops: seq<Op>, k: nat, d: Device)
    requires k <= |ops|
  {
    && (forall id | id in s.log.applied && s.log.applied[id].device == d ::
          exists i :: 0 <= i < k && ops[i].id == id && s.log.applied[id].seqNo == ops[i].seqNo)
    && (forall i | k <= i < |ops| :: ops[i].id !in s.log.applied)
  }

  // One operation that has not been read: applied, unless it waits.
  lemma NextIsNew(s: Site, ops: seq<Op>, emits: seq<E.Emit>, k: nat, d: Device)
    requires InStep(ops, emits, d) && k < |ops| && AppliedUpTo(s, ops, k, d)
    requires forall i, j | 0 <= i < j < |ops| :: ops[i].id != ops[j].id
    ensures ops[k].id !in s.log.applied && !NewerApplied(s.log.applied, ops[k])
    ensures AppliedUpTo(Visit(s, ops[k], {}), ops, k + 1, d)
  {
    var op, t := ops[k], Visit(s, ops[k], {});
    forall id | id in t.log.applied && t.log.applied[id].device == d
      ensures exists i :: 0 <= i < k + 1 && ops[i].id == id && t.log.applied[id].seqNo == ops[i].seqNo
    {
      if id == op.id {
        assert 0 <= k < k + 1 && ops[k].id == id;
      } else {
        assert id in s.log.applied;
      }
    }
  }

  lemma NextThread(s: Site, op: Op, emit: E.Emit, word: Option<E.Emit>, e: Entity, d: Device, n: nat)
    requires e.table.Threads? && Renders(op, emit, d, n) && ThreadIs(s.rows, e, word, d)
    requires op.id !in s.log.applied && !NewerApplied(s.log.applied, op)
    ensures ThreadIs(Visit(s, op, {}).rows, e, if About(emit, e) then Some(emit) else word, d)
  {
    if !emit.Extra? && emit.e.table.Threads? && emit.e.id == e.id {
      assert emit.e == e;
    }
  }

  lemma {:induction false} ReadInStep(s: Site, ops: seq<Op>, emits: seq<E.Emit>, k: nat, e: Entity, d: Device)
    requires e.table.Threads? && InStep(ops, emits, d) && Unread(s, d, e, ops) && k <= |ops|
    ensures var t := VisitAll(s, ops[..k], {});
            AppliedUpTo(t, ops, k, d) && ThreadIs(t.rows, e, LastIn(emits[..k], e), d)
  {
    if k > 0 {
      ReadInStep(s, ops, emits, k - 1, e, d);
      var t := VisitAll(s, ops[..k - 1], {});
      assert ops[..k][..k - 1] == ops[..k - 1] && emits[..k][..k - 1] == emits[..k - 1];
      NextIsNew(t, ops, emits, k - 1, d);
      NextThread(t, ops[k - 1], emits[k - 1], LastIn(emits[..k - 1], e), e, d, ops[k - 1].seqNo);
    } else {
      assert ops[..0] == [] && emits[..0] == [];
    }
  }

  // ----- file by file ----------------------------------------------------------------------

  // The files of the numbers up to n in the order they are listed.
  function ListUpTo(files: Files, d: Device, n: nat, sig: Sig): seq<ImportFile> {
    if n == 0 then []
    else
      ListUpTo(files, d, n - 1, sig)
      + (if n in files.v1 then [ImportFile(Key(d, V1, n), sig)] else [])
      + (if n in files.v2 then [ImportFile(Key(d, V2, n), sig)] else [])
  }

  // Every file is read to its end.
  function ReadWhole(files: Files): ImportFile -> Attempt {
    (file: ImportFile) =>
      var n := file.key.seqNo;
      Attempt(if n >= 0 && file.key.dir.V1? && n in files.v1 then files.v1[n]
              else if n >= 0 && file.key.dir.V2? && n in files.v2 then files.v2[n]
              else [], Whole)
  }

  // The parts of a device that operations look at and change.
  ghost predicate SameEffect(s: Site, t: Site) {
    s.rows == t.rows && s.log.applied == t.log.applied && s.log.deferred == t.log.deferred
  }

  lemma {:induction false} VisitSame(s: Site, t: Site, ops: seq<Op>, scheduled: set<Id>)
    requires SameEffect(s, t)
    ensures SameEffect(VisitAll(s, ops, scheduled), VisitAll(t, ops, scheduled))
    decreases |ops|
  {
    if |ops| > 0 {
      VisitSame(s, t, ops[..|ops| - 1], scheduled);
    }
  }

  lemma {:induction false} VisitAppend(s: Site, a: seq<Op>, b: seq<Op>, scheduled: set<Id>)
    ensures VisitAll(s, a + b, scheduled) == VisitAll(VisitAll(s, a, scheduled), b, scheduled)
    decreases |b|
  {
    if |b| == 0 {
      NothingMore(a);
    } else {
      FrontOfAppend(a, b);
      VisitAppend(s, a, b[..|b| - 1], scheduled);
    }
  }

  // Reading one more file to its end is visiting its operations.
  lemma ReadOneMore(s: Site, list: seq<ImportFile>, file: ImportFile, read: ImportFile -> Attempt, ops: seq<Op>)
    requires read(file).end.Whole?
    requires var p := ReadFiles(s, list, read, {});
             !p.failed && p.blocked == {} && SameEffect(p.site, VisitAll(s, ops, {}))
    ensures var p := ReadFiles(s, list + [file], read, {});
            !p.failed && p.blocked == {} && SameEffect(p.site, VisitAll(s, ops + read(file).ops, {}))
  {
    var p := ReadFiles(s, list, read, {});
    var reading := p.site.(past := p.site.past.(begun := p.site.past.begun + [file.key]));
    assert (list + [file])[..|list|] == list;
    VisitSame(reading, VisitAll(s, ops, {}), read(file).ops, {});
    VisitAppend(s, ops, read(file).ops, {});
  }

  lemma ReadMaybe(s: Site, list: seq<ImportFile>, file: ImportFile, there: bool, read: ImportFile -> Attempt,
                  ops: seq<Op>)
    requires read(file).end.Whole?
    requires var p := ReadFiles(s, list, read, {});
             !p.failed && p.blocked == {} && SameEffect(p.site, VisitAll(s, ops, {}))
    ensures var p := ReadFiles(s, list + (if there then [file] else []), read, {});
            && !p.failed && p.blocked == {}
            && SameEffect(p.site, VisitAll(s, ops + (if there then read(file).ops else []), {}))
  {
    if there {
      ReadOneMore(s, list, file, read, ops);
    } else {
      assert list + [] == list && ops + [] == ops;
    }
  }

  function OpsAt(ops: map<nat, seq<Op>>, n: nat): seq<Op> {
    if n in ops then ops[n] else []
  }

  lemma {:induction false} ReadUpTo(s: Site, files: Files, d: Device, n: nat, sig: Sig)
    ensures var p := ReadFiles(s, ListUpTo(files, d, n, sig), ReadWhole(files), {});
            !p.failed && p.blocked == {} && SameEffect(p.site, VisitAll(s, OpsUpTo(files, n), {}))
  {
    if n > 0 {
      ReadUpTo(s, files, d, n - 1, sig);
      var read := ReadWhole(files);
      var list, ops := ListUpTo(files, d, n - 1, sig), OpsUpTo(files, n - 1);
      var f1, f2 := ImportFile(Key(d, V1, n), sig), ImportFile(Key(d, V2, n), sig);
      ReadMaybe(s, list, f1, n in files.v1, read, ops);
      ReadMaybe(s, list + (if n in files.v1 then [f1] else []), f2, n in files.v2, read, ops + OpsAt(files.v1, n));
    }
  }

  // ----- the whole import --------------------------------------------------------------------

  function Listing(files: Files, d: Device, n: nat, sig: Sig): seq<Listed> {
    if n == 0 then []
    else
      Listing(files, d, n - 1, sig)
      + (if n in files.v1 then [Listed(Key(d, V1, n), Some(sig))] else [])
      + (if n in files.v2 then [Listed(Key(d, V2, n), Some(sig))] else [])
  }

  lemma ScanMore(completed: map<Key, Sig>, local: Option<Device>, paths: seq<Listed>, path: Listed)
    ensures ScanPaths(completed, local, paths + [path]) == ScanPath(completed, local,
              ScanPaths(completed, local, paths), path)
  {
    assert (paths + [path])[..|paths|] == paths;
  }

  // Where the scan stands after the numbers up to n.
  ghost predicate Scanned(scan: Scan, completed: map<Key, Sig>, d: Device, list: seq<ImportFile>, next: int) {
    !scan.failed && scan.files == list && Expected(completed, scan.next, d) == next
  }

  lemma ScanV1(completed: map<Key, Sig>, local: Option<Device>, d: Device, list: seq<ImportFile>, scan: Scan, n: nat,
               sig: Sig)
    requires Some(d) != local && (forall k | k in completed :: k.device != d)
    requires Scanned(scan, completed, d, list, n)
    ensures Scanned(ScanPath(completed, local, scan, Listed(Key(d, V1, n), Some(sig))), completed, d,
                    list + [ImportFile(Key(d, V1, n), sig)], n + 1)
  {
  }

  lemma ScanV2(completed: map<Key, Sig>, local: Option<Device>, d: Device, list: seq<ImportFile>, scan: Scan, n: nat,
               sig: Sig)
    requires Some(d) != local && (forall k | k in completed :: k.device != d)
    requires Scanned(scan, completed, d, list, n + 1)
    ensures Scanned(ScanPath(completed, local, scan, Listed(Key(d, V2, n), Some(sig))), completed, d,
                    list + [ImportFile(Key(d, V2, n), sig)], n + 1)
  {
  }

  lemma ScanMaybeV2(completed: map<Key, Sig>, local: Option<Device>, paths: seq<Listed>, d: Device,
                    list: seq<ImportFile>, n: nat, sig: Sig, there: bool)
    requires Some(d) != local && (forall k | k in completed :: k.device != d)
    requires Scanned(ScanPaths(completed, local, paths), completed, d, list, n + 1)
    ensures Scanned(ScanPaths(completed, local, paths + (if there then [Listed(Key(d, V2, n), Some(sig))] else [])),
                    completed, d, list + (if there then [ImportFile(Key(d, V2, n), sig)] else []), n + 1)
  {
    if there {
      ScanV2(completed, local, d, list, ScanPaths(completed, local, paths), n, sig);
      ScanMore(completed, local, paths, Listed(Key(d, V2, n), Some(sig)));
    } else {
      assert paths + [] == paths && list + [] == list;
    }
  }

  // The scan plans every listed file.
  lemma {:induction false} ScanListing(completed: map<Key, Sig>, local: Option<Device>, files: Files, d: Device,
                                       n: nat, sig: Sig)
    requires Some(d) != local && (forall k | k in completed :: k.device != d)
    requires forall k: nat | 1 <= k <= n :: k in files.v1
    ensures Scanned(ScanPaths(completed, local, Listing(files, d, n, sig)), completed, d, ListUpTo(files, d, n, sig),
              n + 1)
  {
    if n == 0 {
      assert Numbers(completed, d) == {};
    } else {
      ScanListing(completed, local, files, d, n - 1, sig);
      var paths, list := Listing(files, d, n - 1, sig), ListUpTo(files, d, n - 1, sig);
      var one := Listed(Key(d, V1, n), Some(sig));
      ScanV1(completed, local, d, list, ScanPaths(completed, local, paths), n, sig);
      ScanMore(completed, local, paths, one);
      ScanMaybeV2(completed, local, paths + [one], d, list + [ImportFile(one.key, sig)], n, sig, n in files.v2);
    }
  }

  lemma {:induction false} ChildrenLeaveThreads(s: Site, ops: seq<Op>, scheduled: set<Id>)
    requires forall op | op in ops :: op.kind.ChildUpsert?
    ensures VisitAll(s, ops, scheduled).rows.threads == s.rows.threads
    decreases |ops|
  {
    if |ops| > 0 {
      var front, last := ops[..|ops| - 1], ops[|ops| - 1];
      assert last in ops && forall op | op in front :: op in ops;
      ChildrenLeaveThreads(s, front, scheduled);
      ChildLeavesThreads(VisitAll(s, front, scheduled), last, scheduled);
    }
  }

  lemma ReadGivesLastWord(s: Site, files: Files, fs: E.Fs, d: Device, sig: Sig, e: Entity)
    requires e.table.Threads? && Publishes(files, fs, d) && Unread(s, d, e, OpsUpTo(files, |fs.v1|))
    ensures var p := ReadFiles(s, ListUpTo(files, d, |fs.v1|, sig), ReadWhole(files), {});
            !p.failed && ThreadIs(p.site.rows, e, LastWord(fs, e), d)
  {
    var n := |fs.v1|;
    var ops, emits := OpsUpTo(files, n), EmitsUpTo(fs, n);
    ReadUpTo(s, files, d, n, sig);
    UpToInStep(files, fs, d, n);
    ReadInStep(s, ops, emits, |ops|, e, d);
    assert ops[..|ops|] == ops && emits[..|ops|] == emits;
    LastOfAll(fs, e, n);
  }

  // Main result: a device that has read nothing of another one and imports its
  // files, which hold what its exports have put there, ends up with each thread as
  // the log's last word says: there, from that device and in that version, or not
  // there.
  lemma ImportGivesLastWord(s: Site, local: Option<Device>, files: Files, fs: E.Fs, d: Device, sig: Sig, e: Entity,
                            order: seq<Op>)
    requires E.Numbered(fs) && Publishes(files, fs, d) && Some(d) != local && OpsInv(s)
    requires e.table.Threads? && Unread(s, d, e, OpsUpTo(files, |fs.v1|))
              && forall k | k in s.log.completed :: k.device != d
    ensures var m := Import(Listing(files, d, |fs.v1|, sig), ReadWhole(files), {}, order, |order|);
            ThreadIs(RunImport(s, local, m).site.rows, e, LastWord(fs, e), d)
  {
    var n := |fs.v1|;
    ScanListing(s.log.completed, local, files, d, n, sig);
    ReadGivesLastWord(s, files, fs, d, sig, e);
    var p := ReadFiles(s, ListUpTo(files, d, n, sig), ReadWhole(files), {});
    ReadFilesKeepsOps(s, ListUpTo(files, d, n, sig), ReadWhole(files), {});
    if InRetryOrder(order, p.site.log.deferred) {
      ChildrenLeaveThreads(p.site, order, {});
    }
  }
}
