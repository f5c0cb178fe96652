// The tables an import updates, and the loops that update them.
module ImportStores {
  import opened Options
  import opened ArchiveTypes
  import opened Imports

  class ImportStore {
    var completed: map<Key, Sig>
    var applied: map<OpId, AppliedRow>
    var deferred: map<OpId, Op>
    var skipped: set<Id>
    var rows: Rows
    ghost var past: Past

    ghost function State(): Site
      reads this
    {
      Site(Log(completed, applied, deferred, skipped), rows, past)
    }

    constructor (rows: Rows)
      ensures State() == Begin(rows)
    {
      completed, applied, deferred, skipped := map[], map[], map[], {};
      this.rows := rows;
      past := Past([], map[], {}, []);
    }

    // The first number of the device that is not completed.
    method NextImportSeqNo(device: Device) returns (next: int)
      ensures next == NextImportSeq(completed, device)
    {
      var numbers := Numbers(completed, device);
      ghost var rest := numbers;
      next := 1;
      while next in numbers
        invariant next >= 1 && rest <= numbers && (forall k | k in numbers && k >= next :: k in rest)
        invariant (next in rest <==> next in numbers) && forall k | k in rest :: k < next ==> k < 1
        invariant FirstMissing(rest, next) == FirstMissing(numbers, 1)
        decreases |rest|
      {
        rest := rest - {next};
        next := next + 1;
      }
    }

    method ImportFilesToScan(paths: seq<Listed>, local: Option<Device>) returns (scan: Scan)
      ensures scan.failed <==> ScanPaths(completed, local, paths).failed
      ensures !scan.failed ==> scan == ScanPaths(completed, local, paths)
    {
      var files: seq<ImportFile> := [];
      var nextByDevice: map<Device, int> := map[];
      for i := 0 to |paths|
        invariant Scan(files, nextByDevice, false) == ScanPaths(completed, local, paths[..i])
      {
        ScanNext(completed, local, paths, i);
        var path := paths[i];
        var d := path.key.device;
        if Some(d) == local {
          continue;
        }
        var expected;
        if d in nextByDevice {
          expected := nextByDevice[d];
        } else {
          expected := NextImportSeqNo(d);
        }
        nextByDevice := nextByDevice[d := expected];
        if path.key.seqNo > expected {
          continue;
        }
        if path.sig.None? {
          ScanStaysFailed(completed, local, paths, i + 1);
          return Scan(files, nextByDevice, true);
        }
        if !(path.key in completed && completed[path.key] == path.sig.value) {
          files := files + [ImportFile(path.key, path.sig.value)];
        }
        if path.key.seqNo == expected {
          nextByDevice := nextByDevice[d := expected + 1];
        }
      }
      assert paths[..|paths|] == paths;
      return Scan(files, nextByDevice, false);
    }

    method MarkOpApplied(op: Op)
      modifies `applied
      ensures applied == Mark(old(applied), op)
    {
      if op.id !in applied {
        applied := applied[op.id := AppliedRow(op.device, op.seqNo, op.entity)];
      }
    }

    method HasNewerAppliedOpForEntity(op: Op) returns (newer: bool)
      ensures newer == NewerApplied(applied, op)
    {
      newer := exists id | id in applied ::
        applied[id].device == op.device && applied[id].seqNo > op.seqNo && applied[id].entity == op.entity;
    }

    method ApplyOp(op: Op, scheduled: set<Id>) returns (verdict: Verdict)
      modifies `applied, `skipped, `rows
      ensures verdict == VerdictOf(old(State()).log, old(rows), op, scheduled)
      ensures applied == (if verdict.Deferred? then old(applied) else Mark(old(applied), op))
      ensures skipped == (if op.kind == ThreadUpsert(true) then old(skipped) + {op.entity.id} else old(skipped))
      ensures rows == (if verdict.Counted? then Effect(old(rows), op) else old(rows))
    {
      if op.kind == ThreadUpsert(true) {
        skipped := skipped + {op.entity.id};
      }
      if op.id in applied {
        return Skipped;
      }
      var newer := HasNewerAppliedOpForEntity(op);
      if newer || BelongsToSchedule(op, scheduled) {
        MarkOpApplied(op);
        return Skipped;
      }
      if op.kind.ChildUpsert? && !ParentExists(rows, op) {
        return Deferred;
      }
      rows := Effect(rows, op);
      MarkOpApplied(op);
      return Counted;
    }

    // One operation, in one transaction.
    method VisitOp(op: Op, scheduled: set<Id>)
      modifies `applied, `skipped, `rows, `deferred, `past
      ensures State() == Visit(old(State()), op, scheduled)
    {
      var verdict := ApplyOp(op, scheduled);
      match verdict {
        case Counted =>
          deferred := deferred - {op.id};
          past := past.(effects := past.effects + [op]);
        case Skipped => deferred := deferred - {op.id};
        case Deferred => deferred := deferred[op.id := op];
      }
      past := past.(visited := past.visited + {op.id});
    }

    method VisitOps(ops: seq<Op>, scheduled: set<Id>)
      modifies `applied, `skipped, `rows, `deferred, `past
      ensures State() == VisitAll(old(State()), ops, scheduled)
    {
      ghost var start := State();
      for i := 0 to |ops|
        invariant State() == VisitAll(start, ops[..i], scheduled)
      {
        assert ops[..i + 1][..i] == ops[..i];
        VisitOp(ops[i], scheduled);
      }
      assert ops[..|ops|] == ops;
    }

    method MarkImportFileComplete(file: ImportFile, ghost ops: seq<Op>)
      modifies `completed, `past
      ensures State() == Completed(old(State()), file, ops)
    {
      completed := completed[file.key := file.sig];
      past := past.(contents := past.contents[file.key := ops]);
    }

    method ReadFiles(files: seq<ImportFile>, read: ImportFile -> Attempt, scheduled: set<Id>) returns (failed: bool)
      modifies `completed, `applied, `skipped, `rows, `deferred, `past
      ensures State() == Imports.ReadFiles(old(State()), files, read, scheduled).site
      ensures failed == Imports.ReadFiles(old(State()), files, read, scheduled).failed
    {
      ghost var start := State();
      var blocked: set<Device> := {};
      for i := 0 to |files|
        invariant Progress(State(), blocked, false) == Imports.ReadFiles(start, files[..i], read, scheduled)
      {
        var file := files[i];
        assert files[..i + 1][..i] == files[..i];
        if file.key.device in blocked {
          continue;
        }
        var attempt := read(file);
        past := past.(begun := past.begun + [file.key]);
        VisitOps(attempt.ops, scheduled);
        match attempt.end {
          case Whole => MarkImportFileComplete(file, attempt.ops);
          case Transient => blocked := blocked + {file.key.device};
          case Fatal =>
            ReadStaysFailed(start, files, read, scheduled, i + 1);
            return true;
        }
      }
      assert files[..|files|] == files;
      return false;
    }

    // ORDER BY device_id, seq
    method LoadDeferredOps() returns (order: seq<Op>)
      ensures InRetryOrder(order, deferred)
    {
      order := [];
      var todo := deferred.Keys;
      while todo != {}
        invariant todo <= deferred.Keys
        invariant forall op :: op in order ==> op.id in deferred && deferred[op.id] == op
        invariant forall id :: id in deferred && id !in todo && deferred[id].id == id ==> deferred[id] in order
        invariant Ordered(order)
      {
        var id :| id in todo;
        todo := todo - {id};
        if deferred[id].id == id {
          order := InsertRetry(order, deferred[id]);
        }
      }
    }

    // Main result: an import leaves the device as the function says, with the
    // waiting operations retried in some order the index allows.
    method ImportOps(paths: seq<Listed>, read: ImportFile -> Attempt, local: Option<Device>, scheduled: set<Id>)
      returns (succeeded: bool, ghost order: seq<Op>)
      modifies this
      ensures ImportResult(State(), succeeded) ==
                RunImport(old(State()), local, Import(paths, read, scheduled, order, |order|))
    {
      order := [];
      var scan := ImportFilesToScan(paths, local);
      if scan.failed {
        return false, order;
      }
      var failed := ReadFiles(scan.files, read, scheduled);
      if failed {
        return false, order;
      }
      var waiting := LoadDeferredOps();
      VisitOps(waiting, scheduled);
      return true, waiting;
    }
  }

  // ----- loops left early --------------------------------------------------------

  lemma ScanNext(completed: map<Key, Sig>, local: Option<Device>, paths: seq<Listed>, i: nat)
    requires i < |paths|
    ensures ScanPaths(completed, local, paths[..i + 1]) ==
              ScanPath(completed, local, ScanPaths(completed, local, paths[..i]), paths[i])
  {
    assert paths[..i + 1][..i] == paths[..i];
  }

  lemma {:induction false} ScanStaysFailed(completed: map<Key, Sig>, local: Option<Device>, paths: seq<Listed>, i: nat)
    requires i <= |paths| && ScanPaths(completed, local, paths[..i]).failed
    ensures ScanPaths(completed, local, paths).failed
    decreases |paths| - i
  {
    if i < |paths| {
      ScanNext(completed, local, paths, i);
      ScanStaysFailed(completed, local, paths, i + 1);
    } else {
      assert paths[..i] == paths;
    }
  }

  lemma {:induction false} ReadStaysFailed(s: Site, files: seq<ImportFile>, read: ImportFile -> Attempt,
                                           scheduled: set<Id>, i: nat)
    requires i <= |files| && Imports.ReadFiles(s, files[..i], read, scheduled).failed
    ensures Imports.ReadFiles(s, files, read, scheduled) == Imports.ReadFiles(s, files[..i], read, scheduled)
    decreases |files| - i
  {
    if i < |files| {
      assert files[..i + 1][..i] == files[..i];
      ReadStaysFailed(s, files, read, scheduled, i + 1);
    } else {
      assert files[..i] == files;
    }
  }

  // ----- the retry order -------------------------------------------------------------

  predicate Ordered(order: seq<Op>) {
    forall i, j | 0 <= i < j < |order| :: RetriedBefore(order[i], order[j])
  }

  function InsertRetry(order: seq<Op>, op: Op): (r: seq<Op>)
    requires Ordered(order)
    ensures Ordered(r) && forall x :: x in r <==> x in order || x == op
  {
    if |order| == 0 || RetriedBefore(order[|order| - 1], op) then order + [op]
    else
      var r := InsertRetry(order[..|order| - 1], op);
      assert forall i | 0 <= i < |r| :: r[i] in r;
      r + [order[|order| - 1]]
  }
}
