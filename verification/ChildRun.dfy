// One message or tool call of another device over any run of imports, as long as
// neither its thread nor a message it belongs to is deleted.
module ChildRuns {
  import opened Options
  import opened ArchiveTypes
  import opened ExportLogs
  import opened Imports
  import opened LogReplays
  import opened LogRuns

  // The threads its operations name, and the messages they say it belongs to.
  ghost predicate Names(c: map<nat, Op>, thread: Id) {
    exists n :: n in c && c[n].kind.ChildUpsert? && c[n].kind.thread == Some(thread)
  }

  ghost predicate BelongsTo(c: map<nat, Op>, message: Id) {
    exists n :: n in c && c[n].kind.ChildUpsert? && message in c[n].kind.about
  }

  // Another operation does not take the child away: it deletes none of its threads
  // and messages, and its threads are its device's.
  ghost predicate LeavesChild(c: map<nat, Op>, d: Device, op: Op) {
    && (op.kind.ThreadDelete? ==> !Names(c, op.entity.id))
    && (op.kind.ThreadUpsert? && Names(c, op.entity.id) ==> op.device == d)
    && (op.kind.ChildDelete? && op.entity.table.Messages? ==> !BelongsTo(c, op.entity.id))
  }

  ghost predicate FitsChild(c: map<nat, Op>, d: Device, e: Entity, op: Op) {
    Fits(c, e, op) && (op.entity != e ==> LeavesChild(c, d, op))
  }

  ghost predicate ChildSays(rows: Rows, op: Op) {
    if op.kind.ChildUpsert? then
      && op.entity in rows.children && op.kind.thread.Some?
      && rows.children[op.entity] == Child(op.kind.thread.value, op.kind.about, op.content)
    else op.entity !in rows.children
  }

  // The threads of the child are its device's, and it is in one of them.
  ghost predicate Housed(c: map<nat, Op>, d: Device, e: Entity, rows: Rows) {
    && (forall t | t in rows.threads && Names(c, t) :: rows.threads[t].origin == Some(d))
    && (e in rows.children ==> rows.children[e].thread in rows.threads && Names(c, rows.children[e].thread))
  }

  // The child is as the newest operation on it that has been applied says.
  ghost predicate ChildAsNewest(c: map<nat, Op>, d: Device, e: Entity, s: Site) {
    && Recorded(c, d, e, s.log.applied) && Housed(c, d, e, s.rows)
    && (forall n | Newest(c, s.log.applied, n) :: ChildSays(s.rows, c[n]))
    && ((forall n | n in c :: c[n].id !in s.log.applied) ==> e !in s.rows.children)
    && (forall id | id in s.log.deferred :: FitsChild(c, d, e, s.log.deferred[id]))
  }

  ghost predicate IsChildCatalog(c: map<nat, Op>, d: Device, e: Entity) {
    IsCatalog(c, d, e) && !e.table.Threads?
  }

  // No operation on the child is skipped for its thread's sake.
  ghost predicate Unscheduled(c: map<nat, Op>, scheduled: set<Id>) {
    forall t | t in scheduled :: !Names(c, t)
  }

  // ----- one operation -----------------------------------------------------------------

  lemma OthersLeaveRow(c: map<nat, Op>, d: Device, e: Entity, rows: Rows, op: Op)
    requires KindAgrees(op) && op.entity != e && LeavesChild(c, d, op) && Housed(c, d, e, rows)
    requires e in rows.children ==> forall m | m in rows.children[e].about :: BelongsTo(c, m)
    ensures var after := Effect(rows, op);
            && Housed(c, d, e, after) && (e in after.children <==> e in rows.children)
            && (e in rows.children ==> after.children[e] == rows.children[e])
  {
  }

  lemma AboutIsNamed(c: map<nat, Op>, d: Device, e: Entity, s: Site)
    requires IsChildCatalog(c, d, e) && ChildAsNewest(c, d, e, s) && e in s.rows.children
    ensures forall m | m in s.rows.children[e].about :: BelongsTo(c, m)
  {
    var k := Above(c.Keys);
    NewestBelow(c, s.log.applied, k);
    var n :| Newest(c, s.log.applied, n);
    assert ChildSays(s.rows, c[n]);
  }

  // A number above all of a finite set.
  lemma {:induction false} Above(numbers: set<nat>) returns (k: nat)
    ensures forall n | n in numbers :: n < k
    decreases numbers
  {
    k := 0;
    if numbers != {} {
      var x :| x in numbers;
      var j := Above(numbers - {x});
      k := if x < j then j else x + 1;
      assert forall n | n in numbers :: n == x || n in numbers - {x};
    }
  }

  lemma OthersLeaveChild(c: map<nat, Op>, d: Device, e: Entity, s: Site, op: Op, scheduled: set<Id>)
    requires IsChildCatalog(c, d, e) && ChildAsNewest(c, d, e, s) && FitsChild(c, d, e, op) && op.entity != e
    ensures ChildAsNewest(c, d, e, Visit(s, op, scheduled))
  {
    var t := Visit(s, op, scheduled);
    if e in s.rows.children {
      AboutIsNamed(c, d, e, s);
    }
    OthersLeaveRow(c, d, e, s.rows, op);
    forall n | n in c
      ensures c[n].id in t.log.applied <==> c[n].id in s.log.applied
    {
    }
    forall n | Newest(c, t.log.applied, n)
      ensures ChildSays(t.rows, c[n])
    {
      assert Newest(c, s.log.applied, n);
    }
  }

  lemma ChildAppliedAlready(c: map<nat, Op>, d: Device, e: Entity, s: Site, n: nat, scheduled: set<Id>)
    requires IsChildCatalog(c, d, e) && ChildAsNewest(c, d, e, s) && n in c && c[n].id in s.log.applied
    ensures ChildAsNewest(c, d, e, Visit(s, c[n], scheduled))
  {
    assert Visit(s, c[n], scheduled).log.applied == s.log.applied;
  }

  lemma ChildComesLate(c: map<nat, Op>, d: Device, e: Entity, s: Site, n: nat, scheduled: set<Id>)
    requires IsChildCatalog(c, d, e) && ChildAsNewest(c, d, e, s) && n in c && c[n].id !in s.log.applied
    requires NewerApplied(s.log.applied, c[n])
    ensures ChildAsNewest(c, d, e, Visit(s, c[n], scheduled))
  {
    var t := Visit(s, c[n], scheduled);
    NewerIsListed(c, d, e, s, n);
    var m :| m in c && m > n && c[m].id in s.log.applied;
    assert c[m].id in t.log.applied;
    forall k | Newest(c, t.log.applied, k)
      ensures Newest(c, s.log.applied, k)
    {
      assert m <= k;
    }
  }

  // Its thread is not there yet.
  lemma ChildWaits(c: map<nat, Op>, d: Device, e: Entity, s: Site, n: nat, scheduled: set<Id>)
    requires IsChildCatalog(c, d, e) && ChildAsNewest(c, d, e, s) && n in c && FitsChild(c, d, e, c[n])
    requires VerdictOf(s.log, s.rows, c[n], scheduled).Deferred?
    ensures ChildAsNewest(c, d, e, Visit(s, c[n], scheduled))
  {
    assert Visit(s, c[n], scheduled).log.applied == s.log.applied;
  }

  lemma ChildIsDone(c: map<nat, Op>, d: Device, e: Entity, s: Site, n: nat)
    requires IsChildCatalog(c, d, e) && ChildAsNewest(c, d, e, s) && n in c && c[n].id !in s.log.applied
    requires c[n].kind.ChildUpsert? ==> ParentExists(s.rows, c[n])
    ensures ChildSays(Effect(s.rows, c[n]), c[n]) && Housed(c, d, e, Effect(s.rows, c[n]))
  {
    if c[n].kind.ChildUpsert? {
      assert Names(c, c[n].kind.thread.value);
    }
  }

  lemma ChildComesNext(c: map<nat, Op>, d: Device, e: Entity, s: Site, n: nat, scheduled: set<Id>)
    requires IsChildCatalog(c, d, e) && ChildAsNewest(c, d, e, s) && n in c && c[n].id !in s.log.applied
    requires VerdictOf(s.log, s.rows, c[n], scheduled).Counted?
    ensures ChildAsNewest(c, d, e, Visit(s, c[n], scheduled))
  {
    var t := Visit(s, c[n], scheduled);
    NewerIsListed(c, d, e, s, n);
    ChildIsDone(c, d, e, s, n);
    forall k | Newest(c, t.log.applied, k)
      ensures k == n
    {
      assert c[n].id in t.log.applied;
    }
  }

  lemma VisitChildAsNewest(c: map<nat, Op>, d: Device, e: Entity, s: Site, op: Op, scheduled: set<Id>)
    requires IsChildCatalog(c, d, e) && ChildAsNewest(c, d, e, s) && FitsChild(c, d, e, op)
    requires Unscheduled(c, scheduled)
    ensures ChildAsNewest(c, d, e, Visit(s, op, scheduled))
  {
    if op.entity != e {
      OthersLeaveChild(c, d, e, s, op, scheduled);
    } else if op.id in s.log.applied {
      ChildAppliedAlready(c, d, e, s, op.seqNo, scheduled);
    } else if NewerApplied(s.log.applied, op) {
      ChildComesLate(c, d, e, s, op.seqNo, scheduled);
    } else if VerdictOf(s.log, s.rows, op, scheduled).Deferred? {
      ChildWaits(c, d, e, s, op.seqNo, scheduled);
    } else {
      assert op.kind.ChildUpsert? && op.kind.thread.Some? ==> Names(c, op.kind.thread.value);
      ChildComesNext(c, d, e, s, op.seqNo, scheduled);
    }
  }

  lemma {:induction false} VisitAllChildAsNewest(c: map<nat, Op>, d: Device, e: Entity, s: Site, ops: seq<Op>,
                                                 scheduled: set<Id>)
    requires IsChildCatalog(c, d, e) && ChildAsNewest(c, d, e, s) && Unscheduled(c, scheduled)
    requires forall op | op in ops :: FitsChild(c, d, e, op)
    ensures ChildAsNewest(c, d, e, VisitAll(s, ops, scheduled))
    decreases |ops|
  {
    if |ops| > 0 {
      var front, last := ops[..|ops| - 1], ops[|ops| - 1];
      assert last in ops && forall op | op in front :: op in ops;
      VisitAllChildAsNewest(c, d, e, s, front, scheduled);
      VisitChildAsNewest(c, d, e, VisitAll(s, front, scheduled), last, scheduled);
    }
  }

  // ----- runs ------------------------------------------------------------------------------

  // The device itself leaves the child and its threads alone.
  ghost predicate SameChild(c: map<nat, Op>, a: Rows, b: Rows, e: Entity) {
    && (e in a.children <==> e in b.children) && (e in a.children ==> a.children[e] == b.children[e])
    && forall t | Names(c, t) ::
         (t in a.threads <==> t in b.threads) && (t in a.threads ==> a.threads[t].origin == b.threads[t].origin)
  }

  ghost predicate MoveFitsChild(c: map<nat, Op>, d: Device, e: Entity, s: Site, m: Move) {
    if m.Import? then
      && Unscheduled(c, m.scheduled)
      && forall f: ImportFile, op | op in m.read(f).ops :: FitsChild(c, d, e, op)
    else SameChild(c, s.rows, m.rows, e)
  }

  ghost predicate ChildRun(c: map<nat, Op>, d: Device, e: Entity, s: Site, local: Option<Device>, moves: seq<Move>) {
    |moves| == 0 ||
    (ChildRun(c, d, e, s, local, moves[..|moves| - 1])
     && MoveFitsChild(c, d, e, Run(s, local, moves[..|moves| - 1]), moves[|moves| - 1]))
  }

  lemma {:induction false} ReadFilesChildAsNewest(c: map<nat, Op>, d: Device, e: Entity, s: Site,
                                                  files: seq<ImportFile>, read: ImportFile -> Attempt,
                                                  scheduled: set<Id>)
    requires IsChildCatalog(c, d, e) && ChildAsNewest(c, d, e, s) && Unscheduled(c, scheduled)
    requires forall f: ImportFile, op | op in read(f).ops :: FitsChild(c, d, e, op)
    ensures ChildAsNewest(c, d, e, ReadFiles(s, files, read, scheduled).site)
    decreases |files|
  {
    if |files| > 0 {
      var front, last := files[..|files| - 1], files[|files| - 1];
      ReadFilesChildAsNewest(c, d, e, s, front, read, scheduled);
      var p := ReadFiles(s, front, read, scheduled);
      var reading := p.site.(past := p.site.past.(begun := p.site.past.begun + [last.key]));
      assert ChildAsNewest(c, d, e, reading);
      VisitAllChildAsNewest(c, d, e, reading, read(last).ops, scheduled);
    }
  }

  lemma DoChildAsNewest(c: map<nat, Op>, d: Device, e: Entity, s: Site, local: Option<Device>, m: Move)
    requires IsChildCatalog(c, d, e) && ChildAsNewest(c, d, e, s) && MoveFitsChild(c, d, e, s, m)
    ensures ChildAsNewest(c, d, e, Do(s, local, m))
  {
    if m.Import? {
      var scan := ScanPaths(s.log.completed, local, m.paths);
      ReadFilesChildAsNewest(c, d, e, s, scan.files, m.read, m.scheduled);
      var p := ReadFiles(s, scan.files, m.read, m.scheduled);
      if InRetryOrder(m.order, p.site.log.deferred) {
        assert forall op | op in Retried(m) :: op in m.order;
        VisitAllChildAsNewest(c, d, e, p.site, Retried(m), m.scheduled);
      }
    }
  }

  ghost predicate NotThere(c: map<nat, Op>, d: Device, e: Entity, rows: Rows) {
    e !in rows.children && forall t | t in rows.threads && Names(c, t) :: rows.threads[t].origin == Some(d)
  }

  // Main result: over every run of imports, with any files visible in any order,
  // failures, repetitions and operations that wait for their thread, a child of
  // another device is as the newest operation on it that has been applied says, as
  // long as neither its thread nor a message it belongs to is deleted.
  lemma {:induction false} ChildFollowsNewest(c: map<nat, Op>, d: Device, e: Entity, rows: Rows, local: Option<Device>,
                                              moves: seq<Move>)
    requires IsChildCatalog(c, d, e) && NotThere(c, d, e, rows) && ChildRun(c, d, e, Begin(rows), local, moves)
    ensures ChildAsNewest(c, d, e, Run(Begin(rows), local, moves))
    decreases |moves|
  {
    if |moves| > 0 {
      ChildFollowsNewest(c, d, e, rows, local, moves[..|moves| - 1]);
      DoChildAsNewest(c, d, e, Run(Begin(rows), local, moves[..|moves| - 1]), local, moves[|moves| - 1]);
    }
  }

  // What the child is when the log's last word on it has been applied.
  ghost predicate ChildIs(rows: Rows, e: Entity, word: Option<E.Emit>) {
    if word.Some? && word.value.Upserted? then e in rows.children && rows.children[e].content == word.value.version
    else e !in rows.children
  }

  // Main result: when of the operations on a child exactly those up to number k have
  // been applied, it is as the last word of the log up to k says.
  lemma ChildGivesLastWord(c: map<nat, Op>, files: Files, fs: E.Fs, d: Device, e: Entity, rows: Rows,
                           local: Option<Device>, moves: seq<Move>, k: nat)
    requires IsChildCatalog(c, d, e) && Lists(c, files, e) && Publishes(files, fs, d) && E.Numbered(fs)
    requires NotThere(c, d, e, rows) && ChildRun(c, d, e, Begin(rows), local, moves)
    requires forall n | n in c :: c[n].id in Run(Begin(rows), local, moves).log.applied <==> n <= k
    ensures ChildIs(Run(Begin(rows), local, moves).rows, e, LastOp(fs, e, k))
  {
    var s := Run(Begin(rows), local, moves);
    ChildFollowsNewest(c, d, e, rows, local, moves);
    var n := WordIsNewest(c, files, fs, d, e, k);
    if LastOp(fs, e, k).Some? {
      assert Newest(c, s.log.applied, n);
      assert ChildSays(s.rows, c[n]);
    }
  }
}
