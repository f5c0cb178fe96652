// What one operation stores and what it removes.
module ImportRows {
  import opened Options
  import opened ArchiveTypes
  import opened Imports

  // Nothing keeps the operation from being looked at.
  predicate IsDue(s: Site, op: Op) {
    op.id !in s.log.applied && !NewerApplied(s.log.applied, op)
  }

  ghost predicate IsDone(s: Site, op: Op) {
    op.id in s.log.applied && op.id !in s.log.deferred
  }

  // Main result: a message or tool call is stored, as it was sent, when its thread is
  // there and it is new or the thread is the sender's; it waits when the thread is
  // not there.
  lemma ChildIsStored(s: Site, op: Op, scheduled: set<Id>, thread: Id)
    requires op.kind.ChildUpsert? && op.kind.thread == Some(thread) && thread !in scheduled && IsDue(s, op)
    ensures var t := Visit(s, op, scheduled);
            var writable := op.entity !in s.rows.children || OriginMatches(s.rows, thread, op.device);
            var child := Child(thread, op.kind.about, op.content);
            && (thread in s.rows.threads && writable ==>
                  t.rows == s.rows.(children := s.rows.children[op.entity := child]) && IsDone(t, op))
            && (thread in s.rows.threads && !writable ==> t.rows == s.rows && IsDone(t, op))
            && (thread !in s.rows.threads ==>
                  && t.rows == s.rows && op.id !in t.log.applied
                  && op.id in t.log.deferred && t.log.deferred[op.id] == op)
  {
  }

  // A thread is stored as its sender's when it is new, and updated when it is.
  lemma ThreadIsStored(s: Site, op: Op, scheduled: set<Id>)
    requires op.kind == ThreadUpsert(false) && IsDue(s, op)
    ensures var t, id := Visit(s, op, scheduled), op.entity.id;
            && IsDone(t, op)
            && (id !in s.rows.threads || s.rows.threads[id].origin == Some(op.device) ==>
                  t.rows == s.rows.(threads := s.rows.threads[id := Thread(Some(op.device), op.content)]))
            && (id in s.rows.threads && s.rows.threads[id].origin != Some(op.device) ==> t.rows == s.rows)
  {
  }

  // Main result: deleting a thread of the sender's removes it and every child of it,
  // and nothing else.
  lemma ThreadIsRemoved(s: Site, op: Op, scheduled: set<Id>)
    requires op.kind.ThreadDelete? && IsDue(s, op)
    ensures var t, id := Visit(s, op, scheduled), op.entity.id;
            && IsDone(t, op)
            && (OriginMatches(s.rows, id, op.device) ==>
                  && t.rows.threads == s.rows.threads - {id}
                  && (forall e :: e in t.rows.children <==> e in s.rows.children && s.rows.children[e].thread != id)
                  && (forall e | e in t.rows.children :: t.rows.children[e] == s.rows.children[e]))
            && (!OriginMatches(s.rows, id, op.device) ==> t.rows == s.rows)
  {
  }

  // Main result: deleting a child in a thread of the sender's removes it and, with a
  // message, the tool calls that belong to it, and nothing else.
  lemma ChildIsRemoved(s: Site, op: Op, scheduled: set<Id>)
    requires op.kind.ChildDelete? && IsDue(s, op)
    ensures var t := Visit(s, op, scheduled);
            var owned := op.entity in s.rows.children
                         && OriginMatches(s.rows, s.rows.children[op.entity].thread, op.device);
            && IsDone(t, op) && t.rows.threads == s.rows.threads
            && (owned ==>
                  && (forall e :: e in t.rows.children <==>
                        && e in s.rows.children && e != op.entity
                        && !(op.entity.table.Messages? && e.table.ToolCalls?
                             && op.entity.id in s.rows.children[e].about))
                  && (forall e | e in t.rows.children :: t.rows.children[e] == s.rows.children[e]))
            && (!owned ==> t.rows == s.rows)
  {
  }

  // What was created by a schedule stays where it was created.
  lemma ScheduledIsSkipped(s: Site, op: Op, scheduled: set<Id>)
    requires op.kind == ThreadUpsert(true) || (op.kind.ChildUpsert? && op.kind.thread.Some?
                                               && op.kind.thread.value in scheduled)
    ensures var t := Visit(s, op, scheduled);
            && t.rows == s.rows && IsDone(t, op) && t.past.effects == s.past.effects
            && (op.kind.ThreadUpsert? ==> op.entity.id in t.log.skipped)
            && s.log.skipped <= t.log.skipped
  {
  }

  // ----- threads of schedules over runs -------------------------------------------------

  // Every upsert of the thread says that a schedule created it.
  ghost predicate OnlyScheduled(id: Id, op: Op) {
    op.kind.ThreadUpsert? && op.entity.id == id ==> op.kind.scheduled
  }

  ghost predicate IsAbsent(rows: Rows, id: Id) {
    id !in rows.threads && forall e | e in rows.children :: rows.children[e].thread != id
  }

  ghost predicate StaysOut(s: Site, id: Id) {
    IsAbsent(s.rows, id) && forall op | op in s.log.deferred.Values :: OnlyScheduled(id, op)
  }

  lemma VisitStaysOut(s: Site, op: Op, scheduled: set<Id>, id: Id)
    requires StaysOut(s, id) && OnlyScheduled(id, op)
    ensures StaysOut(Visit(s, op, scheduled), id)
  {
  }

  lemma {:induction false} VisitAllStaysOut(s: Site, ops: seq<Op>, scheduled: set<Id>, id: Id)
    requires StaysOut(s, id) && forall op | op in ops :: OnlyScheduled(id, op)
    ensures StaysOut(VisitAll(s, ops, scheduled), id)
    decreases |ops|
  {
    if |ops| > 0 {
      var front, last := ops[..|ops| - 1], ops[|ops| - 1];
      assert last in ops && forall op | op in front :: op in ops;
      VisitAllStaysOut(s, front, scheduled, id);
      VisitStaysOut(VisitAll(s, front, scheduled), last, scheduled, id);
    }
  }

  lemma {:induction false} ReadFilesStaysOut(s: Site, files: seq<ImportFile>, read: ImportFile -> Attempt,
                                             scheduled: set<Id>, id: Id)
    requires StaysOut(s, id) && forall f: ImportFile, op | op in read(f).ops :: OnlyScheduled(id, op)
    ensures StaysOut(ReadFiles(s, files, read, scheduled).site, id)
    decreases |files|
  {
    if |files| > 0 {
      var front, last := files[..|files| - 1], files[|files| - 1];
      ReadFilesStaysOut(s, front, read, scheduled, id);
      var p := ReadFiles(s, front, read, scheduled);
      var reading := p.site.(past := p.site.past.(begun := p.site.past.begun + [last.key]));
      assert StaysOut(reading, id);
      VisitAllStaysOut(reading, read(last).ops, scheduled, id);
    }
  }

  ghost predicate KeepsOut(m: Move, id: Id) {
    if m.Application? then IsAbsent(m.rows, id)
    else forall f: ImportFile, op | op in m.read(f).ops :: OnlyScheduled(id, op)
  }

  lemma DoStaysOut(s: Site, local: Option<Device>, m: Move, id: Id)
    requires StaysOut(s, id) && KeepsOut(m, id)
    ensures StaysOut(Do(s, local, m), id)
  {
    if m.Import? {
      var scan := ScanPaths(s.log.completed, local, m.paths);
      ReadFilesStaysOut(s, scan.files, m.read, m.scheduled, id);
      var p := ReadFiles(s, scan.files, m.read, m.scheduled);
      if InRetryOrder(m.order, p.site.log.deferred) {
        assert forall op | op in Retried(m) :: op in m.order;
        VisitAllStaysOut(p.site, Retried(m), m.scheduled, id);
      }
    }
  }

  // Main result: a thread that a schedule created on another device, and its
  // messages and tool calls, never get into this device's archive.
  lemma {:induction false} ScheduledStaysOut(rows: Rows, local: Option<Device>, moves: seq<Move>, id: Id)
    requires IsAbsent(rows, id) && forall m | m in moves :: KeepsOut(m, id)
    ensures StaysOut(Run(Begin(rows), local, moves), id)
    decreases |moves|
  {
    if |moves| > 0 {
      var front, last := moves[..|moves| - 1], moves[|moves| - 1];
      assert last in moves && forall m | m in front :: m in moves;
      ScheduledStaysOut(rows, local, front, id);
      DoStaysOut(Run(Begin(rows), local, front), local, last, id);
    }
  }
}
