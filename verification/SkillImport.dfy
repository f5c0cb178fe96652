// What an import or a resolution does to the user's file, and what the device
// publishes of it afterwards.
module SkillImports {
  import opened Options
  import opened SkillTypes
  import opened SkillInvariants

  // ----- when an import touches the file --------------------------------------------

  // The upsert is neither current here nor superseded nor deleted.
  predicate IsNews(s: PathState, op: SkillOp)
    requires op.Upsert?
  {
    s.gen != Some(op.gen) && op.gen !in s.retiredUps && op.gen !in Bases(s.tombs)
  }

  // The file is the one the remote change was made to, or one the author names
  // besides.
  predicate IsBasis(s: PathState, op: SkillOp)
    requires op.Upsert?
  {
    HashOf(s.file) == op.baseHash || op.recovery == Some(HashOf(s.file))
  }

  // A tombstone of the operation that is not retired here.
  predicate IsLive(s: PathState, op: SkillOp, id: Id)
    requires op.Delete?
  {
    id in op.tombs && id !in s.retiredTombs
  }

  // One of them is for the very generation and content that are here.
  ghost predicate Targets(s: PathState, op: SkillOp)
    requires op.Delete?
  {
    exists id :: IsLive(s, op, id) && s.gen == Some(op.tombs[id].baseGen) && op.tombs[id].baseHash == HashOf(s.file)
  }

  ghost predicate TargetsGen(s: PathState, op: SkillOp)
    requires op.Delete?
  {
    exists id :: IsLive(s, op, id) && s.gen == Some(op.tombs[id].baseGen)
  }

  ghost predicate AnyLive(s: PathState, op: SkillOp)
    requires op.Delete?
  {
    exists id :: IsLive(s, op, id)
  }

  ghost predicate Writes(s: PathState, op: SkillOp, force: bool, blocked: bool) {
    && op.Upsert? && Parses(op) && IsNews(s, op) && (blocked ==> force)
    && HashOf(s.file) != op.contentHash && (force || IsBasis(s, op))
  }

  ghost predicate Removes(s: PathState, op: SkillOp, force: bool, blocked: bool) {
    op.Delete? && Parses(op) && !blocked && s.file.Some? && (Targets(s, op) || (force && AnyLive(s, op)))
  }

  // An upsert cannot be reconciled with an obstructed path or with a file that is
  // neither its content nor a basis of it; a delete, with a file that is not the
  // deleted content, unless a generation of its own keeps it.
  ghost predicate Disagrees(s: PathState, op: SkillOp, blocked: bool) {
    Parses(op) &&
    if op.Upsert? then
      IsNews(s, op) && (blocked || (HashOf(s.file) != op.contentHash && !IsBasis(s, op)))
    else
      !blocked && s.file.Some? && AnyLive(s, op) && !Targets(s, op) && (s.gen.None? || TargetsGen(s, op))
  }

  ghost predicate HasEffect(r: Outcome, effect: Effect) {
    r.Applied? && r.effect == effect
  }

  ghost function FileAfter(s: PathState, op: SkillOp, force: bool, blocked: bool): Option<Content> {
    if Writes(s, op, force, blocked) then Some(op.content)
    else if Removes(s, op, force, blocked) then None
    else s.file
  }

  lemma LiveBases(s: PathState, op: SkillOp, retired: set<Id>)
    requires op.Delete? && retired == s.retiredTombs
    ensures (op.tombs - retired == map[]) <==> !AnyLive(s, op)
    ensures s.gen.Some? ==> (s.gen.value in Bases(op.tombs - retired) <==> TargetsGen(s, op))
    ensures (exists id | id in op.tombs - retired ::
              s.gen == Some((op.tombs - retired)[id].baseGen) && (op.tombs - retired)[id].baseHash == HashOf(s.file))
            <==> Targets(s, op)
  {
    var live := op.tombs - retired;
    assert forall id :: id in live <==> IsLive(s, op, id);
    if live != map[] {
      var id :| id in live;
      assert IsLive(s, op, id);
    }
  }

  // Main result: an import changes the file exactly when it is an upsert that is
  // news and that is based on what is here, or a delete of the generation and the
  // content that are here, or when it is forced; then the file is the remote
  // content or gone. It records a conflict exactly when the two cannot be
  // reconciled. Whatever tombstones and conflicts the row has.
  lemma ImportTouchesFileIff(s: PathState, device: Device, seqNo: int, op: SkillOp, force: bool, blocked: bool)
    ensures var r := Apply(s, device, seqNo, op, force, blocked);
            && (r.Applied? && r.effect.Wrote? <==> Writes(s, op, force, blocked))
            && (HasEffect(r, Removed) <==> Removes(s, op, force, blocked))
            && (HasEffect(r, Conflicted) <==> !force && Disagrees(s, op, blocked))
            && (r.Applied? ==> r.state.file == FileAfter(s, op, force, blocked))
  {
    if Parses(op) {
      if op.Upsert? {
        UpsertTouches(s, device, seqNo, op, force, blocked);
      } else {
        DeleteTouches(s, device, seqNo, op, force, blocked);
      }
    }
  }

  lemma UpsertTouches(s: PathState, device: Device, seqNo: int, op: SkillOp, force: bool, blocked: bool)
    requires op.Upsert? && Parses(op)
    ensures var r := Apply(s, device, seqNo, op, force, blocked);
            && (r.Applied? && r.effect.Wrote? <==> Writes(s, op, force, blocked))
            && !HasEffect(r, Removed) && (HasEffect(r, Conflicted) <==> !force && Disagrees(s, op, blocked))
            && (r.Applied? ==> r.state.file == if Writes(s, op, force, blocked) then Some(op.content) else s.file)
  {
  }

  lemma DeleteTouches(s: PathState, device: Device, seqNo: int, op: SkillOp, force: bool, blocked: bool)
    requires op.Delete? && Parses(op)
    ensures var r := Apply(s, device, seqNo, op, force, blocked);
            && r.Applied? && !r.effect.Wrote? && (HasEffect(r, Removed) <==> Removes(s, op, force, blocked))
            && (HasEffect(r, Conflicted) <==> !force && Disagrees(s, op, blocked))
            && r.state.file == if Removes(s, op, force, blocked) then None else s.file
  {
    LiveBases(s, op, s.retiredTombs);
  }

  // ----- what an import leaves behind ------------------------------------------------

  // Main result: a generation is adopted exactly when the operation is news and its
  // content is, or comes to be, the file; it is then current and the former one
  // retired. A delete that does not end in a conflict leaves every live tombstone
  // active.
  lemma ImportAdoptsIff(s: PathState, device: Device, seqNo: int, op: SkillOp, force: bool, blocked: bool)
    requires op.Upsert?
    ensures var r := Apply(s, device, seqNo, op, force, blocked);
            var adopts := && Parses(op) && IsNews(s, op) && (blocked ==> force)
                          && (HashOf(s.file) == op.contentHash || force || IsBasis(s, op));
            && (r.Applied? && (r.effect.Wrote? || r.effect.Adopted?) <==> adopts)
            && (adopts ==>
                  && r.effect.gen == op.gen && r.state.gen == Some(op.gen) && r.state.manifest == Some(op.contentHash)
                  && HashOf(r.state.file) == op.contentHash && op.gen !in r.state.retiredUps
                  && (s.gen.Some? ==> s.gen.value in r.state.retiredUps) && op.retiredUps <= r.state.retiredUps
                  && op.retiredTombs <= r.state.retiredTombs)
            && (r.Applied? && !adopts ==>
                  r.state.gen == s.gen && r.state.manifest == s.manifest && r.state.relay == s.relay)
  {
  }

  // The tombstones an upsert retires are retired whether it is news or not, unless it
  // cannot be reconciled.
  lemma UpsertRetiresTombstones(s: PathState, device: Device, seqNo: int, op: SkillOp, force: bool, blocked: bool)
    requires op.Upsert? && Inv(s)
    ensures var r := Apply(s, device, seqNo, op, force, blocked);
            && (r.Applied? && !r.effect.Conflicted? ==>
                  && r.state.retiredTombs == s.retiredTombs + op.retiredTombs
                  && r.state.tombs == s.tombs - op.retiredTombs)
            && (r.Applied? && r.effect.Conflicted? ==>
                  r.state.retiredTombs == s.retiredTombs && r.state.tombs == s.tombs)
  {
    TargetsAreRetired(s);
  }

  lemma DeleteLeavesTombstones(s: PathState, device: Device, seqNo: int, op: SkillOp, force: bool, blocked: bool)
    requires op.Delete? && Parses(op) && Inv(s)
    ensures var r := Apply(s, device, seqNo, op, force, blocked);
            && r.Applied?
            && (forall id :: IsLive(s, op, id) && !r.effect.Conflicted? ==> id in r.state.tombs)
            && (forall id :: id in r.state.tombs ==> id in s.tombs || IsLive(s, op, id))
            && (r.effect.Conflicted? || !AnyLive(s, op) ==> r.state.tombs == s.tombs)
            && r.state.retiredUps == s.retiredUps + op.retiredUps + Bases(op.tombs)
  {
    LiveBases(s, op, s.retiredTombs);
  }

  // When a delete makes the device forget the entry: the generation is the deleted
  // one, or there is none, or the path is obstructed, and no conflict is recorded.
  lemma DeleteForgetsIff(s: PathState, device: Device, seqNo: int, op: SkillOp, force: bool, blocked: bool)
    requires op.Delete? && Parses(op)
    ensures var r := Apply(s, device, seqNo, op, force, blocked);
            var forgets := && AnyLive(s, op) && (blocked || force || s.gen.None? || TargetsGen(s, op))
                           && !r.effect.Conflicted?;
            && r.Applied?
            && (forgets ==> r.state.manifest.None? && r.state.gen.None? && r.state.relay.None?)
            && (!forgets ==> r.state.manifest == s.manifest && r.state.gen == s.gen && r.state.relay == s.relay)
  {
    LiveBases(s, op, s.retiredTombs);
  }

  // ----- relays -----------------------------------------------------------------------

  // Operations are published either with the base they were made to or as relays
  // and copies, which name it besides.
  predicate IsPlain(op: SkillOp) {
    op.Upsert? ==> op.recovery.None? || op.baseHash == Missing
  }

  predicate RelaysPlainly(s: PathState) {
    && (s.relay.Some? ==> s.relay.value.baseHash == Missing && s.relay.value.retiredTombs <= s.retiredTombs)
    && forall i | 0 <= i < |s.conflicts| :: IsPlain(s.conflicts[i].op)
  }

  lemma StepRelaysPlainly(s: PathState, e: Event)
    requires RelaysPlainly(s) && (e.Import? ==> IsPlain(e.op))
    ensures RelaysPlainly(Step(s, e).state)
  {
    match e
    case Edit(_) =>
    case Publish(full, newId) => ExportsPlainly(s, full, newId);
    case Import(device, seqNo, op, blocked) => ApplyRelaysPlainly(s, device, seqNo, op, false, blocked);
    case Settle(i, choice, blocked) => SettleRelaysPlainly(s, i, choice, blocked);
  }

  lemma SettleRelaysPlainly(s: PathState, i: nat, choice: Choice, blocked: bool)
    requires RelaysPlainly(s)
    ensures RelaysPlainly(Step(s, Settle(i, choice, blocked)).state)
  {
    if i < |s.conflicts| && choice.UseRemote? {
      ApplyRelaysPlainly(s, s.conflicts[i].device, 0, s.conflicts[i].op, true, blocked);
    }
  }

  // Nothing an import does to the conflicts changes their operations.
  ghost predicate SameConflicts(a: PathState, b: PathState) {
    |a.conflicts| == |b.conflicts| && forall i | 0 <= i < |a.conflicts| :: a.conflicts[i].op == b.conflicts[i].op
  }

  ghost predicate OneMoreConflict(a: PathState, b: PathState, c: Conflict) {
    exists t :: SameConflicts(a, t) && b.conflicts == t.conflicts + [c]
  }

  lemma ApplyRelaysPlainly(s: PathState, device: Device, seqNo: int, op: SkillOp, force: bool, blocked: bool)
    requires RelaysPlainly(s) && IsPlain(op)
    ensures var r := Apply(s, device, seqNo, op, force, blocked); r.Applied? ==> RelaysPlainly(r.state)
  {
    var r := Apply(s, device, seqNo, op, force, blocked);
    if r.Applied? {
      if op.Upsert? {
        UpsertConflicts(s, device, seqNo, op, force, blocked);
        ImportAdoptsIff(s, device, seqNo, op, force, blocked);
        UpsertRelay(s, device, seqNo, op, force, blocked);
      } else {
        DeleteConflicts(s, device, seqNo, op, force, blocked);
        DeleteForgetsIff(s, device, seqNo, op, force, blocked);
      }
    }
  }

  lemma UpsertConflicts(s: PathState, device: Device, seqNo: int, op: SkillOp, force: bool, blocked: bool)
    requires op.Upsert?
    ensures var r := Apply(s, device, seqNo, op, force, blocked);
            r.Applied? ==>
              SameConflicts(s, r.state) || OneMoreConflict(s, r.state, Conflict(device, seqNo, op, Pending))
  {
    assert SameConflicts(s, SupersedeOlder(s, device, seqNo));
  }

  lemma DeleteConflicts(s: PathState, device: Device, seqNo: int, op: SkillOp, force: bool, blocked: bool)
    requires op.Delete?
    ensures var r := Apply(s, device, seqNo, op, force, blocked);
            r.Applied? ==>
              SameConflicts(s, r.state) || OneMoreConflict(s, r.state, Conflict(device, seqNo, op, Pending))
  {
    assert SameConflicts(s, Prepared(s, device, seqNo, op));
  }

  lemma UpsertRelay(s: PathState, device: Device, seqNo: int, op: SkillOp, force: bool, blocked: bool)
    requires op.Upsert?
    ensures var r := Apply(s, device, seqNo, op, force, blocked);
            r.Applied? ==> r.state.relay == s.relay || (r.state.relay == Some(RelayOf(op))
                                                        && op.retiredTombs <= r.state.retiredTombs)
  {
  }

  lemma ExportsPlainly(s: PathState, full: bool, newId: Id)
    requires RelaysPlainly(s)
    ensures var e := Export(s, full, newId);
            e.Exported? ==> RelaysPlainly(e.state) && forall i | 0 <= i < |e.ops| :: IsPlain(e.ops[i])
  {
    var d := ExportDelete(s, full, newId);
    DeletesPlainly(s, full, newId);
    if d.Exported? && s.file.Some? {
      UpsertsPlainly(d.state, full, newId);
    }
  }

  lemma DeletesPlainly(s: PathState, full: bool, newId: Id)
    requires RelaysPlainly(s)
    ensures var d := ExportDelete(s, full, newId);
            d.Exported? ==> RelaysPlainly(d.state) && d.state.file == s.file && forall op | op in d.ops :: op.Delete?
  {
  }

  lemma UpsertsPlainly(s: PathState, full: bool, newId: Id)
    requires RelaysPlainly(s) && s.file.Some?
    ensures var u := ExportUpsert(s, full, newId);
            u.Exported? ==> RelaysPlainly(u.state) && forall op | op in u.ops :: IsPlain(op)
  {
  }

  // In every network all operations are of this kind.
  lemma {:induction false} RunRelaysPlainly(s: PathState, events: seq<Event>)
    requires RelaysPlainly(s) && forall e | e in events :: e.Import? ==> IsPlain(e.op)
    ensures RelaysPlainly(Run(s, events))
    decreases |events|
  {
    if events != [] {
      StepRelaysPlainly(s, events[0]);
      RunRelaysPlainly(Step(s, events[0]).state, events[1..]);
    }
  }

  // What a device holds after it has adopted an operation.
  lemma AdoptingLeavesRelay(q: PathState, device: Device, seqNo: int, op: SkillOp)
    requires op.Upsert? && IsPlain(op)
    requires var r := Apply(q, device, seqNo, op, false, false); r.Applied? && (r.effect.Wrote? || r.effect.Adopted?)
    ensures var r := Apply(q, device, seqNo, op, false, false);
            && r.state.relay.Some? && r.state.relay.value.gen == op.gen && r.state.relay.value.baseHash == Missing
            && r.state.gen == Some(op.gen) && r.state.manifest == Some(op.contentHash)
            && r.state.file == Some(op.content) && op.gen !in r.state.retiredUps
            && r.state.relay.value.retiredTombs == op.retiredTombs
            && forall h: Hash | h == op.baseHash || op.recovery == Some(h) ::
                 h == Missing || r.state.relay.value.recovery == Some(h)
  {
  }

  // What it publishes of it, after the delete it may have to publish first.
  lemma RelayIsSent(s: PathState, newId: Id)
    requires s.file.Some? && s.relay.Some? && s.gen == Some(s.relay.value.gen)
    requires s.manifest == Some(Digest(s.file.value))
    ensures var e := Export(s, false, newId);
            && e.Exported? && |e.ops| > 0
            && var relay := e.ops[|e.ops| - 1];
               && relay.Upsert? && relay.gen == s.gen.value && relay.content == s.file.value
               && relay.contentHash == Digest(relay.content) && relay.baseHash == s.relay.value.baseHash
               && relay.recovery == s.relay.value.recovery && relay.retiredUps == s.retiredUps
               && relay.retiredTombs == s.retiredTombs + s.relay.value.retiredTombs
  {
  }

  // Main result: a relay serves as well as the operation it passes on. Whoever would
  // have written the content on reading the operation writes it on reading the relay.
  lemma RelayServesAsWell(q: PathState, device: Device, seqNo: int, op: SkillOp, newId: Id,
                          t: PathState, device': Device, seqNo': int, device'': Device, seqNo'': int)
    requires op.Upsert? && IsPlain(op) && HasEffect(Apply(t, device', seqNo', op, false, false), Wrote(op.gen))
    requires var r := Apply(q, device, seqNo, op, false, false); r.Applied? && (r.effect.Wrote? || r.effect.Adopted?)
    ensures var e := Export(Apply(q, device, seqNo, op, false, false).state, false, newId);
            && e.Exported? && |e.ops| > 0
            && var relayed := Apply(t, device'', seqNo'', e.ops[|e.ops| - 1], false, false);
               && HasEffect(relayed, Wrote(op.gen)) && relayed.state.file == Some(op.content)
               && op.retiredTombs <= relayed.state.retiredTombs
  {
    var q' := Apply(q, device, seqNo, op, false, false).state;
    AdoptingLeavesRelay(q, device, seqNo, op);
    RelayIsSent(q', newId);
    var e := Export(q', false, newId);
    ImportTouchesFileIff(t, device', seqNo', op, false, false);
    ImportTouchesFileIff(t, device'', seqNo'', e.ops[|e.ops| - 1], false, false);
    ImportAdoptsIff(t, device'', seqNo'', e.ops[|e.ops| - 1], false, false);
  }

  // ----- resolutions ---------------------------------------------------------------------

  // The conflict can still be settled.
  ghost predicate IsOpen(s: PathState, i: nat) {
    i < |s.conflicts| && s.conflicts[i].status.Pending? && !HasNewer(s, i) && s.conflicts[i].seqNo >= 0
  }

  // Main result: use_remote puts the remote content in place of the file, or removes
  // it, unless the generation is no longer news or every tombstone has been retired.
  lemma UseRemoteWins(s: PathState, i: nat, blocked: bool)
    requires Inv(s) && IsOpen(s, i)
    ensures var op, r := s.conflicts[i].op, Resolve(s, i, UseRemote, blocked);
            && (r.Failed? <==> op.Upsert? && s.gen == Some(op.gen) && s.manifest != Some(op.contentHash))
            && (!r.Failed? ==> r.Done? && r.state.conflicts[i].status == Resolved(false))
            && (r.Done? && op.Upsert? && IsNews(s, op) ==>
                  r.state.file == Some(op.content) && r.state.gen == Some(op.gen))
            && (r.Done? && op.Upsert? && !IsNews(s, op) ==> r.state.file == s.file && r.state.gen == s.gen)
            && (r.Done? && op.Delete? && AnyLive(s, op) ==>
                  r.state.gen.None? && (blocked || r.state.file.None?))
            && (r.Done? && op.Delete? && !AnyLive(s, op) ==> r.state.file == s.file && r.state.gen == s.gen)
  {
    var c := s.conflicts[i];
    ImportTouchesFileIff(s, c.device, 0, c.op, true, blocked);
    RemoteStaysMarked(s, i, blocked);
    if c.op.Upsert? {
      ImportAdoptsIff(s, c.device, 0, c.op, true, blocked);
    } else {
      DeleteForgetsIff(s, c.device, 0, c.op, true, blocked);
    }
  }

  lemma RemoteStaysMarked(s: PathState, i: nat, blocked: bool)
    requires Inv(s) && IsOpen(s, i)
    ensures var r := Resolve(s, i, UseRemote, blocked);
            r.Done? ==> i < |r.state.conflicts| && r.state.conflicts[i].status == Resolved(false)
  {
    var c := s.conflicts[i];
    var r := Apply(s, c.device, 0, c.op, true, blocked);
    if r.Applied? {
      assert r.state.conflicts[i] == c;
    }
  }

  // What keep_local leaves: the file, on the base of the remote change.
  ghost predicate StandsOn(s: PathState, kept: PathState, op: SkillOp) {
    && kept.file == s.file && kept.manifest == Some(op.contentHash) && kept.relay.None?
    && kept.gen == (if op.Upsert? then Some(op.gen) else None) && kept.retiredUps <= s.retiredUps + Known(s)
  }

  lemma KeepLocalLeaves(s: PathState, i: nat, blocked: bool)
    requires Inv(s) && IsOpen(s, i)
    ensures var kept := Resolve(s, i, KeepLocal, blocked);
            && kept.Done? && StandsOn(s, kept.state, s.conflicts[i].op)
            && i < |kept.state.conflicts| && kept.state.conflicts[i].status == Resolved(true)
  {
  }

  // An edit on that base is published as such.
  lemma EditIsSent(s: PathState, newId: Id)
    requires s.file.Some? && s.manifest.Some? && s.manifest != Some(HashOf(s.file))
    ensures var e := Export(s, false, newId);
            && e.Exported? && |e.ops| > 0
            && var last := e.ops[|e.ops| - 1];
               && last.Upsert? && last.gen == newId && Some(last.content) == s.file
               && last.contentHash == HashOf(s.file) && last.baseHash == s.manifest.value
               && last.retiredUps == s.retiredUps + (if s.gen.Some? then {s.gen.value} else {})
  {
  }

  // The id is drawn after everything either of the two knows.
  ghost predicate IsFresh(newId: Id, s: PathState, op: SkillOp, t: PathState) {
    && newId !in Known(s) && newId !in Known(t) && newId !in Bases(t.tombs)
    && (op.Upsert? ==> newId != op.gen)
  }

  // The operation publishes the kept file for the generation it supersedes.
  ghost predicate Publishes(last: SkillOp, newId: Id, s: PathState, op: SkillOp) {
    && last.Upsert? && last.gen == newId && Parses(last) && Some(last.content) == s.file
    && last.baseHash == op.contentHash && (op.Upsert? ==> op.gen in last.retiredUps)
  }

  lemma KeptIsSent(s: PathState, i: nat, blocked: bool, newId: Id, t: PathState)
    requires Inv(s) && IsOpen(s, i) && s.file.Some? && HashOf(s.file) != s.conflicts[i].op.contentHash
    requires IsFresh(newId, s, s.conflicts[i].op, t)
    ensures var kept := Resolve(s, i, KeepLocal, blocked);
            && kept.Done? && kept.state.file == s.file
            && i < |kept.state.conflicts| && kept.state.conflicts[i].status == Resolved(true)
            && var e := Export(kept.state, false, newId);
               && e.Exported? && |e.ops| > 0 && Publishes(e.ops[|e.ops| - 1], newId, s, s.conflicts[i].op)
  {
    KeepLocalLeaves(s, i, blocked);
    EditIsSent(Resolve(s, i, KeepLocal, blocked).state, newId);
  }

  lemma SentIsTaken(last: SkillOp, newId: Id, s: PathState, op: SkillOp, t: PathState, device: Device, seqNo: int)
    requires Publishes(last, newId, s, op) && IsFresh(newId, s, op, t)
    requires HashOf(t.file) == op.contentHash && HashOf(s.file) != op.contentHash
    ensures var taken := Apply(t, device, seqNo, last, false, false);
            && HasEffect(taken, Wrote(newId)) && taken.state.file == s.file
            && (op.Upsert? ==> op.gen in taken.state.retiredUps)
  {
    ImportTouchesFileIff(t, device, seqNo, last, false, false);
    ImportAdoptsIff(t, device, seqNo, last, false, false);
  }

  // Main result: keep_local keeps the file and makes it the successor of the remote
  // change: the next export publishes it, and whoever holds the remote content of
  // that generation (or, after a delete, no file) takes it over.
  lemma KeepLocalWins(s: PathState, i: nat, blocked: bool, newId: Id, t: PathState, device: Device, seqNo: int)
    requires Inv(s) && IsOpen(s, i) && s.file.Some? && HashOf(s.file) != s.conflicts[i].op.contentHash
    requires HashOf(t.file) == s.conflicts[i].op.contentHash && IsFresh(newId, s, s.conflicts[i].op, t)
    ensures var kept := Resolve(s, i, KeepLocal, blocked);
            && kept.Done? && kept.state.file == s.file
            && i < |kept.state.conflicts| && kept.state.conflicts[i].status == Resolved(true)
            && var e := Export(kept.state, false, newId);
               && e.Exported? && |e.ops| > 0
               && var taken := Apply(t, device, seqNo, e.ops[|e.ops| - 1], false, false);
                  && HasEffect(taken, Wrote(newId)) && taken.state.file == s.file
                  && (s.conflicts[i].op.Upsert? ==> s.conflicts[i].op.gen in taken.state.retiredUps)
  {
    KeptIsSent(s, i, blocked, newId, t);
    var e := Export(Resolve(s, i, KeepLocal, blocked).state, false, newId);
    SentIsTaken(e.ops[|e.ops| - 1], newId, s, s.conflicts[i].op, t, device, seqNo);
  }
}
