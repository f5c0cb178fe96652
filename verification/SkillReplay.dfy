// Log replay. One author edits, deletes and re-creates a skill file and exports
// between any of these; a peer that edits nothing applies what was exported.
module SkillReplay {
  import opened Options
  import opened SkillTypes
  import opened SkillInvariants

  // The author leaves the file in some state and then exports.
  datatype Round = Round(file: Option<Content>, full: bool, newId: Id)

  function ExportRound(a: PathState, r: Round): ExportResult {
    Export(a.(file := r.file), r.full, r.newId)
  }

  // The author's state and everything published, over a whole history.
  function Author(a: PathState, rounds: seq<Round>): ExportResult
    decreases |rounds|
  {
    if rounds == [] then Exported(a, [])
    else
      var e := ExportRound(a, rounds[0]);
      if e.NoGeneration? then e
      else
        var rest := Author(e.state, rounds[1..]);
        if rest.NoGeneration? then rest else Exported(rest.state, e.ops + rest.ops)
  }

  predicate FreshRounds(a: PathState, rounds: seq<Round>)
    decreases |rounds|
  {
    rounds == [] ||
    (rounds[0].newId !in Known(a) &&
     (ExportRound(a, rounds[0]).Exported? ==> FreshRounds(ExportRound(a, rounds[0]).state, rounds[1..])))
  }

  // The peer's state, or nothing when an operation is refused or conflicts.
  function Replay(p: PathState, device: Device, seqNo: int, ops: seq<SkillOp>): Option<PathState>
    decreases |ops|
  {
    if ops == [] then Some(p)
    else
      var r := Apply(p, device, seqNo, ops[0], false, false);
      if r.Rejected? || r.effect.Conflicted? then None else Replay(r.state, device, seqNo, ops[1..])
  }

  // A device that has imported nothing, just after an export.
  predicate Solo(a: PathState) {
    && Inv(a)
    && a.relay.None? && a.pendingTombs == map[] && a.conflicts == []
    && a.manifest == (if a.file.Some? then Some(Digest(a.file.value)) else None)
    && (a.gen.Some? <==> a.file.Some?)
    && (a.gen.Some? ==> a.gen.value !in a.retiredUps && a.tombs == map[])
  }

  // The peer agrees on everything but what it has still to relay itself.
  predicate Synced(a: PathState, p: PathState) {
    && p.file == a.file && p.manifest == a.manifest && p.gen == a.gen
    && p.tombs == a.tombs && p.retiredTombs == a.retiredTombs && p.retiredUps == a.retiredUps
    && p.conflicts == [] && Inv(p)
  }

  lemma ReplayAppend(p: PathState, device: Device, seqNo: int, xs: seq<SkillOp>, ys: seq<SkillOp>)
    ensures Replay(p, device, seqNo, xs + ys) ==
            (var q := Replay(p, device, seqNo, xs); if q.None? then None else Replay(q.value, device, seqNo, ys))
    decreases |xs|
  {
    if xs == [] {
      assert xs + ys == ys;
    } else {
      assert (xs + ys)[1..] == xs[1..] + ys;
      var r := Apply(p, device, seqNo, xs[0], false, false);
      if !(r.Rejected? || r.effect.Conflicted?) {
        ReplayAppend(r.state, device, seqNo, xs[1..], ys);
      }
    }
  }

  lemma SupersedingNothing(p: PathState, device: Device, seqNo: int, bases: set<Id>)
    requires p.conflicts == []
    ensures SupersedeOlder(p, device, seqNo) == p && SupersedeTargeted(p, bases) == p
  {
  }

  lemma DueIsKnown(a: PathState, r: Round)
    requires Solo(a) && r.newId !in Known(a)
    ensures var s := a.(file := r.file);
            var due: map<Id, Target> := Due(s, r.full, r.newId);
            var d := ExportDelete(s, r.full, r.newId);
            && d.Exported?
            && (due != map[] ==> d.ops == [DeleteOp(due, d.state.retiredUps)] && Parses(d.ops[0]))
            && Bases(due) <= d.state.retiredUps
            && due.Keys !! a.retiredTombs
            && (forall id | id in due :: due[id].baseHash != Missing)
  {
    var due := Due(a.(file := r.file), r.full, r.newId);
    if due != map[] {
      assert FirstId(due) in due;
    }
  }

  // A tombstone just made removes the peer's copy too.
  lemma ReplayVanished(a: PathState, p: PathState, device: Device, seqNo: int, r: Round)
    requires Solo(a) && Synced(a, p) && r.newId !in Known(a) && Vanished(a.(file := r.file))
    ensures var d := ExportDelete(a.(file := r.file), r.full, r.newId);
            && d.Exported? && |d.ops| == 1
            && var q := Apply(p, device, seqNo, d.ops[0], false, false);
               && q.Applied? && q.effect == Removed
               && Synced(d.state.(manifest := None, gen := None), q.state)
  {
    var s := a.(file := r.file);
    var d := ExportDelete(s, r.full, r.newId);
    var due: map<Id, Target> := Due(s, r.full, r.newId);
    DueIsKnown(a, r);
    assert r.newId in due && due[r.newId] == Target(a.gen.value, a.manifest.value);
    assert a.gen.value in Bases(due);
    var op := d.ops[0];
    ApplyDeleteKeepsInv(p, device, seqNo, op, false, false);
    SupersedingNothing(p, device, seqNo, {});
    var p1 := RetireUps(p, op.retiredUps + Bases(due));
    SupersedingNothing(p1, device, seqNo, Bases(due));
    assert p1.retiredUps == d.state.retiredUps;
    assert due - p1.retiredTombs == due;
    assert NewlySeen(Forget(p1.(file := None)), due) == map[r.newId := due[r.newId]];
  }

  // Older tombstones, published again by a full resync, are all known to the peer.
  lemma ReplayKnownDelete(a: PathState, p: PathState, device: Device, seqNo: int, r: Round)
    requires Solo(a) && Synced(a, p) && r.newId !in Known(a) && !Vanished(a.(file := r.file))
    ensures var d := ExportDelete(a.(file := r.file), r.full, r.newId);
            && d.Exported? && d.state == a.(file := r.file)
            && Replay(p, device, seqNo, d.ops) == Some(p)
  {
    var s := a.(file := r.file);
    var d := ExportDelete(s, r.full, r.newId);
    var due: map<Id, Target> := Due(s, r.full, r.newId);
    DueIsKnown(a, r);
    if due != map[] {
      var op := d.ops[0];
      SupersedingNothing(p, device, seqNo, {});
      assert RetireUps(p, op.retiredUps + Bases(due)) == p;
      SupersedingNothing(p, device, seqNo, Bases(due));
      assert due - p.retiredTombs == due;
      assert NewlySeen(p, due) == map[];
      assert p.tombs + map[] == p.tombs && p.pendingTombs + map[] == p.pendingTombs;
    }
  }

  // The author's deletes: the tombstone just made, and on a full resync the
  // older ones the peer already knows.
  lemma ReplayDelete(a: PathState, p: PathState, device: Device, seqNo: int, r: Round)
    requires Solo(a) && Synced(a, p) && r.newId !in Known(a)
    ensures var d := ExportDelete(a.(file := r.file), r.full, r.newId);
            && d.Exported?
            && Replay(p, device, seqNo, d.ops).Some?
            && var q := Replay(p, device, seqNo, d.ops).value;
               if r.file.Some? then q == p
               else Synced(d.state.(manifest := None, gen := None), q)
  {
    if Vanished(a.(file := r.file)) {
      ReplayVanished(a, p, device, seqNo, r);
    } else {
      ReplayKnownDelete(a, p, device, seqNo, r);
    }
  }

  lemma AuthorUpsert(a: PathState, r: Round)
    requires Solo(a) && r.newId !in Known(a) && r.file.Some?
    ensures var d := ExportDelete(a.(file := r.file), r.full, r.newId);
            && d.Exported? && d.state == a.(file := r.file)
            && Solo(ExportUpsert(d.state, r.full, r.newId).state)
  {
    ExportUpsertKeepsInv(a.(file := r.file), r.full, r.newId);
  }

  lemma ReplayUpsert(a: PathState, p: PathState, device: Device, seqNo: int, r: Round)
    requires Solo(a) && Synced(a, p) && r.newId !in Known(a) && r.file.Some?
    ensures var u := ExportUpsert(a.(file := r.file), r.full, r.newId);
            && u.Exported?
            && Replay(p, device, seqNo, u.ops).Some?
            && Synced(u.state, Replay(p, device, seqNo, u.ops).value)
  {
    var s := a.(file := r.file);
    var u := ExportUpsert(s, r.full, r.newId);
    if u.ops != [] {
      var op := u.ops[0];
      assert u.ops == [op];
      SupersedingNothing(p, device, seqNo, {});
      ApplyUpsertKeepsInv(p, device, seqNo, op, false, false);
      if LocallyChanged(s) {
        ReplayChange(a, p, device, seqNo, r, op);
      } else {
        assert p.tombs - op.retiredTombs == p.tombs;
      }
    }
  }

  // A new generation on top of what the peer holds: its base (or, on a full
  // resync, its recovery base) is the peer's content.
  lemma ReplayChange(a: PathState, p: PathState, device: Device, seqNo: int, r: Round, op: SkillOp)
    requires Solo(a) && Synced(a, p) && r.newId !in Known(a) && r.file.Some?
    requires LocallyChanged(a.(file := r.file))
    requires ExportUpsert(a.(file := r.file), r.full, r.newId).ops == [op]
    ensures var t := ExportUpsert(a.(file := r.file), r.full, r.newId).state;
            var q := Apply(p, device, seqNo, op, false, false);
            && q.Applied? && q.effect == Wrote(r.newId) && q.state.file == t.file && q.state.manifest == t.manifest
            && q.state.gen == t.gen && q.state.tombs == t.tombs && q.state.retiredTombs == t.retiredTombs
            && q.state.retiredUps == t.retiredUps && q.state.conflicts == []
  {
    SupersedingNothing(p, device, seqNo, {});
    TargetsAreRetired(p);
    assert RetireUps(p, op.retiredUps).retiredUps == op.retiredUps;
    assert p.tombs - op.retiredTombs == map[];
  }

  lemma ReplayRound(a: PathState, p: PathState, device: Device, seqNo: int, r: Round)
    requires Solo(a) && Synced(a, p) && r.newId !in Known(a)
    ensures var e := ExportRound(a, r);
            && e.Exported? && Solo(e.state)
            && Replay(p, device, seqNo, e.ops).Some?
            && Synced(e.state, Replay(p, device, seqNo, e.ops).value)
  {
    ReplayDelete(a, p, device, seqNo, r);
    var d := ExportDelete(a.(file := r.file), r.full, r.newId);
    if r.file.Some? {
      AuthorUpsert(a, r);
      ReplayUpsert(a, p, device, seqNo, r);
      ReplayAppend(p, device, seqNo, d.ops, ExportUpsert(d.state, r.full, r.newId).ops);
    } else {
      ExportKeepsInv(a.(file := r.file), r.full, r.newId);
    }
  }

  // Main result: replaying the log in order never conflicts and leaves the peer
  // with the author's file, generation, tombstones and retired sets.
  lemma {:induction false} ReplayRefinesAuthor(a: PathState, p: PathState, device: Device, seqNo: int,
                                               rounds: seq<Round>)
    requires Solo(a) && Synced(a, p) && FreshRounds(a, rounds)
    ensures var e := Author(a, rounds);
            && e.Exported? && Solo(e.state)
            && Replay(p, device, seqNo, e.ops).Some?
            && Synced(e.state, Replay(p, device, seqNo, e.ops).value)
    decreases |rounds|
  {
    if rounds != [] {
      ReplayRound(a, p, device, seqNo, rounds[0]);
      var e := ExportRound(a, rounds[0]);
      var q := Replay(p, device, seqNo, e.ops).value;
      ReplayRefinesAuthor(e.state, q, device, seqNo, rounds[1..]);
      ReplayAppend(p, device, seqNo, e.ops, Author(e.state, rounds[1..]).ops);
    }
  }

  // The peer may export at any time: relaying changes nothing the author sees.
  lemma RelayingKeepsSync(a: PathState, p: PathState, full: bool, newId: Id)
    requires Solo(a) && Synced(a, p)
    ensures var e := Export(p, full, newId); e.Exported? && Synced(a, e.state)
  {
    var d := ExportDelete(p, full, newId);
    assert Inv(d.state);
  }

  // ----- late duplicates ---------------------------------------------------

  // The row already contains all an operation has to say.
  predicate Absorbed(s: PathState, op: SkillOp) {
    && Parses(op) && op.retiredUps <= s.retiredUps
    && match op
       case Upsert(gen, _, contentHash, _, _, retiredTombs, _) =>
         && retiredTombs <= s.retiredTombs
         && (if s.gen == Some(gen) then s.manifest == Some(contentHash) else gen in s.retiredUps)
       case Delete(_, _, tombs, _) =>
         && Bases(tombs) <= s.retiredUps
         && (forall id | id in tombs ::
               id in s.retiredTombs || (id in s.tombs && s.gen.None? && s.manifest.None? && s.file.None?))
  }

  lemma AbsorbedChangesNothing(p: PathState, device: Device, seqNo: int, op: SkillOp)
    requires Inv(p) && p.conflicts == [] && Absorbed(p, op)
    ensures var r := Apply(p, device, seqNo, op, false, false);
            r.Applied? && r.state == p && (r.effect.Ignored? || r.effect.Noted?)
  {
    SupersedingNothing(p, device, seqNo, {});
    if op.Upsert? {
      assert RetireUps(p, op.retiredUps) == p;
      assert p.tombs - op.retiredTombs == p.tombs && p.pendingTombs - op.retiredTombs == p.pendingTombs;
      assert RetireTombs(p, op.retiredTombs) == p;
    } else {
      assert RetireUps(p, op.retiredUps + Bases(op.tombs)) == p;
      SupersedingNothing(p, device, seqNo, Bases(op.tombs));
      var live := op.tombs - p.retiredTombs;
      assert NewlySeen(p, live) == map[];
      assert p.tombs + map[] == p.tombs && p.pendingTombs + map[] == p.pendingTombs;
      if live != map[] {
        var id :| id in live;
        assert p.gen.None?;
      }
    }
  }

  lemma RoundKeepsAbsorbed(a: PathState, r: Round, op: SkillOp)
    requires Solo(a) && r.newId !in Known(a) && Absorbed(a, op)
    ensures ExportRound(a, r).Exported? ==> Absorbed(ExportRound(a, r).state, op)
  {
  }

  lemma RoundIsAbsorbed(a: PathState, r: Round)
    requires Solo(a) && r.newId !in Known(a) && ExportRound(a, r).Exported?
    ensures forall op | op in ExportRound(a, r).ops :: Absorbed(ExportRound(a, r).state, op)
  {
    var s := a.(file := r.file);
    var d := ExportDelete(s, r.full, r.newId);
    var due: map<Id, Target> := Due(s, r.full, r.newId);
    DueIsKnown(a, r);
    if due != map[] {
      assert Absorbed(ExportRound(a, r).state, d.ops[0]);
    }
    if r.file.Some? {
      var u := ExportUpsert(d.state, r.full, r.newId);
      assert u.ops != [] ==> Absorbed(ExportRound(a, r).state, u.ops[0]);
    }
  }

  lemma {:induction false} LogIsAbsorbed(a: PathState, rounds: seq<Round>, earlier: set<SkillOp>)
    requires Solo(a) && FreshRounds(a, rounds) && (forall op | op in earlier :: Absorbed(a, op))
    ensures var e := Author(a, rounds);
            e.Exported? && forall op | op in earlier || op in e.ops :: Absorbed(e.state, op)
    decreases |rounds|
  {
    if rounds != [] {
      ReplayRound(a, a, 0, 0, rounds[0]);
      var e := ExportRound(a, rounds[0]);
      forall op | op in earlier
        ensures Absorbed(e.state, op)
      {
        RoundKeepsAbsorbed(a, rounds[0], op);
      }
      RoundIsAbsorbed(a, rounds[0]);
      var more := earlier + (set op | op in e.ops);
      LogIsAbsorbed(e.state, rounds[1..], more);
    }
  }

  // Main result: once the log has been replayed, any operation of it that arrives
  // again, at any later moment, changes nothing and records no conflict.
  lemma LateDuplicatesAreHarmless(p: PathState, device: Device, seqNo: int, rounds: seq<Round>, op: SkillOp)
    requires FreshRounds(BLANK, rounds)
    requires Author(BLANK, rounds).Exported? && op in Author(BLANK, rounds).ops
    requires Replay(BLANK, device, seqNo, Author(BLANK, rounds).ops) == Some(p)
    ensures var r := Apply(p, device, seqNo, op, false, false);
            r.Applied? && r.state == p && !r.effect.Conflicted?
  {
    ReplayRefinesAuthor(BLANK, BLANK, device, seqNo, rounds);
    LogIsAbsorbed(BLANK, rounds, {});
    AbsorbedChangesNothing(p, device, seqNo, op);
  }
}
