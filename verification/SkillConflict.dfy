// How conflicts come to an end.
module SkillConflicts {
  import opened SkillTypes
  import opened SkillInvariants
  import opened SkillImports

  // A later operation of the same author, or a delete of the very generation.
  predicate IsOvertaken(c: Conflict, device: Device, seqNo: int, op: SkillOp) {
    || (c.device == device && c.seqNo < seqNo)
    || (op.Delete? && c.op.Upsert? && exists id | id in op.tombs :: op.tombs[id].baseGen == c.op.gen)
  }

  // Main result: an import supersedes exactly the pending conflicts that it overtakes
  // and leaves all others alone; it adds its own at the end, and only when it cannot
  // be reconciled.
  lemma ImportSupersedesIff(s: PathState, device: Device, seqNo: int, op: SkillOp, force: bool, blocked: bool)
    requires Apply(s, device, seqNo, op, force, blocked).Applied?
    ensures var r := Apply(s, device, seqNo, op, force, blocked);
            && |r.state.conflicts| == |s.conflicts| + (if r.effect.Conflicted? then 1 else 0)
            && (forall i | 0 <= i < |s.conflicts| ::
                  r.state.conflicts[i] ==
                  if s.conflicts[i].status.Pending? && IsOvertaken(s.conflicts[i], device, seqNo, op)
                  then s.conflicts[i].(status := Superseded) else s.conflicts[i])
            && (r.effect.Conflicted? ==> r.state.conflicts[|s.conflicts|] == Conflict(device, seqNo, op, Pending))
  {
    var r := Apply(s, device, seqNo, op, force, blocked);
    if op.Upsert? {
      UpsertOvertakes(s, device, seqNo, op, force, blocked);
    } else {
      DeleteOvertakes(s, device, seqNo, op, force, blocked);
    }
  }

  lemma UpsertOvertakes(s: PathState, device: Device, seqNo: int, op: SkillOp, force: bool, blocked: bool)
    requires op.Upsert? && Apply(s, device, seqNo, op, force, blocked).Applied?
    ensures var r, s1 := Apply(s, device, seqNo, op, force, blocked), SupersedeOlder(s, device, seqNo);
            r.state.conflicts ==
            s1.conflicts + if r.effect.Conflicted? then [Conflict(device, seqNo, op, Pending)] else []
  {
  }

  lemma DeleteOvertakes(s: PathState, device: Device, seqNo: int, op: SkillOp, force: bool, blocked: bool)
    requires op.Delete? && Apply(s, device, seqNo, op, force, blocked).Applied?
    ensures var r, s1 := Apply(s, device, seqNo, op, force, blocked), Prepared(s, device, seqNo, op);
            r.state.conflicts ==
            s1.conflicts + if r.effect.Conflicted? then [Conflict(device, seqNo, op, Pending)] else []
    ensures forall g :: g in Bases(op.tombs) <==> exists id | id in op.tombs :: op.tombs[id].baseGen == g
  {
  }

  // ----- resolutions ---------------------------------------------------------------------

  // The same author has sent something later that could not be reconciled either.
  ghost predicate HasLater(s: PathState, i: nat)
    requires i < |s.conflicts|
  {
    exists j :: 0 <= j < |s.conflicts| && s.conflicts[j].device == s.conflicts[i].device
                && s.conflicts[j].seqNo > s.conflicts[i].seqNo
  }

  ghost predicate OnlyMarks(s: PathState, t: PathState, i: nat, status: Status) {
    && i < |s.conflicts| && t == s.(conflicts := t.conflicts) && |t.conflicts| == |s.conflicts|
    && t.conflicts[i] == s.conflicts[i].(status := status)
    && forall j | 0 <= j < |s.conflicts| && j != i :: t.conflicts[j] == s.conflicts[j]
  }

  // Main result: only a pending conflict can be settled, and one that has a later one
  // beside it is marked as superseded and nothing else, whatever the user chooses.
  lemma ResolveIsOutdatedIff(s: PathState, i: nat, choice: Choice, blocked: bool)
    requires Inv(s)
    ensures var r := Resolve(s, i, choice, blocked);
            && (r.NotFound? <==> i >= |s.conflicts| || !s.conflicts[i].status.Pending?)
            && (r.Outdated? <==> i < |s.conflicts| && s.conflicts[i].status.Pending? && HasLater(s, i))
            && (r.Outdated? ==> OnlyMarks(s, r.state, i, Superseded))
  {
  }

  // What keep_local leaves of the row besides the file.
  lemma KeepLocalKeeps(s: PathState, i: nat, blocked: bool)
    requires Inv(s) && IsOpen(s, i)
    ensures var op, r := s.conflicts[i].op, Resolve(s, i, KeepLocal, blocked);
            var ids := if op.Upsert? then op.retiredTombs else op.tombs.Keys;
            && r.Done? && r.state.tombs == s.tombs - ids && r.state.retiredTombs == s.retiredTombs + ids
            && r.state.pendingTombs == s.pendingTombs - ids
            && |r.state.conflicts| == |s.conflicts|
            && (forall j | 0 <= j < |s.conflicts| && j != i :: r.state.conflicts[j] == s.conflicts[j])
  {
  }

  // Main result: a delete that was decided against stays decided. Whatever has
  // happened since, when it arrives again, from whomever and with however many of its
  // tombstones, it neither touches the file nor asks again.
  lemma KeptDeleteStaysSettled(s: PathState, i: nat, blocked: bool, later: seq<Event>, device: Device, seqNo: int,
                               again: SkillOp, force: bool, blocked': bool)
    requires Inv(s) && IsOpen(s, i) && s.conflicts[i].op.Delete?
    requires FreshRun(Resolve(s, i, KeepLocal, blocked).state, later)
    requires again.Delete? && Parses(again) && again.tombs.Keys <= s.conflicts[i].op.tombs.Keys
    ensures var now := Run(Resolve(s, i, KeepLocal, blocked).state, later);
            var r := Apply(now, device, seqNo, again, force, blocked');
            HasEffect(r, Ignored) && r.state.file == now.file && r.state.gen == now.gen
  {
    var kept := Resolve(s, i, KeepLocal, blocked).state;
    KeepLocalKeeps(s, i, blocked);
    assert Step(s, Settle(i, KeepLocal, blocked)).state == kept;
    StepKeepsInv(s, Settle(i, KeepLocal, blocked));
    RunKeepsInv(kept, later);
    var now := Run(kept, later);
    ImportTouchesFileIff(now, device, seqNo, again, force, blocked');
    DeleteForgetsIff(now, device, seqNo, again, force, blocked');
    LiveBases(now, again, now.retiredTombs);
  }
}
