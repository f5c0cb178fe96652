// What every step keeps, and what no run can do, whatever the peers send and in
// whatever order, with whatever repetitions, their operations arrive.
module SkillInvariants {
  import opened Options
  import opened SkillTypes

  datatype Event =
    | Edit(file: Option<Content>)
    | Publish(full: bool, newId: Id)
    | Import(device: Device, seqNo: int, op: SkillOp, blocked: bool)
    | Settle(i: nat, choice: Choice, blocked: bool)

  datatype StepResult = StepResult(state: PathState, effect: Effect)

  // A refused operation, resolution or export leaves the row as it was.
  function Step(s: PathState, e: Event): StepResult {
    match e
    case Edit(file) => StepResult(s.(file := file), Ignored)
    case Publish(full, newId) =>
      var r := Export(s, full, newId);
      if r.NoGeneration? then StepResult(s, Ignored) else StepResult(r.state, Ignored)
    case Import(device, seqNo, op, blocked) =>
      var r := Apply(s, device, seqNo, op, false, blocked);
      if r.Rejected? then StepResult(s, Ignored) else StepResult(r.state, r.effect)
    case Settle(i, choice, blocked) =>
      var r := Resolve(s, i, choice, blocked);
      match r
      case Done(state, effect) => StepResult(state, effect)
      case Outdated(state) => StepResult(state, Ignored)
      case _ => StepResult(s, Ignored)
  }

  function Run(s: PathState, events: seq<Event>): PathState
    decreases |events|
  {
    if events == [] then s else Run(Step(s, events[0]).state, events[1..])
  }

  function Effects(s: PathState, events: seq<Event>): seq<Effect>
    decreases |events|
  {
    if events == [] then []
    else
      var r := Step(s, events[0]);
      [r.effect] + Effects(r.state, events[1..])
  }

  function Known(s: PathState): set<Id> {
    (if s.gen.Some? then {s.gen.value} else {}) + s.retiredUps + s.tombs.Keys + s.retiredTombs
  }

  // The ids an export draws are new to the device.
  predicate FreshAt(s: PathState, e: Event) {
    e.Publish? ==> e.newId !in Known(s)
  }

  predicate FreshRun(s: PathState, events: seq<Event>)
    decreases |events|
  {
    events == [] || (FreshAt(s, events[0]) && FreshRun(Step(s, events[0]).state, events[1..]))
  }

  // ----- bookkeeping -------------------------------------------------------

  predicate Inv(s: PathState) {
    && (s.gen.Some? ==> s.manifest.Some?)
    && (s.manifest == Some(Missing) <==> s.manifest.Some? && s.gen.None?)
    && (s.relay.Some? ==> s.gen == Some(s.relay.value.gen))
    && (forall id | id in s.pendingTombs :: id in s.tombs && s.tombs[id] == s.pendingTombs[id])
    && s.tombs.Keys !! s.retiredTombs
    && (forall id | id in s.tombs :: s.tombs[id].baseHash != Missing && s.tombs[id].baseGen in s.retiredUps)
    && (forall i | 0 <= i < |s.conflicts| :: Parses(s.conflicts[i].op))
  }

  // A delete generation is unknown, then active (with a fixed target), then
  // retired; a retired upsert generation stays retired.
  predicate Advances(s: PathState, t: PathState) {
    && s.retiredUps <= t.retiredUps
    && s.retiredTombs <= t.retiredTombs
    && (forall id | id in s.tombs :: (id in t.tombs && t.tombs[id] == s.tombs[id]) || id in t.retiredTombs)
  }

  lemma NotingKeepsInv(start: PathState, s: PathState, seen: map<Id, Target>)
    requires Inv(s) && Advances(start, s) && Bases(seen) <= s.retiredUps
    ensures Inv(NoteTombs(s, seen)) && Advances(start, NoteTombs(s, seen))
  {
    var news := NewlySeen(s, seen);
    assert forall id | id in news :: seen[id].baseGen in Bases(seen);
  }

  lemma SupersedingKeepsInv(s: PathState, device: Device, seqNo: int, retired: set<Id>, bases: set<Id>)
    requires Inv(s)
    ensures var s1 := RetireUps(SupersedeOlder(s, device, seqNo), retired);
            && Inv(s1) && Advances(s, s1)
            && Inv(SupersedeTargeted(s1, bases)) && Advances(s, SupersedeTargeted(s1, bases))
  {
    var s1 := RetireUps(SupersedeOlder(s, device, seqNo), retired);
    var s2 := SupersedeTargeted(s1, bases);
    assert forall i | 0 <= i < |s1.conflicts| :: s1.conflicts[i].op == s.conflicts[i].op;
    assert forall i | 0 <= i < |s2.conflicts| :: s2.conflicts[i].op == s1.conflicts[i].op;
  }

  lemma RecordingKeepsInv(start: PathState, s: PathState, device: Device, seqNo: int, op: SkillOp)
    requires Inv(s) && Advances(start, s) && Parses(op)
    ensures Inv(Record(s, device, seqNo, op)) && Advances(start, Record(s, device, seqNo, op))
  {
  }

  lemma AdvancesTransitive(s: PathState, t: PathState, u: PathState)
    requires Advances(s, t) && Advances(t, u)
    ensures Advances(s, u)
  {
  }

  // The row an import starts from once it has retired and superseded.
  function Prepared(s: PathState, device: Device, seqNo: int, op: SkillOp): PathState
    requires op.Delete?
  {
    SupersedeTargeted(RetireUps(SupersedeOlder(s, device, seqNo), op.retiredUps + Bases(op.tombs)), Bases(op.tombs))
  }

  lemma DeleteOutcomes(s: PathState, device: Device, seqNo: int, op: SkillOp, force: bool, blocked: bool)
    requires op.Delete?
    ensures var s1 := Prepared(s, device, seqNo, op);
            var live := op.tombs - s1.retiredTombs;
            var r := ApplyDelete(s, device, seqNo, op, force, blocked);
            r.Applied? && r.state in {s1, NoteTombs(s1, live), NoteTombs(Forget(s1), live),
                                      NoteTombs(Forget(s1.(file := None)), live), Record(s1, device, seqNo, op)}
  {
  }

  lemma ApplyDeleteKeepsInv(s: PathState, device: Device, seqNo: int, op: SkillOp, force: bool, blocked: bool)
    requires Inv(s) && op.Delete? && Parses(op)
    ensures var r := ApplyDelete(s, device, seqNo, op, force, blocked);
            r.Applied? && Inv(r.state) && Advances(s, r.state)
  {
    DeleteOutcomes(s, device, seqNo, op, force, blocked);
    DeleteOutcomesKeepInv(s, device, seqNo, op);
  }

  lemma DeleteOutcomesKeepInv(s: PathState, device: Device, seqNo: int, op: SkillOp)
    requires Inv(s) && op.Delete? && Parses(op)
    ensures var s1 := Prepared(s, device, seqNo, op);
            var live := op.tombs - s1.retiredTombs;
            forall t | t in {s1, NoteTombs(s1, live), NoteTombs(Forget(s1), live),
                             NoteTombs(Forget(s1.(file := None)), live), Record(s1, device, seqNo, op)} ::
              Inv(t) && Advances(s, t)
  {
    var s1 := Prepared(s, device, seqNo, op);
    SupersedingKeepsInv(s, device, seqNo, op.retiredUps + Bases(op.tombs), Bases(op.tombs));
    var live := op.tombs - s1.retiredTombs;
    assert Bases(live) <= Bases(op.tombs);
    NotingKeepsInv(s, s1, live);
    NotingKeepsInv(s, Forget(s1), live);
    NotingKeepsInv(s, Forget(s1.(file := None)), live);
    RecordingKeepsInv(s, s1, device, seqNo, op);
  }

  lemma RetiringKeepsInv(s: PathState, ids: set<Id>)
    requires Inv(s)
    ensures Inv(RetireTombs(s, ids)) && Advances(s, RetireTombs(s, ids))
  {
  }

  lemma AdoptingKeepsInv(s: PathState, op: SkillOp)
    requires Inv(s) && op.Upsert? && Parses(op)
    ensures Inv(Adopt(s, op)) && Advances(s, Adopt(s, op))
  {
  }

  lemma ApplyUpsertKeepsInv(s: PathState, device: Device, seqNo: int, op: SkillOp, force: bool, blocked: bool)
    requires Inv(s) && op.Upsert? && Parses(op)
    ensures var r := ApplyUpsert(s, device, seqNo, op, force, blocked);
            r.Applied? ==> Inv(r.state) && Advances(s, r.state)
  {
    var s1 := RetireUps(SupersedeOlder(s, device, seqNo), op.retiredUps);
    SupersedingKeepsInv(s, device, seqNo, op.retiredUps, {});
    RecordingKeepsInv(s1, s1, device, seqNo, op);
    RetiringKeepsInv(s1, op.retiredTombs);
    forall t | t == s1 || t == s1.(file := Some(op.content))
      ensures Inv(RetireTombs(Adopt(t, op), op.retiredTombs))
                && Advances(s1, RetireTombs(Adopt(t, op), op.retiredTombs))
    {
      AdoptingKeepsInv(t, op);
      RetiringKeepsInv(Adopt(t, op), op.retiredTombs);
    }
    var r := ApplyUpsert(s, device, seqNo, op, force, blocked);
    if r.Applied? {
      AdvancesTransitive(s, s1, r.state);
    }
  }

  lemma ExportDeleteKeepsInv(s: PathState, full: bool, newId: Id)
    requires Inv(s) && newId !in Known(s)
    ensures var r := ExportDelete(s, full, newId);
            r.Exported? ==> Advances(s, r.state) && (s.file.Some? ==> Inv(r.state))
                            && Inv(r.state.(manifest := None, gen := None, relay := None))
                            && (s.file.None? ==> r.state.relay.None?)
  {
  }

  lemma ExportUpsertKeepsInv(s: PathState, full: bool, newId: Id)
    requires Inv(s) && s.file.Some?
    ensures var r := ExportUpsert(s, full, newId); r.Exported? && Inv(r.state) && Advances(s, r.state)
  {
    RetiringKeepsInv(s, s.tombs.Keys);
  }

  lemma ExportKeepsInv(s: PathState, full: bool, newId: Id)
    requires Inv(s) && newId !in Known(s)
    ensures var r := Export(s, full, newId); r.Exported? ==> Inv(r.state) && Advances(s, r.state)
  {
    ExportDeleteKeepsInv(s, full, newId);
    var d := ExportDelete(s, full, newId);
    if d.Exported? && s.file.Some? {
      ExportUpsertKeepsInv(d.state, full, newId);
      AdvancesTransitive(s, d.state, ExportUpsert(d.state, full, newId).state);
    }
  }

  lemma MarkingKeepsInv(s: PathState, i: nat, status: Status)
    requires Inv(s) && i < |s.conflicts|
    ensures Inv(Mark(s, i, status)) && Advances(s, Mark(s, i, status))
  {
  }

  lemma KeepLocalKeepsInv(s: PathState, op: SkillOp)
    requires Inv(s) && Parses(op)
    ensures var s1 := RetireTombs(s, if op.Upsert? then op.retiredTombs else op.tombs.Keys);
            var s2 := Rebase(s1, op.contentHash, if op.Upsert? then Some(op.gen) else None);
            Inv(s2) && Advances(s, s2) && s2.conflicts == s.conflicts
  {
    RetiringKeepsInv(s, if op.Upsert? then op.retiredTombs else op.tombs.Keys);
  }

  lemma UseRemoteKeepsInv(s: PathState, i: nat, blocked: bool)
    requires Inv(s) && i < |s.conflicts|
    ensures var applied := Apply(s, s.conflicts[i].device, 0, s.conflicts[i].op, true, blocked);
            applied.Applied? ==> Inv(applied.state) && Advances(s, applied.state) && i < |applied.state.conflicts|
  {
    var c := s.conflicts[i];
    if c.op.Delete? {
      ApplyDeleteKeepsInv(s, c.device, 0, c.op, true, blocked);
    } else {
      ApplyUpsertKeepsInv(s, c.device, 0, c.op, true, blocked);
    }
  }

  lemma ResolveRemoteKeepsInv(s: PathState, i: nat, blocked: bool)
    requires Inv(s) && i < |s.conflicts| && Resolve(s, i, UseRemote, blocked).Done?
    ensures var r := Resolve(s, i, UseRemote, blocked).state; Inv(r) && Advances(s, r)
  {
    UseRemoteKeepsInv(s, i, blocked);
    MarkingKeepsInv(Apply(s, s.conflicts[i].device, 0, s.conflicts[i].op, true, blocked).state, i, Resolved(false));
  }

  lemma ResolveLocalKeepsInv(s: PathState, i: nat, blocked: bool)
    requires Inv(s) && i < |s.conflicts| && Resolve(s, i, KeepLocal, blocked).Done?
    ensures var r := Resolve(s, i, KeepLocal, blocked).state; Inv(r) && Advances(s, r)
  {
    var op := s.conflicts[i].op;
    KeepLocalKeepsInv(s, op);
    var s1 := RetireTombs(s, if op.Upsert? then op.retiredTombs else op.tombs.Keys);
    MarkingKeepsInv(Rebase(s1, op.contentHash, if op.Upsert? then Some(op.gen) else None), i, Resolved(true));
  }

  lemma ResolveKeepsInv(s: PathState, i: nat, choice: Choice, blocked: bool)
    requires Inv(s)
    ensures var r := Resolve(s, i, choice, blocked);
            r.Done? || r.Outdated? ==> Inv(r.state) && Advances(s, r.state)
  {
    var r := Resolve(s, i, choice, blocked);
    if r.Outdated? {
      MarkingKeepsInv(s, i, Superseded);
    } else if r.Done? {
      match choice
      case UseRemote => ResolveRemoteKeepsInv(s, i, blocked);
      case KeepLocal => ResolveLocalKeepsInv(s, i, blocked);
    }
  }

  lemma StepKeepsInv(s: PathState, e: Event)
    requires Inv(s) && FreshAt(s, e)
    ensures Inv(Step(s, e).state) && Advances(s, Step(s, e).state)
  {
    match e
    case Edit(_) =>
    case Publish(full, newId) => ExportKeepsInv(s, full, newId);
    case Import(device, seqNo, op, blocked) =>
      if Parses(op) {
        if op.Delete? {
          ApplyDeleteKeepsInv(s, device, seqNo, op, false, blocked);
        } else {
          ApplyUpsertKeepsInv(s, device, seqNo, op, false, blocked);
        }
      }
    case Settle(i, choice, blocked) => ResolveKeepsInv(s, i, choice, blocked);
  }

  // Main result: the bookkeeping holds in every reachable state of a device.
  lemma {:induction false} RunKeepsInv(s: PathState, events: seq<Event>)
    requires Inv(s) && FreshRun(s, events)
    ensures Inv(Run(s, events)) && Advances(s, Run(s, events))
    decreases |events|
  {
    if events != [] {
      StepKeepsInv(s, events[0]);
      RunKeepsInv(Step(s, events[0]).state, events[1..]);
    }
  }

  lemma VanishedIsDue(s: PathState, full: bool, newId: Id)
    requires Vanished(s) && s.gen.Some?
    ensures newId in Due(s, full, newId)
  {
  }

  // An export with nothing to publish has nothing to save either.
  lemma IdleExportChangesNothing(s: PathState, full: bool, newId: Id)
    requires Inv(s)
    requires Export(s, full, newId).Exported? && Export(s, full, newId).ops == []
    ensures Export(s, full, newId).state == s
  {
    var d := ExportDelete(s, full, newId);
    if Vanished(s) && s.gen.Some? {
      VanishedIsDue(s, full, newId);
    }
    if s.file.Some? {
      var u := ExportUpsert(d.state, full, newId);
      assert |d.ops + u.ops| == |d.ops| + |u.ops|;
      assert d.state == s;
    }
  }

  // An import without the check against active tombstones.
  function ApplyUnguarded(s: PathState, device: Device, seqNo: int, op: SkillOp, force: bool, blocked: bool): Outcome {
    if !Parses(op) then Rejected
    else if op.Delete? then ApplyDelete(s, device, seqNo, op, force, blocked)
    else
      var s1 := RetireUps(SupersedeOlder(s, device, seqNo), op.retiredUps);
      var here := HashOf(s1.file);
      if s1.gen == Some(op.gen) then
        if s1.manifest != Some(op.contentHash) then Rejected else Applied(RetireTombs(s1, op.retiredTombs), Ignored)
      else if op.gen in s1.retiredUps then
        Applied(RetireTombs(s1, op.retiredTombs), Ignored)
      else if blocked && !force then
        Applied(Record(s1, device, seqNo, op), Conflicted)
      else if here == op.contentHash then
        Applied(RetireTombs(Adopt(s1, op), op.retiredTombs), Adopted(op.gen))
      else if force || here == op.baseHash || op.recovery == Some(here) then
        Applied(RetireTombs(Adopt(s1.(file := Some(op.content)), op), op.retiredTombs), Wrote(op.gen))
      else
        Applied(Record(s1, device, seqNo, op), Conflicted)
  }

  // The check against active tombstones never decides: in every reachable state
  // every import, forced or not, does the same without it.
  lemma TombstoneCheckNeverDecides(begin: PathState, events: seq<Event>, device: Device, seqNo: int, op: SkillOp,
                                   force: bool, blocked: bool)
    requires Inv(begin) && FreshRun(begin, events)
    ensures var s := Run(begin, events);
            Apply(s, device, seqNo, op, force, blocked) == ApplyUnguarded(s, device, seqNo, op, force, blocked)
  {
    RunKeepsInv(begin, events);
    var s := Run(begin, events);
    TargetsAreRetired(s);
  }

  lemma TargetsAreRetired(s: PathState)
    requires Inv(s)
    ensures Bases(s.tombs) <= s.retiredUps
  {
  }

  // ----- no resurrection ---------------------------------------------------

  // One step cannot write or adopt a retired generation, and can only change the
  // file by writing a generation that was not retired or by removing it.
  lemma ApplyRespectsRetired(s: PathState, device: Device, seqNo: int, op: SkillOp, force: bool, blocked: bool)
    ensures var r := Apply(s, device, seqNo, op, force, blocked);
            r.Applied? ==>
            && ((r.effect.Wrote? || r.effect.Adopted?) ==>
                  r.effect.gen !in s.retiredUps && r.state.gen == Some(r.effect.gen))
            && (r.state.file != s.file ==> r.effect.Wrote? || r.effect.Removed?)
            && (r.state.gen == s.gen || r.state.gen.None? || r.effect.Wrote? || r.effect.Adopted?)
            && s.retiredUps <= r.state.retiredUps
  {
  }

  ghost predicate RespectsRetired(s: PathState, effect: Effect, state: PathState) {
    && (effect.Wrote? || effect.Adopted? ==> effect.gen !in s.retiredUps && state.gen == Some(effect.gen))
    && (state.file != s.file ==> effect.Wrote? || effect.Removed?)
    && s.retiredUps <= state.retiredUps
  }

  lemma StepRespectsRetired(s: PathState, e: Event)
    requires !e.Edit?
    ensures RespectsRetired(s, Step(s, e).effect, Step(s, e).state)
  {
    match e
    case Publish(full, newId) => PublishRespectsRetired(s, full, newId);
    case Import(device, seqNo, op, blocked) => ApplyRespectsRetired(s, device, seqNo, op, false, blocked);
    case Settle(i, choice, blocked) => SettleRespectsRetired(s, i, choice, blocked);
  }

  lemma PublishRespectsRetired(s: PathState, full: bool, newId: Id)
    ensures var r := Step(s, Publish(full, newId)); RespectsRetired(s, r.effect, r.state)
  {
  }

  lemma SettleRespectsRetired(s: PathState, i: nat, choice: Choice, blocked: bool)
    ensures var r := Step(s, Settle(i, choice, blocked)); RespectsRetired(s, r.effect, r.state)
  {
    if i < |s.conflicts| {
      ApplyRespectsRetired(s, s.conflicts[i].device, 0, s.conflicts[i].op, true, blocked);
    }
  }

  // Main result: after a generation has been retired no import and no forced
  // resolution, however late or repeated, writes it or adopts it again.
  lemma {:induction false} NoResurrection(s: PathState, events: seq<Event>, gen: Id)
    requires gen in s.retiredUps
    ensures Wrote(gen) !in Effects(s, events) && Adopted(gen) !in Effects(s, events)
    ensures gen in Run(s, events).retiredUps
    decreases |events|
  {
    if events != [] {
      var r := Step(s, events[0]);
      if !events[0].Edit? {
        StepRespectsRetired(s, events[0]);
      }
      NoResurrection(r.state, events[1..], gen);
    }
  }

  // keep_local is the one step that can make a retired generation current again.
  predicate KeepsGen(s: PathState, e: Event, gen: Id) {
    e.Settle? && e.choice.KeepLocal? && e.i < |s.conflicts| && s.conflicts[e.i].op.Upsert?
        && s.conflicts[e.i].op.gen == gen
  }

  lemma PublishKeepsRetired(s: PathState, full: bool, newId: Id, gen: Id)
    requires gen in s.retiredUps && s.gen != Some(gen) && newId != gen
    ensures var r := Export(s, full, newId); r.Exported? ==> r.state.gen != Some(gen)
  {
  }

  lemma ResolvingKeepsRetired(s: PathState, i: nat, choice: Choice, blocked: bool, gen: Id)
    requires gen in s.retiredUps && s.gen != Some(gen) && Inv(s)
    ensures Step(s, Settle(i, choice, blocked)).state.gen == Some(gen) <==>
            KeepsGen(s, Settle(i, choice, blocked), gen) && s.conflicts[i].status.Pending? && !HasNewer(s, i)
  {
    if i < |s.conflicts| {
      ApplyRespectsRetired(s, s.conflicts[i].device, 0, s.conflicts[i].op, true, blocked);
    }
  }

  lemma RetiredBecomesCurrentOnlyByKeeping(s: PathState, e: Event, gen: Id)
    requires gen in s.retiredUps && s.gen != Some(gen) && FreshAt(s, e) && Inv(s)
    ensures Step(s, e).state.gen == Some(gen) <==>
            KeepsGen(s, e, gen) && s.conflicts[e.i].status.Pending? && !HasNewer(s, e.i)
  {
    match e
    case Edit(_) =>
    case Publish(full, newId) => PublishKeepsRetired(s, full, newId, gen);
    case Import(device, seqNo, op, blocked) => ApplyRespectsRetired(s, device, seqNo, op, false, blocked);
    case Settle(i, choice, blocked) => ResolvingKeepsRetired(s, i, choice, blocked, gen);
  }

  // How a generation comes to be retired: a newer upsert, a delete that targets
  // it (whatever becomes of the delete itself), a local change, a local deletion.
  lemma Supersession(s: PathState, device: Device, seqNo: int, op: SkillOp, force: bool, blocked: bool)
    requires Apply(s, device, seqNo, op, force, blocked).Applied?
    ensures var r := Apply(s, device, seqNo, op, force, blocked);
            && ((r.effect.Wrote? || r.effect.Adopted?) && s.gen.Some? ==> s.gen.value in r.state.retiredUps)
            && (op.Delete? ==> Bases(op.tombs) <= r.state.retiredUps)
            && op.retiredUps <= r.state.retiredUps
            && (r.effect.Removed? ==> r.state.file.None? && r.state.gen.None? && r.state.manifest.None?)
  {
  }

  lemma LocalChangeRetires(s: PathState, full: bool, newId: Id)
    requires Inv(s) && s.gen.Some? && (LocallyChanged(s) || Vanished(s))
    ensures var r := Export(s, full, newId);
            && r.Exported? && s.gen.value in r.state.retiredUps
            && r.state.gen == (if s.file.Some? then Some(newId) else None)
            && (Vanished(s) ==> newId in r.state.tombs && r.state.tombs[newId] == Target(s.gen.value, s.manifest.value))
            && (s.file.Some? ==> r.state.tombs == map[] && s.tombs.Keys <= r.state.retiredTombs)
  {
  }

  // An import settles every older pending conflict of the same author.
  lemma ImportLeavesNoOlderConflict(s: PathState, device: Device, seqNo: int, op: SkillOp, force: bool, blocked: bool)
    requires Apply(s, device, seqNo, op, force, blocked).Applied?
    ensures var r := Apply(s, device, seqNo, op, force, blocked).state;
            forall i | 0 <= i < |r.conflicts| ::
              r.conflicts[i].status.Pending? && r.conflicts[i].device == device ==> r.conflicts[i].seqNo >= seqNo
  {
    var s1 := SupersedeOlder(s, device, seqNo);
    var cs := if op.Delete? then SupersedeTargeted(s1, Bases(op.tombs)).conflicts else s1.conflicts;
    assert forall i | 0 <= i < |s1.conflicts| ::
        s1.conflicts[i].status.Pending? && s1.conflicts[i].device == device ==> s1.conflicts[i].seqNo >= seqNo;
    assert forall i | 0 <= i < |cs| ::
        cs[i].status.Pending? && cs[i].device == device ==> cs[i].seqNo >= seqNo;
    var r := Apply(s, device, seqNo, op, force, blocked).state;
    assert r.conflicts == cs || r.conflicts == cs + [Conflict(device, seqNo, op, Pending)];
  }

  // ----- what an export can publish ----------------------------------------

  // An unchanged file whose current generation a conflicting peer has retired.
  predicate Poisoned(s: PathState, full: bool) {
    s.file.Some? && !LocallyChanged(s) && s.gen.value in s.retiredUps && (full || s.relay.Some?)
  }

  lemma DeleteParses(s: PathState, full: bool, newId: Id)
    requires Inv(s) && ExportDelete(s, full, newId).Exported?
    ensures forall op | op in ExportDelete(s, full, newId).ops :: Parses(op)
  {
    var due := Due(s, full, newId);
    if due != map[] {
      assert FirstId(due) in due;
      assert Parses(ExportDelete(s, full, newId).ops[0]);
    }
  }

  lemma UpsertParsesIff(s: PathState, full: bool, newId: Id)
    requires Inv(s) && newId !in Known(s) && s.file.Some?
    ensures var u := ExportUpsert(ExportDelete(s, full, newId).state, full, newId);
            u.ops == [] || (|u.ops| == 1 && (Parses(u.ops[0]) <==> !Poisoned(s, full)))
    ensures ExportUpsert(ExportDelete(s, full, newId).state, full, newId).ops == [] ==> !Poisoned(s, full)
  {
  }

  // Peers accept everything an export publishes exactly when it does not publish
  // a generation together with the claim that this generation is retired.
  lemma ExportParsesIff(s: PathState, full: bool, newId: Id)
    requires Inv(s) && newId !in Known(s) && Export(s, full, newId).Exported?
    ensures (forall op | op in Export(s, full, newId).ops :: Parses(op)) <==> !Poisoned(s, full)
  {
    DeleteParses(s, full, newId);
    if s.file.Some? {
      UpsertParsesIff(s, full, newId);
      var d := ExportDelete(s, full, newId);
      AllOf(d.ops, ExportUpsert(d.state, full, newId).ops);
    }
  }

  lemma AllOf(a: seq<SkillOp>, b: seq<SkillOp>)
    requires |b| <= 1 && forall op | op in a :: Parses(op)
    ensures (forall op | op in a + b :: Parses(op)) <==> (b == [] || Parses(b[0]))
  {
    if b != [] {
      assert b[0] in a + b;
    }
  }

  // An export fails exactly for a path that a keep_local of a delete has rebased
  // to "missing" and whose file has gone since.
  lemma ExportFailsIff(s: PathState, full: bool, newId: Id)
    requires Inv(s)
    ensures Export(s, full, newId).NoGeneration? <==> s.file.None? && s.manifest == Some(Missing)
  {
  }
}
