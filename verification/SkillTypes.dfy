// Custom-skill replication, as it acts on ONE path of the skills tree.
//
// Every table the protocol keeps (manifest, generations, relays, retired
// upserts, tombstones, conflicts) is keyed by path and no step reads another
// path's row, so the transition functions below act on a single row. The class
// in SkillStore.dfy holds the tables themselves and is proved to act on each
// row exactly as these functions say.

module SkillTypes {
  import opened Options

  // A relative path below the custom-skills root.
  type Path(==, !new)
  type Device = nat

  // A generation id: the source draws a UUID, the model a number not used so far.
  type Id = nat

  datatype Content = Content(bytes: seq<int>, executable: bool)

  // SHA-256 over the executable bit and the bytes, taken to be injective.
  datatype Hash = Missing | Digest(content: Content)

  datatype Target = Target(baseGen: Id, baseHash: Hash)

  // A foreign upsert this device has adopted and still has to publish once.
  datatype Relay = Relay(gen: Id, baseHash: Hash, recovery: Option<Hash>, retiredTombs: set<Id>)

  datatype SkillOp =
    | Upsert(gen: Id, content: Content, contentHash: Hash, baseHash: Hash, recovery: Option<Hash>,
             retiredTombs: set<Id>, retiredUps: set<Id>)
    | Delete(baseHash: Hash, contentHash: Hash, tombs: map<Id, Target>, retiredUps: set<Id>)

  datatype Status = Pending | Superseded | Resolved(keptLocal: bool)

  datatype Conflict = Conflict(device: Device, seqNo: int, op: SkillOp, status: Status)

  datatype PathState = PathState(
    file: Option<Content>,
    manifest: Option<Hash>,
    gen: Option<Id>,
    relay: Option<Relay>,
    retiredUps: set<Id>,
    tombs: map<Id, Target>,
    pendingTombs: map<Id, Target>,
    retiredTombs: set<Id>,
    conflicts: seq<Conflict>
  )

  const BLANK := PathState(None, None, None, None, {}, map[], map[], {}, [])

  datatype Effect = Ignored | Noted | Adopted(gen: Id) | Wrote(gen: Id) | Removed | Conflicted

  datatype Outcome = Rejected | Applied(state: PathState, effect: Effect)

  function HashOf(file: Option<Content>): Hash {
    if file.Some? then Digest(file.value) else Missing
  }

  function Bases(tombs: map<Id, Target>): set<Id> {
    set id | id in tombs :: tombs[id].baseGen
  }

  // The checks parse_op makes on the fields that carry protocol meaning.
  predicate Parses(op: SkillOp) {
    match op
    case Upsert(gen, content, contentHash, _, _, _, retiredUps) =>
      gen !in retiredUps && contentHash == Digest(content)
    case Delete(baseHash, contentHash, tombs, _) =>
      && contentHash == Missing && baseHash != Missing
      && (forall id | id in tombs :: tombs[id].baseHash != Missing)
      && (exists id | id in tombs :: tombs[id].baseHash == baseHash)
  }

  // ----- updates of one row ------------------------------------------------

  function RetireUps(s: PathState, ids: set<Id>): PathState {
    s.(retiredUps := s.retiredUps + ids)
  }

  function RetireTombs(s: PathState, ids: set<Id>): PathState {
    s.(tombs := s.tombs - ids, pendingTombs := s.pendingTombs - ids, retiredTombs := s.retiredTombs + ids)
  }

  function NewlySeen(s: PathState, seen: map<Id, Target>): map<Id, Target> {
    map id | id in seen && seen[id].baseHash != Missing && id !in s.retiredTombs && id !in s.tombs :: seen[id]
  }

  function NoteTombs(s: PathState, seen: map<Id, Target>): PathState {
    var news := NewlySeen(s, seen);
    s.(tombs := s.tombs + news, pendingTombs := s.pendingTombs + news)
  }

  function Forget(s: PathState): PathState {
    s.(manifest := None, gen := None, relay := None)
  }

  function AdoptAbsentDelete(s: PathState, seen: map<Id, Target>): PathState {
    NoteTombs(Forget(s), seen)
  }

  function RelayOf(op: SkillOp): Relay
    requires op.Upsert?
  {
    var recovery := if op.recovery.Some? then op.recovery
                    else if op.baseHash != Missing then Some(op.baseHash) else None;
    Relay(op.gen, Missing, recovery, op.retiredTombs)
  }

  function Adopt(s: PathState, op: SkillOp): PathState
    requires op.Upsert?
  {
    s.(relay := if s.gen == Some(op.gen) then s.relay else Some(RelayOf(op)),
       retiredUps := s.retiredUps + op.retiredUps +
                     (if s.gen.Some? && s.gen.value != op.gen then {s.gen.value} else {}),
       manifest := Some(op.contentHash),
       gen := Some(op.gen))
  }

  function Rebase(s: PathState, hash: Hash, gen: Option<Id>): PathState {
    s.(manifest := Some(hash),
       retiredUps := s.retiredUps + (if s.gen.Some? && gen != s.gen then {s.gen.value} else {}),
       gen := gen,
       relay := None)
  }

  // ----- the conflict table ------------------------------------------------

  function Supersede(c: Conflict, hit: bool): Conflict {
    if hit && c.status.Pending? then c.(status := Superseded) else c
  }

  function SupersedeOlder(s: PathState, device: Device, seqNo: int): PathState {
    s.(conflicts := seq(|s.conflicts|, i requires 0 <= i < |s.conflicts| =>
      Supersede(s.conflicts[i], s.conflicts[i].device == device && s.conflicts[i].seqNo < seqNo)))
  }

  function SupersedeTargeted(s: PathState, bases: set<Id>): PathState {
    s.(conflicts := seq(|s.conflicts|, i requires 0 <= i < |s.conflicts| =>
      Supersede(s.conflicts[i], s.conflicts[i].op.Upsert? && s.conflicts[i].op.gen in bases)))
  }

  function Record(s: PathState, device: Device, seqNo: int, op: SkillOp): PathState {
    s.(conflicts := s.conflicts + [Conflict(device, seqNo, op, Pending)])
  }

  // ----- import ------------------------------------------------------------

  // `blocked`: the path is obstructed (case collision, a parent that is not a
  // directory, or a target that is not a plain file), so `file` is absent.
  function ApplyDelete(s: PathState, device: Device, seqNo: int, op: SkillOp, force: bool, blocked: bool): Outcome
    requires op.Delete?
  {
    var bases := Bases(op.tombs);
    var s1 := SupersedeTargeted(RetireUps(SupersedeOlder(s, device, seqNo), op.retiredUps + bases), bases);
    var live := op.tombs - s1.retiredTombs;
    var here := HashOf(s1.file);
    if live == map[] then
      Applied(s1, Ignored)
    else if blocked then
      Applied(AdoptAbsentDelete(s1, live), Noted)
    else if !force && s1.gen.Some? && s1.gen.value !in Bases(live) then
      Applied(NoteTombs(s1, live), Noted)
    else if here == Missing then
      Applied(AdoptAbsentDelete(s1, live), Noted)
    else if force || exists id | id in live :: s1.gen == Some(live[id].baseGen) && live[id].baseHash == here then
      Applied(NoteTombs(Forget(s1.(file := None)), live), Removed)
    else
      Applied(Record(s1, device, seqNo, op), Conflicted)
  }

  function ApplyUpsert(s: PathState, device: Device, seqNo: int, op: SkillOp, force: bool, blocked: bool): Outcome
    requires op.Upsert?
  {
    var s1 := RetireUps(SupersedeOlder(s, device, seqNo), op.retiredUps);
    var here := HashOf(s1.file);
    if s1.gen == Some(op.gen) then
      if s1.manifest != Some(op.contentHash) then Rejected else Applied(RetireTombs(s1, op.retiredTombs), Ignored)
    else if op.gen in s1.retiredUps then
      Applied(RetireTombs(s1, op.retiredTombs), Ignored)
    else if op.gen in Bases(s1.tombs) then
      Applied(s1, Ignored)
    else if blocked && !force then
      Applied(Record(s1, device, seqNo, op), Conflicted)
    else if here == op.contentHash then
      Applied(RetireTombs(Adopt(s1, op), op.retiredTombs), Adopted(op.gen))
    else if force || here == op.baseHash || op.recovery == Some(here) then
      Applied(RetireTombs(Adopt(s1.(file := Some(op.content)), op), op.retiredTombs), Wrote(op.gen))
    else
      Applied(Record(s1, device, seqNo, op), Conflicted)
  }

  // A row gains a conflict exactly when the import could not be reconciled, and
  // never when the user has forced the remote side.
  function Apply(s: PathState, device: Device, seqNo: int, op: SkillOp, force: bool, blocked: bool): (r: Outcome)
    ensures r.Applied? ==> |r.state.conflicts| == |s.conflicts| + (if r.effect.Conflicted? then 1 else 0)
    ensures r.Applied? && r.effect.Conflicted? ==> !force && r.state.file == s.file && r.state.gen == s.gen
  {
    if !Parses(op) then Rejected
    else if op.Delete? then ApplyDelete(s, device, seqNo, op, force, blocked)
    else ApplyUpsert(s, device, seqNo, op, force, blocked)
  }

  // ----- export ------------------------------------------------------------

  datatype ExportResult = NoGeneration | Exported(state: PathState, ops: seq<SkillOp>)

  // The candidate a BTreeMap yields first: the one with the least id.
  ghost predicate IsFirst(id: Id, tombs: map<Id, Target>) {
    id in tombs && forall other | other in tombs :: id <= other
  }

  function FirstId(tombs: map<Id, Target>): (id: Id)
    requires tombs != map[]
    ensures IsFirst(id, tombs)
  {
    LeastExists(tombs.Keys);
    var id :| id in tombs && forall other | other in tombs :: id <= other;
    id
  }

  lemma {:induction false} Least(ids: set<Id>) returns (least: Id)
    requires ids != {}
    ensures least in ids && forall other | other in ids :: least <= other
  {
    var x :| x in ids;
    var rest := ids - {x};
    least := x;
    assert forall other | other in ids :: other == x || other in rest;
    if rest != {} {
      var y := Least(rest);
      least := if x <= y then x else y;
    }
  }

  lemma LeastExists(ids: set<Id>)
    requires ids != {}
    ensures exists id | id in ids :: forall other | other in ids :: id <= other
  {
    var least := Least(ids);
  }

  function DeleteOp(tombs: map<Id, Target>, retiredUps: set<Id>): SkillOp
    requires tombs != map[]
  {
    Delete(tombs[FirstId(tombs)].baseHash, Missing, tombs, retiredUps)
  }

  predicate Vanished(s: PathState) {
    s.file.None? && s.manifest.Some?
  }

  // A new file, changed content, or a file whose manifest entry has no generation.
  predicate LocallyChanged(s: PathState) {
    s.file.Some? && (s.manifest != Some(Digest(s.file.value)) || s.gen.None?)
  }

  // First pass: a vanished file gets a tombstone and gives up its generation.
  function MarkVanished(s: PathState, newId: Id): PathState {
    if Vanished(s) && s.gen.Some? then
      s.(tombs := s.tombs[newId := Target(s.gen.value, s.manifest.value)],
         retiredUps := s.retiredUps + {s.gen.value}, relay := None)
    else s
  }

  // The tombstones to publish: the pending ones (all active ones on a full
  // resync) and the one the first pass has just made.
  function Due(s: PathState, full: bool, newId: Id): map<Id, Target> {
    var due := if full then s.tombs else s.pendingTombs;
    if Vanished(s) && s.gen.Some? then due[newId := Target(s.gen.value, s.manifest.value)] else due
  }

  function ExportDelete(s: PathState, full: bool, newId: Id): ExportResult {
    if Vanished(s) && s.gen.None? then NoGeneration
    else
      var s1 := MarkVanished(s, newId);
      var due := Due(s, full, newId);
      if due == map[] then Exported(s1, [])
      else Exported(s1.(pendingTombs := map[]), [DeleteOp(due, s1.retiredUps)])
  }

  // Second pass: a changed file gets a new generation and retires every active
  // tombstone; a pending relay (or, on a full resync, every file) is published.
  function ExportUpsert(s: PathState, full: bool, newId: Id): ExportResult
    requires s.file.Some?
  {
    var content := s.file.value;
    var changed := LocallyChanged(s);
    var gen := if changed then newId else s.gen.value;
    var s1 := if changed then
      RetireTombs(RetireUps(s, if s.gen.Some? then {s.gen.value} else {}), s.tombs.Keys).(relay := None)
    else s;
    var relaying := s1.relay.Some? && s1.relay.value.gen == gen;
    var retiredOn := s1.retiredTombs + (if relaying then s1.relay.value.retiredTombs else {});
    var baseHash := if full then Missing else if relaying then s1.relay.value.baseHash
                    else if s.manifest.Some? then s.manifest.value else Missing;
    var recovery := if full then s.manifest else if relaying then s1.relay.value.recovery else None;
    var s2 := s1.(manifest := Some(Digest(content)), gen := Some(gen));
    if full || changed || relaying then
      Exported(s2.(relay := None),
               [Upsert(gen, content, Digest(content), baseHash, recovery, retiredOn, s1.retiredUps)])
    else
      Exported(s2, [])
  }

  function Export(s: PathState, full: bool, newId: Id): ExportResult {
    var d := ExportDelete(s, full, newId);
    if d.NoGeneration? then d
    else if s.file.None? then Exported(d.state.(manifest := None, gen := None), d.ops)
    else
      var u := ExportUpsert(d.state, full, newId);
      if u.NoGeneration? then u else Exported(u.state, d.ops + u.ops)
  }

  // ----- conflict resolution -----------------------------------------------

  datatype Choice = KeepLocal | UseRemote

  datatype Resolution = NotFound | Outdated(state: PathState) | Failed | Done(state: PathState, effect: Effect)

  predicate HasNewer(s: PathState, i: nat)
    requires i < |s.conflicts|
  {
    exists j | 0 <= j < |s.conflicts| ::
      s.conflicts[j].device == s.conflicts[i].device && s.conflicts[j].seqNo > s.conflicts[i].seqNo
  }

  function Mark(s: PathState, i: nat, status: Status): PathState
    requires i < |s.conflicts|
  {
    s.(conflicts := s.conflicts[i := if s.conflicts[i].status.Pending?
                                     then s.conflicts[i].(status := status) else s.conflicts[i]])
  }

  function Resolve(s: PathState, i: nat, choice: Choice, blocked: bool): Resolution {
    if i >= |s.conflicts| || !s.conflicts[i].status.Pending? then NotFound
    else if HasNewer(s, i) then Outdated(Mark(s, i, Superseded))
    else
      var c := s.conflicts[i];
      if !Parses(c.op) then Failed
      else if choice == UseRemote then
        var applied := Apply(s, c.device, 0, c.op, true, blocked);
        if applied.Rejected? then Failed
        else Done(Mark(applied.state, i, Resolved(false)), applied.effect)
      else
        var s1 := RetireTombs(s, if c.op.Upsert? then c.op.retiredTombs else c.op.tombs.Keys);
        var s2 := Rebase(s1, c.op.contentHash, if c.op.Upsert? then Some(c.op.gen) else None);
        Done(Mark(s2, i, Resolved(true)), Noted)
  }
}
