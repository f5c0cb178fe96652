// plan_export over the whole tree: three loops over local copies of the tables,
// proved to treat every path as SkillTypes.Export treats its row.
module SkillExports {
  import opened Options
  import opened SkillTypes

  // The tables plan_export loads before it starts, and the files it scans.
  datatype Snapshot = Snapshot(
    files: map<Path, Content>,
    manifest: map<Path, Hash>,
    generations: map<Path, Id>,
    relays: map<Path, Relay>,
    retiredUps: map<Path, set<Id>>,
    tombstones: map<Path, map<Id, Target>>,
    pendingTombs: map<Path, map<Id, Target>>,
    retiredTombs: map<Path, set<Id>>,
    conflicts: map<Path, seq<Conflict>>
  ) {
    ghost predicate Valid() {
      NoEmptyCandidates(tombstones) && NoEmptyCandidates(pendingTombs)
    }

    function Row(p: Path): PathState {
      PathState(Find(files, p), Find(manifest, p), Find(generations, p), Find(relays, p), IdsAt(retiredUps, p),
                TombsAt(tombstones, p), TombsAt(pendingTombs, p), IdsAt(retiredTombs, p), ConflictsAt(conflicts, p))
    }
  }

  // What plan_export hands back: the operations and the tables to persist.
  datatype Plan = Plan(
    ops: seq<(Path, SkillOp)>,
    manifest: map<Path, Hash>,
    generations: map<Path, Id>,
    relays: map<Path, Relay>,
    retiredUps: map<Path, set<Id>>,
    tombstones: map<Path, map<Id, Target>>,
    pendingTombs: map<Path, map<Id, Target>>,
    retiredTombs: map<Path, set<Id>>
  ) {
    function Row(p: Path, file: Option<Content>, conflicts: seq<Conflict>): PathState {
      PathState(file, Find(manifest, p), Find(generations, p), Find(relays, p), IdsAt(retiredUps, p),
                TombsAt(tombstones, p), TombsAt(pendingTombs, p), IdsAt(retiredTombs, p), conflicts)
    }
  }

  // The tables the first loop of plan_export works on, and one row of them.
  datatype Marks = Marks(
    deletions: map<Path, map<Id, Target>>,
    tombs: map<Path, map<Id, Target>>,
    retired: map<Path, set<Id>>,
    relays: map<Path, Relay>
  ) {
    function At(p: Path): MarkRow {
      MarkRow(TombsAt(deletions, p), TombsAt(tombs, p), IdsAt(retired, p), Find(relays, p))
    }
  }

  datatype MarkRow = MarkRow(due: map<Id, Target>, tombs: map<Id, Target>, retired: set<Id>, relay: Option<Relay>)

  function Unmarked(s: PathState, full: bool): MarkRow {
    MarkRow(if full then s.tombs else s.pendingTombs, s.tombs, s.retiredUps, s.relay)
  }

  function Marked(s: PathState, full: bool, newId: Id): MarkRow {
    var m := MarkVanished(s, newId);
    MarkRow(Due(s, full, newId), m.tombs, m.retiredUps, m.relay)
  }

  function Find<V>(m: map<Path, V>, p: Path): Option<V> {
    if p in m then Some(m[p]) else None
  }

  function IdsAt(m: map<Path, set<Id>>, p: Path): set<Id> {
    if p in m then m[p] else {}
  }

  function TombsAt(m: map<Path, map<Id, Target>>, p: Path): map<Id, Target> {
    if p in m then m[p] else map[]
  }

  function ConflictsAt(m: map<Path, seq<Conflict>>, p: Path): seq<Conflict> {
    if p in m then m[p] else []
  }

  // The `expect` in plan_export relies on this: a stored candidate map is never empty.
  ghost predicate NoEmptyCandidates(m: map<Path, map<Id, Target>>) {
    forall p | p in m :: m[p] != map[]
  }

  // `m` with the entry for p replaced, or dropped when nothing is left of it.
  function PutTombs(m: map<Path, map<Id, Target>>, p: Path, tombs: map<Id, Target>): (r: map<Path, map<Id, Target>>)
    ensures TombsAt(r, p) == tombs
    ensures forall q :: q != p ==> TombsAt(r, q) == TombsAt(m, q)
    ensures NoEmptyCandidates(m) ==> NoEmptyCandidates(r)
  {
    if tombs == map[] then m - {p} else m[p := tombs]
  }

  // The operations of one path, in the order they were written.
  function OpsFor(ops: seq<(Path, SkillOp)>, p: Path): seq<SkillOp> {
    if ops == [] then []
    else
      var last := ops[|ops| - 1];
      OpsFor(ops[..|ops| - 1], p) + (if last.0 == p then [last.1] else [])
  }

  lemma OpsForAppend(ops: seq<(Path, SkillOp)>, q: Path, op: SkillOp, p: Path)
    ensures OpsFor(ops + [(q, op)], p) == OpsFor(ops, p) + (if q == p then [op] else [])
  {
    assert (ops + [(q, op)])[..|ops|] == ops;
  }

  lemma OpsForAppendAll(ops: seq<(Path, SkillOp)>, q: Path, op: SkillOp)
    ensures forall p :: OpsFor(ops + [(q, op)], p) == OpsFor(ops, p) + (if q == p then [op] else [])
  {
    forall p
      ensures OpsFor(ops + [(q, op)], p) == OpsFor(ops, p) + (if q == p then [op] else [])
    {
      OpsForAppend(ops, q, op, p);
    }
  }

  ghost predicate DeletesThenUpserts(ops: seq<(Path, SkillOp)>) {
    forall i, j | 0 <= i < j < |ops| :: ops[j].1.Delete? ==> ops[i].1.Delete?
  }

  lemma DeletesThenOneUpsert(ops: seq<(Path, SkillOp)>, p: Path, op: SkillOp)
    requires DeletesThenUpserts(ops) && op.Upsert?
    ensures DeletesThenUpserts(ops + [(p, op)])
  {
  }

  // What the export of path p comes to, by the row specification.
  ghost function RowExport(s: Snapshot, p: Path, full: bool, newId: Path -> Id): ExportResult {
    Export(s.Row(p), full, newId(p))
  }

  // A vanished row gets a tombstone and gives up its generation and its relay.
  lemma MarkedRow(row: PathState, full: bool, newId: Id)
    requires Vanished(row) && row.gen.Some?
    ensures var u := Unmarked(row, full);
            var target := Target(row.gen.value, row.manifest.value);
            Marked(row, full, newId) ==
              MarkRow(u.due[newId := target], u.tombs[newId := target], u.retired + {row.gen.value}, None)
  {
  }

  lemma OtherRow(row: PathState, full: bool, newId: Id)
    requires !Vanished(row)
    ensures Marked(row, full, newId) == Unmarked(row, full)
  {
  }

  ghost predicate OnlyMark(m: Marks, r: Marks, p: Path) {
    forall q :: q != p ==> r.At(q) == m.At(q)
  }

  // One turn of the first loop.
  method MarkOne(s: Snapshot, m: Marks, p: Path, full: bool, newId: Id) returns (r: Marks)
    requires NoEmptyCandidates(m.deletions) && NoEmptyCandidates(m.tombs)
    requires p in s.manifest && p !in s.files && p in s.generations
    requires m.At(p) == Unmarked(s.Row(p), full)
    ensures NoEmptyCandidates(r.deletions) && NoEmptyCandidates(r.tombs)
    ensures r.At(p) == Marked(s.Row(p), full, newId) && OnlyMark(m, r, p)
  {
    MarkedRow(s.Row(p), full, newId);
    var target := Target(s.generations[p], s.manifest[p]);
    r := PutMark(m, p, newId, target, s.generations[p]);
  }

  method PutMark(m: Marks, p: Path, newId: Id, target: Target, gen: Id) returns (r: Marks)
    requires NoEmptyCandidates(m.deletions) && NoEmptyCandidates(m.tombs)
    ensures NoEmptyCandidates(r.deletions) && NoEmptyCandidates(r.tombs) && OnlyMark(m, r, p)
    ensures r.At(p) ==
              MarkRow(m.At(p).due[newId := target], m.At(p).tombs[newId := target], m.At(p).retired + {gen}, None)
  {
    r := Marks(m.deletions[p := TombsAt(m.deletions, p)[newId := target]],
               m.tombs[p := TombsAt(m.tombs, p)[newId := target]],
               m.retired[p := IdsAt(m.retired, p) + {gen}],
               m.relays - {p});
    assert newId in r.deletions[p] && newId in r.tombs[p];
  }

  // How far the first loop has got when `todo` is left.
  ghost predicate Marking(s: Snapshot, m: Marks, todo: set<Path>, full: bool, newId: Path -> Id) {
    && NoEmptyCandidates(m.deletions) && NoEmptyCandidates(m.tombs)
    && (forall p :: p in todo ==> m.At(p) == Unmarked(s.Row(p), full))
    && (forall p :: p !in todo ==> m.At(p) == Marked(s.Row(p), full, newId(p)))
  }

  // No path that has vanished lacks a generation, as far as the loop has got.
  ghost predicate NoneBare(s: Snapshot, todo: set<Path>) {
    forall p :: Vanished(s.Row(p)) && p !in todo ==> s.Row(p).gen.Some?
  }

  lemma MarkingStarts(s: Snapshot, full: bool, newId: Path -> Id)
    requires s.Valid()
    ensures var m := Marks(if full then s.tombstones else s.pendingTombs, s.tombstones, s.retiredUps, s.relays);
            Marking(s, m, s.manifest.Keys - s.files.Keys, full, newId)
    ensures NoneBare(s, s.manifest.Keys - s.files.Keys)
  {
    forall p | p !in s.manifest.Keys - s.files.Keys
      ensures !Vanished(s.Row(p)) && Marked(s.Row(p), full, newId(p)) == Unmarked(s.Row(p), full)
    {
      OtherRow(s.Row(p), full, newId(p));
    }
  }

  lemma MarkingGoesOn(s: Snapshot, m: Marks, next: Marks, todo: set<Path>, p: Path, full: bool, newId: Path -> Id)
    requires Marking(s, m, todo, full, newId) && NoneBare(s, todo) && p in todo && p in s.generations
    requires NoEmptyCandidates(next.deletions) && NoEmptyCandidates(next.tombs)
    requires next.At(p) == Marked(s.Row(p), full, newId(p)) && OnlyMark(m, next, p)
    ensures Marking(s, next, todo - {p}, full, newId) && NoneBare(s, todo - {p})
  {
  }

  // First loop of plan_export: tombstones for files that have vanished.
  method MarkAllVanished(s: Snapshot, full: bool, newId: Path -> Id) returns (ok: bool, m: Marks)
    requires s.Valid()
    ensures ok <==> NoneBare(s, {})
    ensures ok ==> Marking(s, m, {}, full, newId)
  {
    m := Marks(if full then s.tombstones else s.pendingTombs, s.tombstones, s.retiredUps, s.relays);
    ok := true;
    var todo := s.manifest.Keys - s.files.Keys;
    MarkingStarts(s, full, newId);
    while todo != {}
      invariant todo <= s.manifest.Keys - s.files.Keys
      invariant Marking(s, m, todo, full, newId) && NoneBare(s, todo)
    {
      var p :| p in todo;
      if p !in s.generations {
        assert Vanished(s.Row(p));
        return false, m;
      }
      var next := MarkOne(s, m, p, full, newId(p));
      MarkingGoesOn(s, m, next, todo, p, full, newId);
      m, todo := next, todo - {p};
    }
  }

  // The delete operation of path p, once the second loop has got there.
  ghost function DeletesAt(deletions: map<Path, map<Id, Target>>, retired: map<Path, set<Id>>, todo: set<Path>,
                           p: Path): seq<SkillOp>
    requires NoEmptyCandidates(deletions)
  {
    if p in deletions && p !in todo then [DeleteOp(deletions[p], IdsAt(retired, p))] else []
  }

  ghost predicate Emitted(ops: seq<(Path, SkillOp)>, deletions: map<Path, map<Id, Target>>, retired: map<Path, set<Id>>,
                          todo: set<Path>)
    requires NoEmptyCandidates(deletions)
  {
    && (forall p :: OpsFor(ops, p) == DeletesAt(deletions, retired, todo, p))
    && forall i | 0 <= i < |ops| :: ops[i].1.Delete?
  }

  lemma EmitOne(ops: seq<(Path, SkillOp)>, deletions: map<Path, map<Id, Target>>, retired: map<Path, set<Id>>,
                todo: set<Path>, p: Path)
    requires NoEmptyCandidates(deletions) && Emitted(ops, deletions, retired, todo) && p in todo && p in deletions
    ensures Emitted(ops + [(p, DeleteOp(deletions[p], IdsAt(retired, p)))], deletions, retired, todo - {p})
  {
    OpsForAppendAll(ops, p, DeleteOp(deletions[p], IdsAt(retired, p)));
  }

  // Second loop: one delete operation for every path with tombstones to publish.
  method EmitDeletes(deletions: map<Path, map<Id, Target>>, retired: map<Path, set<Id>>)
    returns (ops: seq<(Path, SkillOp)>)
    requires NoEmptyCandidates(deletions)
    ensures Emitted(ops, deletions, retired, {})
  {
    ops := [];
    var todo := deletions.Keys;
    while todo != {}
      invariant todo <= deletions.Keys && Emitted(ops, deletions, retired, todo)
    {
      var p :| p in todo;
      EmitOne(ops, deletions, retired, todo, p);
      ops := ops + [(p, DeleteOp(deletions[p], IdsAt(retired, p)))];
      todo := todo - {p};
    }
  }

  // Where the plan stands for path p.
  ghost function Planned(s: Snapshot, plan: Plan, p: Path): ExportResult {
    Exported(plan.Row(p, Find(s.files, p), ConflictsAt(s.conflicts, p)), OpsFor(plan.ops, p))
  }

  // Where it must stand before the third loop has reached p.
  ghost predicate Halfway(s: Snapshot, planned: ExportResult, p: Path, full: bool, newId: Id)
    requires planned.Exported?
  {
    && planned.state.gen.None?
    && Exported(planned.state.(manifest := Find(s.manifest, p), gen := Find(s.generations, p)), planned.ops)
       == ExportDelete(s.Row(p), full, newId)
  }

  // What happens to one path while every other path stays as planned.
  ghost predicate OnlyAt(s: Snapshot, plan: Plan, r: Plan, p: Path, row: PathState) {
    && r.manifest == plan.manifest && r.generations == plan.generations && r.ops == plan.ops
    && Planned(s, r, p) == Exported(row, Planned(s, plan, p).ops)
    && forall q :: q != p ==> Planned(s, r, q) == Planned(s, plan, q)
  }

  method RetireGeneration(s: Snapshot, plan: Plan, p: Path) returns (r: Plan)
    ensures OnlyAt(s, plan, r, p, RetireUps(Planned(s, plan, p).state, if p in s.generations then {s.generations[p]}
              else {}))
    ensures r.tombstones == plan.tombstones && r.pendingTombs == plan.pendingTombs
  {
    r := plan;
    if p in s.generations {
      r := r.(retiredUps := r.retiredUps[p := IdsAt(r.retiredUps, p) + {s.generations[p]}]);
    }
  }

  method RetireTombstones(s: Snapshot, plan: Plan, p: Path) returns (r: Plan)
    requires NoEmptyCandidates(plan.tombstones) && NoEmptyCandidates(plan.pendingTombs)
    ensures NoEmptyCandidates(r.tombstones) && NoEmptyCandidates(r.pendingTombs)
    ensures var row := Planned(s, plan, p).state;
            OnlyAt(s, plan, r, p, RetireTombs(row, row.tombs.Keys).(relay := None))
  {
    var ids := TombsAt(plan.tombstones, p).Keys;
    assert TombsAt(plan.tombstones, p) - ids == map[];
    r := plan.(tombstones := PutTombs(plan.tombstones, p, map[]),
               pendingTombs := PutTombs(plan.pendingTombs, p, TombsAt(plan.pendingTombs, p) - ids),
               retiredTombs := plan.retiredTombs[p := IdsAt(plan.retiredTombs, p) + ids],
               relays := plan.relays - {p});
  }

  // A changed file gives up its generation and retires its tombstones.
  method RetireForChange(s: Snapshot, plan: Plan, p: Path) returns (r: Plan)
    requires NoEmptyCandidates(plan.tombstones) && NoEmptyCandidates(plan.pendingTombs)
    ensures NoEmptyCandidates(r.tombstones) && NoEmptyCandidates(r.pendingTombs)
    ensures var row := Planned(s, plan, p).state;
            var gone := if p in s.generations then {s.generations[p]} else {};
            OnlyAt(s, plan, r, p, RetireTombs(RetireUps(row, gone), row.tombs.Keys).(relay := None))
  {
    r := RetireGeneration(s, plan, p);
    r := RetireTombstones(s, r, p);
  }

  // The operation the third loop writes for a row that gives `gen` to its file.
  function UpsertOp(row: PathState, content: Content, manifest: Option<Hash>, gen: Id, full: bool): SkillOp {
    var relaying := row.relay.Some? && row.relay.value.gen == gen;
    Upsert(gen, content, Digest(content),
           if full then Missing else if relaying then row.relay.value.baseHash
           else if manifest.Some? then manifest.value else Missing,
           if full then manifest else if relaying then row.relay.value.recovery else None,
           row.retiredTombs + (if relaying then row.relay.value.retiredTombs else {}), row.retiredUps)
  }

  function WithGen(row: PathState, gen: Id): PathState {
    row.(gen := Some(gen))
  }

  // The turn, seen from the row: first the change, then the operation.
  function Turned(row: PathState, ops: seq<SkillOp>, content: Content, manifest: Option<Hash>, gen: Id, full: bool,
                  changed: bool): ExportResult {
    if full || changed || (row.relay.Some? && row.relay.value.gen == gen) then
      Exported(WithGen(row, gen).(relay := None), ops + [UpsertOp(row, content, manifest, gen, full)])
    else Exported(WithGen(row, gen), ops)
  }

  lemma TurnIsExport(row: PathState, d: PathState, ops: seq<SkillOp>, full: bool, newId: Id)
    requires d.file.Some? && row.file == d.file && row.manifest == Some(Digest(d.file.value))
    requires row.(manifest := d.manifest, gen := d.gen) == d
    ensures var changed := LocallyChanged(d);
            var gone := if d.gen.Some? then {d.gen.value} else {};
            var row1 := if changed then RetireTombs(RetireUps(row, gone), row.tombs.Keys).(relay := None) else row;
            var u := ExportUpsert(d, full, newId);
            u.Exported? && Turned(row1, ops, d.file.value, d.manifest, if changed then newId
                else d.gen.value, full, changed)
                           == Exported(u.state, ops + u.ops)
  {
    var u := ExportUpsert(d, full, newId);
    assert u.ops == [] ==> ops + u.ops == ops;
  }

  method WriteUpsert(s: Snapshot, plan: Plan, p: Path, full: bool, gen: Id, changed: bool) returns (r: Plan)
    requires p in s.files
    ensures OnlyRow(s, plan, r, p)
    ensures Planned(s, r, p) ==
              Turned(Planned(s, plan, p).state, Planned(s, plan, p).ops, s.files[p], Find(s.manifest, p), gen, full,
                  changed)
  {
    var relaying := p in plan.relays && plan.relays[p].gen == gen;
    if full || changed || relaying {
      var op := BuildUpsert(s, plan, p, full, gen);
      r := Publish(s, plan, p, gen, op);
    } else {
      r := SetGeneration(s, plan, p, gen);
    }
  }

  method BuildUpsert(s: Snapshot, plan: Plan, p: Path, full: bool, gen: Id) returns (op: SkillOp)
    requires p in s.files
    ensures op == UpsertOp(Planned(s, plan, p).state, s.files[p], Find(s.manifest, p), gen, full)
  {
    var relaying := p in plan.relays && plan.relays[p].gen == gen;
    var retiredOn := IdsAt(plan.retiredTombs, p) + (if relaying then plan.relays[p].retiredTombs else {});
    var baseHash := if full then Missing else if relaying then plan.relays[p].baseHash
                    else if p in s.manifest then s.manifest[p] else Missing;
    var recovery := if full then Find(s.manifest, p) else if relaying then plan.relays[p].recovery else None;
    op := Upsert(gen, s.files[p], Digest(s.files[p]), baseHash, recovery, retiredOn, IdsAt(plan.retiredUps, p));
  }

  // One turn of the third loop.
  method EmitUpsert(s: Snapshot, plan: Plan, p: Path, full: bool, newId: Id) returns (r: Plan)
    requires p in s.files
    requires NoEmptyCandidates(plan.tombstones) && NoEmptyCandidates(plan.pendingTombs)
    requires p in plan.manifest && plan.manifest[p] == Digest(s.files[p])
    requires Halfway(s, Planned(s, plan, p), p, full, newId)
    ensures NoEmptyCandidates(r.tombstones) && NoEmptyCandidates(r.pendingTombs)
    ensures r.manifest == plan.manifest
    ensures Planned(s, r, p) == Export(s.Row(p), full, newId)
    ensures forall q :: q != p ==> Planned(s, r, q) == Planned(s, plan, q)
    ensures DeletesThenUpserts(plan.ops) ==> DeletesThenUpserts(r.ops)
  {
    ghost var before := Planned(s, plan, p);
    TurnFromHalfway(s, before, p, full, newId);
    var changed := Find(s.manifest, p) != Some(Digest(s.files[p])) || p !in s.generations;
    var gen := if changed then newId else s.generations[p];
    r := plan;
    if changed {
      r := RetireForChange(s, r, p);
    }
    r := WriteUpsert(s, r, p, full, gen, changed);
  }

  lemma TurnFromHalfway(s: Snapshot, before: ExportResult, p: Path, full: bool, newId: Id)
    requires p in s.files && before.Exported? && Halfway(s, before, p, full, newId)
    requires before.state.file == Some(s.files[p]) && before.state.manifest == Some(Digest(s.files[p]))
    ensures var changed := Find(s.manifest, p) != Some(Digest(s.files[p])) || p !in s.generations;
            var gone := if p in s.generations then {s.generations[p]} else {};
            var row1 := if changed then RetireTombs(RetireUps(before.state, gone),
                before.state.tombs.Keys).(relay := None)
                        else before.state;
            Turned(row1, before.ops, s.files[p], Find(s.manifest, p), if changed then newId
                else s.generations[p], full, changed)
            == Export(s.Row(p), full, newId)
  {
    var d := ExportDelete(s.Row(p), full, newId);
    TurnIsExport(before.state, d.state, before.ops, full, newId);
  }

  // Only the row of p changes, and deletes still come first.
  ghost predicate OnlyRow(s: Snapshot, plan: Plan, r: Plan, p: Path) {
    && r.manifest == plan.manifest && r.tombstones == plan.tombstones && r.pendingTombs == plan.pendingTombs
    && (forall q :: q != p ==> Planned(s, r, q) == Planned(s, plan, q))
    && (DeletesThenUpserts(plan.ops) ==> DeletesThenUpserts(r.ops))
  }

  method SetGeneration(s: Snapshot, plan: Plan, p: Path, gen: Id) returns (r: Plan)
    ensures OnlyRow(s, plan, r, p)
    ensures Planned(s, r, p) == Exported(Planned(s, plan, p).state.(gen := Some(gen)), Planned(s, plan, p).ops)
  {
    r := plan.(generations := plan.generations[p := gen]);
  }

  // The operation is written and the path has nothing left to relay.
  method Publish(s: Snapshot, plan: Plan, p: Path, gen: Id, op: SkillOp) returns (r: Plan)
    requires op.Upsert?
    ensures OnlyRow(s, plan, r, p)
    ensures Planned(s, r, p) ==
              Exported(WithGen(Planned(s, plan, p).state, gen).(relay := None), Planned(s, plan, p).ops + [op])
  {
    OpsForAppendAll(plan.ops, p, op);
    if DeletesThenUpserts(plan.ops) {
      DeletesThenOneUpsert(plan.ops, p, op);
    }
    r := plan.(ops := plan.ops + [(p, op)], relays := plan.relays - {p}, generations := plan.generations[p := gen]);
  }

  // The tables between the second and the third loop.
  method PlanDeletes(s: Snapshot, full: bool, newId: Path -> Id) returns (ok: bool, plan: Plan)
    requires s.Valid()
    ensures ok <==> NoneBare(s, {})
    ensures ok ==> NoEmptyCandidates(plan.tombstones) && NoEmptyCandidates(plan.pendingTombs)
    ensures ok ==> plan.manifest == map p | p in s.files :: Digest(s.files[p])
    ensures ok ==> forall p :: Halfway(s, Planned(s, plan, p), p, full, newId(p))
    ensures ok ==> DeletesThenUpserts(plan.ops)
  {
    var m;
    ok, m := MarkAllVanished(s, full, newId);
    plan := Plan([], map[], map[], map[], map[], map[], map[], map[]);
    if !ok {
      return;
    }
    var ops := EmitDeletes(m.deletions, m.retired);
    plan := PlanOf(s, m, ops);
    forall p
      ensures Halfway(s, Planned(s, plan, p), p, full, newId(p))
    {
      MarkedIsHalfway(s, m, ops, p, full, newId);
    }
  }

  function PlanOf(s: Snapshot, m: Marks, ops: seq<(Path, SkillOp)>): Plan {
    Plan(ops, map p | p in s.files :: Digest(s.files[p]), map[], m.relays, m.retired, m.tombs,
         s.pendingTombs - m.deletions.Keys, s.retiredTombs)
  }

  // The delete part of a row's export, from what the first loop has marked.
  lemma DeletePart(row: PathState, m: MarkRow, full: bool, newId: Id)
    requires m == Marked(row, full, newId) && (Vanished(row) ==> row.gen.Some?)
    ensures ExportDelete(row, full, newId) ==
              Exported(row.(tombs := m.tombs, retiredUps := m.retired, relay := m.relay,
                            pendingTombs := if m.due == map[] then row.pendingTombs else map[]),
                       if m.due == map[] then [] else [DeleteOp(m.due, m.retired)])
  {
  }

  lemma MarkedState(s: Snapshot, m: Marks, ops: seq<(Path, SkillOp)>, p: Path, full: bool)
    requires s.Valid() && NoEmptyCandidates(m.deletions)
    requires p !in m.deletions ==> full || s.Row(p).pendingTombs == map[] || m.At(p).due == map[]
    ensures var row, mark := s.Row(p), m.At(p);
            PlanOf(s, m, ops).Row(p, row.file, row.conflicts).(manifest := row.manifest, gen := row.gen) ==
              row.(tombs := mark.tombs, retiredUps := mark.retired, relay := mark.relay,
                   pendingTombs := if mark.due == map[] then row.pendingTombs else map[])
  {
  }

  lemma MarkedIsHalfway(s: Snapshot, m: Marks, ops: seq<(Path, SkillOp)>, p: Path, full: bool, newId: Path -> Id)
    requires s.Valid() && NoneBare(s, {}) && Marking(s, m, {}, full, newId) && Emitted(ops, m.deletions, m.retired, {})
    ensures Halfway(s, Planned(s, PlanOf(s, m, ops), p), p, full, newId(p))
  {
    DeletePart(s.Row(p), m.At(p), full, newId(p));
    MarkedState(s, m, ops, p, full);
    assert OpsFor(ops, p) == DeletesAt(m.deletions, m.retired, {}, p);
  }

  // How far the third loop has got when `todo` is left.
  ghost predicate Progress(s: Snapshot, start: Plan, plan: Plan, todo: set<Path>, full: bool, newId: Path -> Id) {
    && NoEmptyCandidates(plan.tombstones) && NoEmptyCandidates(plan.pendingTombs)
    && plan.manifest == start.manifest
    && DeletesThenUpserts(plan.ops)
    && (forall p :: p in todo || p !in s.files ==> Planned(s, plan, p) == Planned(s, start, p))
    && (forall p :: p in s.files && p !in todo ==> Planned(s, plan, p) == RowExport(s, p, full, newId))
  }

  lemma OneTurn(s: Snapshot, start: Plan, plan: Plan, next: Plan, p: Path, todo: set<Path>, full: bool,
                newId: Path -> Id)
    requires Progress(s, start, plan, todo, full, newId) && p in todo && p in s.files
    requires NoEmptyCandidates(next.tombstones) && NoEmptyCandidates(next.pendingTombs)
    requires next.manifest == plan.manifest && DeletesThenUpserts(next.ops)
    requires Planned(s, next, p) == RowExport(s, p, full, newId)
    requires forall q :: q != p ==> Planned(s, next, q) == Planned(s, plan, q)
    ensures Progress(s, start, next, todo - {p}, full, newId)
  {
  }

  // Third loop: one turn for every file.
  method EmitUpserts(s: Snapshot, start: Plan, full: bool, newId: Path -> Id) returns (plan: Plan)
    requires NoEmptyCandidates(start.tombstones) && NoEmptyCandidates(start.pendingTombs)
    requires start.manifest == map p | p in s.files :: Digest(s.files[p])
    requires forall p :: Halfway(s, Planned(s, start, p), p, full, newId(p))
    requires DeletesThenUpserts(start.ops)
    ensures Progress(s, start, plan, {}, full, newId)
  {
    plan := start;
    var todo := s.files.Keys;
    while todo != {}
      invariant todo <= s.files.Keys
      invariant Progress(s, start, plan, todo, full, newId)
    {
      var p :| p in todo;
      assert Planned(s, plan, p) == Planned(s, start, p);
      var next := EmitUpsert(s, plan, p, full, newId(p));
      OneTurn(s, start, plan, next, p, todo, full, newId);
      plan, todo := next, todo - {p};
    }
  }

  lemma FailsIfBare(s: Snapshot, full: bool, newId: Path -> Id)
    ensures NoneBare(s, {}) <==> forall p :: !RowExport(s, p, full, newId).NoGeneration?
  {
    forall p
      ensures RowExport(s, p, full, newId).NoGeneration? <==> Vanished(s.Row(p)) && s.Row(p).gen.None?
    {
    }
  }

  // plan_export reads the tables and changes none of them.
  method PlanExport(s: Snapshot, full: bool, newId: Path -> Id) returns (ok: bool, plan: Plan)
    requires s.Valid()
    ensures ok <==> forall p :: !RowExport(s, p, full, newId).NoGeneration?
    ensures ok ==> NoEmptyCandidates(plan.tombstones) && NoEmptyCandidates(plan.pendingTombs)
    ensures ok ==> forall p :: RowExport(s, p, full, newId) == Planned(s, plan, p)
    ensures ok ==> DeletesThenUpserts(plan.ops)
  {
    ok, plan := PlanDeletes(s, full, newId);
    FailsIfBare(s, full, newId);
    if !ok {
      return;
    }
    ghost var start := plan;
    plan := EmitUpserts(s, plan, full, newId);
    forall p
      ensures RowExport(s, p, full, newId) == Planned(s, plan, p)
    {
      if p !in s.files {
        assert Halfway(s, Planned(s, start, p), p, full, newId(p));
        assert p !in plan.manifest;
      }
    }
  }
}
