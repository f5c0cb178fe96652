// The tables of one device and the operations that change them in place. Every
// operation is proved to change its own row as SkillTypes says and no other.
module SkillStores {
  import opened Options
  import opened SkillTypes
  import opened SkillExports

  class SkillStore {
    var files: map<Path, Content>
    var manifest: map<Path, Hash>
    var generations: map<Path, Id>
    var relays: map<Path, Relay>
    var retiredUps: map<Path, set<Id>>
    var tombstones: map<Path, map<Id, Target>>
    var pendingTombs: map<Path, map<Id, Target>>
    var retiredTombs: map<Path, set<Id>>
    var conflicts: map<Path, seq<Conflict>>

    function Load(): Snapshot
      reads this
    {
      Snapshot(files, manifest, generations, relays, retiredUps, tombstones, pendingTombs, retiredTombs, conflicts)
    }

    ghost predicate Valid()
      reads this
    {
      Load().Valid()
    }

    function Row(p: Path): PathState
      reads this
    {
      Load().Row(p)
    }

    // Only the row of p may have changed.
    twostate predicate OnlyRow(p: Path)
      reads this
    {
      forall q :: q != p ==> Row(q) == old(Row(q))
    }

    constructor ()
      ensures Valid() && forall p :: Row(p) == BLANK
    {
      files, manifest, generations, relays := map[], map[], map[], map[];
      retiredUps, tombstones, pendingTombs, retiredTombs := map[], map[], map[], map[];
      conflicts := map[];
    }

    method RetireUpsertEntries(p: Path, ids: set<Id>)
      requires Valid()
      modifies this
      ensures Valid() && OnlyRow(p) && Row(p) == RetireUps(old(Row(p)), ids)
    {
      if ids == {} {
        return;
      }
      retiredUps := retiredUps[p := IdsAt(retiredUps, p) + ids];
    }

    method UpdateTombstoneEntry(p: Path, seen: map<Id, Target>)
      requires Valid()
      modifies this
      ensures Valid() && OnlyRow(p) && Row(p) == NoteTombs(old(Row(p)), seen)
    {
      var news := NewlySeen(Row(p), seen);
      if news == map[] {
        return;
      }
      tombstones := PutTombs(tombstones, p, TombsAt(tombstones, p) + news);
      pendingTombs := PutTombs(pendingTombs, p, TombsAt(pendingTombs, p) + news);
    }

    method RetireTombstoneEntries(p: Path, ids: set<Id>)
      requires Valid()
      modifies this
      ensures Valid() && OnlyRow(p) && Row(p) == RetireTombs(old(Row(p)), ids)
    {
      if ids == {} {
        return;
      }
      tombstones := PutTombs(tombstones, p, TombsAt(tombstones, p) - ids);
      pendingTombs := PutTombs(pendingTombs, p, TombsAt(pendingTombs, p) - ids);
      retiredTombs := retiredTombs[p := IdsAt(retiredTombs, p) + ids];
    }

    method RemoveManifestEntry(p: Path)
      requires Valid()
      modifies this
      ensures Valid() && OnlyRow(p) && Row(p) == Forget(old(Row(p)))
    {
      manifest := manifest - {p};
      generations := generations - {p};
      relays := relays - {p};
    }

    method AdoptUpsertEntry(p: Path, op: SkillOp)
      requires Valid() && op.Upsert?
      modifies this
      ensures Valid() && OnlyRow(p) && Row(p) == Adopt(old(Row(p)), op)
    {
      var relay := if p in generations && generations[p] == op.gen then Find(relays, p) else Some(RelayOf(op));
      if p in generations && generations[p] != op.gen {
        RetireUpsertEntries(p, {generations[p]});
      }
      RetireUpsertEntries(p, op.retiredUps);
      SetCurrent(p, op.contentHash, Some(op.gen), relay);
      assert Row(p).retiredUps == Adopt(old(Row(p)), op).retiredUps;
    }

    method RebaseManifestEntry(p: Path, hash: Hash, gen: Option<Id>)
      requires Valid()
      modifies this
      ensures Valid() && OnlyRow(p) && Row(p) == Rebase(old(Row(p)), hash, gen)
    {
      var gone := if p in generations && gen != Some(generations[p]) then {generations[p]} else {};
      RetireUpsertEntries(p, gone);
      SetCurrent(p, hash, gen, None);
    }

    // Point the row at a content and a generation, with or without a relay.
    method SetCurrent(p: Path, hash: Hash, gen: Option<Id>, relay: Option<Relay>)
      requires Valid()
      modifies `manifest, `generations, `relays
      ensures Valid() && OnlyRow(p)
      ensures Row(p) == old(Row(p)).(manifest := Some(hash), gen := gen, relay := relay)
    {
      manifest := manifest[p := hash];
      generations := if gen.Some? then generations[p := gen.value] else generations - {p};
      relays := if relay.Some? then relays[p := relay.value] else relays - {p};
    }

    method SetConflicts(p: Path, cs: seq<Conflict>)
      requires Valid()
      modifies `conflicts
      ensures Valid() && OnlyRow(p) && Row(p) == old(Row(p)).(conflicts := cs)
    {
      conflicts := conflicts[p := cs];
    }

    method SetFile(p: Path, file: Option<Content>)
      requires Valid()
      modifies `files
      ensures Valid() && OnlyRow(p) && Row(p) == old(Row(p)).(file := file)
    {
      match file {
        case Some(content) => files := files[p := content];
        case None => files := files - {p};
      }
    }

    method AdoptAbsentDeleteEntry(p: Path, seen: map<Id, Target>)
      requires Valid()
      modifies this
      ensures Valid() && OnlyRow(p) && Row(p) == AdoptAbsentDelete(old(Row(p)), seen)
    {
      RemoveManifestEntry(p);
      UpdateTombstoneEntry(p, seen);
    }

    // apply_with_policy. A rejected operation leaves every table as it was: the
    // source runs each operation in a transaction and fails before it writes.
    method ApplyWithPolicy(p: Path, device: Device, seqNo: int, op: SkillOp, force: bool, blocked: bool)
      returns (ok: bool, effect: Effect)
      requires Valid()
      modifies this
      ensures Valid() && OnlyRow(p)
      ensures var r := Apply(old(Row(p)), device, seqNo, op, force, blocked);
              if ok then r == Applied(Row(p), effect) else r == Rejected && Row(p) == old(Row(p))
    {
      effect := Ignored;
      if !Parses(op) {
        return false, effect;
      }
      ok := true;
      if op.Delete? {
        effect := ApplyDeleteEntry(p, device, seqNo, op, force, blocked);
      } else {
        if p in generations && generations[p] == op.gen && Find(manifest, p) != Some(op.contentHash) {
          return false, effect;
        }
        effect := ApplyUpsertEntry(p, device, seqNo, op, force, blocked);
      }
    }

    method ApplyDeleteEntry(p: Path, device: Device, seqNo: int, op: SkillOp, force: bool, blocked: bool)
      returns (effect: Effect)
      requires Valid() && op.Delete? && Parses(op)
      modifies this
      ensures Valid() && OnlyRow(p)
      ensures Applied(Row(p), effect) == ApplyDelete(old(Row(p)), device, seqNo, op, force, blocked)
    {
      var bases := Bases(op.tombs);
      SetConflicts(p, SupersedeOlder(Row(p), device, seqNo).conflicts);
      RetireUpsertEntries(p, op.retiredUps + bases);
      SetConflicts(p, SupersedeTargeted(Row(p), bases).conflicts);
      var live := op.tombs - IdsAt(retiredTombs, p);
      if live == map[] {
        return Ignored;
      }
      if blocked {
        AdoptAbsentDeleteEntry(p, live);
        return Noted;
      }
      var here := HashOf(Find(files, p));
      if !force && p in generations && generations[p] !in Bases(live) {
        UpdateTombstoneEntry(p, live);
        return Noted;
      }
      if here == op.contentHash {
        AdoptAbsentDeleteEntry(p, live);
        return Noted;
      }
      if force || exists id | id in live ::
           Find(generations, p) == Some(live[id].baseGen) && live[id].baseHash == here {
        SetFile(p, None);
        RemoveManifestEntry(p);
        UpdateTombstoneEntry(p, live);
        return Removed;
      }
      SetConflicts(p, Record(Row(p), device, seqNo, op).conflicts);
      return Conflicted;
    }

    method ApplyUpsertEntry(p: Path, device: Device, seqNo: int, op: SkillOp, force: bool, blocked: bool)
      returns (effect: Effect)
      requires Valid() && op.Upsert?
      requires p in generations && generations[p] == op.gen ==> Find(manifest, p) == Some(op.contentHash)
      modifies this
      ensures Valid() && OnlyRow(p)
      ensures Applied(Row(p), effect) == ApplyUpsert(old(Row(p)), device, seqNo, op, force, blocked)
    {
      SetConflicts(p, SupersedeOlder(Row(p), device, seqNo).conflicts);
      RetireUpsertEntries(p, op.retiredUps);
      if p in generations && generations[p] == op.gen {
        RetireTombstoneEntries(p, op.retiredTombs);
        return Ignored;
      }
      if op.gen in IdsAt(retiredUps, p) {
        RetireTombstoneEntries(p, op.retiredTombs);
        return Ignored;
      }
      if op.gen in Bases(TombsAt(tombstones, p)) {
        return Ignored;
      }
      if blocked && !force {
        SetConflicts(p, Record(Row(p), device, seqNo, op).conflicts);
        return Conflicted;
      }
      var here := HashOf(Find(files, p));
      if here == op.contentHash {
        AdoptUpsertEntry(p, op);
        RetireTombstoneEntries(p, op.retiredTombs);
        return Adopted(op.gen);
      }
      if force || here == op.baseHash || op.recovery == Some(here) {
        SetFile(p, Some(op.content));
        AdoptUpsertEntry(p, op);
        RetireTombstoneEntries(p, op.retiredTombs);
        return Wrote(op.gen);
      }
      SetConflicts(p, Record(Row(p), device, seqNo, op).conflicts);
      return Conflicted;
    }

    // resolve_conflict, on the i-th conflict of the path.
    method ResolveConflict(p: Path, i: nat, choice: Choice, blocked: bool) returns (r: Resolution)
      requires Valid()
      modifies this
      ensures Valid() && OnlyRow(p)
      ensures r == Resolve(old(Row(p)), i, choice, blocked)
      ensures if r.Outdated? || r.Done? then Row(p) == r.state else Row(p) == old(Row(p))
    {
      var cs := ConflictsAt(conflicts, p);
      if i >= |cs| || !cs[i].status.Pending? {
        return NotFound;
      }
      var c := cs[i];
      if HasNewer(Row(p), i) {
        SetConflicts(p, Mark(Row(p), i, Superseded).conflicts);
        return Outdated(Row(p));
      }
      if !Parses(c.op) {
        return Failed;
      }
      var effect := Noted;
      if choice == UseRemote {
        var ok;
        ok, effect := ApplyWithPolicy(p, c.device, 0, c.op, true, blocked);
        if !ok {
          return Failed;
        }
        SetConflicts(p, Mark(Row(p), i, Resolved(false)).conflicts);
      } else {
        RetireTombstoneEntries(p, if c.op.Upsert? then c.op.retiredTombs else c.op.tombs.Keys);
        RebaseManifestEntry(p, c.op.contentHash, if c.op.Upsert? then Some(c.op.gen) else None);
        SetConflicts(p, Mark(Row(p), i, Resolved(true)).conflicts);
      }
      return Done(Row(p), effect);
    }

    // export_ops, as far as skills go: the plan is saved only when it has
    // operations to publish.
    method ExportAll(full: bool, newId: Path -> Id) returns (ok: bool, ops: seq<(Path, SkillOp)>)
      requires Valid()
      modifies this
      ensures Valid()
      ensures ok <==> forall p :: !Export(old(Row(p)), full, newId(p)).NoGeneration?
      ensures ok ==> DeletesThenUpserts(ops)
      ensures ok && ops != [] ==> forall p :: Export(old(Row(p)), full, newId(p)) == Exported(Row(p), OpsFor(ops, p))
      ensures ok && ops == [] ==> forall p :: Export(old(Row(p)), full, newId(p)).ops == []
      ensures !ok || ops == [] ==> forall p :: Row(p) == old(Row(p))
    {
      ghost var s := Load();
      var plan;
      ok, plan := PlanExport(Load(), full, newId);
      ops := plan.ops;
      assert forall p :: RowExport(s, p, full, newId) == Export(old(Row(p)), full, newId(p));
      if ok {
        forall p
          ensures Export(old(Row(p)), full, newId(p)) == Planned(s, plan, p)
        {
          assert RowExport(s, p, full, newId) == Planned(s, plan, p);
        }
        if ops != [] {
          manifest, generations, relays := plan.manifest, plan.generations, plan.relays;
          retiredUps, tombstones := plan.retiredUps, plan.tombstones;
          pendingTombs, retiredTombs := plan.pendingTombs, plan.retiredTombs;
          assert forall p :: Planned(s, plan, p) == Exported(Row(p), OpsFor(ops, p));
        }
      }
    }
  }
}
