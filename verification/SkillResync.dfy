// A device whose published files were lost publishes everything again.
module SkillResyncs {
  import opened Options
  import opened SkillTypes
  import opened SkillInvariants
  import opened SkillImports
  import opened SkillReplay

  // What the first pass of a full export does to a device that has nothing.
  lemma BlankTakesDelete(op: SkillOp, device: Device, seqNo: int)
    requires op.Delete? && Parses(op) && Bases(op.tombs) <= op.retiredUps
    ensures Apply(BLANK, device, seqNo, op, false, false) ==
            Applied(BLANK.(retiredUps := op.retiredUps, tombs := op.tombs, pendingTombs := op.tombs), Noted)
  {
    assert op.tombs - {} == op.tombs;
    assert NewlySeen(BLANK.(retiredUps := op.retiredUps), op.tombs) == op.tombs;
    assert map[] + op.tombs == op.tombs;
    assert {} + (op.retiredUps + Bases(op.tombs)) == op.retiredUps;
    assert exists id :: id in op.tombs;
    assert Prepared(BLANK, device, seqNo, op) == BLANK.(retiredUps := op.retiredUps);
  }

  // ... and the second one, after it.
  lemma BlankTakesUpsert(t: PathState, op: SkillOp, device: Device, seqNo: int)
    requires op.Upsert? && Parses(op) && op.baseHash == Missing && t.file.None? && t.gen.None? && t.conflicts == []
    requires op.gen !in t.retiredUps && op.gen !in Bases(t.tombs)
    ensures var r := Apply(t, device, seqNo, op, false, false);
            && HasEffect(r, Wrote(op.gen)) && r.state.file == Some(op.content) && r.state.gen == Some(op.gen)
            && r.state.manifest == Some(op.contentHash) && r.state.retiredUps == t.retiredUps + op.retiredUps
            && r.state.tombs == t.tombs - op.retiredTombs && r.state.retiredTombs == t.retiredTombs + op.retiredTombs
            && r.state.conflicts == []
  {
  }

  lemma ReplayOne(p: PathState, device: Device, seqNo: int, op: SkillOp)
    requires var r := Apply(p, device, seqNo, op, false, false); r.Applied? && !r.effect.Conflicted?
    ensures Replay(p, device, seqNo, [op]) == Some(Apply(p, device, seqNo, op, false, false).state)
  {
    var r := Apply(p, device, seqNo, op, false, false);
    assert [op][1..] == [];
    assert Replay(r.state, device, seqNo, []) == Some(r.state);
  }

  // What a full export says in its first pass.
  lemma FullDelete(s: PathState, newId: Id)
    requires Inv(s) && newId !in Known(s) && ExportDelete(s, true, newId).Exported?
    ensures var d, marked := ExportDelete(s, true, newId), MarkVanished(s, newId);
            && d.state == marked.(pendingTombs := d.state.pendingTombs)
            && (marked.tombs == map[] ==> d.ops == [])
            && (marked.tombs != map[] ==>
                  && |d.ops| == 1 && d.ops[0].Delete? && Parses(d.ops[0])
                  && d.ops[0].tombs == marked.tombs && d.ops[0].retiredUps == marked.retiredUps)
            && Bases(marked.tombs) <= marked.retiredUps
  {
    DeleteParses(s, true, newId);
    assert Due(s, true, newId) == MarkVanished(s, newId).tombs;
    if ExportDelete(s, true, newId).ops != [] {
      assert ExportDelete(s, true, newId).ops[0] in ExportDelete(s, true, newId).ops;
    }
  }

  // What a blank device holds after the first pass.
  lemma AfterDeletes(s: PathState, newId: Id, device: Device, seqNo: int)
    requires Inv(s) && newId !in Known(s) && ExportDelete(s, true, newId).Exported?
    ensures var d := ExportDelete(s, true, newId);
            var p := Replay(BLANK, device, seqNo, d.ops);
            && p.Some? && p.value.file.None? && p.value.gen.None? && p.value.conflicts == []
            && p.value.tombs == d.state.tombs && p.value.retiredTombs == {}
            && (d.ops == [] ==> p.value == BLANK) && (d.ops != [] ==> p.value.retiredUps == d.state.retiredUps)
            && Bases(d.state.tombs) <= d.state.retiredUps
  {
    var d := ExportDelete(s, true, newId);
    FullDelete(s, newId);
    if d.ops != [] {
      BlankTakesDelete(d.ops[0], device, seqNo);
      ReplayOne(BLANK, device, seqNo, d.ops[0]);
      assert d.ops == [d.ops[0]];
    }
  }

  lemma FullUpsert(s: PathState, newId: Id)
    requires Inv(s) && RelaysPlainly(s) && s.file.Some? && newId !in Known(s)
    requires LocallyChanged(s) || s.gen.value !in s.retiredUps
    ensures var u := ExportUpsert(s, true, newId);
            && u.Exported? && |u.ops| == 1 && u.ops[0].Upsert? && Parses(u.ops[0])
            && Some(u.ops[0].gen) == u.state.gen && Some(u.ops[0].contentHash) == u.state.manifest
            && Some(u.ops[0].content) == s.file == u.state.file && u.ops[0].baseHash == Missing
            && u.ops[0].retiredUps == u.state.retiredUps && u.ops[0].retiredTombs == u.state.retiredTombs
            && u.state.tombs == s.tombs - u.state.retiredTombs && s.retiredUps <= u.state.retiredUps
            && u.ops[0].gen !in s.retiredUps
  {
  }

  // The reader holds what the exporter holds.
  ghost predicate Restored(p: PathState, s: PathState) {
    && p.file == s.file && p.gen == s.gen && p.tombs == s.tombs && p.manifest == s.manifest
    && p.retiredUps == s.retiredUps && p.retiredTombs == s.retiredTombs && p.conflicts == []
  }

  // Between the two passes.
  ghost predicate HalfRestored(p: PathState, s: PathState) {
    && p.file.None? && p.gen.None? && p.conflicts == [] && p.tombs == s.tombs && p.retiredTombs == {}
    && p.retiredUps <= s.retiredUps && Bases(s.tombs) <= s.retiredUps
  }

  lemma UpsertRestores(s: PathState, newId: Id, p: PathState, device: Device, seqNo: int)
    requires Inv(s) && RelaysPlainly(s) && s.file.Some? && newId !in Known(s) && HalfRestored(p, s)
    requires LocallyChanged(s) || s.gen.value !in s.retiredUps
    ensures var u := ExportUpsert(s, true, newId);
            && u.Exported? && |u.ops| == 1
            && var r := Apply(p, device, seqNo, u.ops[0], false, false);
               r.Applied? && !r.effect.Conflicted? && Restored(r.state, u.state)
  {
    FullUpsert(s, newId);
    BlankTakesUpsert(p, ExportUpsert(s, true, newId).ops[0], device, seqNo);
  }

  lemma ReplayThen(ops: seq<SkillOp>, last: seq<SkillOp>, device: Device, seqNo: int)
    requires Replay(BLANK, device, seqNo, ops).Some? && |last| == 1
    requires var r := Apply(Replay(BLANK, device, seqNo, ops).value, device, seqNo, last[0], false, false);
             r.Applied? && !r.effect.Conflicted?
    ensures Replay(BLANK, device, seqNo, ops + last) ==
            Some(Apply(Replay(BLANK, device, seqNo, ops).value, device, seqNo, last[0], false, false).state)
  {
    ReplayOne(Replay(BLANK, device, seqNo, ops).value, device, seqNo, last[0]);
    assert last == [last[0]];
    ReplayAppend(BLANK, device, seqNo, ops, last);
  }

  lemma RestoresFile(s: PathState, newId: Id, device: Device, seqNo: int)
    requires Inv(s) && RelaysPlainly(s) && newId !in Known(s) && s.file.Some? && !Poisoned(s, true)
    ensures var e := Export(s, true, newId);
            && e.Exported?
            && var p := Replay(BLANK, device, seqNo, e.ops); p.Some? && Restored(p.value, e.state)
  {
    var d := ExportDelete(s, true, newId);
    assert MarkVanished(s, newId) == s;
    FullDelete(s, newId);
    AfterDeletes(s, newId, device, seqNo);
    ExportDeleteKeepsInv(s, true, newId);
    UpsertRestores(d.state, newId, Replay(BLANK, device, seqNo, d.ops).value, device, seqNo);
    ReplayThen(d.ops, ExportUpsert(d.state, true, newId).ops, device, seqNo);
  }

  // Main result: a device that starts with nothing and reads a full export ends up, if
  // there is a file, with the exporter's file, generation, tombstones and everything it
  // has retired, and otherwise with its tombstones and what they have retired.
  lemma FullResyncRestores(s: PathState, newId: Id, device: Device, seqNo: int)
    requires Inv(s) && RelaysPlainly(s) && newId !in Known(s)
    requires Export(s, true, newId).Exported? && !Poisoned(s, true)
    ensures var e := Export(s, true, newId);
            var p := Replay(BLANK, device, seqNo, e.ops);
            && p.Some? && p.value.file == s.file && p.value.gen == e.state.gen && p.value.tombs == e.state.tombs
            && (s.file.Some? ==> Restored(p.value, e.state))
            && (e.ops != [] ==> p.value.retiredUps == e.state.retiredUps)
  {
    AfterDeletes(s, newId, device, seqNo);
    if s.file.Some? {
      RestoresFile(s, newId, device, seqNo);
    }
  }
}
