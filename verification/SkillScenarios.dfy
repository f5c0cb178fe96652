// Runs that show where the protocol falls short of what one might hope, with the
// smallest contents that do it. The exact conditions are ExportParsesIff,
// ExportFailsIff and RetiredBecomesCurrentOnlyByKeeping in SkillInvariants.
module SkillScenarios {
  import opened Options
  import opened SkillTypes
  import opened SkillInvariants

  const C1 := Content([1], false)
  const C2 := Content([2], false)
  const C3 := Content([3], false)

  // The author writes C1, C2 and C3 and exports after each (the first export of
  // a device is a full resync).
  const FIRST := Upsert(1, C1, Digest(C1), Missing, None, {}, {})
  const SECOND := Upsert(2, C2, Digest(C2), Digest(C1), None, {}, {1})
  const THIRD := Upsert(3, C3, Digest(C3), Digest(C2), None, {}, {1, 2})

  // What the author holds after n exports, and what a peer holds after n imports.
  const AUTHOR1 := BLANK.(file := Some(C1), manifest := Some(Digest(C1)), gen := Some(1))
  const AUTHOR2 := BLANK.(file := Some(C2), manifest := Some(Digest(C2)), gen := Some(2), retiredUps := {1})
  const PEER1 := AUTHOR1.(relay := Some(Relay(1, Missing, None, {})))
  const PEER2 := AUTHOR2.(relay := Some(Relay(2, Missing, Some(Digest(C1)), {})))
  const PEER3 := BLANK.(file := Some(C3), manifest := Some(Digest(C3)), gen := Some(3), retiredUps := {1, 2},
                        relay := Some(Relay(3, Missing, Some(Digest(C2)), {})))

  lemma RunOne(s: PathState, e: Event, rest: seq<Event>)
    ensures Run(s, [e] + rest) == Run(Step(s, e).state, rest)
  {
    assert ([e] + rest)[1..] == rest;
  }

  lemma RunTwo(s: PathState, e1: Event, e2: Event)
    ensures Run(s, [e1, e2]) == Step(Step(s, e1).state, e2).state
  {
    RunOne(s, e1, [e2]);
    RunOne(Step(s, e1).state, e2, []);
  }

  lemma RunThree(s: PathState, e1: Event, e2: Event, e3: Event)
    ensures Run(s, [e1, e2, e3]) == Step(Step(Step(s, e1).state, e2).state, e3).state
  {
    RunOne(s, e1, [e2, e3]);
    RunTwo(Step(s, e1).state, e2, e3);
  }

  // The three operations are what the author exports.
  ghost predicate AuthorPublishesThem() {
    && Export(BLANK.(file := Some(C1)), true, 1) == Exported(AUTHOR1, [FIRST])
    && Export(AUTHOR1.(file := Some(C2)), false, 2) == Exported(AUTHOR2, [SECOND])
    && var e := Export(AUTHOR2.(file := Some(C3)), false, 3); e.Exported? && e.ops == [THIRD]
  }

  lemma AuthorPublishes()
    ensures AuthorPublishesThem()
  {
    PublishesChange(BLANK.(file := Some(C1)), true, 1);
    PublishesChange(AUTHOR1.(file := Some(C2)), false, 2);
    assert {1} + {2} == {1, 2} && {} + {1} == {1};
    PublishesChange(AUTHOR2.(file := Some(C3)), false, 3);
    var third := Export(AUTHOR2.(file := Some(C3)), false, 3);
    assert third.ops[0].retiredUps == {1, 2};
  }

  // A changed file on a row without tombstones.
  lemma PublishesChange(s: PathState, full: bool, newId: Id)
    requires LocallyChanged(s) && s.tombs == map[] && s.pendingTombs == map[] && s.retiredTombs == {}
    ensures var hash := Digest(s.file.value);
            var retired := s.retiredUps + (if s.gen.Some? then {s.gen.value} else {});
            var base := if full || s.manifest.None? then Missing else s.manifest.value;
            Export(s, full, newId) ==
              Exported(s.(manifest := Some(hash), gen := Some(newId), retiredUps := retired, relay := None),
                       [Upsert(newId, s.file.value, hash, base, if full then s.manifest else None, {}, retired)])
  {
    var u := ExportUpsert(s, full, newId);
    assert u.ops[0].retiredTombs == {};
    assert u.state.tombs == map[] && u.state.pendingTombs == map[] && u.state.retiredTombs == {};
    assert [] + u.ops == u.ops;
  }

  // Importing an upsert into a row that holds its base.
  lemma WritesOver(s: PathState, device: Device, seqNo: int, op: SkillOp)
    requires op.Upsert? && Parses(op) && op.retiredTombs == {} && s.gen != Some(op.gen)
    requires op.gen !in s.retiredUps && s.tombs == map[] && s.pendingTombs == map[] && s.conflicts == []
    requires HashOf(s.file) == op.baseHash != op.contentHash
    ensures Step(s, Import(device, seqNo, op, false)) ==
            StepResult(s.(file := Some(op.content), manifest := Some(op.contentHash), gen := Some(op.gen),
                          relay := Some(RelayOf(op)),
                          retiredUps := s.retiredUps + op.retiredUps + (if s.gen.Some? then {s.gen.value} else {})),
                       Wrote(op.gen))
  {
    assert SupersedeOlder(s, device, seqNo) == s;
    var t := Step(s, Import(device, seqNo, op, false)).state;
    assert t.tombs == map[] && t.pendingTombs == map[] && t.retiredTombs == s.retiredTombs;
  }

  // Importing an upsert into a row that holds something else.
  lemma ConflictsWith(s: PathState, device: Device, seqNo: int, op: SkillOp)
    requires op.Upsert? && Parses(op) && s.gen != Some(op.gen)
    requires op.gen !in s.retiredUps && s.tombs == map[]
    requires forall i | 0 <= i < |s.conflicts| :: s.conflicts[i].device != device
    requires HashOf(s.file) !in {op.baseHash, op.contentHash} && op.recovery != Some(HashOf(s.file))
    ensures Step(s, Import(device, seqNo, op, false)) ==
            StepResult(Record(s.(retiredUps := s.retiredUps + op.retiredUps), device, seqNo, op), Conflicted)
  {
    assert SupersedeOlder(s, device, seqNo) == s;
  }

  // A second device has all three; its first export relays the last one.
  lemma RelayOvertakes()
    ensures Run(BLANK, [Import(1, 1, FIRST, false), Import(1, 2, SECOND, false), Import(1, 3, THIRD, false)]) == PEER3
    ensures Export(PEER3, true, 4) == Exported(PEER3.(relay := None),
              [Upsert(3, C3, Digest(C3), Missing, Some(Digest(C3)), {}, {1, 2})])
  {
    RunThree(BLANK, Import(1, 1, FIRST, false), Import(1, 2, SECOND, false), Import(1, 3, THIRD, false));
    WritesOver(BLANK, 1, 1, FIRST);
    WritesOver(PEER1, 1, 2, SECOND);
    WritesOver(PEER2, 1, 3, THIRD);
    var e := ExportUpsert(PEER3, true, 4);
    assert e.ops[0].retiredTombs == {};
    assert [] + e.ops == e.ops;
  }

  // Main result: a third device that has only the first operation when the relay
  // of the third arrives then publishes a relay of its own that no peer accepts:
  // the current generation and the claim that it is retired.
  lemma PoisonedRelayIsReachable(newId: Id)
    ensures AuthorPublishesThem()
    ensures Run(BLANK, [Import(1, 1, FIRST, false), Import(1, 2, SECOND, false), Import(1, 3, THIRD, false)]) == PEER3
    ensures var relayed := Export(PEER3, true, 4).ops[0];
            var c := Run(BLANK, [Import(1, 1, FIRST, false), Import(2, 1, relayed, false)]);
            && c.gen == Some(1) && 1 in c.retiredUps && Poisoned(c, false)
            && var e := Export(c, false, newId);
               && e.Exported? && |e.ops| == 1 && !Parses(e.ops[0])
               && (forall s: PathState :: Apply(s, 3, 1, e.ops[0], false, false).Rejected?)
  {
    AuthorPublishes();
    RelayOvertakes();
    OvertakenRun();
    PoisonedExport(Run(BLANK, [Import(1, 1, FIRST, false), Import(2, 1, RELAYED, false)]), newId);
  }

  // What the second device relays.
  const RELAYED := Upsert(3, C3, Digest(C3), Missing, Some(Digest(C3)), {}, {1, 2})

  lemma OvertakenRun()
    ensures var c := Run(BLANK, [Import(1, 1, FIRST, false), Import(2, 1, RELAYED, false)]);
            c == Record(PEER1.(retiredUps := {1, 2}), 2, 1, RELAYED)
  {
    RunTwo(BLANK, Import(1, 1, FIRST, false), Import(2, 1, RELAYED, false));
    WritesOver(BLANK, 1, 1, FIRST);
    ConflictsWith(PEER1, 2, 1, RELAYED);
    assert {} + {1, 2} == {1, 2};
  }

  lemma PoisonedExport(c: PathState, newId: Id)
    requires c == Record(PEER1.(retiredUps := {1, 2}), 2, 1, RELAYED)
    ensures c.gen == Some(1) && 1 in c.retiredUps && Poisoned(c, false)
    ensures var e := Export(c, false, newId);
            && e.Exported? && |e.ops| == 1 && !Parses(e.ops[0])
            && (forall s: PathState :: Apply(s, 3, 1, e.ops[0], false, false).Rejected?)
  {
    assert Export(c, false, newId).ops == [] + ExportUpsert(c, false, newId).ops;
  }

  const GONE := Delete(Digest(C1), Missing, map[7 := Target(1, Digest(C1))], {1})

  lemma AuthorDeletes()
    ensures var e := Export(AUTHOR1.(file := None), false, 7); e.Exported? && e.ops == [GONE]
  {
    var s := AUTHOR1.(file := None);
    var due := Due(s, false, 7);
    assert due == map[7 := Target(1, Digest(C1))];
    assert 7 in due && FirstId(due) in due;
    assert {} + {1} == {1};
  }

  lemma DeleteConflictsWithEdit()
    ensures Step(PEER1.(file := Some(C2)), Import(1, 2, GONE, false)) ==
            StepResult(Record(PEER1.(file := Some(C2), retiredUps := {1}), 1, 2, GONE), Conflicted)
  {
    var s := PEER1.(file := Some(C2));
    assert SupersedeOlder(s, 1, 2) == s;
    assert GONE.tombs[7] == Target(1, Digest(C1));
    assert Bases(GONE.tombs) == {1};
    assert RetireUps(s, {1}).retiredUps == {1};
    assert SupersedeTargeted(s.(retiredUps := {1}), {1}) == s.(retiredUps := {1});
    assert GONE.tombs - {} == GONE.tombs;
  }

  // Keeping a local edit against a delete and then deleting the file as well
  // leaves an entry no export gets past.
  lemma KeepLocalThenDeleteBlocksExport(full: bool, newId: Id)
    ensures Export(BLANK.(file := Some(C1)), true, 1) == Exported(AUTHOR1, [FIRST])
    ensures var e := Export(AUTHOR1.(file := None), false, 7); e.Exported? && e.ops == [GONE]
    ensures var edited := Run(BLANK, [Import(1, 1, FIRST, false), Edit(Some(C2)), Import(1, 2, GONE, false)]);
            var s := Run(edited, [Settle(0, KeepLocal, false), Edit(None)]);
            s.manifest == Some(Missing) && Export(s, full, newId).NoGeneration?
  {
    AuthorPublishes();
    AuthorDeletes();
    KeptAgainstDelete();
  }

  lemma KeptAgainstDelete()
    ensures var edited := Run(BLANK, [Import(1, 1, FIRST, false), Edit(Some(C2)), Import(1, 2, GONE, false)]);
            var s := Run(edited, [Settle(0, KeepLocal, false), Edit(None)]);
            s.manifest == Some(Missing) && s.file.None? && s.gen.None?
  {
    RunThree(BLANK, Import(1, 1, FIRST, false), Edit(Some(C2)), Import(1, 2, GONE, false));
    WritesOver(BLANK, 1, 1, FIRST);
    DeleteConflictsWithEdit();
    var edited := Run(BLANK, [Import(1, 1, FIRST, false), Edit(Some(C2)), Import(1, 2, GONE, false)]);
    RunTwo(edited, Settle(0, KeepLocal, false), Edit(None));
    assert GONE.tombs[7] == Target(1, Digest(C1));
    assert Parses(GONE);
    assert edited.conflicts == [Conflict(1, 2, GONE, Pending)];
  }

  // Another device's first export of the same path, and that of a third device
  // that has imported it and changed the file.
  const THEIRS := Upsert(5, C2, Digest(C2), Missing, None, {}, {})
  const NEWER := Upsert(6, C3, Digest(C3), Missing, Some(Digest(C2)), {}, {5})

  ghost predicate OthersPublishThem() {
    && Export(BLANK.(file := Some(C2)), true, 5).Exported? && Export(BLANK.(file := Some(C2)), true, 5).ops == [THEIRS]
    && var third := Run(BLANK, [Import(2, 1, THEIRS, false), Edit(Some(C3))]);
       var e := Export(third, true, 6);
       e.Exported? && e.ops == [NEWER]
  }

  lemma OthersPublish()
    ensures OthersPublishThem()
  {
    PublishesChange(BLANK.(file := Some(C2)), true, 5);
    RunTwo(BLANK, Import(2, 1, THEIRS, false), Edit(Some(C3)));
    WritesOver(BLANK, 2, 1, THEIRS);
    var third := Run(BLANK, [Import(2, 1, THEIRS, false), Edit(Some(C3))]);
    assert third.retiredUps == {};
    PublishesChange(third, true, 6);
    assert {} + {5} == {5};
  }

  // keep_local on a conflict whose generation a third device has since retired
  // makes that generation current again.
  lemma KeepLocalRevivesRetired()
    ensures AuthorPublishesThem() && OthersPublishThem()
    ensures var s := Run(BLANK, [Import(1, 1, FIRST, false), Import(2, 1, THEIRS, false), Import(3, 1, NEWER, false)]);
            && 5 in s.retiredUps && s.gen == Some(1)
            && Step(s, Settle(0, KeepLocal, false)).state.gen == Some(5)
  {
    AuthorPublishes();
    OthersPublish();
    RevivedRun();
  }

  lemma RevivedRun()
    ensures var s := Run(BLANK, [Import(1, 1, FIRST, false), Import(2, 1, THEIRS, false), Import(3, 1, NEWER, false)]);
            && 5 in s.retiredUps && s.gen == Some(1)
            && Step(s, Settle(0, KeepLocal, false)).state.gen == Some(5)
  {
    RunThree(BLANK, Import(1, 1, FIRST, false), Import(2, 1, THEIRS, false), Import(3, 1, NEWER, false));
    WritesOver(BLANK, 1, 1, FIRST);
    ConflictsWith(PEER1, 2, 1, THEIRS);
    ConflictsWith(Step(PEER1, Import(2, 1, THEIRS, false)).state, 3, 1, NEWER);
    var s := Run(BLANK, [Import(1, 1, FIRST, false), Import(2, 1, THEIRS, false), Import(3, 1, NEWER, false)]);
    assert s.conflicts == [Conflict(2, 1, THEIRS, Pending), Conflict(3, 1, NEWER, Pending)];
  }
}
