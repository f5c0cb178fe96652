# Yachiyo: sync core, process host and message tree

This project models four parts of Yachiyo and proves what they keep:

1. **Custom skills** (`native/sync-core/src/custom_skills.rs`): a replication
   protocol between devices. Per path a device holds a file, a manifest hash, the
   current upsert generation, a pending relay, a grow-only set of retired upsert
   generations and active, pending and retired delete generations. Operations may be
   repeated, relayed by third devices and delivered late. `SkillTypes` is one row,
   `SkillExports` and `SkillStores` the tables and the code that updates them,
   `SkillImports` and `SkillConflicts` when an import or a resolution touches the file
   and how conflicts end, `SkillInvariants`, `SkillReplay`, `SkillResyncs` and
   `SkillQuiescence` what holds over whole runs.
2. **The operation log** (`native/sync-core/src/lib.rs`). `Exports`, `ExportLogs`,
   `ExportPolicies`, `ExportOnce`, `ExportRaces`, `ExportTombs`, `ExportMemories`,
   `ExportStores`: the queue filled by triggers and the
   numbered files, as a transition system with application writes between any two
   steps and a stop anywhere. `Imports`, `ImportPlans`, `ImportRows`, `ImportStores`:
   which files are read, what an operation stores and removes, idempotence, deferral
   and order. `LogReplays`, `LogRuns`, `ChildRuns`: from one device's exports to
   another device's threads, messages and tool calls. `SettingsLines`, `SettingsTexts`, `SettingsLaws`,
   `SettingsMerges`, `SettingsRoundTrips`: what of the settings is published and how
   it is merged with the device's own; `SettingsMatches`: by what. `SettingsClocks`,
   `SettingsKeeps`: snapshots, the vector clock and the user's configuration; `SettingsExchanges`: two devices that answer each other's snapshots.
3. **The process host** (`native/process-host/src/main.rs`): the streaming UTF-8
   decoder (`Utf8`), the bounded tail of the output (`OutputBatches`), how a job
   starts (`Handshakes`), its event loop (`Jobs`) and its exit (`JobExits`).
4. **The message tree** (`packages/shared/src/threadTree.ts`): `MessageTree`,
   `MessageHeads`, `MessageDeletions`.

`Options`, `Sequences`, `ArchiveTypes` and `Iteration` hold what several of these share. Each part is a set of functions on values with the theorems about them, and classes
or methods in the form of the source that are proved to compute those functions.

## Findings

Properties one would expect and the code does not have, with the members that say
when and, except for the check that never decides, show a run or an input:

- **A relay that every peer refuses.** A device whose current generation has been
  retired by an import that ended in a conflict still publishes it: as a relay, or on
  a full resync. The operation claims that its own generation is retired, and every
  parser rejects it, which ends the whole import of every peer that reads it: the
  files after it and the waiting operations are not looked at. `ExportParsesIff` is
  the condition; `PoisonedRelayIsReachable` gets there with three devices, from what
  their exports publish.
- **A path that blocks every export.** After keep_local against a delete the manifest
  entry has no generation; if the file is then deleted, every export fails.
  `ExportFailsIff` is the condition, `KeepLocalThenDeleteBlocksExport` the run.
- **keep_local revives a retired generation.** It is the only step that can.
  `RetiredBecomesCurrentOnlyByKeeping` is the condition, `KeepLocalRevivesRetired`
  the run.
- **The check against active tombstones never decides**: what they target is retired
  already, so in every reachable state an import does the same without the check
  (`TombstoneCheckNeverDecides`).
- **A fast-forward is not a fixed point.** A device with tables of its own re-reads
  the text it has just accepted with one more blank line (`StripOfMergeIff`), so the
  next snapshot based on it conflicts (`FastForwardIff`). When one of two devices
  offers a snapshot that the other takes over, they come to rest with at most two
  more, unless both have tables of their own, the snapshot is not empty, and what the
  receiver makes of it is not what it has published last (`SettlesIff`); then every
  reply publishes one more (`EveryReplyPublishes`). `TwoDevicesNeverSettle` is a run
  of two devices that start with the same file and never come to rest,
  `ShorterTextSettles` one in which the last of the three conditions ends it.
- **A row lost to a race.** When delete history is being rebuilt, a row that comes
  back between the check of its tombstone and the reading of the queue gets an upsert
  and a delete under one number, and peers read the delete last.
  `PublishedIffNotLost` and `AtMostOneOperation` say when a row is lost; a device can
  lose one exactly when delete history has to be rebuilt and a tombstone is saved
  (`LossIff`), and then any row of a saved tombstone that comes back is lost in some
  run (`RecoveryLosesRow`). Read with the second directory visible first, the two
  operations have the opposite effect (`RacedFilesNeedOrder`).
- **A message can leave a thread of the device, and its tool calls can go with it.**
  An upsert that names a child of a local thread by its id moves it to a thread of
  the sender; when the sender deletes the message there, every tool call that belongs
  to it is deleted, also those left in the local thread, which no operation names.
  `EffectRespectsOrigin` is the condition, `TakenIdRemovesLocalChildren` the two
  operations, `ImportKeepsLocalChildren` what is safe.
- **A replacement head may be missing** when the remaining messages all name absent
  parents. `HeadMissingIff` is the condition, `HeadMayBeMissing` an input;
  `SubtreeDeletionKeepsHead` shows that it cannot happen in a forest.

## Model

| member | source | states |
|---|---|---|
| SkillTypes.Apply | native/sync-core/src/custom_skills.rs:1263-1391 | an import records one conflict exactly when it could not be reconciled, never when the remote side is forced, and then leaves file and generation alone |
| SkillImports.ImportTouchesFileIff | native/sync-core/src/custom_skills.rs:1263-1391 | an import changes the file iff it is an upsert that is news and based on what is here, or a delete of the very generation and content that are here, or forced; it records a conflict iff the two cannot be reconciled, whatever tombstones and conflicts the row has |
| SkillImports.ImportAdoptsIff | native/sync-core/src/custom_skills.rs:873-932 | a generation becomes current iff the upsert is news and its content is or becomes the file; the former one is retired, and otherwise generation, manifest and relay stay |
| SkillImports.UpsertRetiresTombstones | native/sync-core/src/custom_skills.rs:1288-1303 | an upsert retires its tombstones whether it is news or not, unless it ends in a conflict |
| SkillImports.DeleteLeavesTombstones | native/sync-core/src/custom_skills.rs:302-334 | a delete makes exactly its live tombstones active unless it ends in a conflict, and retires all their generations |
| SkillImports.DeleteForgetsIff | native/sync-core/src/custom_skills.rs:934-946 | a delete forgets the entry iff the generation is the deleted one or there is none, or the path is obstructed, or it is forced, and there is no conflict |
| SkillImports.RelayServesAsWell | native/sync-core/src/custom_skills.rs:577-633 | whoever would have written the content on reading an operation writes it on reading the relay of a device that has adopted it |
| SkillImports.RunRelaysPlainly | native/sync-core/src/custom_skills.rs:873-914 | in every run all operations and relays are of the kind that RelayServesAsWell speaks of: the base they were made to, or Missing with another base beside |
| SkillImports.UseRemoteWins | native/sync-core/src/custom_skills.rs:1458-1472 | use_remote puts the remote content and generation in place, or removes the file, unless the generation is no longer news or every tombstone is retired |
| SkillImports.KeepLocalWins | native/sync-core/src/custom_skills.rs:948-979 | keep_local keeps the file, and the next export publishes it so that whoever holds the remote content (or, after a delete, nothing) takes it over |
| SkillConflicts.ImportSupersedesIff | native/sync-core/src/custom_skills.rs:994-1048 | an import supersedes exactly the pending conflicts of the same author that are older and, for a delete, those about a generation it targets; all others stay as they are |
| SkillConflicts.ResolveIsOutdatedIff | native/sync-core/src/custom_skills.rs:1424-1446 | only a pending conflict can be settled; one with a later one of the same author beside it is marked as superseded and nothing else |
| SkillConflicts.KeptDeleteStaysSettled | native/sync-core/src/custom_skills.rs:1458-1472 | a delete that was decided against, when it arrives again after any run, neither touches the file nor makes a conflict |
| SkillTypes.FirstId | native/sync-core/src/custom_skills.rs:548-575 | a non-empty candidate map has a first entry, the one the exported delete takes its base hash from |
| SkillExports.PlanExport | native/sync-core/src/custom_skills.rs:456-646 | the three loops over all paths plan, for every path, exactly what the per-path export says, deletes before upserts; it fails iff some path has no generation to delete |
| SkillExports.MarkAllVanished | native/sync-core/src/custom_skills.rs:482-546 | the first loop marks every vanished file with a tombstone and gives up its generation, and fails iff one has no generation |
| SkillExports.EmitUpsert | native/sync-core/src/custom_skills.rs:577-633 | one turn of the last loop completes the export of its path and leaves every other path as planned |
| SkillExports.EmitDeletes | native/sync-core/src/custom_skills.rs:548-575 | one delete operation per path with tombstones to publish, and none for any other path |
| SkillStores.SkillStore.RetireUpsertEntries | native/sync-core/src/custom_skills.rs:398-414 | adds to the retired generations of one path and touches no other row |
| SkillStores.SkillStore.UpdateTombstoneEntry | native/sync-core/src/custom_skills.rs:302-334 | notes exactly the delete generations that are neither active nor retired, as active and pending |
| SkillStores.SkillStore.RetireTombstoneEntries | native/sync-core/src/custom_skills.rs:336-364 | moves delete generations to retired and out of active and pending |
| SkillStores.SkillStore.AdoptUpsertEntry | native/sync-core/src/custom_skills.rs:873-932 | the adopted generation becomes current with a relay to publish, and the former one is retired |
| SkillStores.SkillStore.RebaseManifestEntry | native/sync-core/src/custom_skills.rs:948-979 | re-points the entry, retires the generation it gives up and drops the relay |
| SkillStores.SkillStore.RemoveManifestEntry | native/sync-core/src/custom_skills.rs:934-946 | forgets manifest, generation and relay of one path only |
| SkillStores.SkillStore.ApplyWithPolicy | native/sync-core/src/custom_skills.rs:1263-1391 | on the tables: the row of the path becomes what the row function says, every other row stays |
| SkillStores.SkillStore.ResolveConflict | native/sync-core/src/custom_skills.rs:1393-1520 | use_remote forces the operation, keep_local re-points the entry, a conflict with a newer one is only marked; no other row changes |
| SkillStores.SkillStore.ExportAll | native/sync-core/src/custom_skills.rs:375-454 | saving the plan leaves every row as the per-path export says; a failing export saves nothing |
| SkillInvariants.StepKeepsInv | native/sync-core/src/custom_skills.rs:302-364 | every edit, export, import and resolution keeps: a generation has a manifest entry, an entry without one is exactly a rebase to missing, a pending relay names the current generation, pending deletes are active, and what active deletes target is retired |
| SkillInvariants.RunKeepsInv | native/sync-core/src/custom_skills.rs:302-364 | over every run with fresh ids the bookkeeping invariant holds, and delete generations only go from unknown to active, with a fixed target, to retired |
| SkillInvariants.IdleExportChangesNothing | native/sync-core/src/lib.rs:1027-1048 | an export with no operations leaves the stored state as it was, so not saving it loses nothing |
| SkillInvariants.TombstoneCheckNeverDecides | native/sync-core/src/custom_skills.rs:1050-1060 | in every reachable state every import, forced or not, does exactly what it does without the test of the generation against the targets of active tombstones |
| SkillInvariants.ApplyRespectsRetired | native/sync-core/src/custom_skills.rs:1271-1306 | one application, forced or not, never writes or adopts a retired generation, changes the file only by writing or removing it, and never un-retires |
| SkillInvariants.NoResurrection | native/sync-core/src/custom_skills.rs:1271-1306 | over every interleaving of imports, duplicates, relays and resolutions a retired generation is never written or adopted again |
| SkillInvariants.RetiredBecomesCurrentOnlyByKeeping | native/sync-core/src/custom_skills.rs:948-979 | a retired generation becomes current exactly when a pending conflict about it, with none newer, is settled by keep_local |
| SkillInvariants.Supersession | native/sync-core/src/custom_skills.rs:873-932 | a newer upsert retires the one it replaces, a delete retires everything it targets whatever becomes of the delete itself |
| SkillInvariants.LocalChangeRetires | native/sync-core/src/custom_skills.rs:456-646 | a local change or deletion retires the former generation; a deletion leaves a tombstone for it, a change retires all tombstones |
| SkillInvariants.ImportLeavesNoOlderConflict | native/sync-core/src/custom_skills.rs:994-1048 | after an import no older pending conflict of the same author is left on the path |
| SkillInvariants.ExportParsesIff | native/sync-core/src/custom_skills.rs:1094-1257 | peers accept everything an export publishes iff it does not relay a generation that is retired |
| SkillInvariants.ExportFailsIff | native/sync-core/src/custom_skills.rs:482-546 | an export fails iff a file is gone whose entry has been rebased to missing |
| SkillReplay.ReplayRefinesAuthor | native/sync-core/src/custom_skills.rs:456-646 | for every sequence of one author's edits, deletes, re-creations and exports, replaying the operations in order ends without conflict with the author's file, generation, active tombstones and retired sets |
| SkillReplay.RelayingKeepsSync | native/sync-core/src/custom_skills.rs:577-633 | the peer may export at any point without falling out of step with the author |
| SkillReplay.LateDuplicatesAreHarmless | native/sync-core/src/custom_skills.rs:1263-1391 | after the replay any operation of the log may arrive again, at any time, and changes nothing |
| SkillResyncs.FullResyncRestores | native/sync-core/src/custom_skills.rs:456-646 | a device that starts with nothing and reads a full export ends up with the exporter's file, generation, tombstones and everything it has retired |
| SkillQuiescence.SendsOnce | native/sync-core/src/custom_skills.rs:548-633 | an export sends no upsert or delete generation that the device has sent before, unless it is full and the path has been published |
| SkillQuiescence.Quiescence | native/sync-core/src/custom_skills.rs:889-914 | from any reachable state, however long the devices go on exporting and importing, what they publish is bounded by what the state still holds plus two operations for each edit and device that holds the edited path, and two for each full export of a path that has been published before |
| SkillQuiescence.QuiescenceFromBlank | native/sync-core/src/custom_skills.rs:889-914 | starting from nothing, with full exports until a path is published, when no path is on more than k devices, e edits lead to at most 2k times e published operations, however many paths there are |
| SkillScenarios.PoisonedRelayIsReachable | native/sync-core/src/custom_skills.rs:1271-1306 | the author's exports publish the first operations and a peer relays the last of them; a third device that reads it early then publishes an operation every peer rejects |
| SkillScenarios.KeepLocalThenDeleteBlocksExport | native/sync-core/src/custom_skills.rs:482-546 | the author's exports publish an upsert and its delete; after a run that keeps an edit against the delete and then removes the file, every export of the device fails |
| SkillScenarios.KeepLocalRevivesRetired | native/sync-core/src/custom_skills.rs:948-979 | three devices' exports publish the operations; after the imports a generation is retired, and keep_local makes it current |
| Exports.RunKeepsNumbers | native/sync-core/src/lib.rs:985-1048 | with writes at any time and stops between the three commits the first directory holds exactly 1..n and the others only numbers among them |
| Exports.NextIsOneMore | native/sync-core/src/lib.rs:1345-1359 | the next number is one more than the count of published files |
| ExportLogs.NoUpdateIsLost | native/sync-core/src/lib.rs:894-1103 | at every moment of every run a written row is still queued, or its last version was skipped by policy, or the log's last word in reading order is that version (a delete if it was found gone), or one number publishes both that version and its delete, which is the last word |
| ExportLogs.PublishedIffNotLost | native/sync-core/src/lib.rs:894-1103 | of a row that is neither queued nor skipped nor gone the log's last word is its last version iff no number publishes that version together with the delete that is the last word |
| ExportLogs.RunKeepsInv | native/sync-core/src/lib.rs:1176-1322 | the invariant behind it over every run with writes and stops anywhere: queue keys are unique and below the counter, what has been read from the queue is linked to its entry, what is cleared is settled |
| ExportLogs.WriteKeepsQueue | native/sync-core/src/lib.rs:448-499 | a recorded write replaces the row's entry under a fresh key and loses no other |
| ExportLogs.DoneIsSettled | native/sync-core/src/lib.rs:1084-1088 | once the files are committed every processed entry may be cleared: its version was skipped, or the log tells it, or it is lost as above |
| ExportPolicies.FetchFollowsRow | native/sync-core/src/lib.rs:1206-1316 | a queue entry is upserted, deleted or skipped exactly as its row says: mirrors, threads of schedules, untouched chats and children of the first two are kept back, absent rows and emptied threads are deleted, once, and have a tombstone |
| ExportPolicies.OwnWritesAreQueued | native/sync-core/src/lib.rs:454-499 | every insert, update and delete of a row of this device is queued under a fresh key, and no other write is |
| ExportPolicies.LogFollowsRow | native/sync-core/src/lib.rs:894-1103 | over every run whose writes to a row are this device's own, once the row is not queued: a row that is gone and a thread emptied after use have been deleted, a thread that is shown is told as it is or lost, one that is kept back is not told |
| ExportPolicies.KeptBackIsNeverTold | native/sync-core/src/lib.rs:1250-1274 | what is kept back at every moment of a run is never published |
| ExportPolicies.ResyncQueuesEveryRow | native/sync-core/src/lib.rs:501-529 | an export that has to rebuild the log queues every row of this device that is not queued, and any other export none |
| ExportOnce.AtMostOneOperation | native/sync-core/src/lib.rs:1176-1322 | under any writes and stops each file of each number names a row at most once, and both files of a number name it exactly when that export upserted it after republishing its delete |
| ExportOnce.NoRaceWithoutRecovery | native/sync-core/src/lib.rs:1187-1204 | in a run in which no export begins without the second directory while there is history to rebuild, no row is published under both files of a number anew |
| ExportOnce.NothingIsLostWithoutRecovery | native/sync-core/src/lib.rs:894-1103 | in such a run every written row is queued, skipped by policy, or told by the log's last word as it is |
| ExportOnce.GoneIsNotUpserted | native/sync-core/src/lib.rs:555-578 | the race takes a write: a row that counts as deleted is never exported as an upsert |
| ExportRaces.RecoveryLosesRow | native/sync-core/src/lib.rs:1187-1204 | from every resting state that has to rebuild delete history, a gone row with a saved tombstone that comes back during the export ends up present, not queued and with a delete as the last word of the log |
| ExportRaces.LossIff | native/sync-core/src/lib.rs:906-917 | a device whose log shows no loss can come to lose a row, in some run with writes and stops, iff delete history has to be rebuilt and a tombstone is saved |
| ExportRaces.SuchDeviceExists | native/sync-core/src/lib.rs:906-917 | a device without its second directory that meets these conditions |
| ExportTombs.SavedTombstonesHold | native/sync-core/src/lib.rs:1176-1322 | over every run with recorded writes between any two steps and stops anywhere, every saved tombstone names an absent row, an empty thread, or a row queued to be looked at again |
| ExportMemories.DeletesAreRemembered | native/sync-core/src/lib.rs:1176-1322 | over every run whose writes to a row are this device's own: if the last word on it is a delete, its tombstone is saved, or the row is queued, back or kept back |
| ExportMemories.ExportPublishes | native/sync-core/src/lib.rs:985-1048 | an export publishes its number in the first directory iff it has anything to publish or there is no first directory, with a marker when there is nothing else, and in the others exactly what belongs there |
| ExportMemories.HistoryIsKnown | native/sync-core/src/lib.rs:1078-1082 | when an export has run to the end, published deletes are expected iff there is a second directory |
| ExportStores.ExportStore.NextNumber | native/sync-core/src/lib.rs:1345-1359 | one more than the largest number in the three directories |
| ExportStores.ExportStore.BackfillDirty | native/sync-core/src/lib.rs:504-529 | queues each local row that is not queued, in the order given, and nothing else |
| ExportStores.ExportStore.PruneTombstones | native/sync-core/src/lib.rs:1183-1203 | the loop over saved tombstones is a quiet run of the check steps |
| ExportStores.ExportStore.FetchOne | native/sync-core/src/lib.rs:1206-1316 | one queue entry is classified and emitted as the step says |
| ExportStores.ExportStore.DrainQueue | native/sync-core/src/lib.rs:1204-1322 | the loop over the queue is a quiet run of the fetch steps, with the sequence marker where one is needed |
| ExportStores.ExportStore.ExportOps | native/sync-core/src/lib.rs:894-1103 | an undisturbed export is a quiet run of the steps, meets no race, and every tombstone it saves names an absent row or an empty thread |
| ExportStores.QuietRun | native/sync-core/src/lib.rs:555-578 | without writes, what an export has found gone stays gone and no race happens |
| Imports.PlanIsContiguous | native/sync-core/src/lib.rs:1601-1650 | under any listing in any order, behind every planned number its predecessor is completed or planned earlier |
| Imports.ImportKeepsPrefix | native/sync-core/src/lib.rs:1450-1511 | over every run of imports with any visibility and failures the completed positive numbers of each device are exactly 1..k, and no file is opened before its predecessor |
| Imports.EverySmallerOpened | native/sync-core/src/lib.rs:1601-1650 | before a file of number n, some file of every smaller positive number has been opened |
| Imports.GapFreeMeansPrefix | native/sync-core/src/lib.rs:1680-1693 | the next expected number is the end of the completed prefix |
| ImportPlans.PlanIsExact | native/sync-core/src/lib.rs:1601-1650 | an import reads the listed files of other devices that it has not read to the end as they are, among them every one up to the next expected; it stops exactly because of a file that cannot be examined, and whenever such a one is in reach |
| Imports.RunKeepsOps | native/sync-core/src/lib.rs:1460-1518 | in every reachable state each operation of a completed file is applied or waiting, never both; effects happen at most once; and one device's operations on one entity take effect in order |
| Imports.OnlyOrphansWait | native/sync-core/src/lib.rs:1778-1803 | after a successful import an operation waits only if it is a child upsert whose thread is absent |
| ImportRows.ChildIsStored | native/sync-core/src/lib.rs:1944-1966 | a message or tool call that is due is stored as sent when its thread is there and it is new or the thread is the sender's, and waits when the thread is not there |
| ImportRows.ThreadIsStored | native/sync-core/src/lib.rs:1940-1942 | a thread is stored as the sender's when it is new, updated when it is the sender's, and left alone otherwise |
| ImportRows.ThreadIsRemoved | native/sync-core/src/lib.rs:2091-2106 | deleting a thread of the sender removes it and all its children and nothing else |
| ImportRows.ChildIsRemoved | native/sync-core/src/lib.rs:2108-2125 | deleting a child in a thread of the sender removes it and, with a message, the tool calls that belong to it, and nothing else |
| ImportRows.ScheduledStaysOut | native/sync-core/src/lib.rs:1913-1937 | over every run a thread that a schedule created elsewhere, and its children, never get into the archive |
| Imports.EffectRespectsOrigin | native/sync-core/src/lib.rs:2077-2125 | a thread changes only at the hands of the device it came from; a child of it is changed by another device exactly when an upsert with its id names a thread of that device, and then it moves there, or when it is a tool call of a message that this device deletes in a thread of its own |
| Imports.TakenIdRemovesLocalChildren | native/sync-core/src/lib.rs:2062-2123 | two operations of another device after which a message and a tool call of a local thread are gone, the tool call named by neither |
| Imports.ImportKeepsLocalThreads | native/sync-core/src/lib.rs:2024-2106 | no import changes or removes a thread of the device itself |
| Imports.ImportKeepsLocalChildren | native/sync-core/src/lib.rs:2062-2125 | an import leaves a message or tool call of a local thread alone when no upsert it reads or retries has the same id and each message a tool call belongs to is deleted by none, or is itself in a local thread and upserted by none |
| LogReplays.ReadGivesLastWord | native/sync-core/src/lib.rs:1450-1511 | reading another device's files in number order, the first directory before the second, leaves each thread as the last word of that device's log |
| LogReplays.ImportGivesLastWord | native/sync-core/src/lib.rs:1573-1650 | so does a whole first import, from the listing over the scan to the retried operations: the thread is there, from that device and in that version, or not there |
| LogRuns.RunFollowsNewest | native/sync-core/src/lib.rs:1883-1974 | over every run of imports, with any files visible in any order, failures, repetitions and retries, a thread of another device is as the newest operation on it that has been applied says |
| LogRuns.RunGivesLastWord | native/sync-core/src/lib.rs:1428-1518 | after any run of imports that has completed a device's files up to k and opened none above, a thread that no number names in both files is as the last word of the log up to k says |
| LogRuns.RacedFilesNeedOrder | native/sync-core/src/lib.rs:1594-1597 | with both operations of a raced number on a thread, the outcome depends on which file is seen first |
| ChildRuns.ChildFollowsNewest | native/sync-core/src/lib.rs:1428-1518 | over every run of imports a child of another device is as the newest operation on it that has been applied says, as long as neither its thread nor a message it belongs to is deleted |
| ChildRuns.ChildGivesLastWord | native/sync-core/src/lib.rs:1428-1518 | when of the operations on a child exactly those up to k have been applied, it is as the last word of the log up to k says |
| ImportStores.ImportStore.NextImportSeqNo | native/sync-core/src/lib.rs:1680-1693 | the loop finds the first number that is not completed |
| ImportStores.ImportStore.ImportFilesToScan | native/sync-core/src/lib.rs:1601-1650 | the loop plans the files the function says, and fails iff metadata of a file it needs cannot be read |
| ImportStores.ImportStore.ApplyOp | native/sync-core/src/lib.rs:1907-1974 | the verdict, the applied table, the skipped threads and the rows after one operation |
| ImportStores.ImportStore.VisitOp | native/sync-core/src/lib.rs:1460-1485 | one operation with its deferral bookkeeping, as one transaction |
| ImportStores.ImportStore.ReadFiles | native/sync-core/src/lib.rs:1450-1511 | the loop over files with devices blocked after a read failure |
| ImportStores.ImportStore.LoadDeferredOps | native/sync-core/src/lib.rs:1768-1776 | every waiting operation exactly as stored, ordered by device and number |
| ImportStores.ImportStore.ImportOps | native/sync-core/src/lib.rs:1428-1518 | the whole import computes the function, waiting operations being retried last |
| SettingsLines.JoinLines | native/sync-core/src/lib.rs:276-276 | joining the lines of a text gives the text |
| SettingsLines.LinesOfJoin | native/sync-core/src/lib.rs:276-276 | splitting joined lines gives the lines |
| SettingsTexts.StripTables | native/sync-core/src/lib.rs:273-287 | the loop with its skipping flag keeps exactly the lines outside tables that stay on the device |
| SettingsTexts.ExtractLocalOnlySettingsTables | native/sync-core/src/lib.rs:361-373 | the loop with its keeping flag keeps exactly the lines of those tables |
| SettingsTexts.SettingsSections | native/sync-core/src/lib.rs:291-304 | the loop cuts a text at its table headers |
| SettingsTexts.MergeCodexSessionPaths | native/sync-core/src/lib.rs:326-359 | the loops put each provider's session path, as found on the device, after its header and drop all others |
| SettingsTexts.MergeLocalOnlySettingsTables | native/sync-core/src/lib.rs:375-393 | the merged text as a function of the published text and the device's own |
| SettingsLaws.StripAndExtractPartition | native/sync-core/src/lib.rs:273-287 | every line is published or stays, never both; what is published has no local-only header, what stays is whole local-only tables |
| SettingsLaws.SectionsOfFlat | native/sync-core/src/lib.rs:291-304 | cutting a text made of sections gives these sections back |
| SettingsMerges.StripIsPublished | native/sync-core/src/lib.rs:273-289 | for every text, what is published holds no local-only table and no provider's session path |
| SettingsMerges.StripIsIdempotent | native/sync-core/src/lib.rs:273-289 | stripping a stripped text changes nothing |
| SettingsRoundTrips.ExtractOfMerge | native/sync-core/src/lib.rs:375-393 | the device's own tables survive every merge, trimmed of outer newlines and with one added |
| SettingsRoundTrips.StripOfMerge | native/sync-core/src/lib.rs:375-393 | what is published after a merge is the accepted text, plus at most two newlines, and exactly when |
| SettingsRoundTrips.StripOfMergeIff | native/sync-core/src/lib.rs:375-393 | it is the accepted text itself iff the device has no tables of its own or the text is empty |
| SettingsRoundTrips.PathsFollowIdentity | native/sync-core/src/lib.rs:326-359 | in the merged text each published provider has the device's session path for it right after its header and no other, and its other lines unchanged |
| SettingsMatches.PathComesFrom | native/sync-core/src/lib.rs:326-344 | the session path of a published provider comes from the first provider of the device with the same id, or else from the first with the same name, or there is none |
| SettingsMatches.SettingIsFirst | native/sync-core/src/lib.rs:306-316 | a provider's setting is its first assignment of the key, and an empty string counts as none |
| SettingsMatches.TableStaysIff | native/sync-core/src/lib.rs:254-271 | the table [name] stays on the device iff its name is sync, remote or plugins or lies below one of these |
| SettingsClocks.SettingsStore.AcceptSettingsSnapshot | native/sync-core/src/lib.rs:879-892 | the loop raises the clock to the pointwise maximum with the snapshot and its ancestors |
| SettingsClocks.SettingsStore.ApplySettings | native/sync-core/src/lib.rs:2127-2176 | ignored, agreed, taken over or recorded as a conflict, with the whole new state |
| SettingsClocks.SettingsStore.ExportSettings | native/sync-core/src/lib.rs:940-972 | a snapshot is published iff the stripped text changed since the last one or the log is rebuilt, with base and clock as they were |
| SettingsClocks.RunKeepsInv | native/sync-core/src/lib.rs:872-892 | over every run of n devices, with exports that stop before the hash, the base or the clock is saved, each clock, and each published clock, names for every device exactly the latest of its snapshots that is known |
| SettingsClocks.IgnoredIffKnown | native/sync-core/src/lib.rs:2127-2133 | an arriving snapshot is ignored iff it or a later one of its device is known, accepted or behind an accepted one |
| SettingsKeeps.ReceivedMeans | native/sync-core/src/lib.rs:2127-2176 | a new snapshot replaces the configuration iff there is none or it is based on it and says something else; one that says the same only moves the clock; any other is added to the conflicts and changes nothing else |
| SettingsKeeps.ConfigStays | native/sync-core/src/lib.rs:2150-2176 | over every run of any number of devices the configuration changes only by its user's edits and by snapshots based on it |
| SettingsKeeps.ConflictsStay | native/sync-core/src/lib.rs:2171-2175 | a conflict that was recorded stays |
| SettingsKeeps.PublishedMeans | native/sync-core/src/lib.rs:940-972 | an export publishes the public part, with the base agreed on last or else what was published last, iff it has changed or the log is rebuilt |
| SettingsClocks.RunGrows | native/sync-core/src/lib.rs:879-892 | clocks and what is known only grow, pointwise, over every run |
| SettingsClocks.AncestorsStayIgnored | native/sync-core/src/lib.rs:2127-2176 | after a snapshot is accepted, neither it nor anything behind it ever changes that device's settings or conflicts, in any order and number |
| SettingsClocks.PublishedClockDominates | native/sync-core/src/lib.rs:951-967 | a published clock covers every snapshot its author knew, accepted or behind an accepted one, or published with its clock saved |
| SettingsClocks.PublishedIsKnown | native/sync-core/src/lib.rs:1055-1070 | a snapshot whose export saved the clock is known to its author from then on |
| SettingsClocks.EarlierStayIgnored | native/sync-core/src/lib.rs:2127-2176 | wherever exports have stopped, a device that has accepted a snapshot ignores every earlier one of the same author, and everything behind these, for ever |
| SettingsClocks.TomlIsLawful | native/sync-core/src/lib.rs:273-393 | the settings functions satisfy the laws the next rows assume of a codec |
| SettingsClocks.FastForwardIff | native/sync-core/src/lib.rs:2150-2176 | an unedited device takes over the next snapshot iff it has no tables of its own or the former was empty, and otherwise agrees only with the text plus a blank line |
| SettingsExchanges.SettlesIff | native/sync-core/src/lib.rs:940-972 | once a device offers a snapshot its peer would take, the exchange of replies ends iff one of the two has no tables of its own, or the snapshot is empty, or the receiver has just published what it makes of it, and then after at most two more snapshots |
| SettingsExchanges.EveryReplyPublishes | native/sync-core/src/lib.rs:940-972 | otherwise n replies publish n snapshots without any edit, each one newline longer |
| SettingsExchanges.EditStartsExchange | native/sync-core/src/lib.rs:2150-2176 | any edit on a device whose base is its peer's text, and that is new to both, starts an exchange, endless under these conditions |
| SettingsExchanges.TwoDevicesNeverSettle | native/sync-core/src/lib.rs:940-972 | two devices that begin with the same file, a local-only table in it, go on publishing for ever after one edit |
| SettingsExchanges.ShorterTextSettles | native/sync-core/src/lib.rs:940-972 | two devices with tables of their own that come to rest after an edit that deletes a blank line |
| Utf8.LossyIsReference | native/process-host/src/main.rs:70-118 | the decoder's function is the decoding of section 3.9 of the Unicode Standard: characters as in section 4 of RFC 3629, one replacement per maximal subpart |
| Utf8.ScanAppend | native/process-host/src/main.rs:76-117 | decoding what was held back together with more bytes continues the decoding of the whole |
| Utf8.ChunkingDoesNotMatter | native/process-host/src/main.rs:70-118 | however the bytes are cut, the outputs concatenate to the one-shot decoding, and at most 3 bytes are held back |
| Utf8.FromUtf8 | native/process-host/src/main.rs:83-83 | the longest valid prefix and the kind of error after it |
| Utf8.Utf8StreamDecoder.Push | native/process-host/src/main.rs:76-117 | one push puts out what can be decided, holds back an unfinished character, and replaces it at the end |
| OutputBatches.TailStart | native/process-host/src/main.rs:146-168 | the first aligned position from which the rest fits the limit |
| OutputBatches.OutputBatch.Push | native/process-host/src/main.rs:128-144 | the batch holds the longest character-aligned suffix of everything pushed that fits, with its true size, neighbouring chunks of different streams, and the truncation flag set iff something is missing |
| OutputBatches.OutputBatch.TrimToLimit | native/process-host/src/main.rs:146-168 | trimming restores that invariant, whole chunks first and then to a character boundary |
| OutputBatches.OutputBatch.Take | native/process-host/src/main.rs:170-177 | hands out the tail and starts anew |
| Jobs.TracedMeans | native/process-host/src/main.rs:334-346 | a well-formed trace starts with Started (`StartedComesFirst` is why the job's does), numbers its outputs 0, 1, 2, ... modulo 2^32 with totals that do not decrease, times out at most once and has no exit inside |
| Handshakes.StartedComesFirst | native/process-host/src/main.rs:313-349 | in whatever order the request handler and the job task take their steps, the first message about a job answers the request, nothing of the job comes before it or after a refusal, and the loop begins only when the parent has been told Started and nothing else |
| Jobs.JobTrace | native/process-host/src/main.rs:487-681 | for all events the messages, Started first, form such a trace, followed by at most one exit, which is last and reports the last total |
| Jobs.NothingIsLost | native/process-host/src/main.rs:487-681 | if both streams end without error, all was logged and nothing says truncated, what was sent of a stream is the reference decoding of all its bytes |
| Jobs.QuietExit | native/process-host/src/main.rs:640-681 | an exit without error means reads and log writes went well; one without a spilled log, that the text stayed below the threshold |
| JobExits.ExitMeans | native/process-host/src/main.rs:638-681 | the exit tells the process's own code, else 124 after a timeout, 130 after a cancellation, 1 otherwise; whether the timeout elapsed and whether the cancellation killed the process; the bytes delivered; and exactly when the log is kept and an error told |
| JobExits.LoopEndsIff | native/process-host/src/main.rs:624-626 | the loop is left exactly when the process has ended and both streams have |
| JobExits.ErrorIffWrong | native/process-host/src/main.rs:512-622 | an error is set exactly by a call that fails, and stays |
| JobExits.UnitsOfChar | native/process-host/src/main.rs:536-541 | the length of the text counts one for a character and two for one beyond the first plane |
| Jobs.JobRun.FlushOutput | native/process-host/src/main.rs:719-744 | sends the batch under the next number, or nothing when it is empty |
| Jobs.JobRun.HandleEvent | native/process-host/src/main.rs:512-637 | one turn of the select loop |
| Jobs.JobRun.RunLoop | native/process-host/src/main.rs:512-637 | the loop sends what the function of its events says |
| Jobs.JobRun.Finish | native/process-host/src/main.rs:638-681 | the final flush and the exit message |
| MessageTree.SortIsStable | packages/shared/src/threadTree.ts:18-20 | the sort orders by time and keeps the messages of one moment in their order |
| MessageTree.BuildMessageTreeMaps | packages/shared/src/threadTree.ts:22-34 | each id to its last message, each parent to its children sorted by time |
| MessageTree.CollectMessagePathFromMaps | packages/shared/src/threadTree.ts:43-66 | a duplicate-free parent chain ending at the target that holds every present ancestor, empty iff the target is absent, also when parents form a cycle |
| MessageTree.WouldCreateParentCycle | packages/shared/src/threadTree.ts:92-106 | true iff the message is the proposed parent or one of its ancestors |
| MessageTree.ReparentingGuard | packages/shared/src/threadTree.ts:92-106 | a reparent keeps an acyclic forest acyclic iff the guard lets it through |
| MessageHeads.CollectDescendantIds | packages/shared/src/threadTree.ts:68-90 | exactly the reflexive-transitive closure of the child relation, terminating on cycles |
| MessageHeads.FindLatestLeafFromMaps | packages/shared/src/threadTree.ts:108-142 | the root, or the latest leaf below it when that is no earlier |
| MessageHeads.NearestSurvivor | packages/shared/src/threadTree.ts:167-181 | the nearest proper ancestor that survives, or none if there is none |
| MessageHeads.PickReplacementHeadId | packages/shared/src/threadTree.ts:151-190 | a surviving head stays; otherwise the latest leaf below the nearest surviving ancestor; otherwise the latest of the leaves below the roots |
| MessageDeletions.LatestIsLeaf | packages/shared/src/threadTree.ts:108-142 | in a chronological forest the choice is a leaf and nothing below the root is later |
| MessageDeletions.NearestIsParentOfRoot | packages/shared/src/threadTree.ts:167-181 | the nearest surviving ancestor of a deleted message is the parent of the deleted subtree's root |
| MessageDeletions.SubtreeDeletionKeepsHead | packages/shared/src/threadTree.ts:151-190 | after a subtree is deleted from a forest, with or without a head before, there is a head iff a message is left, it is one of those left, a surviving head stays, and a deleted one is replaced below the parent of the subtree's root if there is one |
| MessageDeletions.HeadIsLatestLeaf | packages/shared/src/threadTree.ts:151-190 | if no message is older than its parent, a new head is a leaf and nothing below the anchor, or nothing at all when there is none, is later |
| MessageDeletions.HeadMissingIff | packages/shared/src/threadTree.ts:151-190 | on any messages there is no head iff neither the former head nor an ancestor of it remains and every remaining message names a parent |
| MessageDeletions.HeadMayBeMissing | packages/shared/src/threadTree.ts:183-190 | a thread that is left without a head although a message remains |

## Left out

- File-system and SQLite mechanics (temporary files, renames, locks, permissions, transactions, SQL text): renames and transactions are atomic, tables are maps; the trigger's REPLACE takes a fresh, larger key.
- SHA-256, base64, JSON and UUIDs: hashes are injective, payloads opaque, ids fresh.
- Path obstacles in the skills tree: `blocked` says that a path is obstructed, the removal of a blocker and its effect on other paths are not modelled; nor are case folding, Windows file names and the executable manifest.
- Shape checks of incoming operations beyond those that carry protocol meaning, and an operation whose kind and entity type disagree.
- A stop between the commit of the skill file and the saving of its state: the skill export is one step.
- A recovery base hash on a delete: an import would honour it as it does on an upsert, but no export writes one.
- SkillQuiescence.Quiescence: a site is one path on one device; it speaks of edits, exports and imports on paths without obstacles; resolutions are outside, because they may send a generation again.
- SkillReplay.ReplayRefinesAuthor: one author and a peer without edits of its own; with several writers a relay that overtakes its ancestors makes a conflict, as the scenarios show.
- ExportLogs.NoUpdateIsLost: speaks of recorded writes; a child that was skipped because of its thread is not exported when only the thread changes later. Directories are not wiped during a run, but a run may start from a wiped second directory.
- Entity types in the queue other than the three that the triggers record; missing tables and other schema fallbacks, the stripping of heavy columns.
- LogReplays.ImportGivesLastWord: threads only, whose id is not taken, and a device of which nothing has been read. The two directories the export model fills are listed, all files in full.
- LogRuns.RunGivesLastWord: threads whose id is not taken and which the device itself leaves alone.
- ChildRuns.ChildGivesLastWord: a child that goes with its thread or with a message is outside, ThreadIsRemoved and ChildIsRemoved say what goes; operations that still wait for the thread are not among those applied.
- ExportTombs.SavedTombstonesHold: speaks of writes to this device's own rows; a write that no trigger records can leave a tombstone for a row that is there.
- ExportPolicies.LogFollowsRow: what it says of rows that are shown or kept back it says of threads; a child's part depends on its thread, which may change without a write to the child.
- Imports.RunKeepsOps: the set of threads known to be scheduled is any set, so it does not say which threads a device skips for good.
- Settings sections are kept as their lines; the conflict text and base text of a snapshot, and the fallback to the payload hash, are not modelled; settings conflicts are recorded but never resolved.
- Universe, manifest and label files, status and disclosure flags.
- Real time, process spawning and signals in the process host: the outcome of each call is part of the event that makes it; the loop is left when the parent stops reading.
- The job table, the reuse of job ids, and which step of launching a process fails.
- Empty ids in the message tree: ids are abstract, timestamps integers in the order of localeCompare.
- The Electron, iOS, website, headless and CLI code, benchmark scripts and crypto wrappers, the bash classifier, attachment and provider tables, i18n, plan-mode helpers, log line splitting, row ids and notifications: plumbing, or easy members.
