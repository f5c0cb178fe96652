// Which of the listed files an import reads.
module ImportPlans {
  import opened Options
  import opened Sequences
  import opened Imports

  // The file was read to its end as it is now.
  predicate IsUnchanged(completed: map<Key, Sig>, key: Key, sig: Sig) {
    key in completed && completed[key] == sig
  }

  // Another device's file that is not beyond the next one expected of it.
  predicate IsInReach(completed: map<Key, Sig>, local: Option<Device>, path: Listed) {
    Some(path.key.device) != local && path.key.seqNo <= NextImportSeq(completed, path.key.device)
  }

  ghost predicate ReachGrows(completed: map<Key, Sig>, scan: Scan) {
    forall d | d in scan.next :: scan.next[d] >= NextImportSeq(completed, d)
  }

  ghost predicate PlansOnlyDue(completed: map<Key, Sig>, local: Option<Device>, paths: seq<Listed>, scan: Scan) {
    forall f | f in scan.files ::
      && Listed(f.key, Some(f.sig)) in paths && Some(f.key.device) != local
      && !IsUnchanged(completed, f.key, f.sig)
  }

  ghost predicate PlansAllDue(completed: map<Key, Sig>, local: Option<Device>, paths: seq<Listed>, scan: Scan) {
    !scan.failed ==> forall p | p in paths && IsInReach(completed, local, p) ::
      && p.sig.Some?
      && (IsUnchanged(completed, p.key, p.sig.value) || ImportFile(p.key, p.sig.value) in scan.files)
  }

  ghost predicate FailsForReason(local: Option<Device>, paths: seq<Listed>, scan: Scan) {
    scan.failed ==> exists p :: p in paths && Some(p.key.device) != local && p.sig.None?
  }

  lemma OneMorePath(completed: map<Key, Sig>, local: Option<Device>, front: seq<Listed>, last: Listed, scan: Scan)
    requires ReachGrows(completed, scan) && PlansOnlyDue(completed, local, front, scan)
    requires PlansAllDue(completed, local, front, scan) && FailsForReason(local, front, scan)
    ensures var after, paths := ScanPath(completed, local, scan, last), front + [last];
            && ReachGrows(completed, after) && PlansOnlyDue(completed, local, paths, after)
            && PlansAllDue(completed, local, paths, after) && FailsForReason(local, paths, after)
  {
    var after, paths := ScanPath(completed, local, scan, last), front + [last];
    assert last in paths && forall p | p in front :: p in paths;
    assert forall p | p in paths :: p in front || p == last;
    if after.failed && scan.failed {
      var p :| p in front && Some(p.key.device) != local && p.sig.None?;
      assert p in paths;
    }
  }

  // Main result: an import reads the listed files of the other devices, except those it
  // has read to the end as they are; among them every one up to the next that is
  // expected. It stops before reading anything exactly because of a file of another
  // device that cannot be examined, and does so whenever that one is in reach.
  lemma {:induction false} PlanIsExact(completed: map<Key, Sig>, local: Option<Device>, paths: seq<Listed>)
    ensures var scan := ScanPaths(completed, local, paths);
            && ReachGrows(completed, scan) && PlansOnlyDue(completed, local, paths, scan)
            && PlansAllDue(completed, local, paths, scan) && FailsForReason(local, paths, scan)
    decreases |paths|
  {
    if |paths| > 0 {
      var front, last := paths[..|paths| - 1], paths[|paths| - 1];
      PlanIsExact(completed, local, front);
      FrontAndLast(paths);
      OneMorePath(completed, local, front, last, ScanPaths(completed, local, front));
    }
  }
}
