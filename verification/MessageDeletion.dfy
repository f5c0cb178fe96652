// What deleting a subtree leaves behind, and where the head goes.
module MessageDeletions {
  import opened Options
  import opened MessageTree
  import opened MessageHeads

  ghost predicate Forest(ms: seq<Message>) {
    && OneMessagePerId(ms)
    && (forall m | m in ms && m.parent.Some? :: m.parent.value in ById(ms))
    && Acyclic(ById(ms))
  }

  // No message is older than the one it answers.
  ghost predicate Chronological(ms: seq<Message>) {
    forall m | m in ms && m.parent.Some? && m.parent.value in ById(ms) ::
      ById(ms)[m.parent.value].createdAt <= m.createdAt
  }

  function Without(ms: seq<Message>, ids: set<Id>): (r: seq<Message>)
    ensures forall m :: m in r <==> m in ms && m.id !in ids
  {
    if |ms| == 0 then []
    else
      var last := ms[|ms| - 1];
      Without(ms[..|ms| - 1], ids) + (if last.id in ids then [] else [last])
  }

  // ----- up and down are inverse -------------------------------------------

  lemma UpFromChild(ms: seq<Message>, parent: Id, child: Id)
    requires OneMessagePerId(ms) && IsChild(ms, parent, child)
    ensures ParentOf(ById(ms), child) == Some(parent)
  {
  }

  lemma {:induction false} UpTheLine(ms: seq<Message>, line: seq<Id>, k: nat)
    requires OneMessagePerId(ms) && Line(ms, line) && k < |line|
    ensures Ancestor(ById(ms), line[|line| - 1], k) == Some(line[|line| - 1 - k])
    decreases |line|
  {
    if k > 0 {
      var front := line[..|line| - 1];
      UpFromChild(ms, line[|line| - 2], line[|line| - 1]);
      UpTheLine(ms, front, k - 1);
      assert Ancestor(ById(ms), line[|line| - 1], 0) == Some(line[|line| - 1]);
      assert Ancestor(ById(ms), line[|line| - 1], 1) == Some(line[|line| - 2]);
      AncestorAdd(ById(ms), line[|line| - 1], 1, k - 1);
    }
  }

  // ----- what remains is a forest ------------------------------------------

  lemma SubtreeIsClosed(ms: seq<Message>, root: Id, ids: set<Id>)
    requires IsSubtree(ms, root, ids)
    ensures root in ids && ClosedDown(ms, ids)
  {
    DescendsSelf(ms, root);
    forall m | m in ms && m.parent.Some? && m.parent.value in ids
      ensures m.id in ids
    {
      DescendsOn(ms, root, m.parent.value, m.id);
    }
  }

  lemma {:induction false} FewerAncestors(small: map<Id, Message>, big: map<Id, Message>, id: Id, n: nat)
    requires forall k | k in small :: k in big && small[k] == big[k]
    requires Ancestor(small, id, n).Some?
    ensures Ancestor(big, id, n) == Ancestor(small, id, n)
  {
    if n > 0 {
      FewerAncestors(small, big, id, n - 1);
    }
  }

  lemma RemainsForest(ms: seq<Message>, root: Id, ids: set<Id>)
    requires Forest(ms) && IsSubtree(ms, root, ids)
    ensures Forest(Without(ms, ids))
  {
    var rest := Without(ms, ids);
    SubtreeIsClosed(ms, root, ids);
    forall id, n: nat | n > 0 && Ancestor(ById(rest), id, n) == Some(id)
      ensures false
    {
      FewerAncestors(ById(rest), ById(ms), id, n);
    }
    forall m | m in rest && m.parent.Some?
      ensures m.parent.value in ById(rest)
    {
      assert ById(ms)[m.parent.value] in rest;
    }
  }

  // ----- every forest has a root and every message a leaf below it ----------

  ghost predicate AllAbove(byId: map<Id, Message>, seen: set<Id>, id: Id) {
    forall s | s in seen :: exists n: nat :: n > 0 && Ancestor(byId, s, n) == Some(id)
  }

  lemma NotSeenAbove(byId: map<Id, Message>, seen: set<Id>, id: Id)
    requires Acyclic(byId) && AllAbove(byId, seen, id)
    ensures id !in seen
  {
  }

  lemma SeenAbove(byId: map<Id, Message>, seen: set<Id>, id: Id, parent: Id)
    requires AllAbove(byId, seen, id) && ParentOf(byId, id) == Some(parent)
    ensures AllAbove(byId, seen + {id}, parent)
  {
    forall s | s in seen + {id}
      ensures exists n: nat :: n > 0 && Ancestor(byId, s, n) == Some(parent)
    {
      assert Ancestor(byId, id, 0) == Some(id);
      var n: nat :| (s == id && n == 0) || (s in seen && Ancestor(byId, s, n) == Some(id));
      assert Ancestor(byId, s, n + 1) == Some(parent);
    }
  }

  // Going up from any message ends at a message without a parent.
  lemma {:induction false} RootAbove(ms: seq<Message>, m: Message, seen: set<Id>)
    requires Forest(ms) && m in ms && seen <= Ids(ms) && AllAbove(ById(ms), seen, m.id)
    ensures !Rootless(ms)
    decreases |Ids(ms) - seen|
  {
    if m.parent.Some? {
      NotSeenAbove(ById(ms), seen, m.id);
      SeenAbove(ById(ms), seen, m.id, m.parent.value);
      Shrinks(Ids(ms), seen, m.id);
      RootAbove(ms, ById(ms)[m.parent.value], seen + {m.id});
    }
  }

  ghost predicate AllBelow(byId: map<Id, Message>, seen: set<Id>, id: Id) {
    forall s | s in seen :: exists n: nat :: n > 0 && Ancestor(byId, id, n) == Some(s)
  }

  lemma SeenBelow(byId: map<Id, Message>, seen: set<Id>, id: Id, child: Id)
    requires AllBelow(byId, seen, id) && ParentOf(byId, child) == Some(id)
    ensures AllBelow(byId, seen + {id}, child)
  {
    assert Ancestor(byId, child, 0) == Some(child);
    assert Ancestor(byId, child, 1) == Some(id);
    forall s | s in seen
      ensures exists n: nat :: n > 0 && Ancestor(byId, child, n) == Some(s)
    {
      var n: nat :| n > 0 && Ancestor(byId, id, n) == Some(s);
      AncestorAdd(byId, child, 1, n);
    }
  }

  ghost predicate LeafBelow(ms: seq<Message>, root: Id, m: Message) {
    exists leaf :: leaf in ms && Leaf(ms, leaf.id) && Descends(ms, root, leaf.id) && m.createdAt <= leaf.createdAt
  }

  // Going down from any message ends at a leaf that is no older.
  lemma {:induction false} LeafIsBelow(ms: seq<Message>, root: Id, m: Message, seen: set<Id>)
    requires Forest(ms) && Chronological(ms) && m in ms && Descends(ms, root, m.id)
    requires seen <= Ids(ms) && AllBelow(ById(ms), seen, m.id)
    ensures LeafBelow(ms, root, m)
    decreases |Ids(ms) - seen|
  {
    if child :| child in ms && child.parent == Some(m.id) {
      assert m.id !in seen;
      DescendsOn(ms, root, m.id, child.id);
      SeenBelow(ById(ms), seen, m.id, child.id);
      Shrinks(Ids(ms), seen, m.id);
      LeafIsBelow(ms, root, child, seen + {m.id});
    }
  }

  lemma LatestDescends(ms: seq<Message>, root: Id, latest: Message)
    requires IsLatestLeaf(ms, root, latest)
    ensures Descends(ms, root, latest.id)
  {
    DescendsSelf(ms, root);
    var ids :| IsSubtree(ms, root, ids) && LatestAmong(ms, ById(ms)[root], ids, latest);
  }

  lemma LatestBounds(ms: seq<Message>, root: Id, latest: Message, m: Message)
    requires OneMessagePerId(ms) && IsLatestLeaf(ms, root, latest) && LeafBelow(ms, root, m)
    ensures m.createdAt <= latest.createdAt && (Leaf(ms, latest.id) || m.createdAt < latest.createdAt)
  {
    var ids :| IsSubtree(ms, root, ids) && LatestAmong(ms, ById(ms)[root], ids, latest);
    var leaf :| leaf in ms && Leaf(ms, leaf.id) && Descends(ms, root, leaf.id) && m.createdAt <= leaf.createdAt;
    assert leaf.id in ids;
  }

  // Nothing below the root is later than the chosen leaf, and it is a leaf.
  lemma LatestIsLeaf(ms: seq<Message>, root: Id, latest: Message)
    requires Forest(ms) && Chronological(ms) && IsLatestLeaf(ms, root, latest)
    ensures Leaf(ms, latest.id) && Descends(ms, root, latest.id)
    ensures forall m | m in ms && Descends(ms, root, m.id) :: m.createdAt <= latest.createdAt
  {
    LatestDescends(ms, root, latest);
    LeafIsBelow(ms, root, latest, {});
    LatestBounds(ms, root, latest, latest);
    forall m | m in ms && Descends(ms, root, m.id)
      ensures m.createdAt <= latest.createdAt
    {
      LeafIsBelow(ms, root, m, {});
      LatestBounds(ms, root, latest, m);
    }
  }

  // ----- main results ------------------------------------------------------

  // The first d ancestors, and the message itself, are among `ids`.
  ghost predicate AllIn(byId: map<Id, Message>, ids: set<Id>, id: Id, d: nat) {
    Ancestor(byId, id, d).Some? && Ancestor(byId, id, d).value in ids && (d > 0 ==> AllIn(byId, ids, id, d - 1))
  }

  lemma {:induction false} AllInAt(byId: map<Id, Message>, ids: set<Id>, id: Id, d: nat, k: nat)
    requires AllIn(byId, ids, id, d) && k <= d
    ensures Ancestor(byId, id, k).Some? && Ancestor(byId, id, k).value in ids
  {
    if k < d {
      AllInAt(byId, ids, id, d - 1, k);
    }
  }

  lemma {:induction false} LineIsIn(ms: seq<Message>, root: Id, ids: set<Id>, line: seq<Id>, d: nat)
    requires OneMessagePerId(ms) && ClosedDown(ms, ids) && root in ids
    requires Line(ms, line) && line[0] == root && d < |line|
    ensures AllIn(ById(ms), ids, line[|line| - 1], d)
  {
    UpTheLine(ms, line, d);
    LineInside(ms, root, ids, line, |line| - 1 - d);
    if d > 0 {
      LineIsIn(ms, root, ids, line, d - 1);
    }
  }

  // A descendant of the root meets it on the way up, and only descendants before.
  lemma UpToRoot(ms: seq<Message>, root: Id, ids: set<Id>, id: Id) returns (d: nat)
    requires OneMessagePerId(ms) && IsSubtree(ms, root, ids) && id in ids && root in ById(ms)
    ensures Ancestor(ById(ms), id, d) == Some(root) && Ancestor(ById(ms), id, d + 1) == ById(ms)[root].parent
    ensures AllIn(ById(ms), ids, id, d)
  {
    var line :| Line(ms, line) && line[0] == root && line[|line| - 1] == id;
    d := |line| - 1;
    SubtreeIsClosed(ms, root, ids);
    UpTheLine(ms, line, d);
    LineIsIn(ms, root, ids, line, d);
  }

  lemma {:induction false} LineInside(ms: seq<Message>, root: Id, ids: set<Id>, line: seq<Id>, k: nat)
    requires ClosedDown(ms, ids) && root in ids && Line(ms, line) && line[0] == root && k < |line|
    ensures line[k] in ids
    decreases |line|
  {
    if k < |line| - 1 {
      LineInside(ms, root, ids, line[..|line| - 1], k);
    } else {
      ClosedDownHolds(ms, ids, line);
    }
  }

  // The nearest surviving ancestor of a deleted message is the parent of the
  // deleted subtree's root.
  lemma NearestIsParentOfRoot(ms: seq<Message>, root: Id, ids: set<Id>, id: Id, n: nat)
    requires Forest(ms) && IsSubtree(ms, root, ids) && id in ids && root in ById(ms)
    requires NearestIn(ById(ms), Ids(Without(ms, ids)), id, n)
    ensures Ancestor(ById(ms), id, n) == ById(ms)[root].parent
  {
    var d := UpToRoot(ms, root, ids, id);
    if ById(ms)[root].parent.Some? {
      ParentSurvives(ms, root, ids);
    }
    KeptOrDeleted(ms, ids);
    FirstOutside(ById(ms), ids, Ids(Without(ms, ids)), id, n, d);
  }

  lemma KeptOrDeleted(ms: seq<Message>, ids: set<Id>)
    ensures ids !! Ids(Without(ms, ids))
  {
  }

  lemma FirstOutside(byId: map<Id, Message>, ids: set<Id>, rest: set<Id>, id: Id, n: nat, d: nat)
    requires NearestIn(byId, rest, id, n) && AllIn(byId, ids, id, d) && ids !! rest
    requires Ancestor(byId, id, d + 1).Some? ==> Ancestor(byId, id, d + 1).value in rest
    ensures n == d + 1
  {
    if n <= d {
      AllInAt(byId, ids, id, d, n);
    } else if n > d + 1 {
      AncestorDefined(byId, id, d + 1, n);
      NoneBelowAt(byId, rest, id, n, d + 1);
    }
  }

  lemma ParentBelowIsCycle(ms: seq<Message>, root: Id)
    requires OneMessagePerId(ms) && root in ById(ms) && ById(ms)[root].parent.Some?
    requires Descends(ms, root, ById(ms)[root].parent.value)
    ensures !Acyclic(ById(ms))
  {
    var parent := ById(ms)[root].parent.value;
    var line :| Line(ms, line) && line[0] == root && line[|line| - 1] == parent;
    UpTheLine(ms, line, |line| - 1);
    assert Ancestor(ById(ms), parent, |line|) == Some(parent);
  }

  lemma ParentSurvives(ms: seq<Message>, root: Id, ids: set<Id>)
    requires Forest(ms) && IsSubtree(ms, root, ids) && root in ById(ms) && ById(ms)[root].parent.Some?
    ensures ById(ms)[root].parent.value in Ids(Without(ms, ids))
  {
    var byId := ById(ms);
    var parent := byId[root].parent.value;
    if parent in ids {
      ParentBelowIsCycle(ms, root);
    }
    assert byId[parent] in Without(ms, ids);
  }

  // The deleted head whose place is taken below the parent of the deleted root.
  ghost predicate HasAnchor(ms: seq<Message>, root: Id, ids: set<Id>, previous: Option<Id>)
    requires root in ById(ms)
  {
    previous.Some? && previous.value in ids && ById(ms)[root].parent.Some?
  }

  // Main result: after a subtree is gone there is a head exactly when a message
  // is left, whether there was a head before or not; it is one of those left; it
  // stays when it survives; it is below the parent of the subtree's root if it was
  // deleted and that root has one; and otherwise it is the latest leaf of all.
  lemma SubtreeDeletionKeepsHead(ms: seq<Message>, root: Id, ids: set<Id>, previous: Option<Id>, head: Option<Id>)
    requires Forest(ms) && root in ById(ms) && IsSubtree(ms, root, ids)
    requires Replaces(ms, Without(ms, ids), previous, head)
    ensures head.None? <==> Without(ms, ids) == []
    ensures head.Some? ==> head.value in Ids(Without(ms, ids))
    ensures previous.Some? && previous.value in Ids(Without(ms, ids)) ==> head == previous
    ensures HasAnchor(ms, root, ids, previous) ==>
              head.Some? && LatestLeafId(Without(ms, ids), ById(ms)[root].parent.value, head.value)
    ensures !HasAnchor(ms, root, ids, previous) && head.Some? && head != previous ==>
              LatestOfAll(Without(ms, ids), head.value)
  {
    RootlessIsEmpty(ms, root, ids);
    KeptOrDeleted(ms, ids);
    if HasAnchor(ms, root, ids, previous) {
      DeletedBelowParent(ms, root, ids, previous.value, head);
    } else if previous.Some? && previous.value !in Ids(Without(ms, ids)) {
      NobodySurvivesAbove(ms, root, ids, previous.value);
    }
  }

  // A head that is gone or was never there, without an anchor.
  lemma NobodySurvivesAbove(ms: seq<Message>, root: Id, ids: set<Id>, previous: Id)
    requires Forest(ms) && root in ById(ms) && IsSubtree(ms, root, ids)
    requires previous !in Ids(Without(ms, ids)) && !HasAnchor(ms, root, ids, Some(previous))
    ensures NoneIn(ById(ms), Ids(Without(ms, ids)), previous)
  {
    if previous in ids {
      NobodyAbove(ms, root, ids, previous);
    } else {
      KeptOrDeleted(ms, ids);
      assert previous !in ById(ms);
      forall k: nat | 0 < k
        ensures Ancestor(ById(ms), previous, k).None?
      {
        AbsentTop(ById(ms), previous, k);
      }
    }
  }

  lemma RootlessIsEmpty(ms: seq<Message>, root: Id, ids: set<Id>)
    requires Forest(ms) && IsSubtree(ms, root, ids)
    ensures Rootless(Without(ms, ids)) <==> Without(ms, ids) == []
  {
    var rest := Without(ms, ids);
    RemainsForest(ms, root, ids);
    if rest != [] {
      assert rest[0] in rest;
      RootAbove(rest, rest[0], {});
    }
  }

  lemma DeletedBelowParent(ms: seq<Message>, root: Id, ids: set<Id>, previous: Id, head: Option<Id>)
    requires Forest(ms) && root in ById(ms) && IsSubtree(ms, root, ids) && previous in ids
              && ById(ms)[root].parent.Some?
    requires Replaces(ms, Without(ms, ids), Some(previous), head)
    ensures head.Some? && LatestLeafId(Without(ms, ids), ById(ms)[root].parent.value, head.value)
    ensures head.value in Ids(Without(ms, ids))
  {
    var survivors := Ids(Without(ms, ids));
    var d := UpToRoot(ms, root, ids, previous);
    ParentSurvives(ms, root, ids);
    assert !NoneIn(ById(ms), survivors, previous);
    assert previous !in survivors;
    var n: nat :| NearestIn(ById(ms), survivors, previous, n) && head.Some?
                  && LatestLeafId(Without(ms, ids), Ancestor(ById(ms), previous, n).value, head.value);
    NearestIsParentOfRoot(ms, root, ids, previous, n);
  }

  lemma NobodyAbove(ms: seq<Message>, root: Id, ids: set<Id>, previous: Id)
    requires Forest(ms) && root in ById(ms) && IsSubtree(ms, root, ids) && previous in ids
              && ById(ms)[root].parent.None?
    ensures NoneIn(ById(ms), Ids(Without(ms, ids)), previous)
  {
    var d := UpToRoot(ms, root, ids, previous);
    KeptOrDeleted(ms, ids);
    NothingOutside(ById(ms), ids, Ids(Without(ms, ids)), previous, d);
  }

  lemma NothingOutside(byId: map<Id, Message>, ids: set<Id>, rest: set<Id>, id: Id, d: nat)
    requires AllIn(byId, ids, id, d) && ids !! rest && Ancestor(byId, id, d + 1).None?
    ensures NoneIn(byId, rest, id)
  {
    forall k: nat | 0 < k && Ancestor(byId, id, k).Some?
      ensures Ancestor(byId, id, k).value !in rest
    {
      if k <= d {
        AllInAt(byId, ids, id, d, k);
      } else {
        AncestorDefined(byId, id, d + 1, k);
      }
    }
  }

  // With chronological messages a new head is a leaf, and nothing below the
  // anchor (or nothing at all, when there is none) is later.
  lemma HeadIsLatestLeaf(ms: seq<Message>, root: Id, ids: set<Id>, previous: Option<Id>, head: Id)
    requires Forest(ms) && Chronological(ms) && root in ById(ms) && IsSubtree(ms, root, ids)
    requires Replaces(ms, Without(ms, ids), previous, Some(head)) && previous != Some(head)
    ensures var rest, anchored := Without(ms, ids), HasAnchor(ms, root, ids, previous);
            && head in ById(rest) && Leaf(rest, head)
            && forall m | m in rest && (anchored ==> Descends(rest, ById(ms)[root].parent.value, m.id)) ::
                 m.createdAt <= ById(rest)[head].createdAt
  {
    var rest := Without(ms, ids);
    SubtreeDeletionKeepsHead(ms, root, ids, previous, Some(head));
    RemainsForest(ms, root, ids);
    assert Chronological(rest);
    if HasAnchor(ms, root, ids, previous) {
      LatestIdIsLeaf(rest, ById(ms)[root].parent.value, head);
    } else {
      LatestOfAllIsLatest(rest, head);
    }
  }

  // ----- without a forest -------------------------------------------------------------

  // Main result: on any messages there is no head exactly when neither the former
  // head nor an ancestor of it remains and every message that remains has a parent.
  lemma HeadMissingIff(original: seq<Message>, remaining: seq<Message>, previous: Option<Id>, head: Option<Id>)
    requires Replaces(original, remaining, previous, head)
    ensures head.None? <==>
            && Rootless(remaining)
            && (previous.Some? ==>
                  previous.value !in Ids(remaining) && NoneIn(ById(original), Ids(remaining), previous.value))
  {
  }

  // A message that answers one that is not there is left without a head.
  lemma HeadMayBeMissing(m: Message)
    requires m.parent.Some? && m.parent.value != m.id
    ensures Replaces([m], [m], None, None) && m.parent.value !in Ids([m])
  {
    assert Ids([m]) == {m.id} by {
      assert [m][..0] == [];
    }
  }

  lemma LatestIdIsLeaf(ms: seq<Message>, root: Id, head: Id)
    requires Forest(ms) && Chronological(ms) && LatestLeafId(ms, root, head)
    ensures head in ById(ms) && Leaf(ms, head)
    ensures forall m | m in ms && Descends(ms, root, m.id) :: m.createdAt <= ById(ms)[head].createdAt
  {
    var m :| IsLatestLeaf(ms, root, m) && m.id == head;
    LatestIsLeaf(ms, root, m);
  }

  lemma LatestOfAllIsLatest(ms: seq<Message>, head: Id)
    requires Forest(ms) && Chronological(ms) && LatestOfAll(ms, head)
    ensures head in ById(ms) && Leaf(ms, head)
    ensures forall m | m in ms :: m.createdAt <= ById(ms)[head].createdAt
  {
    var top, leaf :| LatestOfRoots(ms, top, leaf) && leaf.id == head;
    LatestIsLeaf(ms, top.id, leaf);
    forall m | m in ms
      ensures m.createdAt <= leaf.createdAt
    {
      DescendsSelf(ms, m.id);
      var r := RootOf(ms, m, {}, m);
      assert LeafNoLater(ms, r.id, leaf.createdAt);
      var other :| IsLatestLeaf(ms, r.id, other) && other.createdAt <= leaf.createdAt;
      LatestIsLeaf(ms, r.id, other);
    }
  }

  // The message without a parent that m descends from.
  lemma {:induction false} RootOf(ms: seq<Message>, m: Message, seen: set<Id>, low: Message) returns (r: Message)
    requires Forest(ms) && m in ms && seen <= Ids(ms) && AllAbove(ById(ms), seen, m.id) && Descends(ms, m.id, low.id)
    ensures r in ms && r.parent.None? && Descends(ms, r.id, low.id)
    decreases |Ids(ms) - seen|
  {
    if m.parent.Some? {
      NotSeenAbove(ById(ms), seen, m.id);
      SeenAbove(ById(ms), seen, m.id, m.parent.value);
      Shrinks(Ids(ms), seen, m.id);
      DescendsFromParent(ms, m, low.id);
      r := RootOf(ms, ById(ms)[m.parent.value], seen + {m.id}, low);
    } else {
      r := m;
    }
  }

  lemma DescendsFromParent(ms: seq<Message>, m: Message, low: Id)
    requires m in ms && m.parent.Some? && Descends(ms, m.id, low)
    ensures Descends(ms, m.parent.value, low)
  {
    var line :| Line(ms, line) && line[0] == m.id && line[|line| - 1] == low;
    LineFrom(ms, m.parent.value, line);
    assert ([m.parent.value] + line)[|line|] == low;
  }

  lemma {:induction false} LineFrom(ms: seq<Message>, top: Id, line: seq<Id>)
    requires Line(ms, line) && IsChild(ms, top, line[0])
    ensures Line(ms, [top] + line)
    decreases |line|
  {
    var more := [top] + line;
    if |line| == 1 {
      assert more[..1] == [top];
    } else {
      LineFrom(ms, top, line[..|line| - 1]);
      assert more[..|line|] == [top] + line[..|line| - 1];
    }
  }
}
