// Deleting a subtree of the message tree and choosing the head that replaces it.
module MessageHeads {
  import opened Options
  import opened MessageTree

  // ----- children and descendants ------------------------------------------

  ghost predicate IsChild(ms: seq<Message>, parent: Id, child: Id) {
    exists m :: m in ms && m.id == child && m.parent == Some(parent)
  }

  // A line of descent.
  ghost predicate Line(ms: seq<Message>, line: seq<Id>) {
    |line| > 0 &&
    (|line| == 1 || (IsChild(ms, line[|line| - 2], line[|line| - 1]) && Line(ms, line[..|line| - 1])))
  }

  ghost predicate Descends(ms: seq<Message>, root: Id, id: Id) {
    exists line :: Line(ms, line) && line[0] == root && line[|line| - 1] == id
  }

  lemma DescendsSelf(ms: seq<Message>, root: Id)
    ensures Descends(ms, root, root)
  {
    assert Line(ms, [root]);
  }

  lemma DescendsOn(ms: seq<Message>, root: Id, id: Id, child: Id)
    requires Descends(ms, root, id) && IsChild(ms, id, child)
    ensures Descends(ms, root, child)
  {
    var line :| Line(ms, line) && line[0] == root && line[|line| - 1] == id;
    assert (line + [child])[..|line|] == line;
    assert Line(ms, line + [child]);
  }

  ghost predicate IsSubtree(ms: seq<Message>, root: Id, ids: set<Id>) {
    forall id :: id in ids <==> Descends(ms, root, id)
  }

  ghost predicate ClosedDown(ms: seq<Message>, ids: set<Id>) {
    forall m | m in ms && m.parent.Some? && m.parent.value in ids :: m.id in ids
  }

  // A set that is closed under children holds every descendant of its members.
  lemma {:induction false} ClosedDownHolds(ms: seq<Message>, ids: set<Id>, line: seq<Id>)
    requires ClosedDown(ms, ids) && Line(ms, line) && line[0] in ids
    ensures line[|line| - 1] in ids
  {
    if |line| > 1 {
      ClosedDownHolds(ms, ids, line[..|line| - 1]);
    }
  }

  // Where the worklist stands: everything found descends from the root, and what
  // is not yet closed under children is on the stack.
  ghost predicate Exploring(ms: seq<Message>, root: Id, found: set<Id>, stack: seq<Id>) {
    && (forall id :: id in found || id in stack ==> Descends(ms, root, id))
    && (root in found || root in stack)
    && (forall m :: m in ms && m.parent.Some? && m.parent.value in found ==> m.id in found || m.id in stack)
    && (forall id :: id in found || id in stack ==> id in Ids(ms) + {root})
  }

  lemma ExploreOn(ms: seq<Message>, root: Id, found: set<Id>, stack: seq<Id>, children: seq<Message>)
    requires |stack| > 0 && Exploring(ms, root, found, stack)
    requires forall m :: m in children <==> m in ms && m.parent == Some(stack[|stack| - 1])
    ensures Exploring(ms, root, found + {stack[|stack| - 1]}, stack[..|stack| - 1] + IdsOf(children))
  {
    var id, rest, more := stack[|stack| - 1], stack[..|stack| - 1], IdsOf(children);
    assert stack == rest + [id];
    forall x | x in more
      ensures Descends(ms, root, x) && x in Ids(ms)
    {
      var i :| 0 <= i < |more| && more[i] == x;
      assert children[i] in children;
      DescendsOn(ms, root, id, x);
    }
    forall m | m in ms && m.parent == Some(id)
      ensures m.id in more
    {
      var i :| 0 <= i < |children| && children[i] == m;
      assert more[i] == m.id;
    }
  }

  lemma ExploreAgain(ms: seq<Message>, root: Id, found: set<Id>, stack: seq<Id>)
    requires |stack| > 0 && Exploring(ms, root, found, stack) && stack[|stack| - 1] in found
    ensures Exploring(ms, root, found, stack[..|stack| - 1])
  {
    assert stack == stack[..|stack| - 1] + [stack[|stack| - 1]];
  }

  lemma ExploredAll(ms: seq<Message>, root: Id, found: set<Id>)
    requires Exploring(ms, root, found, [])
    ensures IsSubtree(ms, root, found)
  {
    forall id | Descends(ms, root, id)
      ensures id in found
    {
      var line :| Line(ms, line) && line[0] == root && line[|line| - 1] == id;
      ClosedDownHolds(ms, found, line);
    }
  }

  function IdsOf(ms: seq<Message>): (ids: seq<Id>)
    ensures |ids| == |ms| && forall i | 0 <= i < |ms| :: ids[i] == ms[i].id
  {
    seq(|ms|, i requires 0 <= i < |ms| => ms[i].id)
  }

  method PushIds(stack: seq<Id>, children: seq<Message>) returns (r: seq<Id>)
    ensures r == stack + IdsOf(children)
  {
    r := stack;
    for i := 0 to |children|
      invariant r == stack + IdsOf(children[..i])
    {
      assert IdsOf(children[..i + 1]) == IdsOf(children[..i]) + [children[i].id];
      r := r + [children[i].id];
    }
    assert children[..|children|] == children;
  }

  // Main result: the reflexive-transitive closure of the child relation, cycles
  // or not.
  method CollectDescendantIds(ms: seq<Message>, root: Id) returns (found: set<Id>)
    ensures IsSubtree(ms, root, found)
  {
    var maps := BuildMessageTreeMaps(ms);
    found := {};
    var stack := [root];
    DescendsSelf(ms, root);
    while |stack| > 0
      invariant Exploring(ms, root, found, stack)
      decreases |Ids(ms) + {root} - found|, |stack|
    {
      var next := stack[|stack| - 1];
      if next in found {
        ExploreAgain(ms, root, found, stack);
        stack := stack[..|stack| - 1];
        continue;
      }
      var children := ChildrenAt(maps, Some(next));
      ExploreOn(ms, root, found, stack, children);
      Shrinks(Ids(ms) + {root}, found, next);
      found := found + {next};
      stack := PushIds(stack[..|stack| - 1], children);
    }
    ExploredAll(ms, root, found);
  }

  lemma Shrinks(all: set<Id>, found: set<Id>, next: Id)
    requires next in all && next !in found
    ensures |all - (found + {next})| < |all - found|
  {
    assert all - found == (all - (found + {next})) + {next};
  }

  // ----- the latest leaf ---------------------------------------------------

  ghost predicate OneMessagePerId(ms: seq<Message>) {
    forall m | m in ms :: ById(ms)[m.id] == m
  }

  ghost predicate Leaf(ms: seq<Message>, id: Id) {
    forall m | m in ms :: m.parent != Some(id)
  }

  // The latest of the leaves among `ids`, if it is no earlier than `start`.
  ghost predicate LatestAmong(ms: seq<Message>, start: Message, ids: set<Id>, latest: Message) {
    && latest in ms && start.createdAt <= latest.createdAt
    && (latest == start || (latest.id in ids && Leaf(ms, latest.id)))
    && (OneMessagePerId(ms) ==> forall m | m in ms && m.id in ids && Leaf(ms, m.id) ::
          m.createdAt <= latest.createdAt && (Leaf(ms, latest.id) || m.createdAt < latest.createdAt))
  }

  // The root itself, or the latest leaf below it when that is no earlier.
  ghost predicate IsLatestLeaf(ms: seq<Message>, root: Id, latest: Message) {
    && root in ById(ms)
    && exists ids :: IsSubtree(ms, root, ids) && LatestAmong(ms, ById(ms)[root], ids, latest)
  }

  lemma LatestOn(ms: seq<Message>, start: Message, ids: set<Id>, latest: Message, current: Message)
    requires LatestAmong(ms, start, ids, latest) && current in ms
    ensures !Leaf(ms, current.id) ==> LatestAmong(ms, start, ids + {current.id}, latest)
    ensures Leaf(ms, current.id) ==>
      LatestAmong(ms, start, ids + {current.id}, if current.createdAt >= latest.createdAt then current else latest)
  {
  }

  // Where the search stands.
  ghost predicate Seeking(ms: seq<Message>, start: Message, visited: set<Id>, stack: seq<Message>, latest: Message) {
    && (forall m :: m in stack ==> m in ms)
    && Exploring(ms, start.id, visited, IdsOf(stack))
    && LatestAmong(ms, start, visited, latest)
  }

  lemma SeekAgain(ms: seq<Message>, start: Message, visited: set<Id>, stack: seq<Message>, latest: Message)
    requires |stack| > 0 && Seeking(ms, start, visited, stack, latest) && stack[|stack| - 1].id in visited
    ensures Seeking(ms, start, visited, stack[..|stack| - 1], latest)
  {
    ExploreAgain(ms, start.id, visited, IdsOf(stack));
    assert IdsOf(stack[..|stack| - 1]) == IdsOf(stack)[..|stack| - 1];
  }

  lemma SeekExplores(ms: seq<Message>, root: Id, visited: set<Id>, stack: seq<Message>, children: seq<Message>)
    requires |stack| > 0 && Exploring(ms, root, visited, IdsOf(stack))
    requires forall m :: m in children <==> m in ms && m.parent == Some(stack[|stack| - 1].id)
    ensures stack[|stack| - 1].id in Ids(ms) + {root}
    ensures Exploring(ms, root, visited + {stack[|stack| - 1].id}, IdsOf(stack[..|stack| - 1] + children))
  {
    ExploreOn(ms, root, visited, IdsOf(stack), children);
    var rest := stack[..|stack| - 1];
    assert IdsOf(rest + children) == IdsOf(stack)[..|stack| - 1] + IdsOf(children);
    assert IdsOf(stack)[|stack| - 1] in IdsOf(stack);
  }

  lemma SeekLatest(ms: seq<Message>, start: Message, visited: set<Id>, latest: Message, current: Message,
                   children: seq<Message>)
    requires LatestAmong(ms, start, visited, latest) && current in ms
    requires forall m :: m in children <==> m in ms && m.parent == Some(current.id)
    ensures LatestAmong(ms, start, visited + {current.id},
                        if |children| == 0 && current.createdAt >= latest.createdAt then current else latest)
  {
    if |children| > 0 {
      assert children[0] in children;
    }
    LatestOn(ms, start, visited, latest, current);
  }

  lemma SeekOn(ms: seq<Message>, start: Message, visited: set<Id>, stack: seq<Message>, latest: Message,
               current: Message, children: seq<Message>)
    requires |stack| > 0 && Seeking(ms, start, visited, stack, latest) && current == stack[|stack| - 1]
    requires forall m :: m in children <==> m in ms && m.parent == Some(current.id)
    ensures current.id in Ids(ms) + {start.id}
    ensures Seeking(ms, start, visited + {current.id}, stack[..|stack| - 1] + children,
                    if |children| == 0 && current.createdAt >= latest.createdAt then current else latest)
  {
    SeekExplores(ms, start.id, visited, stack, children);
    SeekLatest(ms, start, visited, latest, current, children);
  }

  method FindLatestLeafFromMaps(maps: Maps, root: Id, ghost ms: seq<Message>) returns (r: Option<Message>)
    requires AreMapsOf(maps, ms)
    ensures r.None? <==> root !in ById(ms)
    ensures r.Some? ==> IsLatestLeaf(ms, root, r.value)
  {
    if root !in maps.byId {
      return None;
    }
    var start := maps.byId[root];
    var latest := start;
    var stack := [start];
    var visited := {};
    assert IdsOf(stack) == [root];
    DescendsSelf(ms, root);
    while |stack| > 0
      invariant Seeking(ms, start, visited, stack, latest)
      decreases |Ids(ms) + {start.id} - visited|, |stack|
    {
      var current := stack[|stack| - 1];
      if current.id in visited {
        SeekAgain(ms, start, visited, stack, latest);
        stack := stack[..|stack| - 1];
        continue;
      }
      var children := ChildrenAt(maps, Some(current.id));
      SeekOn(ms, start, visited, stack, latest, current, children);
      Shrinks(Ids(ms) + {start.id}, visited, current.id);
      visited := visited + {current.id};
      if |children| == 0 {
        if current.createdAt >= latest.createdAt {
          latest := current;
        }
      }
      stack := PushMessages(stack[..|stack| - 1], children);
    }
    ExploredAll(ms, root, visited);
    return Some(latest);
  }

  method PushMessages(stack: seq<Message>, children: seq<Message>) returns (r: seq<Message>)
    ensures r == stack + children
  {
    r := stack;
    for i := 0 to |children|
      invariant r == stack + children[..i]
    {
      r := r + [children[i]];
    }
  }

  // ----- the replacement head ----------------------------------------------

  // The n-th ancestor is the first that is among `ids`.
  ghost predicate NearestIn(byId: map<Id, Message>, ids: set<Id>, id: Id, n: nat) {
    n > 0 && Ancestor(byId, id, n).Some? && Ancestor(byId, id, n).value in ids && NoneBelow(byId, ids, id, n)
  }

  // No proper ancestor before the n-th is among `ids`.
  ghost predicate NoneBelow(byId: map<Id, Message>, ids: set<Id>, id: Id, n: nat) {
    n <= 1 ||
    ((Ancestor(byId, id, n - 1).Some? ==> Ancestor(byId, id, n - 1).value !in ids) && NoneBelow(byId, ids, id, n - 1))
  }

  lemma {:induction false} NoneBelowAt(byId: map<Id, Message>, ids: set<Id>, id: Id, n: nat, k: nat)
    requires NoneBelow(byId, ids, id, n) && 0 < k < n && Ancestor(byId, id, k).Some?
    ensures Ancestor(byId, id, k).value !in ids
  {
    if k < n - 1 {
      NoneBelowAt(byId, ids, id, n - 1, k);
    }
  }

  ghost predicate NoneIn(byId: map<Id, Message>, ids: set<Id>, id: Id) {
    forall k: nat | 0 < k :: Ancestor(byId, id, k).Some? ==> Ancestor(byId, id, k).value !in ids
  }

  ghost predicate LatestLeafId(ms: seq<Message>, root: Id, id: Id) {
    exists m :: IsLatestLeaf(ms, root, m) && m.id == id
  }

  ghost predicate LeafNoLater(ms: seq<Message>, root: Id, bound: int) {
    exists m :: IsLatestLeaf(ms, root, m) && m.createdAt <= bound
  }

  // A latest leaf below one message without a parent, and none below the others
  // is later.
  ghost predicate LatestOfRoots(ms: seq<Message>, root: Message, leaf: Message) {
    && root in ms && root.parent.None? && IsLatestLeaf(ms, root.id, leaf)
    && forall r :: r in ms && r.parent.None? ==> LeafNoLater(ms, r.id, leaf.createdAt)
  }

  ghost predicate LatestOfAll(ms: seq<Message>, id: Id) {
    exists root, leaf :: LatestOfRoots(ms, root, leaf) && leaf.id == id
  }

  ghost predicate Rootless(ms: seq<Message>) {
    forall m | m in ms :: m.parent.Some?
  }

  // The head stays if it survives; otherwise it is the latest leaf below its
  // nearest surviving ancestor, or else the latest leaf there is.
  ghost predicate Replaces(original: seq<Message>, remaining: seq<Message>, previous: Option<Id>, head: Option<Id>) {
    var byId, ids := ById(original), Ids(remaining);
    if previous.Some? && previous.value in ids then head == previous
    else if previous.Some? && !NoneIn(byId, ids, previous.value) then
      exists n: nat :: NearestIn(byId, ids, previous.value, n) && head.Some?
                       && LatestLeafId(remaining, Ancestor(byId, previous.value, n).value, head.value)
    else if Rootless(remaining) then head.None?
    else head.Some? && LatestOfAll(remaining, head.value)
  }

  // How far up the search for a surviving ancestor has got.
  ghost predicate Ascending(byId: map<Id, Message>, ids: set<Id>, id: Id, n: nat, current: Option<Id>,
                            visited: set<Id>) {
    && n > 0 && current == Ancestor(byId, id, n)
    && NoneBelow(byId, ids, id, n) && AllVisited(byId, visited, id, n) && visited !! ids
    && (forall v | v in visited :: ParentOf(byId, v).Some? ==>
          ParentOf(byId, v).value in visited || ParentOf(byId, v) == current)
  }

  ghost predicate AllVisited(byId: map<Id, Message>, visited: set<Id>, id: Id, n: nat) {
    n <= 1 ||
    (Ancestor(byId, id, n - 1).Some? && Ancestor(byId, id, n - 1).value in visited
        && AllVisited(byId, visited, id, n - 1))
  }

  lemma {:induction false} VisitedMore(byId: map<Id, Message>, visited: set<Id>, id: Id, n: nat, more: set<Id>)
    requires AllVisited(byId, visited, id, n) && visited <= more
    ensures AllVisited(byId, more, id, n)
  {
    if n > 1 {
      VisitedMore(byId, visited, id, n - 1, more);
    }
  }

  lemma {:induction false} VisitedAt(byId: map<Id, Message>, visited: set<Id>, id: Id, n: nat, k: nat)
    requires AllVisited(byId, visited, id, n) && 0 < k < n
    ensures Ancestor(byId, id, k).Some? && Ancestor(byId, id, k).value in visited
  {
    if k < n - 1 {
      VisitedAt(byId, visited, id, n - 1, k);
    }
  }

  lemma AscendOn(byId: map<Id, Message>, ids: set<Id>, id: Id, n: nat, current: Id, visited: set<Id>)
    requires Ascending(byId, ids, id, n, Some(current), visited) && current !in ids
    ensures Ascending(byId, ids, id, n + 1, ParentOf(byId, current), visited + {current})
  {
    VisitedMore(byId, visited, id, n, visited + {current});
  }

  lemma {:induction false} AscendedAround(byId: map<Id, Message>, ids: set<Id>, id: Id, n: nat, current: Option<Id>,
                                          visited: set<Id>, k: nat)
    requires Ascending(byId, ids, id, n, current, visited) && (current.Some? ==> current.value in visited)
    requires k > 0 && Ancestor(byId, id, k).Some?
    ensures Ancestor(byId, id, k).value in visited
    decreases k
  {
    if k < n {
      VisitedAt(byId, visited, id, n, k);
    } else if k > 1 {
      AscendedAround(byId, ids, id, n, current, visited, k - 1);
    }
  }

  lemma AscendedNowhere(byId: map<Id, Message>, ids: set<Id>, id: Id, n: nat, current: Option<Id>, visited: set<Id>)
    requires Ascending(byId, ids, id, n, current, visited) && (current.Some? ==> current.value in visited)
    ensures NoneIn(byId, ids, id)
  {
    forall k: nat | 0 < k && Ancestor(byId, id, k).Some?
      ensures Ancestor(byId, id, k).value !in ids
    {
      AscendedAround(byId, ids, id, n, current, visited, k);
    }
  }

  // The nearest ancestor that is among `ids`.
  method NearestSurvivor(byId: map<Id, Message>, remaining: map<Id, Message>, id: Id) returns (found: Option<Id>)
    ensures found.Some? ==> exists n: nat :: NearestIn(byId, remaining.Keys, id, n) && Ancestor(byId, id, n) == found
    ensures found.None? ==> NoneIn(byId, remaining.Keys, id)
  {
    var current := if id in byId then byId[id].parent else None;
    var visited := {};
    ghost var n: nat := 1;
    assert Ancestor(byId, id, 0) == Some(id);
    ghost var all := byId.Keys + (if current.Some? then {current.value} else {}) + Parents(byId);
    while current.Some?
      invariant Ascending(byId, remaining.Keys, id, n, current, visited)
      invariant visited <= all && (current.Some? ==> current.value in all)
      decreases |all - visited|, if current.Some? then 1 else 0
    {
      if current.value in visited {
        break;
      }
      if current.value in remaining {
        return current;
      }
      AscendOn(byId, remaining.Keys, id, n, current.value, visited);
      Shrinks(all, visited, current.value);
      visited := visited + {current.value};
      current := if current.value in byId then byId[current.value].parent else None;
      n := n + 1;
    }
    AscendedNowhere(byId, remaining.Keys, id, n, current, visited);
    return None;
  }

  ghost function Parents(byId: map<Id, Message>): set<Id> {
    set id | id in byId && byId[id].parent.Some? :: byId[id].parent.value
  }

  method PickLatestRootLeaf(maps: Maps, ghost ms: seq<Message>) returns (head: Option<Id>)
    requires AreMapsOf(maps, ms)
    ensures if Rootless(ms) then head.None? else head.Some? && LatestOfAll(ms, head.value)
  {
    var roots := ChildrenAt(maps, None);
    var leaves := LatestLeaves(maps, roots, ms);
    var sorted := SortByCreatedAt(leaves);
    RootsChosen(ms, roots, leaves);
    return if |sorted| == 0 then None else Some(sorted[|sorted| - 1].id);
  }

  method LatestLeaves(maps: Maps, roots: seq<Message>, ghost ms: seq<Message>) returns (leaves: seq<Message>)
    requires AreMapsOf(maps, ms)
    requires forall m :: m in roots ==> m.id in maps.byId
    ensures LeavesOf(ms, roots, leaves)
  {
    leaves := [];
    for i := 0 to |roots|
      invariant i == |leaves| && LeavesOf(ms, roots[..i], leaves)
    {
      assert roots[i] in roots;
      var leaf := FindLatestLeafFromMaps(maps, roots[i].id, ms);
      OneMoreLeaf(ms, roots, leaves, leaf.value);
      leaves := leaves + [leaf.value];
    }
    assert roots[..|roots|] == roots;
  }

  lemma OneMoreLeaf(ms: seq<Message>, roots: seq<Message>, leaves: seq<Message>, leaf: Message)
    requires |leaves| < |roots| && LeavesOf(ms, roots[..|leaves|], leaves)
    requires IsLatestLeaf(ms, roots[|leaves|].id, leaf)
    ensures LeavesOf(ms, roots[..|leaves| + 1], leaves + [leaf])
  {
    var more, all := roots[..|leaves| + 1], leaves + [leaf];
    forall k | 0 <= k < |more|
      ensures IsLatestLeaf(ms, more[k].id, all[k])
    {
      if k < |leaves| {
        assert more[k] == roots[..|leaves|][k];
      }
    }
  }

  // The latest leaf below each of the roots.
  ghost predicate LeavesOf(ms: seq<Message>, roots: seq<Message>, leaves: seq<Message>) {
    |leaves| == |roots| && forall k | 0 <= k < |roots| :: IsLatestLeaf(ms, roots[k].id, leaves[k])
  }

  lemma LastIsLatest(ms: seq<Message>)
    ensures |SortByCreatedAt(ms)| == 0 <==> |ms| == 0
    ensures var sorted := SortByCreatedAt(ms);
            |ms| > 0 ==>
              && sorted[|sorted| - 1] in ms
              && forall m :: m in ms ==> m.createdAt <= sorted[|sorted| - 1].createdAt
  {
    var sorted := SortByCreatedAt(ms);
    SortIsStable(ms, 0);
    if |ms| > 0 {
      assert ms[0] in sorted;
    }
    if |sorted| > 0 {
      assert sorted[|sorted| - 1] in sorted;
    }
  }

  lemma RootsChosen(ms: seq<Message>, roots: seq<Message>, leaves: seq<Message>)
    requires LeavesOf(ms, roots, leaves)
    requires forall m :: m in roots <==> m in ms && m.parent.None?
    ensures var sorted := SortByCreatedAt(leaves);
            && (|sorted| == 0 <==> Rootless(ms))
            && (|sorted| > 0 ==> LatestOfAll(ms, sorted[|sorted| - 1].id))
  {
    LastIsLatest(leaves);
    if |leaves| == 0 {
      assert Rootless(ms);
    } else {
      var sorted := SortByCreatedAt(leaves);
      var last := sorted[|sorted| - 1];
      var i :| 0 <= i < |leaves| && leaves[i] == last;
      assert roots[i] in roots;
      forall r | r in ms && r.parent.None?
        ensures LeafNoLater(ms, r.id, last.createdAt)
      {
        assert r in roots;
        var k :| 0 <= k < |roots| && roots[k] == r;
        assert leaves[k] in leaves;
      }
      assert LatestOfRoots(ms, roots[i], last);
    }
  }

  // Main result of this section.
  method PickReplacementHeadId(original: seq<Message>, remaining: seq<Message>, previous: Option<Id>)
      returns (head: Option<Id>)
    ensures Replaces(original, remaining, previous, head)
  {
    if previous.Some? && exists i | 0 <= i < |remaining| :: remaining[i].id == previous.value {
      return previous;
    }
    var originalMaps := BuildMessageTreeMaps(original);
    var remainingMaps := BuildMessageTreeMaps(remaining);
    if previous.Some? {
      var ancestor := NearestSurvivor(originalMaps.byId, remainingMaps.byId, previous.value);
      if ancestor.Some? {
        var leaf := FindLatestLeafFromMaps(remainingMaps, ancestor.value, remaining);
        return Some(leaf.value.id);
      }
    }
    head := PickLatestRootLeaf(remainingMaps, remaining);
  }
}
