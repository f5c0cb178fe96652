// The message tree of a thread. Ids are compared only; timestamps only ordered.
module MessageTree {
  import opened Options

  type Id(==, !new)

  datatype Message = Message(id: Id, parent: Option<Id>, createdAt: int)

  datatype Maps = Maps(byId: map<Id, Message>, childrenByParent: map<Option<Id>, seq<Message>>)

  // ----- the maps ----------------------------------------------------------

  // A later message with the same id replaces an earlier one.
  function ById(ms: seq<Message>): (byId: map<Id, Message>)
    ensures forall id :: id in byId ==> byId[id] in ms && byId[id].id == id
    ensures forall m :: m in ms ==> m.id in byId
  {
    if |ms| == 0 then map[] else ById(ms[..|ms| - 1])[ms[|ms| - 1].id := ms[|ms| - 1]]
  }

  function WithParent(ms: seq<Message>, parent: Option<Id>): (r: seq<Message>)
    ensures forall m :: m in r <==> m in ms && m.parent == parent
  {
    if |ms| == 0 then []
    else
      var last := ms[|ms| - 1];
      WithParent(ms[..|ms| - 1], parent) + (if last.parent == parent then [last] else [])
  }

  // The messages of one moment, in order: what a stable sort leaves alone.
  function At(ms: seq<Message>, createdAt: int): (r: seq<Message>)
    ensures forall m :: m in r <==> m in ms && m.createdAt == createdAt
  {
    if |ms| == 0 then []
    else
      var last := ms[|ms| - 1];
      At(ms[..|ms| - 1], createdAt) + (if last.createdAt == createdAt then [last] else [])
  }

  predicate Sorted(ms: seq<Message>) {
    forall i, j | 0 <= i < j < |ms| :: ms[i].createdAt <= ms[j].createdAt
  }

  function Insert(ms: seq<Message>, m: Message): (r: seq<Message>)
    ensures forall x :: x in r <==> x in ms || x == m
  {
    if |ms| == 0 || ms[|ms| - 1].createdAt <= m.createdAt then ms + [m]
    else Insert(ms[..|ms| - 1], m) + [ms[|ms| - 1]]
  }

  // Array.prototype.sort, which is stable.
  function SortByCreatedAt(ms: seq<Message>): (r: seq<Message>)
    ensures forall m :: m in r <==> m in ms
  {
    if |ms| == 0 then [] else Insert(SortByCreatedAt(ms[..|ms| - 1]), ms[|ms| - 1])
  }

  lemma AtAppend(ms: seq<Message>, m: Message, createdAt: int)
    ensures At(ms + [m], createdAt) == At(ms, createdAt) + (if m.createdAt == createdAt then [m] else [])
  {
    assert (ms + [m])[..|ms|] == ms;
  }

  lemma {:induction false} InsertIsSorted(ms: seq<Message>, m: Message)
    requires Sorted(ms)
    ensures Sorted(Insert(ms, m))
  {
    if |ms| > 0 && ms[|ms| - 1].createdAt > m.createdAt {
      var front, last := ms[..|ms| - 1], ms[|ms| - 1];
      InsertIsSorted(front, m);
      forall x | x in Insert(front, m)
        ensures x.createdAt <= last.createdAt
      {
      }
      var r := Insert(front, m);
      assert forall i | 0 <= i < |r| :: r[i] in r;
    }
  }

  lemma Swap(a: seq<Message>, b: seq<Message>, c: seq<Message>)
    requires b == [] || c == []
    ensures (a + b) + c == (a + c) + b
  {
    if b == [] {
      assert a + b == a;
    } else {
      assert a + c == a;
    }
  }

  lemma {:induction false} InsertIsStable(ms: seq<Message>, m: Message, createdAt: int)
    ensures At(Insert(ms, m), createdAt) == At(ms, createdAt) + (if m.createdAt == createdAt then [m] else [])
  {
    if |ms| == 0 || ms[|ms| - 1].createdAt <= m.createdAt {
      AtAppend(ms, m, createdAt);
    } else {
      var front, last := ms[..|ms| - 1], ms[|ms| - 1];
      InsertIsStable(front, m, createdAt);
      AtAppend(Insert(front, m), last, createdAt);
      Swap(At(front, createdAt), if m.createdAt == createdAt then [m] else [],
           if last.createdAt == createdAt then [last] else []);
    }
  }

  lemma {:induction false} SortIsStable(ms: seq<Message>, createdAt: int)
    ensures Sorted(SortByCreatedAt(ms)) && At(SortByCreatedAt(ms), createdAt) == At(ms, createdAt)
  {
    if |ms| > 0 {
      SortIsStable(ms[..|ms| - 1], createdAt);
      InsertIsSorted(SortByCreatedAt(ms[..|ms| - 1]), ms[|ms| - 1]);
      InsertIsStable(SortByCreatedAt(ms[..|ms| - 1]), ms[|ms| - 1], createdAt);
    }
  }

  function ChildrenAt(maps: Maps, parent: Option<Id>): seq<Message> {
    if parent in maps.childrenByParent then maps.childrenByParent[parent] else []
  }

  ghost predicate AreMapsOf(maps: Maps, ms: seq<Message>) {
    && maps.byId == ById(ms)
    && forall parent :: ChildrenAt(maps, parent) == WithParent(SortByCreatedAt(ms), parent)
  }

  ghost predicate Grouped(groups: map<Option<Id>, seq<Message>>, ms: seq<Message>) {
    forall parent :: (if parent in groups then groups[parent] else []) == WithParent(ms, parent)
  }

  lemma GroupOne(groups: map<Option<Id>, seq<Message>>, ms: seq<Message>, i: nat)
    requires i < |ms| && Grouped(groups, ms[..i])
    ensures var key := ms[i].parent;
            Grouped(groups[key := (if key in groups then groups[key] else []) + [ms[i]]], ms[..i + 1])
  {
    assert ms[..i + 1][..i] == ms[..i];
  }

  method GroupByParent(ms: seq<Message>) returns (groups: map<Option<Id>, seq<Message>>)
    ensures Grouped(groups, ms)
  {
    groups := map[];
    for i := 0 to |ms|
      invariant Grouped(groups, ms[..i])
    {
      GroupOne(groups, ms, i);
      var key := ms[i].parent;
      var children := if key in groups then groups[key] else [];
      groups := groups[key := children + [ms[i]]];
    }
    assert ms[..|ms|] == ms;
  }

  method IndexById(ms: seq<Message>) returns (byId: map<Id, Message>)
    ensures byId == ById(ms)
  {
    byId := map[];
    for i := 0 to |ms|
      invariant byId == ById(ms[..i])
    {
      assert ms[..i + 1][..i] == ms[..i];
      byId := byId[ms[i].id := ms[i]];
    }
    assert ms[..|ms|] == ms;
  }

  method BuildMessageTreeMaps(ms: seq<Message>) returns (maps: Maps)
    ensures AreMapsOf(maps, ms)
  {
    var byId := IndexById(ms);
    var groups := GroupByParent(SortByCreatedAt(ms));
    maps := Maps(byId, groups);
  }

  // ----- ancestors ---------------------------------------------------------

  function ParentOf(byId: map<Id, Message>, id: Id): Option<Id> {
    if id in byId then byId[id].parent else None
  }

  // The n-th id on the way up.
  function Ancestor(byId: map<Id, Message>, id: Id, n: nat): Option<Id> {
    if n == 0 then Some(id)
    else
      var below := Ancestor(byId, id, n - 1);
      if below.Some? then ParentOf(byId, below.value) else None
  }

  ghost predicate Above(byId: map<Id, Message>, top: Id, id: Id) {
    exists n: nat :: Ancestor(byId, id, n) == Some(top)
  }

  ghost predicate Acyclic(byId: map<Id, Message>) {
    forall id, n: nat | n > 0 :: Ancestor(byId, id, n) != Some(id)
  }

  lemma {:induction false} AncestorAdd(byId: map<Id, Message>, id: Id, k: nat, n: nat)
    requires Ancestor(byId, id, k).Some?
    ensures Ancestor(byId, id, k + n) == Ancestor(byId, Ancestor(byId, id, k).value, n)
  {
    if n > 0 {
      AncestorAdd(byId, id, k, n - 1);
    }
  }

  lemma {:induction false} AncestorDefined(byId: map<Id, Message>, id: Id, k: nat, n: nat)
    requires k <= n && Ancestor(byId, id, n).Some?
    ensures Ancestor(byId, id, k).Some?
    decreases n
  {
    if k < n {
      AncestorDefined(byId, id, k, n - 1);
    }
  }

  ghost predicate ClosedUp(byId: map<Id, Message>, ids: set<Id>) {
    forall id | id in ids :: ParentOf(byId, id).Some? && ParentOf(byId, id).value in byId
        ==> ParentOf(byId, id).value in ids
  }

  // A set that is closed under parents holds every present ancestor of its members.
  lemma {:induction false} ClosedUpHolds(byId: map<Id, Message>, ids: set<Id>, id: Id, n: nat)
    requires id in ids && ClosedUp(byId, ids)
    requires Ancestor(byId, id, n).Some? && Ancestor(byId, id, n).value in byId
    ensures Ancestor(byId, id, n).value in ids
  {
    if n > 0 {
      ClosedUpHolds(byId, ids, id, n - 1);
    }
  }

  // ----- paths -------------------------------------------------------------

  function Ids(ms: seq<Message>): (ids: set<Id>)
    ensures forall id :: id in ids <==> id in ById(ms)
  {
    ById(ms).Keys
  }

  // The way from the target up, as far as it goes without repeating itself.
  ghost predicate IsClimb(byId: map<Id, Message>, target: Id, climb: seq<Message>) {
    && (forall i | 0 <= i < |climb| ::
          && Ancestor(byId, target, i) == Some(climb[i].id)
          && climb[i].id in byId && byId[climb[i].id] == climb[i])
    && (forall i, j | 0 <= i < j < |climb| :: climb[i].id != climb[j].id)
  }

  // A duplicate-free chain from a root (or from where the chain would repeat) to
  // the target that holds every ancestor.
  ghost predicate IsPathTo(byId: map<Id, Message>, target: Id, path: seq<Message>) {
    && (forall i | 0 <= i < |path| :: path[i].id in byId && byId[path[i].id] == path[i])
    && (forall i, j | 0 <= i < j < |path| :: path[i].id != path[j].id)
    && (forall i, j | 0 <= i < |path| && j == i + 1 && j < |path| :: path[j].parent == Some(path[i].id))
    && (path == [] <==> target !in byId)
    && (path != [] ==> path[|path| - 1].id == target)
    && (forall id :: OnPath(path, id) <==> id in byId && Above(byId, id, target))
  }

  ghost predicate OnPath(path: seq<Message>, id: Id) {
    exists i | 0 <= i < |path| :: path[i].id == id
  }

  function Reversed(ms: seq<Message>): (r: seq<Message>)
    ensures |r| == |ms| && forall i | 0 <= i < |ms| :: r[i] == ms[|ms| - 1 - i]
  {
    seq(|ms|, i requires 0 <= i < |ms| => ms[|ms| - 1 - i])
  }

  ghost predicate Climbed(byId: map<Id, Message>, target: Id, climb: seq<Message>, current: Option<Id>,
                          visited: set<Id>) {
    && IsClimb(byId, target, climb)
    && current == Ancestor(byId, target, |climb|)
    && (forall id :: id in visited <==> OnPath(climb, id))
    && visited <= byId.Keys
  }

  lemma ClimbOn(byId: map<Id, Message>, target: Id, climb: seq<Message>, current: Id, visited: set<Id>)
    requires Climbed(byId, target, climb, Some(current), visited)
    requires current !in visited && current in byId && byId[current].id == current
    ensures Climbed(byId, target, climb + [byId[current]], byId[current].parent, visited + {current})
  {
    var next := climb + [byId[current]];
    assert forall i | 0 <= i < |climb| :: next[i] == climb[i];
    forall i | 0 <= i < |climb|
      ensures next[i].id != current
    {
      assert OnPath(climb, climb[i].id);
    }
    forall id
      ensures OnPath(next, id) <==> id in visited || id == current
    {
      assert next[|climb|].id == current;
      if id in visited {
        var i :| 0 <= i < |climb| && climb[i].id == id;
        assert next[i].id == id;
      }
    }
  }

  lemma ClimbIsPath(byId: map<Id, Message>, target: Id, climb: seq<Message>, current: Option<Id>, visited: set<Id>)
    requires Climbed(byId, target, climb, current, visited)
    requires current.Some? ==> current.value in visited || current.value !in byId
    ensures IsPathTo(byId, target, Reversed(climb))
  {
    var path := Reversed(climb);
    if |climb| > 0 {
      assert Ancestor(byId, target, 0) == Some(climb[0].id);
    } else {
      assert forall id :: !OnPath(climb, id);
    }
    assert ClosedUp(byId, visited) by {
      forall id | id in visited && ParentOf(byId, id).Some?
        ensures ParentOf(byId, id).value !in byId || ParentOf(byId, id).value in visited
      {
        var i :| 0 <= i < |climb| && climb[i].id == id;
        assert ParentOf(byId, id) == Ancestor(byId, target, i + 1);
        if i + 1 < |climb| {
          assert OnPath(climb, climb[i + 1].id);
        }
      }
    }
    forall id
      ensures OnPath(path, id) <==> id in byId && Above(byId, id, target)
    {
      OnReversed(climb, id);
      if id in byId && Above(byId, id, target) {
        var n: nat :| Ancestor(byId, target, n) == Some(id);
        AncestorDefined(byId, target, 0, n);
        TargetVisited(byId, target, climb, current, visited, n);
        ClosedUpHolds(byId, visited, target, n);
      }
    }
    forall i, j | 0 <= i < |path| && j == i + 1 && j < |path|
      ensures path[j].parent == Some(path[i].id)
    {
      assert Ancestor(byId, target, |climb| - 1 - i) == Some(path[i].id);
      assert Ancestor(byId, target, |climb| - 1 - j) == Some(path[j].id);
    }
  }

  // A target with an ancestor that is present is present itself.
  lemma TargetVisited(byId: map<Id, Message>, target: Id, climb: seq<Message>, current: Option<Id>, visited: set<Id>,
                      n: nat)
    requires Climbed(byId, target, climb, current, visited)
    requires current.Some? ==> current.value in visited || current.value !in byId
    requires Ancestor(byId, target, n).Some? && Ancestor(byId, target, n).value in byId
    ensures target in visited
  {
    if |climb| == 0 {
      assert !OnPath(climb, target);
      AbsentTop(byId, target, n);
    } else {
      assert OnPath(climb, climb[0].id);
    }
  }

  lemma {:induction false} AbsentTop(byId: map<Id, Message>, target: Id, n: nat)
    requires target !in byId
    ensures n > 0 ==> Ancestor(byId, target, n).None?
  {
    if n > 1 {
      AbsentTop(byId, target, n - 1);
    }
  }

  lemma OnReversed(ms: seq<Message>, id: Id)
    ensures OnPath(Reversed(ms), id) <==> OnPath(ms, id)
  {
    var r := Reversed(ms);
    if OnPath(ms, id) {
      var i :| 0 <= i < |ms| && ms[i].id == id;
      assert r[|ms| - 1 - i].id == id;
    }
    if OnPath(r, id) {
      var i :| 0 <= i < |r| && r[i].id == id;
      assert ms[|ms| - 1 - i].id == id;
    }
  }

  method CollectMessagePathFromMaps(maps: Maps, target: Id) returns (path: seq<Message>)
    requires forall id :: id in maps.byId ==> maps.byId[id].id == id
    ensures IsPathTo(maps.byId, target, path)
  {
    path := [];
    var visited := {};
    var current := Some(target);
    while current.Some?
      invariant Climbed(maps.byId, target, path, current, visited)
      decreases |maps.byId.Keys - visited|, if current.Some? then 1 else 0
    {
      if current.value in visited || current.value !in maps.byId {
        break;
      }
      ClimbOn(maps.byId, target, path, current.value, visited);
      visited := visited + {current.value};
      path := path + [maps.byId[current.value]];
      current := maps.byId[current.value].parent;
    }
    ClimbIsPath(maps.byId, target, path, current, visited);
    path := Reversed(path);
  }

  method CollectMessagePath(ms: seq<Message>, target: Id) returns (path: seq<Message>)
    ensures IsPathTo(ById(ms), target, path)
  {
    var maps := BuildMessageTreeMaps(ms);
    path := CollectMessagePathFromMaps(maps, target);
  }

  // ----- the reparenting guard ---------------------------------------------

  ghost predicate CycleGuard(byId: map<Id, Message>, id: Id, parent: Option<Id>) {
    parent.Some? && (id == parent.value || (id in byId && Above(byId, id, parent.value)))
  }

  // Main result: true exactly when the message is the proposed parent or one of
  // its ancestors.
  method WouldCreateParentCycle(ms: seq<Message>, id: Id, parent: Option<Id>) returns (would: bool)
    ensures would <==> CycleGuard(ById(ms), id, parent)
  {
    if parent.None? {
      return false;
    }
    if id == parent.value {
      return true;
    }
    var path := CollectMessagePath(ms, parent.value);
    would := exists i | 0 <= i < |path| :: path[i].id == id;
    assert would <==> OnPath(path, id);
  }

  function Reparent(byId: map<Id, Message>, id: Id, parent: Option<Id>): map<Id, Message>
    requires id in byId
  {
    byId[id := byId[id].(parent := parent)]
  }

  // Away from the moved message nothing changes.
  lemma {:induction false} SameUntilMoved(byId: map<Id, Message>, id: Id, parent: Option<Id>, from: Id, n: nat)
    requires id in byId && forall k: nat | k < n :: Ancestor(byId, from, k) != Some(id)
    ensures forall k: nat | k <= n :: Ancestor(Reparent(byId, id, parent), from, k) == Ancestor(byId, from, k)
  {
    if n > 0 {
      SameUntilMoved(byId, id, parent, from, n - 1);
    }
  }

  // The first time the chain from `from` meets `id`.
  lemma {:induction false} FirstMeeting(byId: map<Id, Message>, id: Id, from: Id, n: nat) returns (first: nat)
    requires Ancestor(byId, from, n) == Some(id)
    ensures first <= n && Ancestor(byId, from, first) == Some(id)
    ensures forall k: nat | k < first :: Ancestor(byId, from, k) != Some(id)
    decreases n
  {
    if m: nat :| m < n && Ancestor(byId, from, m) == Some(id) {
      first := FirstMeeting(byId, id, from, m);
    } else {
      first := n;
    }
  }

  lemma CycleThroughMoved(byId: map<Id, Message>, id: Id, parent: Option<Id>, from: Id, n: nat)
    requires id in byId && Acyclic(byId) && n > 0
    requires Ancestor(Reparent(byId, id, parent), from, n) == Some(from)
    ensures Ancestor(Reparent(byId, id, parent), id, n) == Some(id)
  {
    var moved := Reparent(byId, id, parent);
    assert Reparent(moved, id, byId[id].parent) == byId;
    if j: nat :| j < n && Ancestor(moved, from, j) == Some(id) {
      AncestorAdd(moved, from, n, j);
      AncestorAdd(moved, from, j, n);
    } else {
      SameUntilMoved(moved, id, byId[id].parent, from, n);
    }
  }

  // Main result: a reparent keeps an acyclic forest acyclic exactly when the
  // guard lets it through.
  lemma ReparentingGuard(byId: map<Id, Message>, id: Id, parent: Option<Id>)
    requires id in byId && Acyclic(byId)
    ensures Acyclic(Reparent(byId, id, parent)) <==> !CycleGuard(byId, id, parent)
  {
    var moved := Reparent(byId, id, parent);
    if CycleGuard(byId, id, parent) {
      var n: nat := if id == parent.value then 0 else var k: nat :| Ancestor(byId, parent.value, k) == Some(id); k;
      var first := FirstMeeting(byId, id, parent.value, n);
      SameUntilMoved(byId, id, parent, parent.value, first);
      assert Ancestor(moved, id, 0) == Some(id);
      assert Ancestor(moved, id, 1) == parent;
      AncestorAdd(moved, id, 1, first);
      assert Ancestor(moved, id, 1 + first) == Some(id);
    }
    if from, n: nat :| n > 0 && Ancestor(moved, from, n) == Some(from) {
      CycleThroughMoved(byId, id, parent, from, n);
      assert Ancestor(moved, id, 0) == Some(id);
      assert Ancestor(moved, id, 1) == parent;
      AncestorDefined(moved, id, 1, n);
      AncestorAdd(moved, id, 1, n - 1);
      var first := FirstMeeting(moved, id, parent.value, n - 1);
      SameUntilMoved(moved, id, byId[id].parent, parent.value, first);
      assert Reparent(moved, id, byId[id].parent) == byId;
      assert Above(byId, id, parent.value);
    }
  }
}
