// Relays die out. Any number of devices edit, export and import each other's
// operations, in any order and as often as they like, on paths that nothing
// obstructs and without resolving conflicts.
module SkillQuiescence {
  import opened Options
  import opened SkillTypes
  import opened SkillInvariants

  // One path on one device, with the generations it has ever published.
  datatype Site = Site(path: Path, row: PathState, saidUps: set<Id>, saidTombs: set<Id>)

  // `ids` holds every generation id drawn so far for each path.
  datatype Net = Net(sites: seq<Site>, log: set<(Path, SkillOp)>, ids: map<Path, set<Id>>)

  datatype Move =
    | Write(i: nat, file: Option<Content>)
    | Send(i: nat, full: bool, newId: Id)
    | Receive(i: nat, op: SkillOp, device: Device, seqNo: int)

  function Drawn(ids: map<Path, set<Id>>, path: Path): set<Id> {
    if path in ids then ids[path] else {}
  }

  function DrawnMore(ids: map<Path, set<Id>>, path: Path, newId: Id): map<Path, set<Id>> {
    ids[path := Drawn(ids, path) + {newId}]
  }

  predicate Dirty(s: PathState) {
    Vanished(s) || LocallyChanged(s)
  }

  function UpsIn(ops: seq<SkillOp>): set<Id> {
    set op | op in ops && op.Upsert? :: op.gen
  }

  function TombsIn(ops: seq<SkillOp>): set<Id> {
    set op, id | op in ops && op.Delete? && id in op.tombs :: id
  }

  function OpIds(op: SkillOp): set<Id> {
    match op
    case Upsert(gen, _, _, _, _, retiredTombs, retiredUps) => {gen} + retiredTombs + retiredUps
    case Delete(_, _, tombs, retiredUps) => tombs.Keys + Bases(tombs) + retiredUps
  }

  predicate Enabled(net: Net, m: Move) {
    && m.i < |net.sites|
    && match m
       case Write(_, _) => true
       case Send(i, _, newId) => newId !in Drawn(net.ids, net.sites[i].path)
       case Receive(i, op, _, _) => (net.sites[i].path, op) in net.log
  }

  // An export is full while the device has no file of skill operations.
  function SendSite(site: Site, full: bool, newId: Id): (Site, seq<SkillOp>) {
    var e := Export(site.row, full, newId);
    if e.NoGeneration? then (site, [])
    else (Site(site.path, e.state, site.saidUps + UpsIn(e.ops), site.saidTombs + TombsIn(e.ops)), e.ops)
  }

  function ReceiveSite(site: Site, device: Device, seqNo: int, op: SkillOp): Site {
    var r := Apply(site.row, device, seqNo, op, false, false);
    if r.Rejected? then site else site.(row := r.state)
  }

  // The next network and how many operations the move published.
  function Do(net: Net, m: Move): (Net, nat)
    requires Enabled(net, m)
  {
    var site := net.sites[m.i];
    match m
    case Write(i, file) => (net.(sites := net.sites[i := site.(row := site.row.(file := file))]), 0)
    case Send(i, full, newId) =>
      var sent := SendSite(site, full, newId);
      (Net(net.sites[i := sent.0], net.log + (set op | op in sent.1 :: (site.path, op)),
           if Dirty(site.row) then DrawnMore(net.ids, site.path, newId) else net.ids), |sent.1|)
    case Receive(i, op, device, seqNo) =>
      (net.(sites := net.sites[i := ReceiveSite(site, device, seqNo, op)]), 0)
  }

  // ----- invariant ---------------------------------------------------------

  predicate SiteInv(site: Site, ids: set<Id>) {
    var s := site.row;
    && Inv(s) && s.manifest != Some(Missing) && Known(s) <= ids && s.pendingTombs.Keys <= ids
    && (s.relay.Some? ==> s.relay.value.gen !in site.saidUps && s.relay.value.retiredTombs <= ids)
    && s.pendingTombs.Keys !! site.saidTombs
    && (forall g | g in site.saidUps :: g in ids && (g in s.retiredUps || (s.gen == Some(g) && s.relay.None?)))
    && (forall t | t in site.saidTombs :: t in ids && (t in s.tombs || t in s.retiredTombs))
    && Bases(s.tombs) <= ids
  }

  predicate NetInv(net: Net) {
    && (forall i | 0 <= i < |net.sites| :: SiteInv(net.sites[i], Drawn(net.ids, net.sites[i].path)))
    && (forall e | e in net.log :: OpIds(e.1) <= Drawn(net.ids, e.0))
  }

  lemma SiteInvGrows(site: Site, ids: set<Id>, more: set<Id>)
    requires SiteInv(site, ids) && ids <= more
    ensures SiteInv(site, more)
  {
  }

  lemma ReceiveKeepsSite(site: Site, ids: set<Id>, device: Device, seqNo: int, op: SkillOp)
    requires SiteInv(site, ids) && OpIds(op) <= ids
    ensures var t := ReceiveSite(site, device, seqNo, op);
            SiteInv(t, ids) && (Dirty(t.row) ==> Dirty(site.row))
  {
    ReceiveStaysClean(site, device, seqNo, op);
    if !Parses(op) {
    } else if op.Delete? {
      ReceiveDelete(site, ids, device, seqNo, op);
    } else {
      ReceiveUpsert(site, ids, device, seqNo, op);
    }
  }

  lemma NotingKeepsSite(site: Site, ids: set<Id>, seen: map<Id, Target>)
    requires SiteInv(site, ids) && seen.Keys <= ids && Bases(seen) <= ids && Bases(seen) <= site.row.retiredUps
    ensures SiteInv(site.(row := NoteTombs(site.row, seen)), ids)
  {
    NotingKeepsInv(site.row, site.row, seen);
    var news := NewlySeen(site.row, seen);
    var t := NoteTombs(site.row, seen);
    assert Bases(news) <= Bases(seen);
    assert Bases(t.tombs) <= Bases(site.row.tombs) + Bases(news);
    assert t.pendingTombs.Keys == site.row.pendingTombs.Keys + news.Keys;
  }

  lemma ForgettingKeepsSite(site: Site, ids: set<Id>, file: Option<Content>)
    requires SiteInv(site, ids) && (site.row.gen.Some? ==> site.row.gen.value in site.row.retiredUps)
    ensures SiteInv(site.(row := Forget(site.row.(file := file))), ids)
  {
  }

  lemma RetiringUpsKeepsSite(site: Site, ids: set<Id>, device: Device, seqNo: int, retired: set<Id>, bases: set<Id>)
    requires SiteInv(site, ids) && retired <= ids
    ensures var s1 := RetireUps(SupersedeOlder(site.row, device, seqNo), retired);
            SiteInv(site.(row := s1), ids) && SiteInv(site.(row := SupersedeTargeted(s1, bases)), ids)
  {
    SupersedingKeepsInv(site.row, device, seqNo, retired, bases);
  }

  lemma ReceiveDelete(site: Site, ids: set<Id>, device: Device, seqNo: int, op: SkillOp)
    requires SiteInv(site, ids) && OpIds(op) <= ids && op.Delete? && Parses(op)
    ensures SiteInv(ReceiveSite(site, device, seqNo, op), ids)
  {
    RetiringUpsKeepsSite(site, ids, device, seqNo, op.retiredUps + Bases(op.tombs), Bases(op.tombs));
    var s1 := Prepared(site.row, device, seqNo, op);
    var live := op.tombs - s1.retiredTombs;
    assert Bases(live) <= Bases(op.tombs);
    ReceivedDelete(site.row, device, seqNo, op);
    var t := ReceiveSite(site, device, seqNo, op);
    if t.row == s1 {
    } else if t.row == NoteTombs(s1, live) {
      NotingKeepsSite(site.(row := s1), ids, live);
    } else if t.row == Record(s1, device, seqNo, op) {
      RecordingKeepsInv(s1, s1, device, seqNo, op);
    } else {
      var file := if t.row == NoteTombs(Forget(s1.(file := None)), live) then None else s1.file;
      ForgettingKeepsSite(site.(row := s1), ids, file);
      NotingKeepsSite(site.(row := Forget(s1.(file := file))), ids, live);
    }
  }

  // A delete that clears the manifest entry has retired what was current.
  lemma ReceivedDelete(s: PathState, device: Device, seqNo: int, op: SkillOp)
    requires op.Delete?
    ensures var s1 := Prepared(s, device, seqNo, op);
            var live := op.tombs - s1.retiredTombs;
            var t := ApplyDelete(s, device, seqNo, op, false, false).state;
            || t in {s1, NoteTombs(s1, live), Record(s1, device, seqNo, op)}
            || ((s1.gen.None? || s1.gen.value in s1.retiredUps) &&
                (t == NoteTombs(Forget(s1.(file := None)), live) || (s.file.None? && t == NoteTombs(Forget(s1), live))))
  {
    var live := op.tombs - Prepared(s, device, seqNo, op).retiredTombs;
    assert Bases(live) <= Bases(op.tombs);
  }

  lemma ReceiveUpsert(site: Site, ids: set<Id>, device: Device, seqNo: int, op: SkillOp)
    requires SiteInv(site, ids) && OpIds(op) <= ids && op.Upsert? && Parses(op)
    ensures SiteInv(ReceiveSite(site, device, seqNo, op), ids)
  {
    RetiringUpsKeepsSite(site, ids, device, seqNo, op.retiredUps, {});
    var s1 := RetireUps(SupersedeOlder(site.row, device, seqNo), op.retiredUps);
    ReceivedUpsert(site.row, device, seqNo, op);
    var t := ReceiveSite(site, device, seqNo, op);
    if t == site || t.row == s1 {
    } else if t.row == RetireTombs(s1, op.retiredTombs) {
      RetiringTombsKeepsSite(site.(row := s1), ids, op.retiredTombs);
    } else if t.row == Record(s1, device, seqNo, op) {
      RecordingKeepsInv(s1, s1, device, seqNo, op);
    } else if t.row == RetireTombs(Adopt(s1, op), op.retiredTombs) {
      AdoptingKeepsSite(site.(row := s1), ids, op);
    } else {
      AdoptingKeepsSite(site.(row := s1.(file := Some(op.content))), ids, op);
    }
  }

  // An import that adopts found the generation neither current nor retired.
  lemma ReceivedUpsert(s: PathState, device: Device, seqNo: int, op: SkillOp)
    requires op.Upsert?
    ensures var s1 := RetireUps(SupersedeOlder(s, device, seqNo), op.retiredUps);
            var r := ApplyUpsert(s, device, seqNo, op, false, false);
            || r.Rejected?
            || r.state in {s1, RetireTombs(s1, op.retiredTombs), Record(s1, device, seqNo, op)}
            || (&& s1.gen != Some(op.gen) && op.gen !in s1.retiredUps
                && r.state in {RetireTombs(Adopt(s1, op), op.retiredTombs),
                               RetireTombs(Adopt(s1.(file := Some(op.content)), op), op.retiredTombs)})
  {
  }

  lemma ReceiveStaysClean(site: Site, device: Device, seqNo: int, op: SkillOp)
    ensures Dirty(ReceiveSite(site, device, seqNo, op).row) ==> Dirty(site.row)
  {
    if !Parses(op) {
    } else if op.Delete? {
      ReceivedDelete(site.row, device, seqNo, op);
    } else {
    }
  }

  lemma RetiringTombsKeepsSite(site: Site, ids: set<Id>, retired: set<Id>)
    requires SiteInv(site, ids) && retired <= ids
    ensures SiteInv(site.(row := RetireTombs(site.row, retired)), ids)
  {
    assert Bases(site.row.tombs - retired) <= Bases(site.row.tombs);
  }

  // What is adopted is neither current nor retired, so it was never published here.
  lemma AdoptingKeepsSite(site: Site, ids: set<Id>, op: SkillOp)
    requires SiteInv(site, ids) && op.Upsert? && Parses(op) && OpIds(op) <= ids
    requires site.row.gen != Some(op.gen) && op.gen !in site.row.retiredUps
    ensures SiteInv(site.(row := RetireTombs(Adopt(site.row, op), op.retiredTombs)), ids)
  {
    AdoptingKeepsInv(site.row, op);
    RetiringTombsKeepsSite(site.(row := Adopt(site.row, op)), ids, op.retiredTombs);
  }

  // A full export of a path that has been published before.
  predicate SaysAgain(site: Site, full: bool) {
    full && !(site.saidUps == {} && site.saidTombs == {})
  }

  // Main result: whatever an export publishes, this device has never published
  // before, neither an upsert generation nor a delete generation, unless it is full
  // and comes after another one.
  lemma SendsOnce(site: Site, ids: set<Id>, full: bool, newId: Id)
    requires SiteInv(site, ids) && newId !in ids
    ensures var ops := SendSite(site, full, newId).1;
            && (!SaysAgain(site, full) ==> UpsIn(ops) !! site.saidUps && TombsIn(ops) !! site.saidTombs)
            && |ops| <= 2 && (|ops| == 2 ==> ops[0].Delete? && ops[1].Upsert?)
            && (forall op | op in ops && op.Delete? :: op.tombs != map[])
  {
    SendParts(site, full, newId);
    DeletesAreNew(site, ids, full, newId);
    if site.row.file.Some? {
      UpsertsAreNew(site, ids, full, newId);
    }
  }

  lemma DeletesAreNew(site: Site, ids: set<Id>, full: bool, newId: Id)
    requires SiteInv(site, ids) && newId !in ids
    ensures var ops := ExportDelete(site.row, full, newId).ops;
            && UpsIn(ops) == {} && (!SaysAgain(site, full) ==> TombsIn(ops) !! site.saidTombs)
            && |ops| <= 1 && (forall op | op in ops :: op.Delete? && op.tombs != map[])
  {
    DeletesSay(site.row, full, newId);
  }

  lemma UpsertsAreNew(site: Site, ids: set<Id>, full: bool, newId: Id)
    requires SiteInv(site, ids) && newId !in ids && site.row.file.Some?
    ensures var ops := ExportUpsert(ExportDelete(site.row, full, newId).state, full, newId).ops;
            && TombsIn(ops) == {} && (!SaysAgain(site, full) ==> UpsIn(ops) !! site.saidUps)
            && |ops| <= 1 && (forall op | op in ops :: op.Upsert?)
  {
  }

  lemma SendKeepsSite(site: Site, ids: set<Id>, full: bool, newId: Id)
    requires SiteInv(site, ids) && newId !in ids
    ensures var t := SendSite(site, full, newId);
            var more := if Dirty(site.row) then ids + {newId} else ids;
            && SiteInv(t.0, more) && !Dirty(t.0.row)
            && (forall op | op in t.1 :: OpIds(op) <= more)
  {
    var more := if Dirty(site.row) then ids + {newId} else ids;
    SiteInvGrows(site, ids, more);
    SendDelete(site, more, full, newId);
    var d := ExportDelete(site.row, full, newId);
    SendParts(site, full, newId);
    if site.row.file.Some? {
      SendUpsert(Site(site.path, d.state, site.saidUps, site.saidTombs + TombsIn(d.ops)), more, full, newId);
    }
  }

  // An export is its two passes, and only the second one publishes upserts.
  lemma SendParts(site: Site, full: bool, newId: Id)
    requires Inv(site.row) && site.row.manifest != Some(Missing)
    ensures var t := SendSite(site, full, newId);
            var d := ExportDelete(site.row, full, newId);
            && d.Exported?
            && if site.row.file.None? then
                 t == (Site(site.path, d.state.(manifest := None, gen := None), site.saidUps,
                            site.saidTombs + TombsIn(d.ops)), d.ops)
               else
                 var u := ExportUpsert(d.state, full, newId);
                 && d.state.file == site.row.file && LocallyChanged(d.state) == LocallyChanged(site.row)
                 && t == (Site(site.path, u.state, site.saidUps + UpsIn(u.ops), site.saidTombs + TombsIn(d.ops)),
                          d.ops + u.ops)
  {
    var d := ExportDelete(site.row, full, newId);
    assert UpsIn(d.ops) == {} && site.saidUps + {} == site.saidUps;
    if site.row.file.Some? {
      var u := ExportUpsert(d.state, full, newId);
      assert UpsIn(d.ops + u.ops) == UpsIn(u.ops);
      assert TombsIn(d.ops + u.ops) == TombsIn(d.ops);
    }
  }

  lemma DeletesSay(s: PathState, full: bool, newId: Id)
    requires ExportDelete(s, full, newId).Exported?
    ensures var d := ExportDelete(s, full, newId);
            && TombsIn(d.ops) == Due(s, full, newId).Keys
            && (forall op | op in d.ops :: op == DeleteOp(Due(s, full, newId), d.state.retiredUps))
  {
    var d := ExportDelete(s, full, newId);
    if d.ops != [] {
      assert d.ops[0] in d.ops;
    }
  }

  lemma DueKeys(s: PathState, full: bool, newId: Id)
    requires Inv(s)
    ensures var due := Due(s, full, newId);
            var own := if Vanished(s) && s.gen.Some? then {newId} else {};
            && due.Keys == (if full then s.tombs.Keys else s.pendingTombs.Keys) + own
            && due.Keys <= s.tombs.Keys + own
            && Bases(due) <= Bases(MarkVanished(s, newId).tombs)
  {
    var due, tombs := Due(s, full, newId), MarkVanished(s, newId).tombs;
    assert forall id | id in due :: id in tombs && tombs[id] == due[id];
  }

  // What the first pass leaves: the row without its manifest entry if the file
  // has vanished, otherwise the row itself.
  lemma SendVanished(site: Site, ids: set<Id>, full: bool, newId: Id)
    requires SiteInv(site, ids) && newId !in Known(site.row) && newId !in site.saidTombs
    requires Vanished(site.row) && newId in ids
    ensures var d := ExportDelete(site.row, full, newId);
            && d.Exported? && (forall op | op in d.ops :: OpIds(op) <= ids)
            && SiteInv(Site(site.path, d.state.(manifest := None, gen := None), site.saidUps,
                            site.saidTombs + TombsIn(d.ops)), ids)
  {
    VanishedSays(site, ids, full, newId);
    VanishedLeaves(site, ids, full, newId);
  }

  lemma VanishedSays(site: Site, ids: set<Id>, full: bool, newId: Id)
    requires SiteInv(site, ids) && newId !in site.saidTombs && Vanished(site.row) && newId in ids
    ensures var d := ExportDelete(site.row, full, newId);
            && d.Exported? && (forall op | op in d.ops :: OpIds(op) <= ids)
            && TombsIn(d.ops) <= site.row.tombs.Keys + {newId}
            && (full || site.row.pendingTombs.Keys + {newId} == TombsIn(d.ops))
            && newId in TombsIn(d.ops)
  {
    DeletesSay(site.row, full, newId);
    DueKeys(site.row, full, newId);
    assert Bases(MarkVanished(site.row, newId).tombs) <= Bases(site.row.tombs) + {site.row.gen.value};
  }

  lemma VanishedLeaves(site: Site, ids: set<Id>, full: bool, newId: Id)
    requires SiteInv(site, ids) && newId !in Known(site.row) && Vanished(site.row) && newId in ids
    requires TombsIn(ExportDelete(site.row, full, newId).ops) <= site.row.tombs.Keys + {newId}
    ensures var d := ExportDelete(site.row, full, newId);
            SiteInv(Site(site.path, d.state.(manifest := None, gen := None), site.saidUps,
                         site.saidTombs + TombsIn(d.ops)), ids)
  {
    ExportDeleteKeepsInv(site.row, full, newId);
    assert Bases(MarkVanished(site.row, newId).tombs) <= Bases(site.row.tombs) + {site.row.gen.value};
  }

  lemma SendDelete(site: Site, ids: set<Id>, full: bool, newId: Id)
    requires SiteInv(site, ids) && newId !in Known(site.row) && newId !in site.saidTombs
    requires Dirty(site.row) ==> newId in ids
    ensures var d := ExportDelete(site.row, full, newId);
            && d.Exported? && (forall op | op in d.ops :: OpIds(op) <= ids)
            && var row := if site.row.file.None? then d.state.(manifest := None, gen := None) else d.state;
               SiteInv(Site(site.path, row, site.saidUps, site.saidTombs + TombsIn(d.ops)), ids)
  {
    if Vanished(site.row) {
      SendVanished(site, ids, full, newId);
    } else {
      SendPending(site, ids, full, newId);
    }
  }

  lemma SendPending(site: Site, ids: set<Id>, full: bool, newId: Id)
    requires SiteInv(site, ids) && !Vanished(site.row)
    ensures var d := ExportDelete(site.row, full, newId);
            && d.Exported? && (forall op | op in d.ops :: OpIds(op) <= ids)
            && var row := if site.row.file.None? then d.state.(manifest := None, gen := None) else d.state;
               SiteInv(Site(site.path, row, site.saidUps, site.saidTombs + TombsIn(d.ops)), ids)
  {
    DeletesSay(site.row, full, newId);
    DueKeys(site.row, full, newId);
  }

  lemma SendUpsert(site: Site, ids: set<Id>, full: bool, newId: Id)
    requires SiteInv(site, ids) && site.row.file.Some? && newId !in site.saidUps
    requires LocallyChanged(site.row) ==> newId in ids
    ensures var u := ExportUpsert(site.row, full, newId);
            && u.Exported? && !Dirty(u.state) && (forall op | op in u.ops :: OpIds(op) <= ids)
            && SiteInv(Site(site.path, u.state, site.saidUps + UpsIn(u.ops), site.saidTombs), ids)
  {
    ExportUpsertKeepsInv(site.row, full, newId);
    var u := ExportUpsert(site.row, full, newId);
    if u.ops != [] {
      assert u.ops[0] in u.ops;
      assert UpsIn(u.ops) == {u.state.gen.value};
    } else {
      assert UpsIn(u.ops) == {};
    }
  }

  lemma WriteKeepsNet(net: Net, i: nat, file: Option<Content>)
    requires NetInv(net) && i < |net.sites|
    ensures var next := Do(net, Write(i, file)).0; NetInv(next) && PathsOf(next.sites) == PathsOf(net.sites)
  {
    var site := net.sites[i];
    SitesKeepInv(net.sites, i, site.(row := site.row.(file := file)), net.ids, net.ids);
  }

  lemma ReceiveKeepsNet(net: Net, i: nat, op: SkillOp, device: Device, seqNo: int)
    requires NetInv(net) && Enabled(net, Receive(i, op, device, seqNo))
    ensures var next := Do(net, Receive(i, op, device, seqNo)).0;
            NetInv(next) && PathsOf(next.sites) == PathsOf(net.sites)
  {
    var site := net.sites[i];
    assert OpIds(op) <= Drawn(net.ids, site.path);
    ReceiveKeepsSite(site, Drawn(net.ids, site.path), device, seqNo, op);
    SitesKeepInv(net.sites, i, ReceiveSite(site, device, seqNo, op), net.ids, net.ids);
  }

  lemma SendKeepsNet(net: Net, i: nat, full: bool, newId: Id)
    requires NetInv(net) && Enabled(net, Send(i, full, newId))
    ensures var next := Do(net, Send(i, full, newId)).0;
            NetInv(next) && PathsOf(next.sites) == PathsOf(net.sites)
  {
    var site := net.sites[i];
    var sent := SendSite(site, full, newId);
    var more := if Dirty(site.row) then DrawnMore(net.ids, site.path, newId) else net.ids;
    SendKeepsSite(site, Drawn(net.ids, site.path), full, newId);
    SitesKeepInv(net.sites, i, sent.0, net.ids, more);
    forall op | op in sent.1
      ensures OpIds(op) <= Drawn(more, site.path)
    {
    }
  }

  lemma DoKeepsInv(net: Net, m: Move)
    requires NetInv(net) && Enabled(net, m)
    ensures NetInv(Do(net, m).0) && PathsOf(Do(net, m).0.sites) == PathsOf(net.sites)
  {
    match m
    case Write(i, file) => WriteKeepsNet(net, i, file);
    case Receive(i, op, device, seqNo) => ReceiveKeepsNet(net, i, op, device, seqNo);
    case Send(i, full, newId) => SendKeepsNet(net, i, full, newId);
  }

  lemma SitesKeepInv(sites: seq<Site>, i: nat, site: Site, ids: map<Path, set<Id>>, more: map<Path, set<Id>>)
    requires i < |sites| && site.path == sites[i].path && SiteInv(site, Drawn(more, site.path))
    requires forall j | 0 <= j < |sites| :: SiteInv(sites[j], Drawn(ids, sites[j].path))
    requires forall p :: Drawn(ids, p) <= Drawn(more, p)
    ensures var next := sites[i := site]; forall j | 0 <= j < |next| :: SiteInv(next[j], Drawn(more, next[j].path))
    ensures PathsOf(sites[i := site]) == PathsOf(sites)
  {
    forall j | 0 <= j < |sites| && j != i
      ensures SiteInv(sites[j], Drawn(more, sites[j].path))
    {
      SiteInvGrows(sites[j], Drawn(ids, sites[j].path), Drawn(more, sites[j].path));
    }
  }

  // ----- measure -----------------------------------------------------------

  function PathsOf(sites: seq<Site>): seq<Path> {
    seq(|sites|, i requires 0 <= i < |sites| => sites[i].path)
  }

  // How many devices hold the path.
  function Holders(paths: seq<Path>, path: Path): nat {
    multiset(paths)[path]
  }

  // What a site may still publish: the ids it has not published yet and, if the
  // file awaits export, the id that export will draw, at all n holders of the path.
  function Potential(site: Site, ids: set<Id>, n: nat): nat {
    |ids - site.saidUps| + |ids - site.saidTombs| + (if Dirty(site.row) then 2 * n else 0)
  }

  function PotentialIn(site: Site, ids: map<Path, set<Id>>, paths: seq<Path>): nat {
    Potential(site, Drawn(ids, site.path), Holders(paths, site.path))
  }

  function Total(sites: seq<Site>, ids: map<Path, set<Id>>, paths: seq<Path>): nat {
    if |sites| == 0 then 0 else PotentialIn(sites[0], ids, paths) + Total(sites[1..], ids, paths)
  }

  lemma Spent(ids: set<Id>, said: set<Id>, now: set<Id>)
    requires now <= ids && now !! said
    ensures |ids - (said + now)| == |ids - said| - |now|
  {
    assert ids - (said + now) == (ids - said) - now;
    assert now <= ids - said;
  }

  lemma OneMore(ids: set<Id>, said: set<Id>, newId: Id)
    ensures |(ids + {newId}) - said| <= |ids - said| + 1
    ensures newId in ids ==> |(ids + {newId}) - said| == |ids - said|
  {
    if newId in ids {
      assert ids + {newId} == ids;
    } else if newId in said {
      assert (ids + {newId}) - said == ids - said;
    } else {
      assert (ids + {newId}) - said == (ids - said) + {newId};
    }
  }

  lemma SendSpends(site: Site, ids: set<Id>, full: bool, newId: Id)
    requires SiteInv(site, ids) && newId !in ids
    ensures var t := SendSite(site, full, newId);
            var more := if Dirty(site.row) then ids + {newId} else ids;
            |more - t.0.saidUps| + |more - t.0.saidTombs| + |t.1|
            <= |ids - site.saidUps| + |ids - site.saidTombs|
               + (if Dirty(site.row) then 2 else 0) + (if SaysAgain(site, full) then 2 else 0)
  {
    var t := SendSite(site, full, newId);
    SendWithin(site, ids, full, newId);
    if SaysAgain(site, full) {
      Excess(ids, newId, Dirty(site.row), site.saidUps, UpsIn(t.1));
      Excess(ids, newId, Dirty(site.row), site.saidTombs, TombsIn(t.1));
    } else {
      Balance(ids, newId, Dirty(site.row), site.saidUps, UpsIn(t.1));
      Balance(ids, newId, Dirty(site.row), site.saidTombs, TombsIn(t.1));
    }
  }

  lemma SendWithin(site: Site, ids: set<Id>, full: bool, newId: Id)
    requires SiteInv(site, ids) && newId !in ids
    ensures var t := SendSite(site, full, newId);
            var more := if Dirty(site.row) then ids + {newId} else ids;
            && t.0.saidUps == site.saidUps + UpsIn(t.1) && t.0.saidTombs == site.saidTombs + TombsIn(t.1)
            && UpsIn(t.1) <= more && TombsIn(t.1) <= more && |t.1| <= 2
            && (!SaysAgain(site, full) ==>
                  && UpsIn(t.1) !! site.saidUps && TombsIn(t.1) !! site.saidTombs
                  && |t.1| <= |UpsIn(t.1)| + |TombsIn(t.1)|)
  {
    var t := SendSite(site, full, newId);
    var more := if Dirty(site.row) then ids + {newId} else ids;
    SaidGrows(site, full, newId);
    SendKeepsSite(site, ids, full, newId);
    IdsWithin(t.1, more);
    SendsOnce(site, ids, full, newId);
    SomethingNew(t.1);
  }

  lemma SaidGrows(site: Site, full: bool, newId: Id)
    ensures var t := SendSite(site, full, newId);
            t.0.saidUps == site.saidUps + UpsIn(t.1) && t.0.saidTombs == site.saidTombs + TombsIn(t.1)
  {
  }

  lemma IdsWithin(ops: seq<SkillOp>, more: set<Id>)
    requires forall op | op in ops :: OpIds(op) <= more
    ensures UpsIn(ops) <= more && TombsIn(ops) <= more
  {
  }

  lemma Balance(ids: set<Id>, newId: Id, dirty: bool, said: set<Id>, now: set<Id>)
    requires now <= (if dirty then ids + {newId} else ids) && now !! said
    ensures var more := if dirty then ids + {newId} else ids;
            |more - (said + now)| + |now| <= |ids - said| + (if dirty then 1 else 0)
  {
    OneMore(ids, said, newId);
    Spent(if dirty then ids + {newId} else ids, said, now);
  }

  lemma Excess(ids: set<Id>, newId: Id, dirty: bool, said: set<Id>, now: set<Id>)
    ensures var more := if dirty then ids + {newId} else ids;
            |more - (said + now)| <= |ids - said| + (if dirty then 1 else 0)
  {
    OneMore(ids, said, newId);
    var more := if dirty then ids + {newId} else ids;
    Fewer(more - (said + now), more - said);
  }

  lemma Fewer(a: set<Id>, b: set<Id>)
    requires a <= b
    ensures |a| <= |b|
  {
    assert b == a + (b - a);
  }

  lemma SomethingNew(ops: seq<SkillOp>)
    requires |ops| <= 2 && (|ops| == 2 ==> ops[0].Delete? && ops[1].Upsert?)
    requires forall op | op in ops && op.Delete? :: op.tombs != map[]
    ensures |ops| <= |UpsIn(ops)| + |TombsIn(ops)|
  {
    forall op | op in ops
      ensures if op.Upsert? then UpsIn(ops) != {} else TombsIn(ops) != {}
    {
      if op.Upsert? {
        assert op.gen in UpsIn(ops);
      } else {
        var id :| id in op.tombs;
        assert id in TombsIn(ops);
      }
    }
    if |ops| >= 1 {
      assert ops[0] in ops;
    }
    if |ops| >= 2 {
      assert ops[1] in ops;
    }
  }

  lemma TotalUpdate(sites: seq<Site>, i: nat, site: Site, ids: map<Path, set<Id>>, paths: seq<Path>)
    requires i < |sites|
    ensures Total(sites[i := site], ids, paths) ==
            Total(sites, ids, paths) - PotentialIn(sites[i], ids, paths) + PotentialIn(site, ids, paths)
  {
    TotalSplit(sites, i, ids, paths);
    TotalSplit(sites[i := site], i, ids, paths);
    OthersStay(sites, i, site);
  }

  lemma OthersStay(sites: seq<Site>, i: nat, site: Site)
    requires i < |sites|
    ensures sites[i := site][..i] + sites[i := site][i + 1..] == sites[..i] + sites[i + 1..]
  {
  }

  lemma PotentialGrows(site: Site, ids: map<Path, set<Id>>, path: Path, newId: Id, paths: seq<Path>)
    ensures PotentialIn(site, DrawnMore(ids, path, newId), paths) <=
            PotentialIn(site, ids, paths) + (if site.path == path then 2 else 0)
  {
    OneMore(Drawn(ids, path), site.saidUps, newId);
    OneMore(Drawn(ids, path), site.saidTombs, newId);
  }

  lemma FirstHolder(sites: seq<Site>, path: Path)
    requires sites != []
    ensures Holders(PathsOf(sites), path) ==
            (if sites[0].path == path then 1 else 0) + Holders(PathsOf(sites[1..]), path)
  {
    assert PathsOf(sites) == [sites[0].path] + PathsOf(sites[1..]);
  }

  // One more id for a path costs its holders only.
  lemma {:induction false} TotalGrows(sites: seq<Site>, ids: map<Path, set<Id>>, path: Path, newId: Id,
                                      paths: seq<Path>)
    ensures Total(sites, DrawnMore(ids, path, newId), paths) <=
            Total(sites, ids, paths) + 2 * Holders(PathsOf(sites), path)
  {
    if sites != [] {
      PotentialGrows(sites[0], ids, path, newId, paths);
      FirstHolder(sites, path);
      TotalGrows(sites[1..], ids, path, newId, paths);
    }
  }

  // What one move may spend.
  function Cost(net: Net, m: Move): nat
    requires Enabled(net, m)
  {
    match m
    case Write(i, _) => 2 * Holders(PathsOf(net.sites), net.sites[i].path)
    case Send(i, full, _) => if SaysAgain(net.sites[i], full) then 2 else 0
    case Receive(_, _, _, _) => 0
  }

  ghost predicate Spends(net: Net, m: Move)
    requires Enabled(net, m)
  {
    var paths, next := PathsOf(net.sites), Do(net, m);
    Total(next.0.sites, next.0.ids, paths) + next.1 <= Total(net.sites, net.ids, paths) + Cost(net, m)
  }

  lemma WriteSpends(net: Net, i: nat, file: Option<Content>)
    requires i < |net.sites|
    ensures Spends(net, Write(i, file))
  {
    var site := net.sites[i];
    TotalUpdate(net.sites, i, site.(row := site.row.(file := file)), net.ids, PathsOf(net.sites));
  }

  lemma ReceiveSpends(net: Net, i: nat, op: SkillOp, device: Device, seqNo: int)
    requires Enabled(net, Receive(i, op, device, seqNo))
    ensures Spends(net, Receive(i, op, device, seqNo))
  {
    var site := net.sites[i];
    ReceiveStaysClean(site, device, seqNo, op);
    TotalUpdate(net.sites, i, ReceiveSite(site, device, seqNo, op), net.ids, PathsOf(net.sites));
  }

  lemma SendingSpends(net: Net, i: nat, full: bool, newId: Id)
    requires NetInv(net) && Enabled(net, Send(i, full, newId))
    ensures Spends(net, Send(i, full, newId))
  {
    var site := net.sites[i];
    var ids := Drawn(net.ids, site.path);
    var sent := SendSite(site, full, newId);
    SendKeepsSite(site, ids, full, newId);
    SendSpends(site, ids, full, newId);
    if Dirty(site.row) {
      SendingTotal(net, i, sent.0, newId, |sent.1|, if SaysAgain(site, full) then 2 else 0);
    } else {
      TotalUpdate(net.sites, i, sent.0, net.ids, PathsOf(net.sites));
    }
  }

  lemma DoSpends(net: Net, m: Move)
    requires NetInv(net) && Enabled(net, m)
    ensures Spends(net, m)
  {
    match m
    case Write(i, file) => WriteSpends(net, i, file);
    case Receive(i, op, device, seqNo) => ReceiveSpends(net, i, op, device, seqNo);
    case Send(i, full, newId) => SendingSpends(net, i, full, newId);
  }

  // A dirty export draws an id every holder may still publish, and pays for it.
  lemma SendingTotal(net: Net, i: nat, sent: Site, newId: Id, published: nat, again: nat)
    requires i < |net.sites| && !Dirty(sent.row) && Dirty(net.sites[i].row) && sent.path == net.sites[i].path
    requires var ids := Drawn(net.ids, sent.path);
             |ids + {newId} - sent.saidUps| + |ids + {newId} - sent.saidTombs| + published
             <= |ids - net.sites[i].saidUps| + |ids - net.sites[i].saidTombs| + 2 + again
    ensures var paths := PathsOf(net.sites);
            Total(net.sites[i := sent], DrawnMore(net.ids, sent.path, newId), paths) + published
            <= Total(net.sites, net.ids, paths) + again
  {
    var paths := PathsOf(net.sites);
    var more := DrawnMore(net.ids, sent.path, newId);
    var rest := net.sites[..i] + net.sites[i + 1..];
    TotalSplit(net.sites, i, net.ids, paths);
    TotalSplit(net.sites[i := sent], i, more, paths);
    OthersStay(net.sites, i, sent);
    TotalGrows(rest, net.ids, sent.path, newId, paths);
    OneHolderLess(net.sites, i);
  }

  lemma OneHolderLess(sites: seq<Site>, i: nat)
    requires i < |sites|
    ensures Holders(PathsOf(sites[..i] + sites[i + 1..]), sites[i].path) + 1 == Holders(PathsOf(sites), sites[i].path)
  {
    var paths := PathsOf(sites);
    assert PathsOf(sites[..i] + sites[i + 1..]) == paths[..i] + paths[i + 1..];
    assert paths == paths[..i] + [paths[i]] + paths[i + 1..];
  }

  lemma Without<T>(a: seq<T>, i: nat)
    requires 0 < i < |a|
    ensures a[1..][i - 1] == a[i] && a[..i] + a[i + 1..] == [a[0]] + (a[1..][..i - 1] + a[1..][i - 1 + 1..])
  {
  }

  lemma {:induction false} TotalSplit(sites: seq<Site>, i: nat, ids: map<Path, set<Id>>, paths: seq<Path>)
    requires i < |sites|
    ensures Total(sites, ids, paths) ==
            PotentialIn(sites[i], ids, paths) + Total(sites[..i] + sites[i + 1..], ids, paths)
  {
    if i == 0 {
      assert sites[..0] + sites[1..] == sites[1..];
    } else {
      var rest := sites[1..];
      var less := rest[..i - 1] + rest[i - 1 + 1..];
      Without(sites, i);
      TotalSplit(rest, i - 1, ids, paths);
      assert ([sites[0]] + less)[1..] == less;
    }
  }

  // ----- runs --------------------------------------------------------------

  predicate Runs(net: Net, moves: seq<Move>)
    decreases |moves|
  {
    moves == [] || (Enabled(net, moves[0]) && Runs(Do(net, moves[0]).0, moves[1..]))
  }

  function Published(net: Net, moves: seq<Move>): nat
    requires Runs(net, moves)
    decreases |moves|
  {
    if moves == [] then 0 else Do(net, moves[0]).1 + Published(Do(net, moves[0]).0, moves[1..])
  }

  function Writes(moves: seq<Move>): nat {
    if moves == [] then 0 else (if moves[0].Write? then 1 else 0) + Writes(moves[1..])
  }

  // For each edit, the devices that hold the path, summed up.
  function Reached(paths: seq<Path>, moves: seq<Move>): nat {
    if moves == [] then 0 else ReachedBy(paths, moves[0]) + Reached(paths, moves[1..])
  }

  function ReachedBy(paths: seq<Path>, m: Move): nat {
    if m.Write? && m.i < |paths| then Holders(paths, paths[m.i]) else 0
  }

  lemma {:induction false} ReachedPerWrite(paths: seq<Path>, moves: seq<Move>, k: nat)
    requires forall p :: Holders(paths, p) <= k
    ensures Reached(paths, moves) <= k * Writes(moves)
  {
    if moves != [] {
      var w := if moves[0].Write? then 1 else 0;
      ReachedPerWrite(paths, moves[1..], k);
      Distributes(k, w, Writes(moves[1..]));
      assert ReachedBy(paths, moves[0]) <= k * w;
    }
  }

  lemma Distributes(k: nat, a: nat, b: nat)
    ensures k * (a + b) == k * a + k * b
  {
  }

  // Full exports of paths that have been published before.
  function Repeats(net: Net, moves: seq<Move>): nat
    requires Runs(net, moves)
    decreases |moves|
  {
    if moves == [] then 0 else RepeatedBy(net, moves[0]) + Repeats(Do(net, moves[0]).0, moves[1..])
  }

  function RepeatedBy(net: Net, m: Move): nat
    requires Enabled(net, m)
  {
    if m.Send? && SaysAgain(net.sites[m.i], m.full) then 1 else 0
  }

  // Main result: from any state the devices can be in, however long they go on
  // exporting and importing, they publish at most Total operations, for every edit
  // made on the way two more for each device that holds the edited path, and two
  // for every full export of a path that has been published before.
  lemma {:induction false} Quiescence(net: Net, moves: seq<Move>)
    requires NetInv(net) && Runs(net, moves)
    ensures var paths := PathsOf(net.sites);
            Published(net, moves) <=
            Total(net.sites, net.ids, paths) + 2 * Reached(paths, moves) + 2 * Repeats(net, moves)
    decreases |moves|
  {
    if moves != [] {
      DoKeepsInv(net, moves[0]);
      DoSpends(net, moves[0]);
      Quiescence(Do(net, moves[0]).0, moves[1..]);
    }
  }

  // An export is full only where nothing has been published, as long as no device
  // loses its files of skill operations.
  predicate FullAtFirst(net: Net, moves: seq<Move>)
    requires Runs(net, moves)
    decreases |moves|
  {
    moves == [] || (RepeatedBy(net, moves[0]) == 0 && FullAtFirst(Do(net, moves[0]).0, moves[1..]))
  }

  lemma {:induction false} NothingRepeated(net: Net, moves: seq<Move>)
    requires Runs(net, moves) && FullAtFirst(net, moves)
    ensures Repeats(net, moves) == 0
    decreases |moves|
  {
    if moves != [] {
      NothingRepeated(Do(net, moves[0]).0, moves[1..]);
    }
  }

  function Blank(paths: seq<Path>): seq<Site> {
    seq(|paths|, i requires 0 <= i < |paths| => Site(paths[i], BLANK, {}, {}))
  }

  lemma {:induction false} BlankTotal(sites: seq<Site>, paths: seq<Path>)
    requires forall i | 0 <= i < |sites| :: sites[i].row == BLANK && sites[i].saidUps == {} == sites[i].saidTombs
    ensures Total(sites, map[], paths) == 0
  {
    if sites != [] {
      BlankTotal(sites[1..], paths);
    }
  }

  lemma BlankHolds(paths: seq<Path>)
    ensures NetInv(Net(Blank(paths), {}, map[])) && PathsOf(Blank(paths)) == paths
    ensures Total(Blank(paths), map[], paths) == 0
  {
    assert Known(BLANK) == {} && Bases(BLANK.tombs) == {};
    BlankTotal(Blank(paths), paths);
  }

  // From nothing, with full exports at first, when no path is on more than k
  // devices: at most 2k operations for every edit ever made.
  lemma QuiescenceFromBlank(paths: seq<Path>, moves: seq<Move>, k: nat)
    requires Runs(Net(Blank(paths), {}, map[]), moves) && forall p :: Holders(paths, p) <= k
    requires FullAtFirst(Net(Blank(paths), {}, map[]), moves)
    ensures Published(Net(Blank(paths), {}, map[]), moves) <= 2 * (k * Writes(moves))
  {
    BlankHolds(paths);
    Quiescence(Net(Blank(paths), {}, map[]), moves);
    NothingRepeated(Net(Blank(paths), {}, map[]), moves);
    ReachedPerWrite(paths, moves, k);
  }
}
