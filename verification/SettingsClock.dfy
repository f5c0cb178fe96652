// Settings snapshots: what a device does with one that arrives, what it
// publishes, and the vector clock that tells it what it has already seen.
module SettingsClocks {
  import opened Options
  import opened SettingsTexts
  import opened SettingsRoundTrips
  import opened SettingsMerges

  type Device = nat

  type Clock = map<Device, nat>

  // SHA-256 of a text, taken to be injective; the source's empty hash is None.
  datatype Hash = Digest(text: string)

  datatype Snapshot = Snapshot(device: Device, seqNo: nat, text: string, base: Option<Hash>, clock: Clock)

  // `base` is what the device and its peers last agreed on, `exported` what it
  // last published.
  datatype Settings = Settings(
    config: Option<string>,
    clock: Clock,
    base: Option<Hash>,
    exported: Option<Hash>,
    conflicts: seq<Snapshot>
  )

  // How a configuration is split and merged. What is proved about clocks holds for
  // any way of doing it.
  datatype Codec = Codec(strip: string -> string, extract: string -> string, merge: (string, string) -> string)

  const TOML := Codec(text => Strip(text), text => Extract(text), (remote, local) => Merge(remote, local))

  // ----- the functions -----------------------------------------------------------

  function Max(a: nat, b: nat): nat {
    if a <= b then b else a
  }

  function Raise(clock: Clock, device: Device, seqNo: nat): Clock {
    clock[device := if device in clock then Max(clock[device], seqNo) else seqNo]
  }

  function Later(a: Clock, b: Clock): Clock {
    map d | d in a.Keys + b.Keys ::
      if d in a && d in b then Max(a[d], b[d]) else if d in a then a[d] else b[d]
  }

  function Accept(clock: Clock, op: Snapshot): Clock {
    Raise(Later(clock, op.clock), op.device, op.seqNo)
  }

  predicate Seen(clock: Clock, device: Device, seqNo: nat) {
    device in clock && clock[device] >= seqNo
  }

  function TextOf(config: Option<string>): string {
    if config.Some? then config.value else ""
  }

  function HashOf(c: Codec, config: Option<string>): Hash {
    Digest(c.strip(TextOf(config)))
  }

  datatype Outcome = Ignored | Agreed | Taken | Conflicted

  function OutcomeOf(c: Codec, s: Settings, op: Snapshot): Outcome {
    if Seen(s.clock, op.device, op.seqNo) then Ignored
    else if s.config.Some? && HashOf(c, s.config) == Digest(op.text) then Agreed
    else if s.config.None? || op.base == Some(HashOf(c, s.config)) then Taken
    else Conflicted
  }

  function Apply(c: Codec, s: Settings, op: Snapshot): Settings {
    match OutcomeOf(c, s, op)
    case Ignored => s
    case Agreed => s.(clock := Accept(s.clock, op))
    case Taken => s.(config := Some(c.merge(op.text, TextOf(s.config))), base := Some(Digest(op.text)),
                     clock := Accept(s.clock, op))
    case Conflicted => s.(conflicts := s.conflicts + [op])
  }

  // Whether an export publishes the settings; always when the log is rebuilt.
  predicate Changed(c: Codec, s: Settings, resync: bool) {
    s.config.Some? && (resync || s.exported != Some(HashOf(c, s.config)))
  }

  function SnapshotOf(c: Codec, s: Settings, device: Device, seqNo: nat): Snapshot
    requires s.config.Some?
  {
    Snapshot(device, seqNo, c.strip(s.config.value), if s.base.Some? then s.base else s.exported, s.clock)
  }

  function Exported(c: Codec, s: Settings, device: Device, seqNo: nat): Settings
    requires s.config.Some?
  {
    var hash := Some(HashOf(c, s.config));
    s.(exported := hash, base := hash, clock := s.clock[device := seqNo])
  }

  // ----- the code ------------------------------------------------------------------

  class SettingsStore {
    var config: Option<string>
    var clock: Clock
    var base: Option<Hash>
    var exported: Option<Hash>
    var conflicts: seq<Snapshot>

    function State(): Settings
      reads this
    {
      Settings(config, clock, base, exported, conflicts)
    }

    constructor (config: Option<string>)
      ensures State() == Settings(config, map[], None, None, [])
    {
      this.config, clock, base, exported, conflicts := config, map[], None, None, [];
    }

    method AcceptSettingsSnapshot(op: Snapshot)
      modifies `clock
      ensures clock == Accept(old(clock), op)
    {
      var next := clock;
      var todo := op.clock.Keys;
      ghost var done: Clock := map[];
      assert Later(clock, done) == clock;
      while todo != {}
        invariant todo <= op.clock.Keys && done.Keys == op.clock.Keys - todo
        invariant forall d | d in done :: done[d] == op.clock[d]
        invariant next == Later(clock, done)
      {
        var d :| d in todo;
        next := Raise(next, d, op.clock[d]);
        done := done[d := op.clock[d]];
        todo := todo - {d};
      }
      assert done == op.clock;
      clock := Raise(next, op.device, op.seqNo);
    }

    method TakeOver(op: Snapshot, local: string)
      modifies `config, `clock, `base
      ensures State() == old(State()).(config := Some(Merge(op.text, local)), base := Some(Digest(op.text)),
                                       clock := Accept(old(clock), op))
    {
      var merged := MergeLocalOnlySettingsTables(op.text, local);
      config := Some(merged);
      base := Some(Digest(op.text));
      AcceptSettingsSnapshot(op);
    }

    method ApplySettings(op: Snapshot) returns (outcome: Outcome)
      modifies `config, `clock, `base, `conflicts
      ensures outcome == OutcomeOf(TOML, old(State()), op) && State() == Apply(TOML, old(State()), op)
    {
      if op.device in clock && clock[op.device] >= op.seqNo {
        return Ignored;
      }
      var local := TextOf(config);
      var public := StripLocalOnlySettingsTables(local);
      if config.Some? && Digest(public) == Digest(op.text) {
        AcceptSettingsSnapshot(op);
        return Agreed;
      }
      if config.None? || op.base == Some(Digest(public)) {
        TakeOver(op, local);
        return Taken;
      }
      conflicts := conflicts + [op];
      return Conflicted;
    }

    // The settings part of an export, with the number it publishes under.
    method ExportSettings(device: Device, seqNo: nat, resync: bool) returns (op: Option<Snapshot>)
      modifies `exported, `base, `clock
      ensures op.Some? <==> Changed(TOML, old(State()), resync)
      ensures op.Some? ==>
                && op.value == SnapshotOf(TOML, old(State()), device, seqNo)
                && State() == Exported(TOML, old(State()), device, seqNo)
      ensures op.None? ==> State() == old(State())
    {
      if config.None? {
        return None;
      }
      var public := StripLocalOnlySettingsTables(config.value);
      var hash := Digest(public);
      if !resync && exported == Some(hash) {
        return None;
      }
      op := Some(Snapshot(device, seqNo, public, if base.Some? then base else exported, clock));
      exported, base := Some(hash), Some(hash);
      clock := clock[device := seqNo];
    }
  }

  // ----- many devices ------------------------------------------------------------------

  // A snapshot's name.
  datatype Stamp = Stamp(device: Device, seqNo: nat)

  function StampOf(op: Snapshot): Stamp {
    Stamp(op.device, op.seqNo)
  }

  // A published snapshot, with everything its author had published or accepted,
  // and everything behind that.
  datatype Post = Post(op: Snapshot, past: set<Stamp>)

  datatype Site = Site(settings: Settings, known: set<Stamp>)

  datatype World = World(sites: map<Device, Site>, posts: seq<Post>, last: map<Device, nat>)

  datatype Move =
    | Edit(device: Device, config: Option<string>)
    | Publish(device: Device, resync: bool, stop: Stop)
    | Receive(device: Device, i: nat)

  // Where an export stops once its file is out: before the published hash, the base
  // or the clock is saved, or not at all.
  datatype Stop = BeforeHash | BeforeBase | BeforeClock | Never

  function Saved(c: Codec, s: Settings, device: Device, seqNo: nat, stop: Stop): Settings
    requires s.config.Some?
  {
    var all := Exported(c, s, device, seqNo);
    match stop
    case BeforeHash => s
    case BeforeBase => s.(exported := all.exported)
    case BeforeClock => all.(clock := s.clock)
    case Never => all
  }

  // The snapshot is known to its author once the clock is saved.
  function AfterPublish(c: Codec, site: Site, device: Device, seqNo: nat, stop: Stop): Site
    requires site.settings.config.Some?
  {
    Site(Saved(c, site.settings, device, seqNo, stop),
         if stop.Never? then site.known + {Stamp(device, seqNo)} else site.known)
  }

  // The device's next number; every export takes one.
  function NextSeq(w: World, d: Device): nat {
    if d in w.last then w.last[d] + 1 else 1
  }

  function Received(c: Codec, site: Site, post: Post): Site {
    var outcome := OutcomeOf(c, site.settings, post.op);
    Site(Apply(c, site.settings, post.op),
         if outcome.Agreed? || outcome.Taken? then site.known + post.past + {StampOf(post.op)} else site.known)
  }

  function Do(c: Codec, w: World, m: Move): World {
    if m.device !in w.sites then w
    else
      var site := w.sites[m.device];
      match m
      case Edit(d, config) => w.(sites := w.sites[d := site.(settings := site.settings.(config := config))])
      case Publish(d, resync, stop) =>
        var seqNo := NextSeq(w, d);
        var w1 := w.(last := w.last[d := seqNo]);
        if !Changed(c, site.settings, resync) then w1
        else
          w1.(sites := w.sites[d := AfterPublish(c, site, d, seqNo, stop)],
              posts := w.posts + [Post(SnapshotOf(c, site.settings, d, seqNo), site.known)])
      case Receive(d, i) =>
        if i >= |w.posts| || w.posts[i].op.device == d then w
        else w.(sites := w.sites[d := Received(c, site, w.posts[i])])
  }

  function Run(c: Codec, w: World, moves: seq<Move>): World
    decreases |moves|
  {
    if |moves| == 0 then w else Run(c, Do(c, w, moves[0]), moves[1..])
  }

  // The clock names, for every device, the latest of its snapshots that is known.
  ghost predicate Exact(clock: Clock, known: set<Stamp>) {
    && (forall d | d in clock :: Stamp(d, clock[d]) in known)
    && (forall k {:trigger k in known} | k in known :: k.device in clock && k.seqNo <= clock[k.device])
  }

  ghost predicate Within(known: set<Stamp>, last: map<Device, nat>) {
    forall k {:trigger k in known} | k in known :: k.device in last && k.seqNo <= last[k.device]
  }

  ghost predicate SiteInv(site: Site, last: map<Device, nat>) {
    Exact(site.settings.clock, site.known) && Within(site.known, last)
  }

  ghost predicate PostInv(post: Post, last: map<Device, nat>) {
    Exact(post.op.clock, post.past) && Within(post.past, last) && Within({StampOf(post.op)}, last)
  }

  ghost predicate WorldInv(w: World) {
    && (forall d | d in w.sites :: SiteInv(w.sites[d], w.last))
    && (forall i | 0 <= i < |w.posts| :: PostInv(w.posts[i], w.last))
  }

  ghost predicate Begins(w: World) {
    && w.posts == [] && w.last == map[]
    && forall d | d in w.sites :: w.sites[d].known == {} && w.sites[d].settings.clock == map[]
  }

  lemma AcceptIsExact(a: Clock, known: set<Stamp>, op: Snapshot, past: set<Stamp>)
    requires Exact(a, known) && Exact(op.clock, past)
    ensures Exact(Accept(a, op), known + past + {StampOf(op)})
  {
    var r, all := Accept(a, op), known + past + {StampOf(op)};
    forall d | d in r
      ensures Stamp(d, r[d]) in all
    {
      if d != op.device {
        assert d in a || d in op.clock;
      } else {
        assert r[d] == op.seqNo || (d in a && r[d] == a[d]) || (d in op.clock && r[d] == op.clock[d]);
      }
    }
  }

  lemma ReceivedKeepsInv(c: Codec, site: Site, post: Post, last: map<Device, nat>)
    requires SiteInv(site, last) && PostInv(post, last)
    ensures SiteInv(Received(c, site, post), last)
  {
    AcceptIsExact(site.settings.clock, site.known, post.op, post.past);
  }

  lemma PublishedKeepsInv(c: Codec, site: Site, d: Device, last: map<Device, nat>, seqNo: nat, stop: Stop)
    requires SiteInv(site, last) && site.settings.config.Some? && (d in last ==> seqNo > last[d])
    ensures SiteInv(AfterPublish(c, site, d, seqNo, stop), last[d := seqNo])
    ensures PostInv(Post(SnapshotOf(c, site.settings, d, seqNo), site.known), last[d := seqNo])
  {
  }

  lemma LastMayGrow(w: World, d: Device, seqNo: nat)
    requires WorldInv(w) && (d in w.last ==> seqNo > w.last[d])
    ensures WorldInv(w.(last := w.last[d := seqNo]))
  {
  }

  lemma DoKeepsInv(c: Codec, w: World, m: Move)
    requires WorldInv(w)
    ensures WorldInv(Do(c, w, m))
  {
    if m.device in w.sites {
      var site := w.sites[m.device];
      match m
      case Edit(_, _) =>
      case Publish(d, resync, stop) =>
        LastMayGrow(w, d, NextSeq(w, d));
        if Changed(c, site.settings, resync) {
          PublishedKeepsInv(c, site, d, w.last, NextSeq(w, d), stop);
        }
      case Receive(d, i) =>
        if i < |w.posts| {
          ReceivedKeepsInv(c, site, w.posts[i], w.last);
        }
    }
  }

  lemma {:induction false} RunKeepsInv(c: Codec, w: World, moves: seq<Move>)
    requires WorldInv(w)
    ensures WorldInv(Run(c, w, moves))
    decreases |moves|
  {
    if |moves| > 0 {
      DoKeepsInv(c, w, moves[0]);
      RunKeepsInv(c, Do(c, w, moves[0]), moves[1..]);
    }
  }

  // ----- main results ---------------------------------------------------------------

  // This snapshot or a later one of the same device is among those known.
  ghost predicate Covers(known: set<Stamp>, stamp: Stamp) {
    exists k :: k in known && k.device == stamp.device && k.seqNo >= stamp.seqNo
  }

  // An arriving snapshot is ignored exactly when it, or a later one of the same
  // device, is known to the receiver: accepted, or behind an accepted one.
  lemma IgnoredIffKnown(c: Codec, site: Site, post: Post, last: map<Device, nat>)
    requires SiteInv(site, last)
    ensures OutcomeOf(c, site.settings, post.op).Ignored? <==> Covers(site.known, StampOf(post.op))
    ensures OutcomeOf(c, site.settings, post.op).Ignored? ==> Received(c, site, post) == site
  {
    if Seen(site.settings.clock, post.op.device, post.op.seqNo) {
      assert Stamp(post.op.device, site.settings.clock[post.op.device]) in site.known;
    }
  }

  ghost predicate Below(a: Clock, b: Clock) {
    forall d | d in a :: d in b && a[d] <= b[d]
  }

  ghost predicate Grows(a: Site, b: Site) {
    a.known <= b.known && Below(a.settings.clock, b.settings.clock)
  }

  lemma ReceivedGrows(c: Codec, site: Site, post: Post)
    ensures Grows(site, Received(c, site, post))
  {
  }

  lemma PublishedGrows(c: Codec, site: Site, d: Device, seqNo: nat, last: map<Device, nat>, stop: Stop)
    requires SiteInv(site, last) && site.settings.config.Some? && (d in last ==> seqNo > last[d])
    ensures Grows(site, AfterPublish(c, site, d, seqNo, stop))
  {
    if d in site.settings.clock {
      assert Stamp(d, site.settings.clock[d]) in site.known;
    }
  }

  lemma DoGrows(c: Codec, w: World, m: Move, d: Device)
    requires WorldInv(w) && d in w.sites
    ensures d in Do(c, w, m).sites && Grows(w.sites[d], Do(c, w, m).sites[d])
    ensures w.posts <= Do(c, w, m).posts
  {
    if m.device == d {
      var site := w.sites[d];
      match m
      case Edit(_, _) =>
      case Publish(_, resync, stop) =>
        if Changed(c, site.settings, resync) {
          PublishedGrows(c, site, d, NextSeq(w, d), w.last, stop);
        }
      case Receive(_, i) =>
        if i < |w.posts| {
          ReceivedGrows(c, site, w.posts[i]);
        }
    }
  }

  // Clocks and what is known only grow, over every run.
  lemma {:induction false} RunGrows(c: Codec, w: World, moves: seq<Move>, d: Device)
    requires WorldInv(w) && d in w.sites
    ensures d in Run(c, w, moves).sites && Grows(w.sites[d], Run(c, w, moves).sites[d])
    ensures w.posts <= Run(c, w, moves).posts
    decreases |moves|
  {
    if |moves| > 0 {
      var w1 := Do(c, w, moves[0]);
      DoGrows(c, w, moves[0], d);
      DoKeepsInv(c, w, moves[0]);
      RunGrows(c, w1, moves[1..], d);
    }
  }

  lemma KnownStaysIgnored(c: Codec, w: World, after: seq<Move>, d: Device, i: nat)
    requires WorldInv(w) && d in w.sites && i < |w.posts| && Covers(w.sites[d].known, StampOf(w.posts[i].op))
    ensures var w2 := Run(c, w, after);
            d in w2.sites && i < |w2.posts| && w2.posts[i] == w.posts[i] && Do(c, w2, Receive(d, i)) == w2
  {
    RunGrows(c, w, after, d);
    RunKeepsInv(c, w, after);
    var w2 := Run(c, w, after);
    assert w2.posts[i] == w.posts[i];
    IgnoredIffKnown(c, w2.sites[d], w2.posts[i], w2.last);
    assert w2.sites[d := w2.sites[d]] == w2.sites;
  }

  ghost predicate Accepts(c: Codec, w: World, d: Device, j: nat) {
    && d in w.sites && j < |w.posts| && w.posts[j].op.device != d
    && (OutcomeOf(c, w.sites[d].settings, w.posts[j].op).Agreed?
        || OutcomeOf(c, w.sites[d].settings, w.posts[j].op).Taken?)
  }

  // Main result: once a device has accepted post j, neither j nor anything behind
  // it ever changes that device's settings or conflicts again, in whatever order
  // and however often they arrive.
  lemma AncestorsStayIgnored(c: Codec, begin: World, before: seq<Move>, d: Device, j: nat, after: seq<Move>, i: nat)
    requires Begins(begin) && Accepts(c, Run(c, begin, before), d, j)
    requires var w := Run(c, begin, before);
             i < |w.posts| && (i == j || StampOf(w.posts[i].op) in w.posts[j].past)
    ensures var w := Run(c, Do(c, Run(c, begin, before), Receive(d, j)), after);
            d in w.sites && i < |w.posts| && w.posts[i] == Run(c, begin, before).posts[i]
                && Do(c, w, Receive(d, i)) == w
  {
    var w := Run(c, begin, before);
    RunKeepsInv(c, begin, before);
    DoKeepsInv(c, w, Receive(d, j));
    KnownStaysIgnored(c, Do(c, w, Receive(d, j)), after, d, i);
  }

  // Every snapshot comes from a device that knows what is behind it, and a device's
  // snapshots come one after the other.
  ghost predicate Authored(w: World) {
    && (forall i | 0 <= i < |w.posts| :: w.posts[i].op.device in w.sites
                                         && w.posts[i].past <= w.sites[w.posts[i].op.device].known)
    && (forall i, j | 0 <= i < j < |w.posts| && w.posts[i].op.device == w.posts[j].op.device ::
          w.posts[i].op.seqNo < w.posts[j].op.seqNo && w.posts[i].past <= w.posts[j].past)
  }

  lemma DoKeepsAuthors(c: Codec, w: World, m: Move)
    requires WorldInv(w) && Authored(w)
    ensures Authored(Do(c, w, m))
  {
    var w2 := Do(c, w, m);
    forall i | 0 <= i < |w.posts|
      ensures w.posts[i].op.device in w2.sites && w.posts[i].past <= w2.sites[w.posts[i].op.device].known
      ensures w.posts[i].op.device == m.device && |w2.posts| > |w.posts| ==>
                w.posts[i].op.seqNo < w2.posts[|w.posts|].op.seqNo
    {
      DoGrows(c, w, m, w.posts[i].op.device);
      assert PostInv(w.posts[i], w.last);
    }
  }

  lemma {:induction false} RunKeepsAuthors(c: Codec, w: World, moves: seq<Move>)
    requires WorldInv(w) && Authored(w)
    ensures Authored(Run(c, w, moves))
    decreases |moves|
  {
    if |moves| > 0 {
      DoKeepsInv(c, w, moves[0]);
      DoKeepsAuthors(c, w, moves[0]);
      RunKeepsAuthors(c, Do(c, w, moves[0]), moves[1..]);
    }
  }

  // Main result: wherever exports have stopped, a device that has accepted post j
  // ignores every earlier snapshot of its author for ever, and whatever is behind
  // one of them.
  lemma EarlierStayIgnored(c: Codec, begin: World, before: seq<Move>, d: Device, j: nat, after: seq<Move>, i: nat,
                           k: nat)
    requires Begins(begin) && Accepts(c, Run(c, begin, before), d, j)
    requires var posts := Run(c, begin, before).posts;
             && i < j && posts[i].op.device == posts[j].op.device
             && k < |posts| && (k == i || StampOf(posts[k].op) in posts[i].past)
    ensures var w := Run(c, Do(c, Run(c, begin, before), Receive(d, j)), after);
            d in w.sites && k < |w.posts| && w.posts[k] == Run(c, begin, before).posts[k]
                && Do(c, w, Receive(d, k)) == w
  {
    var w := Run(c, begin, before);
    RunKeepsInv(c, begin, before);
    RunKeepsAuthors(c, begin, before);
    if k == i {
      DoKeepsInv(c, w, Receive(d, j));
      assert StampOf(w.posts[j].op) in Do(c, w, Receive(d, j)).sites[d].known;
      KnownStaysIgnored(c, Do(c, w, Receive(d, j)), after, d, k);
    } else {
      AncestorsStayIgnored(c, begin, before, d, j, after, k);
    }
  }

  // A snapshot whose export has not stopped is known to its author from then on.
  lemma PublishedIsKnown(c: Codec, w: World, d: Device, resync: bool, after: seq<Move>)
    requires WorldInv(w) && d in w.sites && Changed(c, w.sites[d].settings, resync)
    ensures var w2 := Do(c, w, Publish(d, resync, Never));
            && |w2.posts| == |w.posts| + 1 && d in Run(c, w2, after).sites
            && StampOf(w2.posts[|w.posts|].op) in Run(c, w2, after).sites[d].known
  {
    DoKeepsInv(c, w, Publish(d, resync, Never));
    RunGrows(c, Do(c, w, Publish(d, resync, Never)), after, d);
  }

  // A published clock covers everything its author knew, with what is behind it.
  lemma PublishedClockDominates(c: Codec, begin: World, moves: seq<Move>, j: nat, i: nat)
    requires Begins(begin)
    requires var w := Run(c, begin, moves);
             j < |w.posts| && i < |w.posts| && StampOf(w.posts[i].op) in w.posts[j].past
    ensures var w := Run(c, begin, moves);
            Seen(w.posts[j].op.clock, w.posts[i].op.device, w.posts[i].op.seqNo)
  {
    RunKeepsInv(c, begin, moves);
  }

  // ----- fast-forwarding ------------------------------------------------------------

  // What the settings functions guarantee.
  ghost predicate Lawful(c: Codec) {
    && (forall text :: c.strip(c.strip(text)) == c.strip(text))
    && (forall remote, local :: c.extract(local) != "" ==> c.extract(c.merge(remote, local)) != "")
    && (forall remote, local :: c.strip(c.merge(remote, local)) ==
          if c.extract(local) == "" || c.strip(remote) == "" then c.strip(remote) else Closed(c.strip(remote)) + "\n")
  }

  lemma TomlIsLawful()
    ensures Lawful(TOML)
  {
    forall text
      ensures TOML.strip(TOML.strip(text)) == TOML.strip(text)
    {
      StripIsIdempotent(text);
    }
    forall remote, local
      ensures TOML.extract(local) != "" ==> TOML.extract(TOML.merge(remote, local)) != ""
      ensures TOML.strip(TOML.merge(remote, local)) ==
                if TOML.extract(local) == "" || TOML.strip(remote) == "" then TOML.strip(remote)
                else Closed(TOML.strip(remote)) + "\n"
    {
      ExtractOfMerge(remote, local);
      StripOfMerge(remote, local);
    }
  }

  // The published part of what a device holds after it has taken over a snapshot.
  lemma TakenText(c: Codec, s: Settings, first: Snapshot)
    requires Lawful(c) && OutcomeOf(c, s, first).Taken? && c.strip(first.text) == first.text
    ensures Apply(c, s, first).config.Some?
    ensures HashOf(c, Apply(c, s, first).config) ==
              if c.extract(TextOf(s.config)) == "" || first.text == "" then Digest(first.text)
              else Digest(Closed(first.text) + "\n")
  {
    assert c.strip(c.merge(first.text, TextOf(s.config))) == c.strip(Apply(c, s, first).config.value);
  }

  lemma ClosedIsLonger(text: string)
    ensures Closed(text) + "\n" != text
  {
  }

  lemma UneditedOutcome(c: Codec, t: Settings, public: string, base: string, next: Snapshot)
    requires t.config.Some? && HashOf(c, t.config) == Digest(public)
    requires !Seen(t.clock, next.device, next.seqNo) && next.base == Some(Digest(base)) && next.text != base
    ensures OutcomeOf(c, t, next).Taken? <==> public == base
    ensures OutcomeOf(c, t, next).Agreed? <==> next.text == public
    ensures !OutcomeOf(c, t, next).Ignored?
  {
  }

  // Main result: a device that has just taken over a snapshot, and has edited
  // nothing since, takes over the next one that is based on it exactly when it
  // has no tables of its own (or there was nothing in the snapshot). Otherwise
  // its own text no longer hashes to the base, and it records a conflict unless
  // the next text happens to differ by the blank line only.
  lemma FastForwardIff(c: Codec, s: Settings, first: Snapshot, second: Snapshot)
    requires Lawful(c) && OutcomeOf(c, s, first).Taken? && c.strip(first.text) == first.text
    requires !Seen(Apply(c, s, first).clock, second.device, second.seqNo)
    requires second.base == Some(Digest(first.text)) && second.text != first.text
    ensures var own, t := c.extract(TextOf(s.config)), Apply(c, s, first);
            && (OutcomeOf(c, t, second).Taken? <==> own == "" || first.text == "")
            && (OutcomeOf(c, t, second).Agreed? <==>
                  own != "" && first.text != "" && second.text == Closed(first.text) + "\n")
            && !OutcomeOf(c, t, second).Ignored?
  {
    TakenText(c, s, first);
    ClosedIsLonger(first.text);
    var alone := c.extract(TextOf(s.config)) == "" || first.text == "";
    UneditedOutcome(c, Apply(c, s, first), if alone then first.text else Closed(first.text) + "\n", first.text, second);
  }
}
