// What an arriving snapshot does to the user's settings.
module SettingsKeeps {
  import opened Options
  import opened SettingsClocks

  // It was made from what the device publishes now.
  predicate IsBasedOn(c: Codec, s: Settings, op: Snapshot) {
    s.config.Some? && op.base == Some(HashOf(c, s.config))
  }

  predicate SaysSame(c: Codec, s: Settings, op: Snapshot) {
    s.config.Some? && op.text == c.strip(s.config.value)
  }

  // Main result: a snapshot that has not been seen replaces the configuration
  // exactly when there is none or when it is based on it and says something else;
  // the device's own part is merged in. One that says the same only moves the clock.
  // Any other is kept as a conflict and changes nothing else.
  lemma ReceivedMeans(c: Codec, site: Site, post: Post)
    requires !Seen(site.settings.clock, post.op.device, post.op.seqNo)
    ensures var s, op, t := site.settings, post.op, Received(c, site, post);
            var clock := Accept(s.clock, op);
            && (SaysSame(c, s, op) ==> t.settings == s.(clock := clock))
            && (s.config.None? || (IsBasedOn(c, s, op) && !SaysSame(c, s, op)) ==>
                  t.settings == s.(config := Some(c.merge(op.text, TextOf(s.config))),
                                   base := Some(Digest(op.text)), clock := clock))
            && (s.config.Some? && !IsBasedOn(c, s, op) && !SaysSame(c, s, op) ==>
                  t == site.(settings := s.(conflicts := s.conflicts + [op])))
            && (s.config.None? || IsBasedOn(c, s, op) || SaysSame(c, s, op) ==>
                  t.known == site.known + post.past + {StampOf(op)})
  {
  }

  lemma SeenChangesNothing(c: Codec, site: Site, post: Post)
    requires Seen(site.settings.clock, post.op.device, post.op.seqNo)
    ensures Received(c, site, post) == site
  {
  }

  // ----- runs ------------------------------------------------------------------------

  // A move that may replace the configuration of the device: its user edits it, or a
  // snapshot arrives that is based on it.
  predicate MayReplace(c: Codec, w: World, m: Move, d: Device) {
    m.device == d && d in w.sites &&
    match m
    case Edit(_, _) => true
    case Publish(_, _, _) => false
    case Receive(_, i) => i < |w.posts| && IsBasedOn(c, w.sites[d].settings, w.posts[i].op)
  }

  predicate NothingReplaces(c: Codec, w: World, moves: seq<Move>, d: Device)
    decreases |moves|
  {
    |moves| == 0 || (!MayReplace(c, w, moves[0], d) && NothingReplaces(c, Do(c, w, moves[0]), moves[1..], d))
  }

  lemma DoKeepsConfig(c: Codec, w: World, m: Move, d: Device)
    requires d in w.sites && w.sites[d].settings.config.Some? && !MayReplace(c, w, m, d)
    ensures var w' := Do(c, w, m); d in w'.sites && w'.sites[d].settings.config == w.sites[d].settings.config
  {
  }

  // Main result: over every run of any number of devices, with stops anywhere, the
  // user's configuration stays as it is but for his own edits and for snapshots that
  // are based on it.
  lemma {:induction false} ConfigStays(c: Codec, w: World, moves: seq<Move>, d: Device)
    requires d in w.sites && w.sites[d].settings.config.Some? && NothingReplaces(c, w, moves, d)
    ensures var w' := Run(c, w, moves); d in w'.sites && w'.sites[d].settings.config == w.sites[d].settings.config
    decreases |moves|
  {
    if |moves| > 0 {
      DoKeepsConfig(c, w, moves[0], d);
      ConfigStays(c, Do(c, w, moves[0]), moves[1..], d);
    }
  }

  lemma DoKeepsConflicts(c: Codec, w: World, m: Move, d: Device)
    requires d in w.sites
    ensures d in Do(c, w, m).sites && w.sites[d].settings.conflicts <= Do(c, w, m).sites[d].settings.conflicts
  {
  }

  // A conflict that was recorded stays.
  lemma {:induction false} ConflictsStay(c: Codec, w: World, moves: seq<Move>, d: Device)
    requires d in w.sites
    ensures var w' := Run(c, w, moves);
            d in w'.sites && w.sites[d].settings.conflicts <= w'.sites[d].settings.conflicts
    decreases |moves|
  {
    if |moves| > 0 {
      DoKeepsConflicts(c, w, moves[0], d);
      ConflictsStay(c, Do(c, w, moves[0]), moves[1..], d);
    }
  }

  // What is published: the public part, as an edit of what was agreed on last, or of
  // what was published last.
  lemma PublishedMeans(c: Codec, w: World, d: Device, resync: bool, stop: Stop)
    requires d in w.sites
    ensures var s, w' := w.sites[d].settings, Do(c, w, Publish(d, resync, stop));
            var public := c.strip(TextOf(s.config));
            && (|w'.posts| == |w.posts| + 1 <==> s.config.Some? && (resync || s.exported != Some(Digest(public))))
            && (|w'.posts| != |w.posts| + 1 ==> w'.posts == w.posts && w'.sites == w.sites)
            && (|w'.posts| == |w.posts| + 1 ==>
                  var op := w'.posts[|w.posts|].op;
                  && op.text == public && op.device == d && op.clock == s.clock
                  && (forall i | 0 <= i < |w.posts| :: w'.posts[i] == w.posts[i])
                  && (s.base.Some? ==> op.base == s.base) && (s.base.None? ==> op.base == s.exported)
                  && w'.sites[d].settings.config == s.config && w'.sites[d].settings.conflicts == s.conflicts
                  && (stop.Never? ==>
                        && w'.sites[d].settings.base == Some(Digest(public))
                        && w'.sites[d].settings.exported == Some(Digest(public))))
  {
  }
}
