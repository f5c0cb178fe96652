// Two devices that publish their settings to each other: when it ends.
module SettingsExchanges {
  import opened Iteration
  import opened Options
  import opened Sequences
  import opened SettingsLines
  import opened SettingsTexts
  import opened SettingsLaws
  import opened SettingsMerges
  import opened SettingsClocks

  ghost predicate HasOwn(c: Codec, s: Settings) {
    s.config.Some? && c.extract(s.config.value) != ""
  }

  // x has just published this snapshot and has not edited since; y would take it.
  ghost predicate Offering(c: Codec, x: Settings, y: Settings, op: Snapshot) {
    && x.config.Some? && y.config.Some? && c.strip(op.text) == op.text
    && HashOf(c, x.config) == Digest(op.text) && x.exported == Some(Digest(op.text))
    && op.base == Some(HashOf(c, y.config)) && HashOf(c, y.config) != Digest(op.text)
    && !Seen(y.clock, op.device, op.seqNo)
  }

  ghost predicate Offered(c: Codec, w: World, x: Device, y: Device) {
    && WorldInv(w) && x != y && x in w.sites && y in w.sites && |w.posts| > 0
    && w.posts[|w.posts| - 1].op.device == x
    && Offering(c, w.sites[x].settings, w.sites[y].settings, w.posts[|w.posts| - 1].op)
  }

  ghost predicate BothOwn(c: Codec, w: World, x: Device, y: Device)
    requires x in w.sites && y in w.sites
  {
    HasOwn(c, w.sites[x].settings) && HasOwn(c, w.sites[y].settings)
  }

  // What the receiver holds when it has taken over the text and has tables of its own.
  function Longer(text: string): string {
    Closed(text) + "\n"
  }

  // Both have tables of their own, there is something in the snapshot, and what y
  // makes of it is not what y has published last.
  ghost predicate Endless(c: Codec, w: World, x: Device, y: Device)
    requires x in w.sites && y in w.sites
  {
    && BothOwn(c, w, x, y) && LastText(w) != ""
    && w.sites[y].settings.exported != Some(Digest(Longer(LastText(w))))
  }

  // The device receives the last snapshot and exports.
  function Reply(c: Codec, w: World, d: Device): World
    requires |w.posts| > 0
  {
    Do(c, Do(c, w, Receive(d, |w.posts| - 1)), Publish(d, false, Never))
  }

  // The reply of x (on its turn) or y.
  function Replies(c: Codec, x: Device, y: Device): (World, bool) -> World {
    (w: World, turn: bool) => if |w.posts| == 0 then w else Reply(c, w, if turn then x else y)
  }

  // n replies, taking turns, y first.
  function Exchange(c: Codec, w: World, x: Device, y: Device, n: nat): World {
    Iterate(Replies(c, x, y), w, false, n)
  }

  function LastText(w: World): string {
    if |w.posts| == 0 then "" else w.posts[|w.posts| - 1].op.text
  }

  // From some point on nothing more is published.
  ghost predicate Settles(c: Codec, w: World, x: Device, y: Device) {
    exists n: nat :: StillFrom(c, w, x, y, n)
  }

  // ----- one reply ---------------------------------------------------------------

  // What is published in reply to a snapshot of the other device.
  lemma ReplyParts(c: Codec, w: World, x: Device, y: Device)
    requires x != y && x in w.sites && y in w.sites && |w.posts| > 0
    requires w.posts[|w.posts| - 1].op.device != y
    ensures var w2 := Reply(c, w, y);
            var y1 := Apply(c, w.sites[y].settings, w.posts[|w.posts| - 1].op);
            && x in w2.sites && y in w2.sites && w2.sites[x] == w.sites[x]
            && (Changed(c, y1, false) ==>
                  && w2.sites[y].settings == Exported(c, y1, y, NextSeq(w, y))
                  && |w2.posts| == |w.posts| + 1
                  && w2.posts[|w.posts|].op == SnapshotOf(c, y1, y, NextSeq(w, y)))
            && (!Changed(c, y1, false) ==> w2.sites[y].settings == y1 && w2.posts == w.posts)
  {
  }

  lemma ReplyKeepsInv(c: Codec, w: World, y: Device)
    requires WorldInv(w) && |w.posts| > 0
    ensures WorldInv(Reply(c, w, y))
  {
    DoKeepsInv(c, w, Receive(y, |w.posts| - 1));
    DoKeepsInv(c, Do(c, w, Receive(y, |w.posts| - 1)), Publish(y, false, Never));
  }

  lemma NextIsUnseen(w: World, x: Device, y: Device)
    requires WorldInv(w) && x in w.sites
    ensures !Seen(w.sites[x].settings.clock, y, NextSeq(w, y))
  {
    var clock := w.sites[x].settings.clock;
    if y in clock {
      assert Stamp(y, clock[y]) in w.sites[x].known;
    }
  }

  // ----- a device with tables of its own offers something longer -------------------

  lemma OwnSurvives(c: Codec, y: Settings, op: Snapshot)
    requires Lawful(c) && HasOwn(c, y) && OutcomeOf(c, y, op).Taken?
    ensures HasOwn(c, Apply(c, y, op))
  {
    assert c.extract(c.merge(op.text, y.config.value)) != "";
  }

  // The reply is based on the text it replies to.
  lemma OffersBack(c: Codec, x: Settings, y: Settings, op: Snapshot, d: Device, seqNo: nat)
    requires Lawful(c) && Offering(c, x, y, op) && HasOwn(c, y) && op.text != "" && !Seen(x.clock, d, seqNo)
    ensures OutcomeOf(c, y, op).Taken?
    ensures var y1 := Apply(c, y, op);
            && y1.exported == y.exported && HasOwn(c, y1) && HashOf(c, y1.config) == Digest(Longer(op.text))
            && SnapshotOf(c, y1, d, seqNo).text == Longer(op.text)
            && Offering(c, Exported(c, y1, d, seqNo), x, SnapshotOf(c, y1, d, seqNo))
  {
    TakenText(c, y, op);
    OwnSurvives(c, y, op);
    ClosedIsLonger(op.text);
    var y1 := Apply(c, y, op);
    assert c.strip(c.strip(y1.config.value)) == c.strip(y1.config.value);
  }

  lemma LongerEachTime(text: string)
    ensures Closed(Longer(text)) == Longer(text) && |Longer(Longer(text))| == |Longer(text)| + 1 > |text|
  {
  }

  lemma OwnReplies(c: Codec, w: World, x: Device, y: Device)
    requires Lawful(c) && Offered(c, w, x, y) && HasOwn(c, w.sites[y].settings) && LastText(w) != ""
    requires w.sites[y].settings.exported != Some(Digest(Longer(LastText(w))))
    ensures var w2 := Reply(c, w, y);
            && Offered(c, w2, y, x) && |w2.posts| == |w.posts| + 1 && LastText(w2) == Longer(LastText(w))
            && HasOwn(c, w2.sites[y].settings) && w2.sites[x] == w.sites[x]
            && w2.sites[x].settings.exported != Some(Digest(Longer(LastText(w2))))
  {
    NextIsUnseen(w, x, y);
    OffersBack(c, w.sites[x].settings, w.sites[y].settings, w.posts[|w.posts| - 1].op, y, NextSeq(w, y));
    ReplyParts(c, w, x, y);
    ReplyKeepsInv(c, w, y);
    LongerEachTime(LastText(w));
  }

  // ----- a device without is satisfied ------------------------------------------------

  // The device has published what it holds, and the snapshot changes nothing.
  ghost predicate AtRest(c: Codec, d: Device, s: Settings, op: Snapshot) {
    && s.config.Some? && s.exported == Some(HashOf(c, s.config))
    && (op.device == d || Seen(s.clock, op.device, op.seqNo) || HashOf(c, s.config) == Digest(op.text))
  }

  // Neither of them changes anything any more.
  ghost predicate Quiet(c: Codec, w: World, x: Device, y: Device) {
    && x != y && x in w.sites && y in w.sites && |w.posts| > 0
    && AtRest(c, x, w.sites[x].settings, w.posts[|w.posts| - 1].op)
    && AtRest(c, y, w.sites[y].settings, w.posts[|w.posts| - 1].op)
  }

  lemma StaysAtRest(c: Codec, d: Device, s: Settings, op: Snapshot)
    requires AtRest(c, d, s, op) && op.device != d
    ensures AtRest(c, d, Apply(c, s, op), op) && !Changed(c, Apply(c, s, op), false)
  {
  }

  // Nothing more is published.
  lemma QuietStays(c: Codec, w: World, x: Device, y: Device)
    requires Quiet(c, w, x, y)
    ensures Quiet(c, Reply(c, w, y), y, x) && Reply(c, w, y).posts == w.posts
  {
    var op := w.posts[|w.posts| - 1].op;
    if op.device != y {
      StaysAtRest(c, y, w.sites[y].settings, op);
    }
  }

  lemma QuietTurn(c: Codec, w: World, x: Device, y: Device, turn: bool)
    requires Quiet(c, w, x, y)
    ensures var w2 := Replies(c, x, y)(w, turn); Quiet(c, w2, x, y) && w2.posts == w.posts
  {
    if turn {
      QuietStays(c, w, y, x);
    } else {
      QuietStays(c, w, x, y);
    }
  }

  // What a device does that takes over a text without adding to it.
  lemma TakesOver(c: Codec, y: Settings, op: Snapshot, d: Device, seqNo: nat)
    requires Lawful(c) && y.config.Some? && (!HasOwn(c, y) || op.text == "")
    requires OutcomeOf(c, y, op).Taken? && c.strip(op.text) == op.text
    ensures var y1 := Apply(c, y, op);
            && HashOf(c, y1.config) == Digest(op.text) && y1.config.Some?
            && SnapshotOf(c, y1, d, seqNo).text == op.text
            && (!Changed(c, y1, false) ==> y1.exported == Some(Digest(op.text)))
  {
    TakenText(c, y, op);
  }

  // The reply has the same text, or there is none.
  lemma RestsAfterReply(c: Codec, w: World, x: Device, y: Device)
    requires Offered(c, w, x, y)
    requires var y1 := Apply(c, w.sites[y].settings, w.posts[|w.posts| - 1].op);
             && y1.config.Some? && HashOf(c, y1.config) == Digest(LastText(w))
             && (!Changed(c, y1, false) ==> y1.exported == Some(Digest(LastText(w))))
    ensures Quiet(c, Reply(c, w, y), y, x) && |Reply(c, w, y).posts| <= |w.posts| + 1
  {
    ReplyParts(c, w, x, y);
  }

  lemma PlainReplies(c: Codec, w: World, x: Device, y: Device)
    requires Lawful(c) && Offered(c, w, x, y) && (!HasOwn(c, w.sites[y].settings) || LastText(w) == "")
    ensures Quiet(c, Reply(c, w, y), y, x) && |Reply(c, w, y).posts| <= |w.posts| + 1
  {
    TakesOver(c, w.sites[y].settings, w.posts[|w.posts| - 1].op, y, NextSeq(w, y));
    RestsAfterReply(c, w, x, y);
  }

  // What y makes of the text is what it has published last.
  lemma NoReply(c: Codec, w: World, x: Device, y: Device)
    requires Lawful(c) && Offered(c, w, x, y) && HasOwn(c, w.sites[y].settings) && LastText(w) != ""
    requires w.sites[y].settings.exported == Some(Digest(Longer(LastText(w))))
    ensures Quiet(c, Reply(c, w, y), y, x) && Reply(c, w, y).posts == w.posts
  {
    NextIsUnseen(w, x, y);
    OffersBack(c, w.sites[x].settings, w.sites[y].settings, w.posts[|w.posts| - 1].op, y, NextSeq(w, y));
    SilentAfterReply(c, w, x, y);
  }

  lemma SilentAfterReply(c: Codec, w: World, x: Device, y: Device)
    requires Offered(c, w, x, y) && OutcomeOf(c, w.sites[y].settings, w.posts[|w.posts| - 1].op).Taken?
    requires var y1 := Apply(c, w.sites[y].settings, w.posts[|w.posts| - 1].op);
             y1.config.Some? && y1.exported == Some(HashOf(c, y1.config))
    ensures Quiet(c, Reply(c, w, y), y, x) && Reply(c, w, y).posts == w.posts
  {
    ReplyParts(c, w, x, y);
    TakenIsSeen(c, w.sites[y].settings, w.posts[|w.posts| - 1].op);
  }

  lemma TakenIsSeen(c: Codec, s: Settings, op: Snapshot)
    requires OutcomeOf(c, s, op).Taken?
    ensures Seen(Apply(c, s, op).clock, op.device, op.seqNo)
  {
    AcceptSees(s.clock, op);
  }

  lemma AcceptSees(clock: Clock, op: Snapshot)
    ensures Seen(Accept(clock, op), op.device, op.seqNo)
  {
  }

  // ----- whole exchanges -----------------------------------------------------------------

  // It is y's turn (or x's), and the exchange has no end.
  ghost predicate Growing(c: Codec, w: World, x: Device, y: Device, turn: bool) {
    if turn then Offered(c, w, y, x) && Endless(c, w, y, x) else Offered(c, w, x, y) && Endless(c, w, x, y)
  }

  lemma GrowingGoesOn(c: Codec, w: World, x: Device, y: Device, turn: bool)
    requires Lawful(c) && Growing(c, w, x, y, turn)
    ensures |w.posts| > 0
    ensures var w2 := Reply(c, w, if turn then x else y);
            && Growing(c, w2, x, y, !turn) && |w2.posts| == |w.posts| + 1 && LastText(w2) == Longer(LastText(w))
            && |Closed(LastText(w2))| == |Closed(LastText(w))| + 1
  {
    LongerEachTime(LastText(w));
    if turn {
      OwnReplies(c, w, y, x);
    } else {
      OwnReplies(c, w, x, y);
    }
  }

  // Main result: every reply of such an exchange publishes one more snapshot, one
  // newline longer.
  lemma EveryReplyPublishes(c: Codec, w: World, x: Device, y: Device, n: nat)
    requires Lawful(c) && Growing(c, w, x, y, false)
    ensures |Exchange(c, w, x, y, n).posts| == |w.posts| + n
    ensures |Closed(LastText(Exchange(c, w, x, y, n)))| == |Closed(LastText(w))| + n
  {
    var inv := (v: World, t: bool) => Growing(c, v, x, y, t);
    var step := Replies(c, x, y);
    forall v, t | inv(v, t)
      ensures inv(step(v, t), !t) && |step(v, t).posts| == |v.posts| + 1
      ensures |Closed(LastText(step(v, t)))| == |Closed(LastText(v))| + 1
    {
      GrowingGoesOn(c, v, x, y, t);
    }
    EveryStepAdds(step, w, false, n, inv, (v: World) => |v.posts|);
    EveryStepAdds(step, w, false, n, inv, (v: World) => |Closed(LastText(v))|);
  }

  // Whoever's turn it is, nothing more is published.
  lemma QuietForEver(c: Codec, w: World, x: Device, y: Device, turn: bool, n: nat)
    requires Quiet(c, w, x, y)
    ensures Iterate(Replies(c, x, y), w, turn, n).posts == w.posts
  {
    var inv := (v: World, t: bool) => Quiet(c, v, x, y);
    var step := Replies(c, x, y);
    forall v, t | inv(v, t)
      ensures inv(step(v, t), !t) && step(v, t).posts == v.posts
    {
      QuietTurn(c, v, x, y, t);
    }
    NoStepShows(step, w, turn, n, inv, (v: World) => v.posts);
  }

  // What is left to publish when the first reply ends it.
  lemma SettlesAtOnce(c: Codec, w: World, x: Device, y: Device, n: nat)
    requires |w.posts| > 0 && Quiet(c, Reply(c, w, y), y, x) && n >= 1
    ensures Exchange(c, w, x, y, n).posts == Reply(c, w, y).posts
  {
    OneStep(Replies(c, x, y), w, false, n);
    QuietForEver(c, Reply(c, w, y), x, y, true, n - 1);
  }

  // ... and when the second one does.
  lemma SettlesThen(c: Codec, w: World, x: Device, y: Device, w1: World, n: nat)
    requires |w.posts| > 0 && w1 == Reply(c, w, y) && |w1.posts| > 0 && Quiet(c, Reply(c, w1, x), x, y) && n >= 2
    ensures Exchange(c, w, x, y, n).posts == Reply(c, w1, x).posts
  {
    OneStep(Replies(c, x, y), w, false, n);
    OneStep(Replies(c, x, y), w1, true, n - 1);
    QuietForEver(c, Reply(c, w1, x), x, y, false, n - 2);
  }

  // One reply ends it unless y has something to add that it has not published.
  lemma FirstReply(c: Codec, w: World, x: Device, y: Device)
    requires Lawful(c) && Offered(c, w, x, y)
    ensures var w1 := Reply(c, w, y);
            || (Quiet(c, w1, y, x) && |w1.posts| <= |w.posts| + 1)
            || (&& HasOwn(c, w.sites[y].settings) && LastText(w) != ""
                && w.sites[y].settings.exported != Some(Digest(Longer(LastText(w)))))
  {
    if !HasOwn(c, w.sites[y].settings) || LastText(w) == "" {
      PlainReplies(c, w, x, y);
    } else if w.sites[y].settings.exported == Some(Digest(Longer(LastText(w)))) {
      NoReply(c, w, x, y);
    }
  }

  // The last snapshots to be published, unless it is endless.
  lemma LastPosts(c: Codec, w: World, x: Device, y: Device) returns (posts: seq<Post>)
    requires Lawful(c) && Offered(c, w, x, y) && !Endless(c, w, x, y)
    ensures |posts| <= |w.posts| + 2
    ensures forall n: nat | n >= 2 :: Exchange(c, w, x, y, n).posts == posts
  {
    var w1 := Reply(c, w, y);
    FirstReply(c, w, x, y);
    if Quiet(c, w1, y, x) {
      posts := w1.posts;
      forall n: nat | n >= 2
        ensures Exchange(c, w, x, y, n).posts == posts
      {
        SettlesAtOnce(c, w, x, y, n);
      }
    } else {
      OwnReplies(c, w, x, y);
      PlainReplies(c, w1, y, x);
      posts := Reply(c, w1, x).posts;
      forall n: nat | n >= 2
        ensures Exchange(c, w, x, y, n).posts == posts
      {
        SettlesThen(c, w, x, y, w1, n);
      }
    }
  }

  ghost predicate StillFrom(c: Codec, w: World, x: Device, y: Device, n: nat) {
    forall m: nat | m >= n :: |Exchange(c, w, x, y, m).posts| == |Exchange(c, w, x, y, n).posts|
  }

  lemma NoEnd(c: Codec, w: World, x: Device, y: Device, n: nat)
    requires Lawful(c) && Growing(c, w, x, y, false)
    ensures !StillFrom(c, w, x, y, n)
  {
    var m := n + 1;
    EveryReplyPublishes(c, w, x, y, n);
    EveryReplyPublishes(c, w, x, y, m);
    assert |Exchange(c, w, x, y, m).posts| != |Exchange(c, w, x, y, n).posts|;
  }

  // Main result: the exchange that a snapshot starts comes to rest, after at most
  // two more, unless both devices have tables of their own, the snapshot is not
  // empty, and the receiver has not just published what it makes of it; and then it
  // never does.
  lemma SettlesIff(c: Codec, w: World, x: Device, y: Device)
    requires Lawful(c) && Offered(c, w, x, y)
    ensures Settles(c, w, x, y) <==> !Endless(c, w, x, y)
    ensures !Endless(c, w, x, y) ==> forall n: nat | n >= 2 :: |Exchange(c, w, x, y, n).posts| <= |w.posts| + 2
  {
    if Endless(c, w, x, y) {
      forall n: nat
        ensures !StillFrom(c, w, x, y, n)
      {
        NoEnd(c, w, x, y, n);
      }
    } else {
      var posts := LastPosts(c, w, x, y);
      var two: nat := 2;
      assert StillFrom(c, w, x, y, two);
    }
  }

  // ----- how it starts --------------------------------------------------------------------

  // One edit starts it on a device whose base is its peer's text, when there is
  // something new in it for both.
  lemma EditStartsExchange(c: Codec, w: World, x: Device, y: Device, config: string)
    requires Lawful(c) && WorldInv(w) && x != y && x in w.sites && y in w.sites
    requires var a, b := w.sites[x].settings, w.sites[y].settings;
             && b.config.Some? && a.base == Some(HashOf(c, b.config)) && a.exported != Some(Digest(c.strip(config)))
             && HashOf(c, b.config) != Digest(c.strip(config))
    ensures var w2 := Do(c, Do(c, w, Edit(x, Some(config))), Publish(x, false, Never));
            && Offered(c, w2, x, y)
            && (Endless(c, w2, x, y) <==>
                  && c.extract(config) != "" && HasOwn(c, w.sites[y].settings) && c.strip(config) != ""
                  && w.sites[y].settings.exported != Some(Digest(Longer(c.strip(config)))))
  {
    EditKeepsInv(c, w, x, config);
    assert c.strip(c.strip(config)) == c.strip(config);
    NextIsUnseen(w, y, x);
    EditParts(c, w, x, y, config);
  }

  lemma EditKeepsInv(c: Codec, w: World, x: Device, config: string)
    requires WorldInv(w)
    ensures WorldInv(Do(c, Do(c, w, Edit(x, Some(config))), Publish(x, false, Never)))
  {
    DoKeepsInv(c, w, Edit(x, Some(config)));
    DoKeepsInv(c, Do(c, w, Edit(x, Some(config))), Publish(x, false, Never));
  }

  lemma EditParts(c: Codec, w: World, x: Device, y: Device, config: string)
    requires x != y && x in w.sites && y in w.sites && Changed(c, w.sites[x].settings.(config := Some(config)), false)
    ensures var w2 := Do(c, Do(c, w, Edit(x, Some(config))), Publish(x, false, Never));
            var x1 := w.sites[x].settings.(config := Some(config));
            && x in w2.sites && y in w2.sites && w2.sites[y] == w.sites[y]
            && w2.sites[x].settings == Exported(c, x1, x, NextSeq(w, x))
            && |w2.posts| == |w.posts| + 1 && w2.posts[|w.posts|].op == SnapshotOf(c, x1, x, NextSeq(w, x))
  {
  }

  // ----- two devices that never come to rest -----------------------------------------------

  // Two settings and a table that stays on the device.
  const OLD := "a\n"
  const NEW := "b\n"
  const TABLE := "[sync]\n"

  const FIRST := OLD + TABLE
  const SECOND := NEW + TABLE

  lemma SyncLine()
    ensures IsHeader(TABLE) && IsLocalOnlyHeader(TABLE) && Terminated(TABLE)
  {
    SyncName();
    assert TrimStart(TABLE) == TABLE;
    assert TABLE[..1] == "[";
    assert TABLE[..2][1] == 's';
    assert Trim("sync") == "sync";
    assert TABLE[..6][5] == ']';
  }

  // Where the name of the table ends.
  lemma SyncName()
    ensures Find(TABLE, "]", 1) == Some(5) && TABLE[1..5] == "sync"
  {
    forall i: nat | 1 <= i < 5
      ensures !OccursAt(TABLE, "]", i)
    {
      assert TABLE[i..i + 1][0] == TABLE[i];
    }
    assert TABLE[5..6] == "]";
    FindSkips(TABLE, "]", 1, 5);
    Slice(TABLE, 1, 5, "sync");
  }

  // Lines that open no table.
  predicate Plain(lines: seq<string>) {
    |lines| > 0 && forall line | line in lines :: !IsHeader(line) && Terminated(line)
  }

  lemma LetterLine(line: string)
    requires |line| == 2 && line[0] in {'a', 'b'} && line[1] == '\n'
    ensures !IsHeader(line) && Terminated(line)
  {
    assert TrimStart(line) == line;
    assert line[..1][0] == line[0];
    assert line[..2][0] == line[0];
  }

  lemma BlankLine()
    ensures !IsHeader("\n") && Terminated("\n")
  {
    assert TrimStart("\n") == "";
  }

  lemma PlainThenTable(front: seq<string>)
    requires Plain(front)
    ensures Proper(front + [TABLE]) && Join(front + [TABLE]) == Join(front) + TABLE
    ensures Kept(front + [TABLE]) == front && Local(front + [TABLE]) == [TABLE]
  {
    SyncLine();
    JoinLast(front, TABLE);
    ProperFront(front + [TABLE]);
    forall line | line in front
      ensures !IsLocalOnlyHeader(line)
    {
      if IsLocalOnlyHeader(line) {
        LocalOnlyIsHeader(line);
      }
    }
    KeptBeforeTables(front, [TABLE]);
  }

  // What of plain lines and the table is published and what stays.
  lemma SplitPlain(front: seq<string>)
    requires Plain(front)
    ensures Strip(Join(front) + TABLE) == Join(front) && Extract(Join(front) + TABLE) == TABLE
  {
    var lines := front + [TABLE];
    PlainThenTable(front);
    LinesOfJoin(lines);
    JoinOne(TABLE);
    StripLines(lines);
    OneSection(front, |front|);
    PlainSection(front);
  }

  lemma {:induction false} OneSection(lines: seq<string>, k: nat)
    requires Plain(lines) && 0 < k <= |lines|
    ensures Sections(lines[..k]) == [lines[..k]]
    decreases k
  {
    assert lines[..k] == lines[..k - 1] + [lines[k - 1]];
    if k == 1 {
      assert Sections([]) == [[]];
      SectionsMore([], lines[0], [], []);
      assert lines[..1] == [] + [lines[0]];
    } else {
      OneSection(lines, k - 1);
      assert Sections(lines[..k - 1]) == [] + [lines[..k - 1]];
      SectionsMore(lines[..k - 1], lines[k - 1], [], lines[..k - 1]);
    }
  }

  lemma PlainSection(lines: seq<string>)
    requires Plain(lines)
    ensures lines[..|lines|] == lines && Flat(MergedSections([lines], [])) == lines
  {
    assert lines[0] in lines;
    if IsProviderHeader(lines[0]) {
      ProviderHeaderIsHeader(lines[0]);
    }
    assert MergedSections([lines], []) == [lines];
    FlatMore([], lines);
    assert [] + [lines] == [lines];
  }

  function TwoAlike(config: string): World {
    var s := Settings(Some(config), map[], None, None, []);
    World(map[1 := Site(s, {}), 2 := Site(s, {})], [], map[])
  }

  function EditMoves(config: string): seq<Move> {
    [Publish(1, false, Never), Edit(1, Some(config)), Publish(1, false, Never)]
  }

  lemma FirstExport(c: Codec, config: string)
    ensures Begins(TwoAlike(config)) && WorldInv(Do(c, TwoAlike(config), Publish(1, false, Never)))
    ensures var w := Do(c, TwoAlike(config), Publish(1, false, Never));
            && 1 in w.sites && 2 in w.sites && w.sites[2] == TwoAlike(config).sites[2]
            && w.sites[1].settings == Exported(c, TwoAlike(config).sites[1].settings, 1, 1)
  {
    DoKeepsInv(c, TwoAlike(config), Publish(1, false, Never));
  }

  // Two devices with the same file begin to exchange snapshots when one of them
  // edits it.
  lemma AlikeStart(c: Codec, first: string, second: string)
    requires Lawful(c) && c.strip(first) != c.strip(second)
    ensures var w := Run(c, TwoAlike(first), EditMoves(second));
            && Begins(TwoAlike(first)) && Offered(c, w, 1, 2)
            && (Endless(c, w, 1, 2) <==> c.extract(first) != "" && c.extract(second) != "" && c.strip(second) != "")
  {
    FirstExport(c, first);
    EditStartsExchange(c, Do(c, TwoAlike(first), Publish(1, false, Never)), 1, 2, second);
    RunThree(c, TwoAlike(first), Publish(1, false, Never), Edit(1, Some(second)), Publish(1, false, Never));
  }

  // Main result: two devices that start with the same file, a table of their own
  // in it, exchange snapshots for ever after a single edit.
  lemma TwoDevicesNeverSettle()
    ensures Begins(TwoAlike(FIRST))
    ensures var w := Run(TOML, TwoAlike(FIRST), EditMoves(SECOND));
            Offered(TOML, w, 1, 2) && BothOwn(TOML, w, 1, 2) && !Settles(TOML, w, 1, 2)
  {
    TomlIsLawful();
    FirstSplits();
    SecondSplits();
    assert OLD[0] != NEW[0];
    AlikeStart(TOML, FIRST, SECOND);
    SettlesIff(TOML, Run(TOML, TwoAlike(FIRST), EditMoves(SECOND)), 1, 2);
  }

  lemma OwnTable(front: seq<string>, text: string)
    requires Plain(front) && Join(front) == text
    ensures TOML.strip(text + TABLE) == text && TOML.extract(text + TABLE) != ""
  {
    SplitPlain(front);
  }

  lemma FirstSplits()
    ensures TOML.strip(FIRST) == OLD && TOML.extract(FIRST) != ""
  {
    LetterLine(OLD);
    JoinOne(OLD);
    OwnTable([OLD], OLD);
  }

  lemma SecondSplits()
    ensures TOML.strip(SECOND) == NEW && TOML.extract(SECOND) != ""
  {
    LetterLine(NEW);
    JoinOne(NEW);
    OwnTable([NEW], NEW);
  }

  // The same with a blank line that is deleted when both have published it.
  const SPACED := OLD + "\n" + TABLE

  lemma SpacedSplits()
    ensures TOML.strip(SPACED) == OLD + "\n" == Longer(OLD) && TOML.extract(SPACED) != ""
  {
    LetterLine(OLD);
    BlankLine();
    JoinOne(OLD);
    JoinLast([OLD], "\n");
    OwnTable([OLD] + ["\n"], OLD + "\n");
  }

  function ShortenMoves(config: string): seq<Move> {
    [Publish(1, false, Never)] + [Publish(2, false, Never), Edit(1, Some(config)), Publish(1, false, Never)]
  }

  // Both have published the same text.
  lemma BothPublished(c: Codec, config: string)
    ensures var w := Do(c, Do(c, TwoAlike(config), Publish(1, false, Never)), Publish(2, false, Never));
            && WorldInv(w) && 1 in w.sites && 2 in w.sites
            && forall d | d in {1, 2} ::
                 w.sites[d].settings == Exported(c, TwoAlike(config).sites[1].settings, d, 1)
  {
    FirstExport(c, config);
    DoKeepsInv(c, Do(c, TwoAlike(config), Publish(1, false, Never)), Publish(2, false, Never));
  }

  // When one shortens it so that the other makes of it what it has published, that
  // is the end.
  lemma ShortenedSettles(c: Codec, first: string, second: string)
    requires Lawful(c) && c.strip(first) == Longer(c.strip(second))
    ensures var w := Run(c, TwoAlike(first), ShortenMoves(second));
            && Begins(TwoAlike(first)) && Offered(c, w, 1, 2) && !Endless(c, w, 1, 2)
            && LastText(w) == c.strip(second)
            && (BothOwn(c, w, 1, 2) <==> c.extract(first) != "" && c.extract(second) != "")
  {
    var w0 := TwoAlike(first);
    var w1 := Do(c, w0, Publish(1, false, Never));
    var w2 := Do(c, w1, Publish(2, false, Never));
    BothPublished(c, first);
    ClosedIsLonger(c.strip(second));
    EditStartsExchange(c, w2, 1, 2, second);
    EditParts(c, w2, 1, 2, second);
    RunOne(c, w0, Publish(1, false, Never), ShortenMoves(second)[1..]);
    RunThree(c, w1, Publish(2, false, Never), Edit(1, Some(second)), Publish(1, false, Never));
  }

  // Tables of their own on both sides do not suffice: the receiver adds the blank
  // line again, which is what it has published last.
  lemma ShorterTextSettles()
    ensures var w := Run(TOML, TwoAlike(SPACED), ShortenMoves(FIRST));
            && Begins(TwoAlike(SPACED)) && Offered(TOML, w, 1, 2)
            && BothOwn(TOML, w, 1, 2) && LastText(w) != "" && Settles(TOML, w, 1, 2)
  {
    TomlIsLawful();
    FirstSplits();
    SpacedSplits();
    ShortenedSettles(TOML, SPACED, FIRST);
    SettlesIff(TOML, Run(TOML, TwoAlike(SPACED), ShortenMoves(FIRST)), 1, 2);
  }

  lemma RunOne(c: Codec, w: World, m: Move, rest: seq<Move>)
    ensures Run(c, w, [m] + rest) == Run(c, Do(c, w, m), rest)
  {
    assert ([m] + rest)[1..] == rest;
  }

  lemma RunThree(c: Codec, w: World, m1: Move, m2: Move, m3: Move)
    ensures Run(c, w, [m1, m2, m3]) == Do(c, Do(c, Do(c, w, m1), m2), m3)
  {
    var w1 := Do(c, w, m1);
    var w2 := Do(c, w1, m2);
    RunOne(c, w, m1, [m2, m3]);
    RunOne(c, w1, m2, [m3]);
    RunOne(c, w2, m3, []);
    assert [m1] + [m2, m3] == [m1, m2, m3] && [m2] + [m3] == [m2, m3] && [m3] + [] == [m3];
  }
}
