// One job of the process host: the event loop from the start handshake to the
// exit message. The environment chooses the events; each carries the outcome of
// the calls its arm makes (log writes, sends to the parent, signals, waits).
module Jobs {
  import opened Options
  import opened Sequences
  import opened Utf8
  import opened OutputBatches

  const SEQUENCE_MODULUS: nat := 0x1_0000_0000
  const MAX_TOTAL: nat := 0xFFFF_FFFF_FFFF_FFFF

  datatype Message =
    | Started
    | Output(sequence: nat, chunks: seq<OutputBatches.Chunk>, truncated: bool, totalBytes: nat)
    | TimedOut
    | Exited(exit: Exit)

  datatype Exit = Exit(exitCode: int, timedOut: bool, cancelled: bool, spilled: bool, totalBytes: nat, failed: bool)

  // A message with its chunks read as one tagged text.
  datatype Note =
    | NoteStarted
    | NoteOutput(sequence: nat, text: seq<Tagged>, truncated: bool, totalBytes: nat)
    | NoteTimedOut
    | NoteExited(exit: Exit)

  ghost predicate Conveys(m: Message, n: Note) {
    match m
    case Started => n.NoteStarted?
    case Output(sequence, chunks, truncated, totalBytes) =>
      n == NoteOutput(sequence, Flat(chunks), truncated, totalBytes) && Alternating(chunks)
    case TimedOut => n.NoteTimedOut?
    case Exited(exit) => n == NoteExited(exit)
  }

  ghost predicate ConveysAll(sent: seq<Message>, notes: seq<Note>) {
    |sent| == |notes| && forall i | 0 <= i < |sent| :: Conveys(sent[i], notes[i])
  }

  datatype Wait = Running | Gone(code: Option<int>) | WaitFailed

  datatype Event =
    | Chunk(stream: Stream, data: seq<byte>, logged: bool)
    | End(stream: Stream)
    | Failed(stream: Stream)
    | Closed
    | FlushTick(flushed: bool, delivered: bool)
    | Cancel(wait: Wait, killed: bool)
    | PollTick(elapsed: bool, flushed: bool, delivered: bool, told: bool, killed: bool, wait: Wait)

  datatype Spec = Spec(hasTimeout: bool, keepRunningOnTimeout: bool, retainLog: bool, spillThreshold: nat)

  // u32::wrapping_add(1), and the number of the n-th output.
  function Next(sequence: nat): nat {
    if sequence + 1 == SEQUENCE_MODULUS then 0 else sequence + 1
  }

  function SequenceOf(n: nat): nat {
    if n == 0 then 0 else Next(SequenceOf(n - 1))
  }

  lemma {:induction false} SequenceIsModulo(n: nat)
    ensures SequenceOf(n) == n % SEQUENCE_MODULUS
  {
    if n > 0 {
      SequenceIsModulo(n - 1);
    }
  }

  function Min(a: nat, b: nat): nat {
    if a <= b then a else b
  }

  // UTF-16 code units: two for a character of four bytes.
  function Units(b: byte): nat {
    if IsContinuation(b) then 0 else if b >= 0xF0 then 2 else 1
  }

  function Utf16Units(s: seq<byte>): nat {
    if |s| == 0 then 0 else Utf16Units(s[..|s| - 1]) + Units(s[|s| - 1])
  }

  function AllUnits(text: seq<Tagged>): nat {
    if |text| == 0 then 0 else AllUnits(text[..|text| - 1]) + Units(text[|text| - 1].b)
  }

  // ----- traces ------------------------------------------------------------

  function Outputs(sent: seq<Note>): seq<Note> {
    if |sent| == 0 then []
    else
      var last := sent[|sent| - 1];
      Outputs(sent[..|sent| - 1]) + (if last.NoteOutput? then [last] else [])
  }

  function Timeouts(sent: seq<Note>): nat {
    if |sent| == 0 then 0
    else Timeouts(sent[..|sent| - 1]) + (if sent[|sent| - 1].NoteTimedOut? then 1 else 0)
  }

  function SentText(sent: seq<Note>): seq<Tagged> {
    if |sent| == 0 then []
    else
      var last := sent[|sent| - 1];
      SentText(sent[..|sent| - 1]) + (if last.NoteOutput? then last.text else [])
  }

  // No message says that output was dropped.
  predicate NothingDropped(sent: seq<Note>) {
    |sent| == 0 ||
    (NothingDropped(sent[..|sent| - 1]) && (sent[|sent| - 1].NoteOutput? ==> !sent[|sent| - 1].truncated))
  }

  // Started, then outputs numbered modulo 2^32 whose totals do not decrease and
  // stay within `total`, at most one timeout, and nothing after an exit.
  predicate Traced(sent: seq<Note>, total: nat) {
    |sent| > 0 &&
    var m, before := sent[|sent| - 1], sent[..|sent| - 1];
    match m
    case NoteStarted => before == []
    case NoteOutput(sequence, _, _, totalBytes) =>
      totalBytes <= total && sequence == SequenceOf(|Outputs(before)|) && Traced(before, totalBytes)
    case NoteTimedOut => Timeouts(before) == 0 && Traced(before, total)
    case NoteExited(_) => false
  }

  lemma SendKeepsTrace(sent: seq<Note>, m: Note)
    ensures Outputs(sent + [m]) == Outputs(sent) + (if m.NoteOutput? then [m] else [])
    ensures Timeouts(sent + [m]) == Timeouts(sent) + (if m.NoteTimedOut? then 1 else 0)
    ensures SentText(sent + [m]) == SentText(sent) + (if m.NoteOutput? then m.text else [])
    ensures NothingDropped(sent + [m]) <==> NothingDropped(sent) && (m.NoteOutput? ==> !m.truncated)
  {
    assert (sent + [m])[..|sent|] == sent;
  }

  lemma {:induction false} TotalMayGrow(sent: seq<Note>, total: nat, total': nat)
    requires Traced(sent, total) && total <= total'
    ensures Traced(sent, total')
  {
    if sent[|sent| - 1].NoteTimedOut? {
      TotalMayGrow(sent[..|sent| - 1], total, total');
    }
  }

  // The bytes of one stream, in order.
  function Project(text: seq<Tagged>, stream: Stream): seq<byte> {
    if |text| == 0 then []
    else
      var last := text[|text| - 1];
      Project(text[..|text| - 1], stream) + (if last.stream == stream then [last.b] else [])
  }

  lemma {:induction false} ProjectAppend(xs: seq<Tagged>, ys: seq<Tagged>, stream: Stream)
    ensures Project(xs + ys, stream) == Project(xs, stream) + Project(ys, stream)
  {
    if ys == [] {
      assert xs + ys == xs;
    } else {
      var n := |ys| - 1;
      assert (xs + ys)[..|xs + ys| - 1] == xs + ys[..n];
      ProjectAppend(xs, ys[..n], stream);
    }
  }

  lemma {:induction false} ProjectTag(s: seq<byte>, from: Stream, stream: Stream)
    ensures Project(Tag(from, s), stream) == if from == stream then s else []
  {
    if s != [] {
      var n := |s| - 1;
      assert Tag(from, s)[..n] == Tag(from, s[..n]);
      ProjectTag(s[..n], from, stream);
      assert s[..n] + [s[n]] == s;
    }
  }

  // ----- the loop ----------------------------------------------------------

  // What reader tasks can deliver: nothing after a stream's last event, and the
  // channel closes once both are done.
  predicate Orderly(done: set<Stream>, e: Event) {
    match e
    case Chunk(stream, _, _) => stream !in done
    case End(stream) => stream !in done
    case Failed(stream) => stream !in done
    case Closed => done == {Stdout, Stderr}
    case _ => true
  }

  function Done(events: seq<Event>): set<Stream> {
    if |events| == 0 then {}
    else
      var last := events[|events| - 1];
      Done(events[..|events| - 1]) + (if last.End? || last.Failed? then {last.stream} else {})
  }

  predicate OrderlyRun(events: seq<Event>) {
    |events| == 0 ||
    (OrderlyRun(events[..|events| - 1]) && Orderly(Done(events[..|events| - 1]), events[|events| - 1]))
  }

  // Everything a stream delivered.
  function Delivered(events: seq<Event>, stream: Stream): seq<byte> {
    if |events| == 0 then []
    else
      var last := events[|events| - 1];
      Delivered(events[..|events| - 1], stream) + (if last.Chunk? && last.stream == stream then last.data else [])
  }

  // No read failed and every chunk reached the log.
  predicate Clean(events: seq<Event>) {
    |events| == 0 ||
    (Clean(events[..|events| - 1]) && !events[|events| - 1].Failed? &&
     (events[|events| - 1].Chunk? ==> events[|events| - 1].logged))
  }

  function DeliveredBytes(events: seq<Event>): nat {
    if |events| == 0 then 0
    else
      var last := events[|events| - 1];
      DeliveredBytes(events[..|events| - 1]) + (if last.Chunk? then |last.data| else 0)
  }

  // What a stream's decoder has put out, and what it holds back.
  function DecodedPart(events: seq<Event>, stream: Stream): Decoded {
    var d := Scan(Delivered(events, stream));
    if stream in Done(events) then Decoded(Finish(d), []) else d
  }

  lemma NextEvent(events: seq<Event>, e: Event)
    ensures Done(events + [e]) == Done(events) + (if e.End? || e.Failed? then {e.stream} else {})
    ensures OrderlyRun(events + [e]) <==> OrderlyRun(events) && Orderly(Done(events), e)
    ensures forall s :: Delivered(events + [e], s) ==
              Delivered(events, s) + (if e.Chunk? && e.stream == s then e.data else [])
    ensures DeliveredBytes(events + [e]) == DeliveredBytes(events) + (if e.Chunk? then |e.data| else 0)
    ensures Clean(events + [e]) <==> Clean(events) && !e.Failed? && (e.Chunk? ==> e.logged)
  {
    assert (events + [e])[..|events|] == events;
  }

  lemma {:induction false} UnitsMore(all: seq<Tagged>, from: Stream, s: seq<byte>)
    ensures AllUnits(all + Tag(from, s)) == AllUnits(all) + Utf16Units(s)
  {
    if s == [] {
      assert all + Tag(from, s) == all;
    } else {
      var n := |s| - 1;
      var more := all + Tag(from, s);
      assert more[..|more| - 1] == all + Tag(from, s[..n]);
      UnitsMore(all, from, s[..n]);
    }
  }

  // ----- what the decoders have put out ------------------------------------

  // What the two decoders hold back.
  datatype Held = Held(out: seq<byte>, err: seq<byte>) {
    function At(stream: Stream): seq<byte> {
      if stream.Stdout? then out else err
    }

    function Set(stream: Stream, pending: seq<byte>): Held {
      if stream.Stdout? then this.(out := pending) else this.(err := pending)
    }
  }

  ghost predicate Decoding(events: seq<Event>, all: seq<Tagged>, held: Held) {
    forall stream: Stream :: Decoded(Project(all, stream), held.At(stream)) == DecodedPart(events, stream)
  }

  // The stream that the event belongs to.
  lemma StreamAdvances(events: seq<Event>, e: Event, text: seq<byte>, before: seq<byte>, s: seq<byte>,
                       pending: seq<byte>)
    requires (e.Chunk? || e.End?) && e.stream !in Done(events)
    requires Decoded(text, before) == DecodedPart(events, e.stream)
    requires Decodes(e, before, s, pending)
    ensures Decoded(text + s, pending) == DecodedPart(events + [e], e.stream)
  {
    NextEvent(events, e);
    var past := Delivered(events, e.stream);
    var data := if e.Chunk? then e.data else [];
    assert Delivered(events + [e], e.stream) == past + data;
    ScanAppend(past, data);
    if e.End? {
      FinishAppend(text, Scan(before + []));
    }
  }

  lemma StreamStays(events: seq<Event>, e: Event, stream: Stream)
    requires (e.Chunk? || e.End?) ==> e.stream != stream
    requires !e.Failed?
    ensures DecodedPart(events + [e], stream) == DecodedPart(events, stream)
  {
    NextEvent(events, e);
    assert Delivered(events, stream) + [] == Delivered(events, stream);
  }

  lemma ProjectMore(all: seq<Tagged>, from: Stream, s: seq<byte>, stream: Stream)
    ensures Project(all + Tag(from, s), stream) == Project(all, stream) + (if from == stream then s else [])
  {
    ProjectAppend(all, Tag(from, s), stream);
    ProjectTag(s, from, stream);
  }

  // How the decoder of the event's stream turns its data (or its end) into text.
  ghost predicate Decodes(e: Event, before: seq<byte>, s: seq<byte>, pending: seq<byte>)
    requires e.Chunk? || e.End?
  {
    var d := Scan(before + (if e.Chunk? then e.data else []));
    if e.End? then s == Finish(d) && pending == [] else s == d.out && pending == d.rest
  }

  lemma DecodingAdvances(events: seq<Event>, e: Event, all: seq<Tagged>, held: Held, s: seq<byte>, pending: seq<byte>)
    requires Decoding(events, all, held) && (e.Chunk? || e.End?) && e.stream !in Done(events)
    requires Decodes(e, held.At(e.stream), s, pending)
    ensures Decoding(events + [e], all + Tag(e.stream, s), held.Set(e.stream, pending))
  {
    var more, held' := all + Tag(e.stream, s), held.Set(e.stream, pending);
    forall stream: Stream
      ensures Decoded(Project(more, stream), held'.At(stream)) == DecodedPart(events + [e], stream)
    {
      ProjectMore(all, e.stream, s, stream);
      if stream == e.stream {
        StreamAdvances(events, e, Project(all, stream), held.At(stream), s, pending);
      } else {
        StreamStays(events, e, stream);
        assert Project(all, stream) + [] == Project(all, stream);
      }
    }
  }

  lemma FinishAppend(out: seq<byte>, d: Decoded)
    ensures Finish(Decoded(out + d.out, d.rest)) == out + Finish(d)
  {
    Associative(out, d.out, REPLACEMENT);
  }

  lemma DecodingStays(events: seq<Event>, e: Event, all: seq<Tagged>, held: Held)
    requires Decoding(events, all, held) && !e.Chunk? && !e.End? && !e.Failed?
    ensures Decoding(events + [e], all, held)
  {
    forall stream: Stream
      ensures DecodedPart(events + [e], stream) == DecodedPart(events, stream)
    {
      StreamStays(events, e, stream);
    }
  }

  // ----- the loop as a function of its events -------------------------------

  // What the parent has been told; `alive` while it still reads.
  datatype Wire = Wire(sequence: nat, totalBytes: nat, timedOut: bool, sent: seq<Note>, alive: bool)

  // What the decoders have put out: `all` of it, and what is `unsent` in the batch.
  datatype Text = Text(held: Held, unsent: seq<Tagged>, all: seq<Tagged>, units: nat)

  datatype Job = Job(
    wire: Wire,
    text: Text,
    heard: seq<Event>,        // handled so far
    endedStreams: nat,
    status: Option<Option<int>>,
    cancelled: bool,
    retainLog: bool,
    failed: bool,
    over: bool                // the loop has been left
  )

  function Begin(spec: Spec): Job {
    var wire, text := Wire(0, 0, false, [NoteStarted], true), Text(Held([], []), [], [], 0);
    Job(wire, text, [], 0, None, false, spec.retainLog, false, false)
  }

  function Send(w: Wire, n: Note, delivered: bool): Wire {
    if delivered then w.(sent := w.sent + [n]) else w.(alive := false)
  }

  // flush_output: nothing is sent for an empty batch.
  function Flush(w: Wire, unsent: seq<Tagged>, delivered: bool): Wire {
    if |unsent| == 0 then w
    else Send(w, NoteOutput(w.sequence, Tail(unsent), Tail(unsent) != unsent, w.totalBytes), delivered).(
           sequence := Next(w.sequence))
  }

  function AddBytes(w: Wire, n: nat): Wire {
    w.(totalBytes := Min(MAX_TOTAL, w.totalBytes + n))
  }

  // A stream's decoder gets more data, or learns that there is no more.
  function Decode(t: Text, stream: Stream, data: seq<byte>, finished: bool): Text {
    var d := Scan(t.held.At(stream) + data);
    if finished then AddText(t, stream, Finish(d), []) else AddText(t, stream, d.out, d.rest)
  }

  function AddText(t: Text, stream: Stream, out: seq<byte>, pending: seq<byte>): Text {
    Text(t.held.Set(stream, pending), t.unsent + Tag(stream, out), t.all + Tag(stream, out),
         Min(MAX_TOTAL, t.units + Utf16Units(out)))
  }

  function OnChunk(j: Job, stream: Stream, data: seq<byte>, logged: bool): Job {
    j.(wire := AddBytes(j.wire, |data|),
       text := if logged then Decode(j.text, stream, data, false) else j.text,
       failed := j.failed || !logged)
  }

  function OnEnd(j: Job, stream: Stream): Job {
    j.(text := Decode(j.text, stream, [], true), endedStreams := j.endedStreams + 1)
  }

  function OnFlush(j: Job, flushed: bool, delivered: bool): Job {
    j.(wire := Flush(j.wire, j.text.unsent, delivered), text := j.text.(unsent := []),
       failed := j.failed || (j.text.unsent != [] && !flushed))
  }

  function StatusAfter(status: Option<Option<int>>, wait: Wait): Option<Option<int>> {
    if status.None? && wait.Gone? then Some(wait.code) else status
  }

  function OnCancel(j: Job, wait: Wait, killed: bool): Job {
    j.(status := StatusAfter(j.status, wait),
       cancelled := j.cancelled || (j.status.None? && wait.Running? && killed),
       failed := j.failed || (j.status.None? && (wait.WaitFailed? || (wait.Running? && !killed))))
  }

  // The timeout is reported once: what is in the batch, then the message.
  function ReportTimeout(w: Wire, unsent: seq<Tagged>, delivered: bool, told: bool): Wire {
    var w1 := Flush(w.(timedOut := true), unsent, delivered);
    if w1.alive then Send(w1, NoteTimedOut, told) else w1
  }

  function OnTimeout(spec: Spec, j: Job, flushed: bool, delivered: bool, told: bool, killed: bool): Job {
    var w := ReportTimeout(j.wire, j.text.unsent, delivered, told);
    j.(wire := w, text := j.text.(unsent := []), retainLog := j.retainLog || spec.keepRunningOnTimeout,
       failed := j.failed || (j.text.unsent != [] && !flushed) || (w.alive && !spec.keepRunningOnTimeout && !killed))
  }

  function OnWait(j: Job, wait: Wait): Job {
    j.(status := StatusAfter(j.status, wait), failed := j.failed || (j.status.None? && wait.WaitFailed?))
  }

  function TimesOut(spec: Spec, j: Job, e: Event): bool
    requires e.PollTick?
  {
    !j.wire.timedOut && spec.hasTimeout && e.elapsed
  }

  function Arm(spec: Spec, j: Job, e: Event): Job {
    match e
    case Chunk(stream, data, logged) => OnChunk(j, stream, data, logged)
    case End(stream) => OnEnd(j, stream)
    case Failed(_) => j.(failed := true)
    case Closed => j.(endedStreams := 2)
    case FlushTick(flushed, delivered) => OnFlush(j, flushed, delivered)
    case Cancel(wait, killed) => OnCancel(j, wait, killed)
    case PollTick(_, flushed, delivered, told, killed, wait) =>
      OnWait(if TimesOut(spec, j, e) then OnTimeout(spec, j, flushed, delivered, told, killed) else j, wait)
  }

  // A failed log write skips the check that ends the loop.
  function Handle(spec: Spec, j: Job, e: Event): Job {
    var j1 := Arm(spec, j, e);
    var over := j1.wire.alive && !(e.Chunk? && !e.logged) && j1.status.Some? && j1.endedStreams >= 2;
    j1.(heard := j.heard + [e], over := over)
  }

  function Play(spec: Spec, events: seq<Event>): Job {
    if |events| == 0 then Begin(spec)
    else
      var j := Play(spec, events[..|events| - 1]);
      if !j.wire.alive || j.over then j else Handle(spec, j, events[|events| - 1])
  }

  // How the calls after the loop turn out.
  datatype Ending = Ending(flushed: bool, delivered: bool, removed: bool, told: bool)

  function ExitCode(j: Job): int {
    if j.status.Some? && j.status.value.Some? then j.status.value.value
    else if j.wire.timedOut then 124 else if j.cancelled then 130 else 1
  }

  function ExitOf(spec: Spec, j: Job, end: Ending): Exit {
    var failed := j.failed || !end.flushed;
    var keep := j.retainLog || j.text.units >= spec.spillThreshold || failed;
    var stuck := !keep && !end.removed;
    Exit(ExitCode(j), j.wire.timedOut, j.cancelled, keep || stuck, j.wire.totalBytes, failed || stuck)
  }

  // The final flush and the exit message.
  function Conclude(spec: Spec, j: Job, end: Ending): Wire {
    var w := Flush(j.wire, j.text.unsent, end.delivered);
    if w.alive then Send(w, NoteExited(ExitOf(spec, j, end)), end.told) else w
  }

  // ----- invariants, one at a time ------------------------------------------

  ghost predicate WireInv(w: Wire) {
    && Traced(w.sent, w.totalBytes) && w.totalBytes <= MAX_TOTAL
    && (w.alive ==> w.sequence == SequenceOf(|Outputs(w.sent)|))
    && (!w.timedOut ==> Timeouts(w.sent) == 0)
  }

  lemma FlushKeepsWire(w: Wire, unsent: seq<Tagged>, delivered: bool)
    requires WireInv(w) && w.alive
    ensures WireInv(Flush(w, unsent, delivered)) && Timeouts(Flush(w, unsent, delivered).sent) == Timeouts(w.sent)
  {
    var m := NoteOutput(w.sequence, Tail(unsent), Tail(unsent) != unsent, w.totalBytes);
    SendKeepsTrace(w.sent, m);
    assert (w.sent + [m])[..|w.sent|] == w.sent;
  }

  lemma TimeoutKeepsWire(w: Wire, unsent: seq<Tagged>, delivered: bool, told: bool)
    requires WireInv(w) && w.alive && !w.timedOut
    ensures WireInv(ReportTimeout(w, unsent, delivered, told))
  {
    FlushKeepsWire(w.(timedOut := true), unsent, delivered);
    var w1 := Flush(w.(timedOut := true), unsent, delivered);
    SendKeepsTrace(w1.sent, NoteTimedOut);
    assert (w1.sent + [NoteTimedOut])[..|w1.sent|] == w1.sent;
  }

  lemma HandleKeepsWire(spec: Spec, j: Job, e: Event)
    requires WireInv(j.wire) && j.wire.alive
    ensures WireInv(Handle(spec, j, e).wire)
  {
    match e
    case Chunk(stream, data, logged) =>
      TotalMayGrow(j.wire.sent, j.wire.totalBytes, AddBytes(j.wire, |data|).totalBytes);
    case FlushTick(flushed, delivered) => FlushKeepsWire(j.wire, j.text.unsent, delivered);
    case PollTick(_, _, delivered, told, _, _) =>
      if TimesOut(spec, j, e) {
        TimeoutKeepsWire(j.wire, j.text.unsent, delivered, told);
      }
    case _ =>
  }

  lemma {:induction false} PlayKeepsWire(spec: Spec, events: seq<Event>)
    ensures WireInv(Play(spec, events).wire)
    decreases |events|
  {
    if events == [] {
      assert [NoteStarted][..0] == [];
    } else {
      var j := Play(spec, events[..|events| - 1]);
      PlayKeepsWire(spec, events[..|events| - 1]);
      if j.wire.alive {
        HandleKeepsWire(spec, j, events[|events| - 1]);
      }
    }
  }

  ghost predicate TextInv(w: Wire, t: Text) {
    && (NothingDropped(w.sent) && w.alive ==> SentText(w.sent) + t.unsent == t.all)
    && t.units == Min(MAX_TOTAL, AllUnits(t.all))
  }

  lemma FlushKeepsText(w: Wire, t: Text, delivered: bool)
    requires TextInv(w, t) && w.alive
    ensures TextInv(Flush(w, t.unsent, delivered), t.(unsent := []))
  {
    var m := NoteOutput(w.sequence, Tail(t.unsent), Tail(t.unsent) != t.unsent, w.totalBytes);
    SendKeepsTrace(w.sent, m);
    assert SentText(w.sent) + t.unsent + [] == SentText(w.sent) + t.unsent;
  }

  lemma TimeoutKeepsText(w: Wire, t: Text, delivered: bool, told: bool)
    requires TextInv(w, t) && w.alive
    ensures TextInv(ReportTimeout(w, t.unsent, delivered, told), t.(unsent := []))
  {
    FlushKeepsText(w.(timedOut := true), t, delivered);
    var w1 := Flush(w.(timedOut := true), t.unsent, delivered);
    SendKeepsTrace(w1.sent, NoteTimedOut);
    assert SentText(w1.sent) + [] == SentText(w1.sent);
  }

  lemma AddTextKeepsText(w: Wire, t: Text, stream: Stream, out: seq<byte>, pending: seq<byte>)
    requires TextInv(w, t)
    ensures TextInv(w, AddText(t, stream, out, pending))
  {
    UnitsMore(t.all, stream, out);
    assert SentText(w.sent) + (t.unsent + Tag(stream, out)) == (SentText(w.sent) + t.unsent) + Tag(stream, out);
  }

  lemma DecodeKeepsText(w: Wire, t: Text, stream: Stream, data: seq<byte>, finished: bool)
    requires TextInv(w, t)
    ensures TextInv(w, Decode(t, stream, data, finished))
  {
    var d := Scan(t.held.At(stream) + data);
    AddTextKeepsText(w, t, stream, Finish(d), []);
    AddTextKeepsText(w, t, stream, d.out, d.rest);
  }

  lemma HandleKeepsText(spec: Spec, j: Job, e: Event)
    requires TextInv(j.wire, j.text) && j.wire.alive
    ensures TextInv(Handle(spec, j, e).wire, Handle(spec, j, e).text)
  {
    match e
    case Chunk(stream, data, logged) => DecodeKeepsText(AddBytes(j.wire, |data|), j.text, stream, data, false);
    case End(stream) => DecodeKeepsText(j.wire, j.text, stream, [], true);
    case FlushTick(flushed, delivered) => FlushKeepsText(j.wire, j.text, delivered);
    case PollTick(_, _, delivered, told, _, _) => TimeoutKeepsText(j.wire, j.text, delivered, told);
    case _ =>
  }

  lemma {:induction false} PlayKeepsText(spec: Spec, events: seq<Event>)
    ensures TextInv(Play(spec, events).wire, Play(spec, events).text)
    decreases |events|
  {
    if events == [] {
      assert [NoteStarted][..0] == [];
      assert SentText([NoteStarted]) + [] == [];
    } else {
      var j := Play(spec, events[..|events| - 1]);
      PlayKeepsText(spec, events[..|events| - 1]);
      if j.wire.alive {
        HandleKeepsText(spec, j, events[|events| - 1]);
      }
    }
  }

  ghost predicate StreamInv(j: Job) {
    && j.endedStreams <= |Done(j.heard)|
    && (!j.failed ==> Clean(j.heard))
    && (Clean(j.heard) ==> Decoding(j.heard, j.text.all, j.text.held))
    && j.wire.totalBytes == Min(MAX_TOTAL, DeliveredBytes(j.heard))
    && (j.over ==> j.endedStreams >= 2)
  }

  // What the stream invariant looks at.
  ghost predicate SameStreams(j: Job, k: Job) {
    && k.text.all == j.text.all && k.text.held == j.text.held && k.heard == j.heard && k.over == j.over
    && k.wire.totalBytes == j.wire.totalBytes && k.endedStreams == j.endedStreams && (j.failed ==> k.failed)
  }

  lemma QuietKeepsStreams(j: Job, e: Event, k: Job)
    requires StreamInv(j) && SameStreams(j.(heard := j.heard + [e]), k.(over := j.over))
    requires !e.Chunk? && !e.End? && !e.Failed? && (k.over ==> k.endedStreams >= 2)
    ensures StreamInv(k)
  {
    NextEvent(j.heard, e);
    if Clean(j.heard) {
      DecodingStays(j.heard, e, j.text.all, j.text.held);
    }
  }

  lemma ChunkKeepsStreams(spec: Spec, j: Job, e: Event)
    requires StreamInv(j) && Orderly(Done(j.heard), e) && e.Chunk?
    ensures StreamInv(Handle(spec, j, e))
  {
    NextEvent(j.heard, e);
    if Clean(j.heard) && e.logged {
      var d := Scan(j.text.held.At(e.stream) + e.data);
      DecodingAdvances(j.heard, e, j.text.all, j.text.held, d.out, d.rest);
    }
  }

  lemma EndKeepsStreams(spec: Spec, j: Job, e: Event)
    requires StreamInv(j) && Orderly(Done(j.heard), e) && e.End?
    ensures StreamInv(Handle(spec, j, e))
  {
    NextEvent(j.heard, e);
    if Clean(j.heard) {
      DecodingAdvances(j.heard, e, j.text.all, j.text.held, Finish(Scan(j.text.held.At(e.stream) + [])), []);
    }
  }

  lemma FlushTickKeepsStreams(spec: Spec, j: Job, e: Event)
    requires StreamInv(j) && e.FlushTick?
    ensures StreamInv(Handle(spec, j, e))
  {
    QuietKeepsStreams(j, e, Handle(spec, j, e));
  }

  lemma CancelKeepsStreams(spec: Spec, j: Job, e: Event)
    requires StreamInv(j) && e.Cancel?
    ensures StreamInv(Handle(spec, j, e))
  {
    QuietKeepsStreams(j, e, Handle(spec, j, e));
  }

  lemma PollTickKeepsStreams(spec: Spec, j: Job, e: Event)
    requires StreamInv(j) && e.PollTick?
    ensures StreamInv(Handle(spec, j, e))
  {
    QuietKeepsStreams(j, e, Handle(spec, j, e));
  }

  lemma ClosedKeepsStreams(spec: Spec, j: Job, e: Event)
    requires StreamInv(j) && Orderly(Done(j.heard), e) && e.Closed?
    ensures StreamInv(Handle(spec, j, e))
  {
    assert |{Stdout, Stderr}| == 2;
    QuietKeepsStreams(j.(endedStreams := 2), e, Handle(spec, j, e));
  }

  lemma HandleKeepsStreams(spec: Spec, j: Job, e: Event)
    requires StreamInv(j) && Orderly(Done(j.heard), e)
    ensures StreamInv(Handle(spec, j, e))
  {
    match e
    case Chunk(_, _, _) => ChunkKeepsStreams(spec, j, e);
    case End(_) => EndKeepsStreams(spec, j, e);
    case Failed(_) => NextEvent(j.heard, e);
    case Closed => ClosedKeepsStreams(spec, j, e);
    case FlushTick(_, _) => FlushTickKeepsStreams(spec, j, e);
    case Cancel(_, _) => CancelKeepsStreams(spec, j, e);
    case PollTick(_, _, _, _, _, _) => PollTickKeepsStreams(spec, j, e);
  }

  // `heard` are the events that count: the loop ignores what comes after it.
  ghost predicate HeardInv(j: Job, events: seq<Event>) {
    && |j.heard| <= |events| && j.heard == events[..|j.heard|]
    && (j.wire.alive && !j.over ==> j.heard == events)
  }

  lemma {:induction false} OrderlyPrefix(events: seq<Event>, i: nat)
    requires i <= |events| && OrderlyRun(events)
    ensures OrderlyRun(events[..i])
    decreases |events|
  {
    if i < |events| {
      assert events[..|events| - 1][..i] == events[..i];
      OrderlyPrefix(events[..|events| - 1], i);
    } else {
      assert events[..i] == events;
    }
  }

  lemma {:induction false} PlayHears(spec: Spec, events: seq<Event>)
    ensures HeardInv(Play(spec, events), events)
    decreases |events|
  {
    if events != [] {
      var before, last := events[..|events| - 1], events[|events| - 1];
      PlayHears(spec, before);
      FrontAndLast(events);
      PlayAnother(spec, before, last);
      HearsNext(spec, Play(spec, before), before, last);
    }
  }

  lemma PlayAnother(spec: Spec, before: seq<Event>, e: Event)
    ensures var j := Play(spec, before);
            Play(spec, before + [e]) == if !j.wire.alive || j.over then j else Handle(spec, j, e)
  {
    FrontOf(before, e);
  }

  lemma HearsNext(spec: Spec, j: Job, before: seq<Event>, e: Event)
    requires HeardInv(j, before)
    ensures var next := if !j.wire.alive || j.over then j else Handle(spec, j, e); HeardInv(next, before + [e])
  {
    FrontOf(before, e);
    PrefixOf(before, [e], 0, |j.heard|);
    assert (before + [e])[..|before| + 1] == before + [e];
  }

  lemma {:induction false} PlayKeepsStreams(spec: Spec, events: seq<Event>)
    requires OrderlyRun(events)
    ensures StreamInv(Play(spec, events))
    decreases |events|
  {
    if events != [] {
      var before := events[..|events| - 1];
      var j := Play(spec, before);
      PlayKeepsStreams(spec, before);
      PlayHears(spec, before);
      if j.wire.alive && !j.over {
        HandleKeepsStreams(spec, j, events[|events| - 1]);
      }
    }
  }

  // ----- main results ------------------------------------------------------

  // Outputs are numbered 0, 1, 2, ... modulo 2^32 and their totals do not
  // decrease; a timeout is reported at most once; Started comes first.
  lemma {:induction false} TracedMeans(sent: seq<Note>, total: nat)
    requires Traced(sent, total)
    ensures sent[0].NoteStarted? && Timeouts(sent) <= 1
    ensures forall i | 0 < i < |sent| :: !sent[i].NoteStarted?
    ensures forall i | 0 <= i < |sent| :: !sent[i].NoteExited?
    ensures forall k | 0 <= k < |Outputs(sent)| ::
              Outputs(sent)[k].NoteOutput? && Outputs(sent)[k].sequence == k % SEQUENCE_MODULUS
                  && Outputs(sent)[k].totalBytes <= total
    ensures forall j, k | 0 <= j < k < |Outputs(sent)| :: Outputs(sent)[j].totalBytes <= Outputs(sent)[k].totalBytes
  {
    var m, before := sent[|sent| - 1], sent[..|sent| - 1];
    assert sent == before + [m];
    if !m.NoteStarted? {
      TracedMeans(before, if m.NoteOutput? then m.totalBytes else total);
      SequenceIsModulo(|Outputs(before)|);
    }
  }

  // Main result: whatever the events, the messages are well ordered, and the exit
  // message, if there is one, is the last and reports the last total.
  lemma JobTrace(spec: Spec, events: seq<Event>, end: Ending)
    ensures Traced(Play(spec, events).wire.sent, Play(spec, events).wire.totalBytes)
    ensures var j := Play(spec, events);
            var w := Conclude(spec, j, end);
            j.wire.alive ==>
            || Traced(w.sent, w.totalBytes)
            || (&& w.sent != [] && w.sent[|w.sent| - 1].NoteExited?
                && w.sent[|w.sent| - 1].exit.totalBytes == j.wire.totalBytes
                && Traced(w.sent[..|w.sent| - 1], j.wire.totalBytes))
  {
    var j := Play(spec, events);
    PlayKeepsWire(spec, events);
    if j.wire.alive {
      FlushKeepsWire(j.wire, j.text.unsent, end.delivered);
      var w := Flush(j.wire, j.text.unsent, end.delivered);
      var n := NoteExited(ExitOf(spec, j, end));
      assert (w.sent + [n])[..|w.sent|] == w.sent;
    }
  }

  // Main result: if the job exits, no read failed, every chunk reached the log
  // and no output says it was truncated, then what was sent of each stream is the
  // reference decoding of all the bytes the stream delivered.
  lemma NothingIsLost(spec: Spec, events: seq<Event>, end: Ending, stream: Stream)
    requires OrderlyRun(events)
    requires var j := Play(spec, events); j.over && j.wire.alive && Clean(j.heard)
    requires var w := Conclude(spec, Play(spec, events), end); w.alive && NothingDropped(w.sent)
    ensures var j := Play(spec, events);
            && j.heard <= events
            && LossyDecodesTo(Delivered(j.heard, stream), Project(SentText(Conclude(spec, j, end).sent), stream))
  {
    var j := Play(spec, events);
    PlayKeepsText(spec, events);
    PlayKeepsStreams(spec, events);
    PlayHears(spec, events);
    FlushKeepsText(j.wire, j.text, end.delivered);
    var w := Flush(j.wire, j.text.unsent, end.delivered);
    SendKeepsTrace(w.sent, NoteExited(ExitOf(spec, j, end)));
    assert SentText(w.sent) + [] == SentText(w.sent);
    BothDone(Done(j.heard));
    assert stream in Done(j.heard);
    assert Decoded(Project(j.text.all, stream), j.text.held.At(stream)) == DecodedPart(j.heard, stream);
    LossyIsReference(Delivered(j.heard, stream), Lossy(Delivered(j.heard, stream)));
  }

  lemma BothDone(done: set<Stream>)
    requires |done| >= 2
    ensures done == {Stdout, Stderr}
  {
    forall s | s in done
      ensures s in {Stdout, Stderr}
    {
      match s
      case Stdout =>
      case Stderr =>
    }
    if Stdout !in done {
      assert done <= {Stderr};
      Smaller(done, {Stderr});
    } else if Stderr !in done {
      assert done <= {Stdout};
      Smaller(done, {Stdout});
    }
  }

  lemma Smaller(a: set<Stream>, b: set<Stream>)
    requires a <= b
    ensures |a| <= |b|
  {
    assert b == a + (b - a);
  }

  // Main result: an exit that reports no error and no spilled log means that all
  // reads and log writes went well and that what was decoded stayed below the
  // threshold.
  lemma QuietExit(spec: Spec, events: seq<Event>, end: Ending)
    requires OrderlyRun(events) && Play(spec, events).over
    requires !ExitOf(spec, Play(spec, events), end).failed
    ensures var j := Play(spec, events);
            && Clean(j.heard)
            && (!ExitOf(spec, j, end).spilled ==>
                  !spec.retainLog && Min(MAX_TOTAL, AllUnits(j.text.all)) < spec.spillThreshold)
  {
    PlayKeepsStreams(spec, events);
    PlayKeepsText(spec, events);
    PlayKeepsRetention(spec, events);
  }

  lemma {:induction false} PlayKeepsRetention(spec: Spec, events: seq<Event>)
    ensures spec.retainLog ==> Play(spec, events).retainLog
    decreases |events|
  {
    if events != [] {
      PlayKeepsRetention(spec, events[..|events| - 1]);
    }
  }

  // ----- the loop itself ---------------------------------------------------

  class JobRun {
    const spec: Spec
    const stdout: Utf8StreamDecoder
    const stderr: Utf8StreamDecoder
    const batch: OutputBatch
    var sequence: nat
    var totalBytes: nat
    var totalUnits: nat
    var endedStreams: nat
    var status: Option<Option<int>>
    var timedOut: bool
    var cancelled: bool
    var retainLog: bool
    var failed: bool
    var sent: seq<Message>
    var alive: bool
    ghost var wire: Wire
    ghost var text: Text
    ghost var heard: seq<Event>

    ghost predicate Valid()
      reads this, stdout, stderr, batch
    {
      && stdout != stderr && stdout.Valid() && stderr.Valid() && batch.Valid()
      && text == Text(Held(stdout.pending, stderr.pending), batch.text, text.all, totalUnits)
      && WireMatches()
    }

    ghost predicate WireMatches()
      reads this
    {
      wire == Wire(sequence, totalBytes, timedOut, wire.sent, alive) && ConveysAll(sent, wire.sent)
    }

    ghost function State(over: bool): Job
      reads this
    {
      Job(wire, text, heard, endedStreams, status, cancelled, retainLog, failed, over)
    }

    constructor (spec: Spec)
      ensures Valid() && State(false) == Begin(spec) && this.spec == spec
      ensures fresh(stdout) && fresh(stderr) && fresh(batch)
    {
      var o := new Utf8StreamDecoder();
      var e := new Utf8StreamDecoder();
      var b := new OutputBatch();
      this.spec, stdout, stderr, batch := spec, o, e, b;
      sequence, totalBytes, totalUnits, endedStreams := 0, 0, 0, 0;
      status, timedOut, cancelled, retainLog, failed := None, false, false, spec.retainLog, false;
      sent, alive := [Started], true;
      wire, text, heard := Begin(spec).wire, Begin(spec).text, [];
    }

    method SendMessage(m: Message, ghost n: Note, delivered: bool)
      requires WireMatches() && Conveys(m, n)
      modifies `sent, `alive, `wire
      ensures WireMatches() && wire == Send(old(wire), n, delivered)
    {
      if delivered {
        sent := sent + [m];
      } else {
        alive := false;
      }
      wire := Send(wire, n, delivered);
    }

    method FlushOutput(delivered: bool)
      requires Valid()
      modifies `sequence, `sent, `alive, `wire, `text, batch
      ensures Valid() && text == old(text).(unsent := []) && wire == Flush(old(wire), old(text).unsent, delivered)
    {
      if batch.IsEmpty() {
        return;
      }
      ghost var unsent := batch.text;
      var chunks, truncated := batch.Take();
      text := text.(unsent := []);
      ghost var n := NoteOutput(sequence, Tail(unsent), Tail(unsent) != unsent, totalBytes);
      SendMessage(Output(sequence, chunks, truncated, totalBytes), n, delivered);
      sequence := Next(sequence);
      wire := wire.(sequence := sequence);
    }

    // A decoder's output goes to the batch.
    method DecodeInto(stream: Stream, data: seq<byte>, finished: bool)
      requires Valid() && (finished ==> data == [])
      modifies `totalUnits, `text, stdout, stderr, batch
      ensures Valid() && text == Decode(old(text), stream, data, finished)
    {
      var out;
      if stream.Stdout? {
        out := stdout.Push(data, finished);
      } else {
        out := stderr.Push(data, finished);
      }
      ghost var pending := if stream.Stdout? then stdout.pending else stderr.pending;
      assert AddText(text, stream, out, pending) == Decode(text, stream, data, finished);
      PushText(stream, out, pending);
    }

    method PushText(stream: Stream, out: seq<byte>, ghost pending: seq<byte>)
      requires stdout.Valid() && stderr.Valid() && batch.Valid() && ValidUtf8(out)
      requires text.unsent == batch.text && text.units == totalUnits
      modifies `totalUnits, `text, batch
      ensures batch.Valid() && text == AddText(old(text), stream, out, pending)
      ensures text.unsent == batch.text && text.units == totalUnits
    {
      batch.Push(stream, out);
      totalUnits := Min(MAX_TOTAL, totalUnits + Utf16Units(out));
      text := AddText(text, stream, out, pending);
    }

    method HandleChunk(stream: Stream, data: seq<byte>, logged: bool)
      requires Valid()
      modifies this, stdout, stderr, batch
      ensures Valid() && State(false) == OnChunk(old(State(false)), stream, data, logged)
    {
      totalBytes := Min(MAX_TOTAL, totalBytes + |data|);
      wire := AddBytes(wire, |data|);
      if !logged {
        failed := true;
      } else {
        DecodeInto(stream, data, false);
      }
    }

    method HandleEnd(stream: Stream)
      requires Valid()
      modifies `totalUnits, `text, `endedStreams, stdout, stderr, batch
      ensures Valid() && State(false) == OnEnd(old(State(false)), stream)
    {
      endedStreams := endedStreams + 1;
      DecodeInto(stream, [], true);
    }

    method HandleFlushTick(flushed: bool, delivered: bool)
      requires Valid()
      modifies `failed, `sequence, `sent, `alive, `wire, `text, batch
      ensures Valid() && State(false) == OnFlush(old(State(false)), flushed, delivered)
    {
      var kept := batch.IsEmpty() || flushed;
      failed := failed || !kept;
      FlushOutput(delivered);
    }

    method HandleCancel(wait: Wait, killed: bool)
      requires Valid()
      modifies `status, `cancelled, `failed
      ensures Valid() && State(false) == OnCancel(old(State(false)), wait, killed)
    {
      if status.None? {
        match wait {
          case Gone(code) => status := Some(code);
          case Running =>
            cancelled := cancelled || killed;
            failed := failed || !killed;
          case WaitFailed => failed := true;
        }
      }
    }

    // What is in the batch and then the message.
    method SendTimeout(delivered: bool, told: bool)
      requires Valid() && alive
      modifies `sequence, `sent, `alive, `timedOut, `wire, `text, batch
      ensures Valid() && text == old(text).(unsent := [])
      ensures wire == ReportTimeout(old(wire), old(text).unsent, delivered, told)
    {
      timedOut := true;
      wire := wire.(timedOut := true);
      FlushOutput(delivered);
      if alive {
        SendMessage(TimedOut, NoteTimedOut, told);
      }
    }

    method HandleTimeout(flushed: bool, delivered: bool, told: bool, killed: bool)
      requires Valid() && alive
      modifies `sequence, `sent, `alive, `timedOut, `wire, `text, `failed, `retainLog, batch
      ensures Valid() && State(false) == OnTimeout(spec, old(State(false)), flushed, delivered, told, killed)
    {
      ghost var was := State(false);
      var lost := !batch.IsEmpty() && !flushed;
      SendTimeout(delivered, told);
      ghost var sent := was.(wire := wire, text := text);
      assert State(false) == sent;
      SettleTimeout(lost, killed);
    }

    // Whether the command may go on, and what went wrong.
    method SettleTimeout(lost: bool, killed: bool)
      requires Valid()
      modifies `failed, `retainLog
      ensures Valid()
      ensures State(false) == old(State(false)).(retainLog := old(retainLog) || spec.keepRunningOnTimeout,
                failed := old(failed) || lost || (alive && !spec.keepRunningOnTimeout && !killed))
    {
      retainLog := retainLog || spec.keepRunningOnTimeout;
      failed := failed || lost || (alive && !spec.keepRunningOnTimeout && !killed);
    }

    method HandleWait(wait: Wait)
      requires Valid()
      modifies `status, `failed
      ensures Valid() && State(false) == OnWait(old(State(false)), wait)
    {
      if status.None? {
        match wait {
          case Gone(code) => status := Some(code);
          case Running =>
          case WaitFailed => failed := true;
        }
      }
    }

    method HandleEvent(e: Event)
      requires Valid() && alive
      modifies this, stdout, stderr, batch
      ensures Valid() && State(false) == Arm(spec, old(State(false)), e)
    {
      match e {
        case Chunk(stream, data, logged) => HandleChunk(stream, data, logged);
        case End(stream) => HandleEnd(stream);
        case Failed(_) => failed := true;
        case Closed => endedStreams := 2;
        case FlushTick(flushed, delivered) => HandleFlushTick(flushed, delivered);
        case Cancel(wait, killed) => HandleCancel(wait, killed);
        case PollTick(elapsed, flushed, delivered, told, killed, wait) =>
          if !timedOut && spec.hasTimeout && elapsed {
            HandleTimeout(flushed, delivered, told, killed);
          }
          HandleWait(wait);
      }
    }

    method Turn(e: Event) returns (over: bool)
      requires Valid() && alive
      modifies this, stdout, stderr, batch
      ensures Valid() && State(over) == Handle(spec, old(State(false)), e)
    {
      ghost var now := heard + [e];
      HandleEvent(e);
      over := alive && !(e.Chunk? && !e.logged) && status.Some? && endedStreams >= 2;
      heard := now;
    }

    // Main result: the loop sends what the function says, until it is left, the
    // parent stops reading or there are no more events.
    method RunLoop(events: seq<Event>) returns (over: bool)
      requires Valid() && State(false) == Begin(spec)
      modifies this, stdout, stderr, batch
      ensures Valid() && State(over) == Play(spec, events)
    {
      over := false;
      assert events[..0] == [];
      var i := 0;
      while i < |events| && alive && !over
        invariant i <= |events|
        invariant Valid() && State(over) == Play(spec, events[..i])
      {
        PlayNext(spec, events, i);
        over := Turn(events[i]);
        i := i + 1;
      }
      PlayStops(spec, events, i);
    }

    // What the exit message says; the log goes unless something speaks for it.
    method MakeExit(end: Ending) returns (exit: Exit)
      requires Valid()
      ensures exit == ExitOf(spec, State(true), end)
    {
      var isFailed := failed || !end.flushed;
      var spilled := retainLog || totalUnits >= spec.spillThreshold || isFailed;
      if !spilled && !end.removed {
        isFailed, spilled := true, true;
      }
      var code := if status.Some? && status.value.Some? then status.value.value
                  else if timedOut then 124 else if cancelled then 130 else 1;
      exit := Exit(code, timedOut, cancelled, spilled, totalBytes, isFailed);
    }

    // After the loop: what is left in the batch, then the exit message.
    method Finish(end: Ending)
      requires Valid() && alive
      modifies this, batch
      ensures WireMatches() && wire == Conclude(spec, old(State(true)), end)
    {
      var exit := MakeExit(end);
      FlushOutput(end.delivered);
      if alive {
        SendMessage(Exited(exit), NoteExited(exit), end.told);
      }
    }
  }

  lemma PlayNext(spec: Spec, events: seq<Event>, i: nat)
    requires i < |events|
    ensures var j := Play(spec, events[..i]);
            j.wire.alive && !j.over ==> Play(spec, events[..i + 1]) == Handle(spec, j, events[i])
  {
    PrefixAt(events, i);
  }

  lemma {:induction false} PlayStops(spec: Spec, events: seq<Event>, i: nat)
    requires i <= |events|
    requires i == |events| || !Play(spec, events[..i]).wire.alive || Play(spec, events[..i]).over
    ensures Play(spec, events) == Play(spec, events[..i])
    decreases |events|
  {
    if i < |events| {
      assert events[..|events| - 1][..i] == events[..i];
      PlayStops(spec, events[..|events| - 1], i);
    } else {
      assert events[..i] == events;
    }
  }
}
