// What the exit message says, in terms of what has happened.
module JobExits {
  import opened Options
  import opened Sequences
  import opened Utf8
  import opened OutputBatches
  import opened Jobs

  // What the process was first seen to have ended with.
  function FirstGone(events: seq<Event>): Option<Option<int>> {
    if |events| == 0 then None
    else
      var before, e := FirstGone(events[..|events| - 1]), events[|events| - 1];
      if before.Some? then before
      else if (e.Cancel? || e.PollTick?) && e.wait.Gone? then Some(e.wait.code)
      else None
  }

  predicate HasElapsed(spec: Spec, events: seq<Event>) {
    spec.hasTimeout && exists i :: 0 <= i < |events| && events[i].PollTick? && events[i].elapsed
  }

  // The user's cancellation killed it while it ran.
  predicate WasCancelled(events: seq<Event>) {
    |events| > 0 &&
    var e := events[|events| - 1];
    || WasCancelled(events[..|events| - 1])
    || (e.Cancel? && FirstGone(events[..|events| - 1]).None? && e.wait.Running? && e.killed)
  }

  function Ends(events: seq<Event>): nat {
    if |events| == 0 then 0 else Ends(events[..|events| - 1]) + (if events[|events| - 1].End? then 1 else 0)
  }

  // Both streams have ended, or nobody reads them any more.
  predicate StreamsEnded(events: seq<Event>) {
    Ends(events) >= 2 || exists i :: 0 <= i < |events| && events[i].Closed?
  }

  ghost predicate Tells(spec: Spec, j: Job) {
    && j.status == FirstGone(j.heard)
    && (j.wire.timedOut <==> HasElapsed(spec, j.heard))
    && (j.cancelled <==> WasCancelled(j.heard))
    && (j.retainLog <==> spec.retainLog || (j.wire.timedOut && spec.keepRunningOnTimeout))
    && j.wire.totalBytes == Min(MAX_TOTAL, DeliveredBytes(j.heard))
    && (j.endedStreams >= 2 <==> StreamsEnded(j.heard))
    && (j.endedStreams < 2 ==> j.endedStreams == Ends(j.heard))
    && (j.wire.alive ==> Timeouts(j.wire.sent) == if j.wire.timedOut then 1 else 0)
    && (j.wire.alive ==> (j.over <==> j.status.Some? && j.endedStreams >= 2))
  }

  lemma HeardMore(spec: Spec, heard: seq<Event>, e: Event)
    ensures var more := heard + [e];
            && (HasElapsed(spec, more) <==> HasElapsed(spec, heard) || (spec.hasTimeout && e.PollTick? && e.elapsed))
            && (WasCancelled(more) <==>
                  WasCancelled(heard) || (e.Cancel? && FirstGone(heard).None? && e.wait.Running? && e.killed))
            && FirstGone(more) == (if FirstGone(heard).Some? then FirstGone(heard)
                                   else if (e.Cancel? || e.PollTick?) && e.wait.Gone? then Some(e.wait.code) else None)
            && Ends(more) == Ends(heard) + (if e.End? then 1 else 0)
            && (StreamsEnded(more) <==> Ends(more) >= 2 || StreamsEnded(heard) || e.Closed?)
            && DeliveredBytes(more) == DeliveredBytes(heard) + (if e.Chunk? then |e.data| else 0)
  {
    FrontOf(heard, e);
    NextEvent(heard, e);
    var more := heard + [e];
    assert more[|heard|] == e;
    assert forall i | 0 <= i < |heard| :: more[i] == heard[i];
  }

  lemma FlushTimeouts(w: Wire, unsent: seq<Tagged>, delivered: bool)
    ensures Timeouts(Flush(w, unsent, delivered).sent) == Timeouts(w.sent)
  {
    if |unsent| > 0 {
      SendKeepsTrace(w.sent, NoteOutput(w.sequence, Tail(unsent), Tail(unsent) != unsent, w.totalBytes));
    }
  }

  lemma ReportTells(w: Wire, unsent: seq<Tagged>, delivered: bool, told: bool)
    requires w.alive && !w.timedOut && Timeouts(w.sent) == 0
    ensures var r := ReportTimeout(w, unsent, delivered, told);
            r.timedOut && r.totalBytes == w.totalBytes && (r.alive ==> Timeouts(r.sent) == 1)
  {
    FlushTimeouts(w.(timedOut := true), unsent, delivered);
    SendKeepsTrace(Flush(w.(timedOut := true), unsent, delivered).sent, NoteTimedOut);
  }

  lemma PollTells(spec: Spec, j: Job, e: Event)
    requires Tells(spec, j) && j.wire.alive && !j.over && e.PollTick?
    ensures Tells(spec, Handle(spec, j, e))
  {
    HeardMore(spec, j.heard, e);
    if TimesOut(spec, j, e) {
      ReportTells(j.wire, j.text.unsent, e.delivered, e.told);
    }
  }

  lemma CancelTells(spec: Spec, j: Job, e: Event)
    requires Tells(spec, j) && j.wire.alive && !j.over && e.Cancel?
    ensures Tells(spec, Handle(spec, j, e))
  {
    HeardMore(spec, j.heard, e);
  }

  lemma FlushTells(spec: Spec, j: Job, e: Event)
    requires Tells(spec, j) && j.wire.alive && !j.over && e.FlushTick?
    ensures Tells(spec, Handle(spec, j, e))
  {
    HeardMore(spec, j.heard, e);
    FlushTimeouts(j.wire, j.text.unsent, e.delivered);
  }

  lemma StreamTells(spec: Spec, j: Job, e: Event)
    requires Tells(spec, j) && j.wire.alive && !j.over && (e.Chunk? || e.End? || e.Failed? || e.Closed?)
    ensures Tells(spec, Handle(spec, j, e))
  {
    HeardMore(spec, j.heard, e);
  }

  lemma HandleTells(spec: Spec, j: Job, e: Event)
    requires Tells(spec, j) && j.wire.alive && !j.over
    ensures Tells(spec, Handle(spec, j, e))
  {
    match e
    case FlushTick(_, _) => FlushTells(spec, j, e);
    case Cancel(_, _) => CancelTells(spec, j, e);
    case PollTick(_, _, _, _, _, _) => PollTells(spec, j, e);
    case _ => StreamTells(spec, j, e);
  }

  lemma {:induction false} PlayTells(spec: Spec, events: seq<Event>)
    ensures Tells(spec, Play(spec, events))
    decreases |events|
  {
    if |events| == 0 {
      assert [NoteStarted][..0] == [];
    } else {
      var before, last := events[..|events| - 1], events[|events| - 1];
      PlayTells(spec, before);
      var j := Play(spec, before);
      if j.wire.alive && !j.over {
        HandleTells(spec, j, last);
      }
    }
  }

  // The log is kept whatever the calls at the end bring.
  ghost predicate KeepsLog(spec: Spec, j: Job, exit: Exit) {
    || spec.retainLog || (exit.timedOut && spec.keepRunningOnTimeout)
    || Min(MAX_TOTAL, AllUnits(j.text.all)) >= spec.spillThreshold
  }

  // Main result: the exit message tells the process's own code when it had one, else
  // 124 after a timeout, else 130 after a cancellation, else 1; whether the timeout
  // elapsed and whether the user's cancellation killed the process; the bytes both
  // streams delivered; and that the log is kept exactly when it was asked for, the
  // process went on after its timeout, the text reached the threshold, or something
  // went wrong.
  lemma ExitMeans(spec: Spec, events: seq<Event>, end: Ending)
    ensures var j := Play(spec, events);
            var exit, gone := ExitOf(spec, j, end), FirstGone(j.heard);
            && (gone.Some? && gone.value.Some? ==> exit.exitCode == gone.value.value)
            && (gone.None? || gone.value.None? ==>
                  exit.exitCode == if HasElapsed(spec, j.heard) then 124 else if WasCancelled(j.heard) then 130 else 1)
            && (exit.timedOut <==> HasElapsed(spec, j.heard))
            && (exit.cancelled <==> WasCancelled(j.heard))
            && exit.totalBytes == Min(MAX_TOTAL, DeliveredBytes(j.heard))
            && (exit.spilled <==>
                  || spec.retainLog || (exit.timedOut && spec.keepRunningOnTimeout)
                  || Min(MAX_TOTAL, AllUnits(j.text.all)) >= spec.spillThreshold || exit.failed)
            && (exit.failed <==> j.failed || !end.flushed || (!end.removed && !KeepsLog(spec, j, exit)))
  {
    PlayTells(spec, events);
    PlayKeepsText(spec, events);
  }

  // Main result: the loop is left exactly when the process has ended and both streams
  // have.
  lemma LoopEndsIff(spec: Spec, events: seq<Event>, e: Event)
    requires var j := Play(spec, events); j.wire.alive && !j.over
    ensures var j := Play(spec, events + [e]);
            && j.heard == Play(spec, events).heard + [e]
            && (j.wire.alive ==> (j.over <==> FirstGone(j.heard).Some? && StreamsEnded(j.heard)))
  {
    FrontOf(events, e);
    PlayTells(spec, events + [e]);
  }

  // ----- exits without an error ------------------------------------------------------------

  // A call of the event failed: the log was not written or flushed, a stream was not
  // read, or the process could not be asked or killed.
  ghost predicate GoesWrong(spec: Spec, j: Job, e: Event) {
    match e
    case Chunk(_, _, logged) => !logged
    case End(_) => false
    case Failed(_) => true
    case Closed => false
    case FlushTick(flushed, _) => j.text.unsent != [] && !flushed
    case Cancel(wait, killed) => j.status.None? && (wait.WaitFailed? || (wait.Running? && !killed))
    case PollTick(elapsed, flushed, _, _, killed, wait) =>
      || (j.status.None? && wait.WaitFailed?)
      || (spec.hasTimeout && elapsed && !j.wire.timedOut
          && ((j.text.unsent != [] && !flushed)
              || (Handle(spec, j, e).wire.alive && !spec.keepRunningOnTimeout && !killed)))
  }

  // Main result: the error is set by the first call that fails and stays.
  lemma ErrorIffWrong(spec: Spec, j: Job, e: Event)
    ensures Handle(spec, j, e).failed <==> j.failed || GoesWrong(spec, j, e)
  {
  }

  // What could not be logged is counted but not shown.
  lemma UnloggedIsNotShown(spec: Spec, j: Job, stream: Stream, data: seq<byte>)
    ensures var t := Handle(spec, j, Chunk(stream, data, false));
            t.text == j.text && t.wire.sent == j.wire.sent
            && t.wire.totalBytes == Min(MAX_TOTAL, j.wire.totalBytes + |data|)
  {
  }

  // The calls of the event went well.
  predicate WentWell(spec: Spec, e: Event) {
    match e
    case Chunk(_, _, logged) => logged
    case End(_) => true
    case Failed(_) => false
    case Closed => true
    case FlushTick(flushed, _) => flushed
    case Cancel(wait, killed) => !wait.WaitFailed? && (wait.Running? ==> killed)
    case PollTick(elapsed, flushed, _, _, killed, wait) =>
      !wait.WaitFailed? && (spec.hasTimeout && elapsed ==> flushed && (spec.keepRunningOnTimeout || killed))
  }

  lemma {:induction false} WellIsQuiet(spec: Spec, events: seq<Event>)
    requires forall e | e in events :: WentWell(spec, e)
    ensures !Play(spec, events).failed
    decreases |events|
  {
    if |events| > 0 {
      var before, last := events[..|events| - 1], events[|events| - 1];
      assert last in events && forall e | e in before :: e in events;
      WellIsQuiet(spec, before);
    }
  }

  // When every call goes well, the exit has no error.
  lemma NoErrorWhenWell(spec: Spec, events: seq<Event>, end: Ending)
    requires (forall e | e in events :: WentWell(spec, e)) && end.flushed && end.removed
    ensures !ExitOf(spec, Play(spec, events), end).failed
  {
    WellIsQuiet(spec, events);
  }

  // ----- the length of the text ----------------------------------------------------------

  lemma {:induction false} UnitsAppend(a: seq<byte>, b: seq<byte>)
    ensures Utf16Units(a + b) == Utf16Units(a) + Utf16Units(b)
    decreases |b|
  {
    if |b| == 0 {
      NothingMore(a);
    } else {
      FrontOfAppend(a, b);
      UnitsAppend(a, b[..|b| - 1]);
    }
  }

  lemma CharBytes(s: seq<byte>)
    requires s != [] && HeadOf(s) == Char(|s|)
    ensures !IsContinuation(s[0]) && (s[0] >= 0xF0 <==> |s| == 4)
    ensures forall i | 1 <= i < |s| :: IsContinuation(s[i])
  {
  }

  lemma {:induction false} UnitsOfFirst(s: seq<byte>, k: nat)
    requires 1 <= k <= |s| && forall i | 1 <= i < |s| :: IsContinuation(s[i])
    ensures Utf16Units(s[..k]) == Units(s[0])
    decreases k
  {
    PrefixAt(s, k - 1);
    if k == 1 {
      assert s[..1] == [s[0]];
      UnitsOne(s[0]);
    } else {
      UnitsOfFirst(s, k - 1);
      UnitsFew(s[..k - 1], s[k - 1]);
    }
  }

  // Main result: the length is counted in UTF-16 code units, one for a character, two
  // for one beyond the first plane, which are those of four bytes.
  lemma UnitsOfChar(s: seq<byte>, rest: seq<byte>)
    requires s != [] && HeadOf(s) == Char(|s|)
    ensures Utf16Units(s + rest) == (if |s| == 4 then 2 else 1) + Utf16Units(rest)
  {
    CharBytes(s);
    UnitsAppend(s, rest);
    UnitsOfFirst(s, |s|);
    assert s[..|s|] == s;
  }

  lemma UnitsOne(b: byte)
    ensures Utf16Units([b]) == Units(b)
  {
    assert [b] == [] + [b];
    UnitsFew([], b);
  }

  lemma UnitsFew(s: seq<byte>, b: byte)
    ensures Utf16Units(s + [b]) == Utf16Units(s) + Units(b)
  {
    FrontOf(s, b);
  }
}
