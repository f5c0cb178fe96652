// How a job starts: the handler of the start request and the job's task take
// their steps in any order, and what the parent is sent.
module Handshakes {
  // How launching the process ends: running, refused with a reason, or given up
  // before anything is reported.
  datatype Launched = Up | Refused | GivenUp

  // The handler waits for the report, tells the parent, and lets the job begin.
  datatype Handler = Listening | Telling(up: bool) | Releasing | Done

  // The task launches, waits to be let go, runs its loop and ends.
  datatype Task = Launching | Awaiting | Running | Ended

  // A channel for one value: nothing yet, the value, or its sender is gone.
  datatype OneShot<T> = Pending | Sent(value: T) | Dropped

  datatype Told = Started | SpawnFailed | FromLoop

  datatype Host = Host(handler: Handler, task: Task, report: OneShot<bool>, begin: OneShot<()>, told: seq<Told>)

  const START := Host(Listening, Launching, Pending, Pending, [])

  datatype Move =
    | Launch(outcome: Launched)
    | Hear                    // the handler gets the report, or finds the task gone
    | Tell(delivered: bool)   // it tells the parent
    | Release                 // it lets the task go
    | Go                      // the task is let go, or finds the handler gone
    | Say                     // the loop sends a message
    | End                     // the loop is over

  function Do(h: Host, m: Move): Host {
    match m
    case Launch(outcome) =>
      if !h.task.Launching? then h
      else if outcome.Up? then h.(task := Awaiting, report := Sent(true))
      else h.(task := Ended, report := if outcome.Refused? then Sent(false) else Dropped)
    case Hear =>
      if !h.handler.Listening? || h.report.Pending? then h
      else h.(handler := Telling(h.report == Sent(true)))
    case Tell(delivered) =>
      if !h.handler.Telling? then h
      else if !delivered then h.(handler := Done, begin := Dropped)
      else if h.handler.up then h.(handler := Releasing, told := h.told + [Started])
      else h.(handler := Done, begin := Dropped, told := h.told + [SpawnFailed])
    case Release => if h.handler.Releasing? then h.(handler := Done, begin := Sent(())) else h
    case Go =>
      if !h.task.Awaiting? || h.begin.Pending? then h
      else h.(task := if h.begin.Sent? then Running else Ended)
    case Say => if h.task.Running? then h.(told := h.told + [FromLoop]) else h
    case End => if h.task.Running? then h.(task := Ended) else h
  }

  function Run(h: Host, moves: seq<Move>): Host {
    if |moves| == 0 then h else Do(Run(h, moves[..|moves| - 1]), moves[|moves| - 1])
  }

  // Nothing, or one answer to the request and then only what the loop sends, and
  // nothing after a refusal.
  ghost predicate Ordered(told: seq<Told>) {
    told == [] ||
    (!told[0].FromLoop? && (forall i | 0 < i < |told| :: told[i].FromLoop?) && (told[0].SpawnFailed? ==> |told| == 1))
  }

  ghost predicate Inv(h: Host) {
    && Ordered(h.told)
    && (h.handler.Listening? || h.handler.Telling? ==> h.told == [] && h.begin.Pending?)
    && (h.handler.Releasing? ==> h.told == [Started] && h.begin.Pending?)
    && (h.begin.Sent? ==> h.told != [] && h.told[0].Started?)
    && (h.begin.Pending? ==> h.told == [] || h.told == [Started])
    && (h.task.Running? ==> h.begin.Sent?)
    && (h.task.Launching? || h.task.Awaiting? ==> |h.told| <= 1)
    && (h.task.Launching? ==> h.report.Pending?)
  }

  lemma DoKeepsInv(h: Host, m: Move)
    requires Inv(h)
    ensures Inv(Do(h, m))
  {
  }

  // Main result: in whatever order the two take their steps, the first message
  // about a job answers the request, nothing of the job comes before it or after a
  // refusal, and when the loop begins the parent has been told Started and nothing
  // else.
  lemma {:induction false} StartedComesFirst(moves: seq<Move>)
    ensures Inv(Run(START, moves)) && Ordered(Run(START, moves).told)
    ensures var h := Run(START, moves);
            h.task.Awaiting? && Do(h, Go).task.Running? ==> h.told == [Started]
    decreases |moves|
  {
    if |moves| > 0 {
      StartedComesFirst(moves[..|moves| - 1]);
      DoKeepsInv(Run(START, moves[..|moves| - 1]), moves[|moves| - 1]);
    }
  }
}
