/**
 * The asynchronous event producer: a bounded queue that drops when full, one goroutine that sends, and a shutdown that
 * closes the queue and sends what is left. Emit may be called by any goroutine at any time.
 */
module EventProducer {
  import opened Options
  import Machines

  datatype Event = Event(kind: string, roomID: string, peerID: string, payload: string)

  /** What becomes of one event in send: counted as sent, counted as dropped, or not counted at all. */
  datatype Outcome = Delivered | WriteFailed | Unmarshalable

  /** Where the goroutine of writeLoop is. */
  datatype Loop =
    | Selecting
    | Sending(event: Event, draining: bool)
    | Draining
    | Returned

  datatype State = State(
    cap: nat, ch: seq<Event>, closed: bool, cancelled: bool, loop: Loop, sent: nat, dropped: nat, panics: nat)

  datatype Step =
    | Emit(event: Event, marshals: bool, meets: bool)   // meets: without a buffer, the loop waits in its select
    | Cancel
    | Take
    | SeeDone                                           // the loop sees the cancellation and closes the queue
    | TakeLeft
    | EndDrain
    | Send(outcome: Outcome)

  function Init(cap: nat): State { State(cap, [], false, false, Selecting, 0, 0, 0) }

  function Next(s: State, step: Step): Option<State> {
    match step
    case Emit(e, marshals, meets) =>
      if !marshals then Some(s)
      else if s.closed then Some(s.(panics := s.panics + 1))
      else if |s.ch| < s.cap then Some(s.(ch := s.ch + [e]))
      else if s.cap == 0 && meets && s.loop.Selecting? then Some(s.(loop := Sending(e, false)))
      else Some(s.(dropped := s.dropped + 1))
    case Cancel => Some(s.(cancelled := true))
    case Take =>
      if s.loop.Selecting? && s.ch != [] then Some(s.(loop := Sending(s.ch[0], false), ch := s.ch[1..])) else None
    case SeeDone =>
      if s.loop.Selecting? && s.cancelled then Some(s.(loop := Draining, closed := true)) else None
    case TakeLeft =>
      if s.loop.Draining? && s.ch != [] then Some(s.(loop := Sending(s.ch[0], true), ch := s.ch[1..])) else None
    case EndDrain => if s.loop.Draining? && s.ch == [] then Some(s.(loop := Returned)) else None
    case Send(outcome) =>
      if s.loop.Sending?
      then Some(Counted(s, outcome).(loop := if s.loop.draining then Draining else Selecting)) else None
  }

  function Counted(s: State, outcome: Outcome): State {
    match outcome
    case Delivered => s.(sent := s.sent + 1)
    case WriteFailed => s.(dropped := s.dropped + 1)
    case Unmarshalable => s
  }

  function Run(s: State, steps: seq<Step>): Option<State> { Machines.Run(Next, s, steps) }

  // ---------------------------------------------------------------------------------------------------------------
  // What happened in a run.

  datatype History = History(accepted: seq<Event>, handed: seq<Event>, rejected: nat, uncounted: nat)

  /** What one step adds to the history: an event accepted or rejected, handed to send, or sent without a count. */
  function Happens(s: State, step: Step): History {
    match step
    case Emit(e, marshals, meets) =>
      if !marshals || s.closed then History([], [], 0, 0)
      else if |s.ch| < s.cap then History([e], [], 0, 0)
      else if s.cap == 0 && meets && s.loop.Selecting? then History([e], [e], 0, 0)
      else History([], [], 1, 0)
    case Take => if s.ch != [] then History([], [s.ch[0]], 0, 0) else History([], [], 0, 0)
    case TakeLeft => if s.ch != [] then History([], [s.ch[0]], 0, 0) else History([], [], 0, 0)
    case Send(outcome) => History([], [], 0, if outcome.Unmarshalable? then 1 else 0)
    case _ => History([], [], 0, 0)
  }

  function Past(s: State, steps: seq<Step>): History
    requires Run(s, steps).Some?
    decreases |steps|
  {
    if steps == [] then History([], [], 0, 0)
    else
      var now := Happens(s, steps[0]);
      var later := Past(Next(s, steps[0]).value, steps[1..]);
      History(now.accepted + later.accepted, now.handed + later.handed,
              now.rejected + later.rejected, now.uncounted + later.uncounted)
  }

  function InSend(s: State): nat { if s.loop.Sending? then 1 else 0 }

  predicate Sound(s: State) {
    && (s.closed <==> s.loop.Draining? || s.loop.Returned? || (s.loop.Sending? && s.loop.draining))
    && (s.loop.Returned? ==> s.ch == [])
    && |s.ch| <= s.cap
    && (s.closed ==> s.cancelled)
  }

  lemma StepAccounts(s: State, step: Step, s': State)
    requires Sound(s) && Next(s, step) == Some(s')
    ensures var now := Happens(s, step);
            && Sound(s')
            && s.ch + now.accepted == now.handed + s'.ch
            && s'.sent + s'.dropped + InSend(s') + now.uncounted
               == s.sent + s.dropped + InSend(s) + |now.handed| + now.rejected
  {
  }

  lemma {:induction false} RunAccounts(s: State, steps: seq<Step>)
    requires Sound(s) && Run(s, steps).Some?
    ensures var (s', past) := (Run(s, steps).value, Past(s, steps));
            && Sound(s') && s'.cap == s.cap
            && s.ch + past.accepted == past.handed + s'.ch
            && s'.sent + s'.dropped + InSend(s') + past.uncounted
               == s.sent + s.dropped + InSend(s) + |past.handed| + past.rejected
    decreases |steps|
  {
    if steps != [] {
      var s1 := Next(s, steps[0]).value;
      StepAccounts(s, steps[0], s1);
      RunAccounts(s1, steps[1..]);
      Interleave(s.ch, Happens(s, steps[0]), s1.ch, Past(s1, steps[1..]), Run(s, steps).value.ch);
    }
  }

  /** Two first-in-first-out accounts in a row are one. */
  lemma Interleave(ch: seq<Event>, now: History, ch1: seq<Event>, later: History, ch2: seq<Event>)
    requires ch + now.accepted == now.handed + ch1 && ch1 + later.accepted == later.handed + ch2
    ensures ch + (now.accepted + later.accepted) == (now.handed + later.handed) + ch2
  {
    calc {
      ch + (now.accepted + later.accepted);
      (ch + now.accepted) + later.accepted;
      now.handed + (ch1 + later.accepted);
      (now.handed + later.handed) + ch2;
    }
  }

  /**
   * Main result: at any time the accepted events are those handed to send, in the same order, each once, followed by
   * those in the queue; and once the loop has returned nothing is left, and everything emitted is counted.
   */
  lemma ShutdownIsLossless(cap: nat, steps: seq<Step>)
    requires Run(Init(cap), steps).Some?
    ensures var (s, past) := (Run(Init(cap), steps).value, Past(Init(cap), steps));
            && past.accepted == past.handed + s.ch
            && |s.ch| <= cap
            && |past.accepted| + past.rejected == s.sent + s.dropped + past.uncounted + InSend(s) + |s.ch|
            && (s.loop.Returned? ==>
                past.handed == past.accepted && |past.accepted| + past.rejected == s.sent + s.dropped + past.uncounted)
  {
    RunAccounts(Init(cap), steps);
    var past := Past(Init(cap), steps);
    assert Init(cap).ch + past.accepted == past.accepted;
  }

  // ---------------------------------------------------------------------------------------------------------------
  // Emit after the drain has begun.

  /** Whether some event is emitted after the loop has closed the queue. */
  function EmittedLate(closed: bool, steps: seq<Step>): bool
    decreases |steps|
  {
    steps != [] &&
    ((closed && steps[0].Emit? && steps[0].marshals) || EmittedLate(closed || steps[0].SeeDone?, steps[1..]))
  }

  /** Emit panics exactly when it comes after the step in which the loop saw the cancellation. */
  lemma {:induction false} PanicsExactlyWhenLate(s: State, steps: seq<Step>)
    requires Run(s, steps).Some?
    ensures s.panics <= Run(s, steps).value.panics
    ensures Run(s, steps).value.panics > s.panics <==> EmittedLate(s.closed, steps)
    decreases |steps|
  {
    if steps != [] { PanicsExactlyWhenLate(Next(s, steps[0]).value, steps[1..]); }
  }

  // ---------------------------------------------------------------------------------------------------------------
  // The producer in place.

  /** The steps of a drain that sends one event after the other with these outcomes. */
  function DrainSteps(outcomes: seq<Outcome>): seq<Step>
    decreases |outcomes|
  {
    if outcomes == [] then [EndDrain] else [TakeLeft, Send(outcomes[0])] + DrainSteps(outcomes[1..])
  }

  lemma RunTwo(s: State, a: Step, b: Step, rest: seq<Step>)
    requires Next(s, a).Some? && Next(Next(s, a).value, b).Some?
    ensures Run(s, [a, b] + rest) == Run(Next(Next(s, a).value, b).value, rest)
  {
    assert [a, b] + rest == [a] + ([b] + rest);
    Machines.First(Next, s, a, [b] + rest);
    Machines.First(Next, Next(s, a).value, b, rest);
  }

  class AsyncProducer {
    const cap: nat
    var ch: seq<Event>
    var closed: bool
    var cancelled: bool
    var sentCount: nat
    var droppedCount: nat
    var loop: Loop                      // where the goroutine of writeLoop is
    ghost var panics: nat

    constructor (bufferSize: nat)
      ensures Abs() == Init(bufferSize)
    {
      cap := bufferSize;
      ch, closed, cancelled, sentCount, droppedCount := [], false, false, 0, 0;
      loop, panics := Selecting, 0;
    }

    ghost function Abs(): State
      reads this
    {
      State(cap, ch, closed, cancelled, loop, sentCount, droppedCount, panics)
    }

    /** meets: without a buffer, the send meets the loop in its select, if it is there. */
    method Emit(event: Event, marshals: bool, meets: bool) returns (panicked: bool)
      modifies this
      ensures Some(Abs()) == Next(old(Abs()), Step.Emit(event, marshals, meets))
      ensures panicked <==> marshals && old(closed)
    {
      panicked := false;
      if !marshals {
        return;
      }
      if closed {
        panicked, panics := true, panics + 1;
      } else if |ch| < cap {
        ch := ch + [event];
      } else if cap == 0 && meets && loop.Selecting? {
        loop := Sending(event, false);
      } else {
        droppedCount := droppedCount + 1;
      }
    }

    method Send(outcome: Outcome)
      requires loop.Sending?
      modifies this
      ensures Some(Abs()) == Next(old(Abs()), Step.Send(outcome))
    {
      match outcome {
        case Delivered => sentCount := sentCount + 1;
        case WriteFailed => droppedCount := droppedCount + 1;
        case Unmarshalable =>
      }
      loop := if loop.draining then Draining else Selecting;
    }

    /** One turn of writeLoop; outcomes has the fate of every event the turn may send. */
    method Turn(pickDone: bool, outcomes: seq<Outcome>) returns (running: bool)
      requires Sound(Abs()) && loop.Selecting? && |outcomes| > |ch|
      modifies this
      ensures Sound(Abs())
      ensures if cancelled && (pickDone || old(ch) == [])
              then !running && loop.Returned?
                   && Some(Abs()) == Run(old(Abs()), [SeeDone] + DrainSteps(outcomes[..|old(ch)|]))
              else running && (if old(ch) == [] then Abs() == old(Abs())
                               else Some(Abs()) == Run(old(Abs()), [Take, Step.Send(outcomes[0])]))
    {
      if cancelled && (pickDone || ch == []) {
        ghost var before := Abs();
        loop := Draining;
        assert Next(before, SeeDone) == Some(Abs().(closed := true));
        Drain(outcomes[..|ch|]);
        assert ([SeeDone] + DrainSteps(outcomes[..|before.ch|]))[1..] == DrainSteps(outcomes[..|before.ch|]);
        return false;
      }
      if ch != [] {
        RunTwo(Abs(), Take, Step.Send(outcomes[0]), []);
        assert [Take, Step.Send(outcomes[0])] + [] == [Take, Step.Send(outcomes[0])];
        loop, ch := Sending(ch[0], false), ch[1..];
        Send(outcomes[0]);
      }
      return true;
    }

    /** Closes the queue and sends everything that is left in it. */
    method Drain(outcomes: seq<Outcome>)
      requires loop.Draining? && |outcomes| == |ch|
      modifies this
      ensures closed && cancelled == old(cancelled) && loop.Returned? && ch == []
      ensures Some(Abs()) == Run(old(Abs()).(closed := true), DrainSteps(outcomes))
    {
      closed := true;
      var i := 0;
      while ch != []
        invariant 0 <= i <= |outcomes| && |ch| == |outcomes| - i
        invariant loop.Draining? && closed && cancelled == old(cancelled)
        invariant Run(old(Abs()).(closed := true), DrainSteps(outcomes)) == Run(Abs(), DrainSteps(outcomes[i..]))
        decreases |ch|
      {
        RunTwo(Abs(), TakeLeft, Step.Send(outcomes[i]), DrainSteps(outcomes[i + 1..]));
        assert outcomes[i..][1..] == outcomes[i + 1..];
        loop, ch := Sending(ch[0], true), ch[1..];
        Send(outcomes[i]);
        i := i + 1;
      }
      ghost var drained := Abs();
      loop := Returned;
      Machines.First(Next, drained, EndDrain, []);
      assert [EndDrain] + [] == [EndDrain];
    }
  }
}
