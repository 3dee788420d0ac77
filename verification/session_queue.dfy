/** The bounded outgoing queue of a TCP session: Send, Close and runWriter of clientSession
    (internal/gateway/server.go). Send tests whether the session is closed and then, in a second
    step, tries to enqueue; any other goroutine may run in between. */
module SessionQueue {
  import opened Model

  type Line = string

  /** The channel and the flags; the line the writer has taken and not yet written, if any; the lines
      of the callers that have passed Send's test and not yet tried to enqueue; and, as history,
      what was accepted and what was written. */
  datatype Pipe = Pipe(
    capacity: nat,
    queue: seq<Line>,
    closed: bool,
    writing: bool,
    holding: Option<Line>,
    passed: multiset<Line>,
    accepted: seq<Line>,
    written: seq<Line>)

  /** What callers and the writer goroutine do, each in one step. The writer's select takes any
      case that is ready. */
  datatype Step =
    | Test(line: Line)
    | Enqueue(line: Line)
    | Close
    | WriterCancelled
    | WriterSeesClosed
    | WriterTakes
    | WriterWrites(fails: bool)

  datatype SendResult = Accepted | ErrClosed | QueueFull

  function Capacity(queueSize: int): nat {
    if queueSize <= 0 then 128 else queueSize
  }

  function NewPipe(queueSize: int): Pipe {
    Pipe(Capacity(queueSize), [], false, true, None, multiset{}, [], [])
  }

  /** The writer waits at its select. */
  predicate Selecting(p: Pipe) {
    p.writing && p.holding.None?
  }

  predicate Enabled(p: Pipe, step: Step) {
    match step
    case Enqueue(line) => line in p.passed
    case WriterCancelled => Selecting(p)
    case WriterSeesClosed => Selecting(p) && p.closed
    case WriterTakes => Selecting(p) && p.queue != []
    case WriterWrites(_) => p.writing && p.holding.Some?
    case _ => true
  }

  predicate Full(p: Pipe) {
    |p.queue| >= p.capacity
  }

  function Next(p: Pipe, step: Step): Pipe
    requires Enabled(p, step)
  {
    match step
    case Test(line) => if p.closed then p else p.(passed := p.passed + multiset{line})
    case Enqueue(line) =>
      var p' := p.(passed := p.passed - multiset{line});
      if Full(p) then p' else p'.(queue := p.queue + [line], accepted := p.accepted + [line])
    case Close => p.(closed := true)
    case WriterCancelled => p.(closed := true, writing := false)
    case WriterSeesClosed => p.(writing := false)
    case WriterTakes => p.(queue := p.queue[1..], holding := Some(p.queue[0]))
    case WriterWrites(fails) =>
      if fails then p.(holding := None, closed := true, writing := false)
      else p.(holding := None, written := p.written + [p.holding.value])
  }

  function Held(p: Pipe): seq<Line> {
    if p.holding.Some? then [p.holding.value] else []
  }

  /** While the writer runs, the accepted lines are the written ones, the one it holds and the queued
      ones; once it has stopped the session is closed, and at most one line is in neither. */
  ghost predicate Inv(p: Pipe) {
    && p.capacity > 0 && |p.queue| <= p.capacity
    && (p.writing ==> p.accepted == p.written + Held(p) + p.queue)
    && (!p.writing ==>
          p.closed && p.holding.None? && exists lost: seq<Line> :: |lost| <= 1 && p.accepted == p.written + lost + p.queue)
  }

  lemma EnqueueKeepsInv(p: Pipe, line: Line)
    requires Inv(p) && Enabled(p, Enqueue(line))
    ensures Inv(Next(p, Enqueue(line)))
  {
    if !Full(p) {
      if p.writing {
        assert p.written + Held(p) + (p.queue + [line]) == p.written + Held(p) + p.queue + [line];
      } else {
        var lost: seq<Line> :| |lost| <= 1 && p.accepted == p.written + lost + p.queue;
        assert p.written + lost + (p.queue + [line]) == p.written + lost + p.queue + [line];
      }
    }
  }

  lemma StepKeepsInv(p: Pipe, step: Step)
    requires Inv(p) && Enabled(p, step)
    ensures Inv(Next(p, step))
  {
    match step
    case Test(_) =>
    case Close =>
    case Enqueue(line) => EnqueueKeepsInv(p, line);
    case WriterCancelled => assert p.accepted == p.written + [] + p.queue;
    case WriterSeesClosed => assert p.accepted == p.written + [] + p.queue;
    case WriterTakes =>
      assert p.queue == [p.queue[0]] + p.queue[1..];
      assert p.accepted == p.written + [p.queue[0]] + p.queue[1..];
    case WriterWrites(_) =>
      assert p.accepted == p.written + [p.holding.value] + p.queue;
      assert p.accepted == p.written + [p.holding.value] + [] + p.queue;
  }

  /** Runs, a step that is not enabled being skipped. */
  function After(p: Pipe, step: Step): Pipe {
    if Enabled(p, step) then Next(p, step) else p
  }

  function Run(p: Pipe, steps: seq<Step>): Pipe
    decreases steps
  {
    if steps == [] then p else Run(After(p, steps[0]), steps[1..])
  }

  /** In every run, whatever comes between a caller's test and its enqueueing: lines are written in
      the order they were accepted, none twice and none left out; never more than the queue's
      capacity and one line are accepted and unwritten; and nothing is left over while the writer
      waits on an empty queue. */
  lemma {:induction false} RunKeepsOrder(p: Pipe, steps: seq<Step>)
    requires Inv(p)
    ensures var p' := Run(p, steps);
            && Inv(p')
            && p'.written <= p'.accepted
            && |p'.accepted| <= |p'.written| + p'.capacity + 1
            && (Selecting(p') && p'.queue == [] ==> p'.written == p'.accepted)
    decreases steps
  {
    if steps != [] {
      if Enabled(p, steps[0]) {
        StepKeepsInv(p, steps[0]);
      }
      RunKeepsOrder(After(p, steps[0]), steps[1..]);
    }
  }

  // ---------------------------------------------------------------- after closing

  lemma ClosedStep(p: Pipe, step: Step)
    requires p.closed
    ensures var p' := After(p, step);
            p'.closed && p.accepted <= p'.accepted && |p'.accepted| + |p'.passed| <= |p.accepted| + |p.passed|
  {
  }

  /** Once a session is closed, at most as many lines are accepted as callers had passed the test. */
  lemma {:induction false} ClosedAcceptsAtMostPassed(p: Pipe, steps: seq<Step>)
    requires p.closed
    ensures var p' := Run(p, steps);
            p'.closed && p.accepted <= p'.accepted && |p'.accepted| + |p'.passed| <= |p.accepted| + |p.passed|
    decreases steps
  {
    if steps != [] {
      ClosedStep(p, steps[0]);
      ClosedAcceptsAtMostPassed(After(p, steps[0]), steps[1..]);
    }
  }

  /** With the writer gone and the queue full nothing can become of those callers either. */
  lemma {:induction false} StuckAcceptsNothing(p: Pipe, steps: seq<Step>)
    requires p.closed && !p.writing && Full(p)
    ensures Run(p, steps).accepted == p.accepted
    decreases steps
  {
    if steps != [] {
      StuckAcceptsNothing(After(p, steps[0]), steps[1..]);
    }
  }

  /** A closed session accepts nothing more in any run exactly when no caller had passed the test,
      or the queue is full and the writer gone. */
  lemma ClosedAcceptsNothingIff(p: Pipe)
    requires Inv(p) && p.closed
    ensures (forall steps :: Run(p, steps).accepted == p.accepted) <==> p.passed == multiset{} || (Full(p) && !p.writing)
  {
    if p.passed == multiset{} {
      forall steps ensures Run(p, steps).accepted == p.accepted {
        ClosedAcceptsAtMostPassed(p, steps);
      }
    } else if Full(p) && !p.writing {
      forall steps ensures Run(p, steps).accepted == p.accepted {
        StuckAcceptsNothing(p, steps);
      }
    } else {
      var line :| line in p.passed;
      LateLineAccepted(p, line);
    }
  }

  lemma RunCons(p: Pipe, step: Step, rest: seq<Step>)
    requires Enabled(p, step)
    ensures Run(p, [step] + rest) == Run(Next(p, step), rest)
  {
    assert ([step] + rest)[1..] == rest;
  }

  /** A caller that passed the test before the session was closed may still get its line accepted,
      after the writer has made room if need be. */
  lemma LateLineAccepted(p: Pipe, line: Line)
    requires Inv(p) && line in p.passed && (!Full(p) || p.writing)
    ensures exists steps :: Run(p, steps).accepted == p.accepted + [line] != p.accepted
  {
    if !Full(p) {
      RunCons(p, Enqueue(line), []);
      assert Run(p, [Enqueue(line)] + []).accepted == p.accepted + [line];
    } else if p.holding.Some? {
      var p1 := Next(p, WriterWrites(false));
      StepKeepsInv(p, WriterWrites(false));
      var rest := RoomMade(p1, line);
      RunCons(p, WriterWrites(false), rest);
      assert Run(p, [WriterWrites(false)] + rest).accepted == p.accepted + [line];
    } else {
      var steps := RoomMade(p, line);
      assert Run(p, steps).accepted == p.accepted + [line];
    }
  }

  lemma RoomMade(p: Pipe, line: Line) returns (steps: seq<Step>)
    requires Inv(p) && line in p.passed && Selecting(p) && Full(p)
    ensures Run(p, steps).accepted == p.accepted + [line]
  {
    var p1 := Next(p, WriterTakes);
    steps := [WriterTakes] + ([Enqueue(line)] + []);
    RunCons(p1, Enqueue(line), []);
    RunCons(p, WriterTakes, [Enqueue(line)] + []);
  }

  /** It happens to a new session: a caller passes the test, the session is closed and its writer
      returns, and then the line is accepted, never to be written. */
  lemma AcceptedAfterClose(queueSize: int, line: Line)
    ensures var p := Run(NewPipe(queueSize), [Test(line), Close, WriterSeesClosed, Enqueue(line)]);
            p.closed && !p.writing && p.accepted == [line] && p.written == []
  {
    var steps := [Test(line), Close, WriterSeesClosed, Enqueue(line)];
    var p1 := After(NewPipe(queueSize), steps[0]);
    var p2 := After(p1, steps[1]);
    var p3 := After(p2, steps[2]);
    assert steps[1..][1..][1..][1..] == [] && steps[1..][1..][1..][0] == Enqueue(line);
    assert Run(p3, steps[1..][1..][1..]) == After(p3, Enqueue(line));
    assert Run(NewPipe(queueSize), steps) == Run(p1, steps[1..]) == Run(p2, steps[1..][1..]) == Run(p3, steps[1..][1..][1..]);
  }

  // ---------------------------------------------------------------- the session

  class ClientSession {
    const capacity: nat
    var queue: seq<Line>
    var closed: bool
    var writing: bool
    /** What runWriter has received from the channel and not yet written. */
    var holding: Option<Line>
    ghost var passed: multiset<Line>
    ghost var accepted: seq<Line>
    ghost var written: seq<Line>

    ghost function State(): Pipe
      reads this
    {
      Pipe(capacity, queue, closed, writing, holding, passed, accepted, written)
    }

    ghost predicate Valid()
      reads this
    {
      Inv(State())
    }

    constructor (queueSize: int)
      ensures State() == NewPipe(queueSize) && Valid()
    {
      var size := queueSize;
      if size <= 0 {
        size := 128;
      }
      capacity := size;
      queue := [];
      closed := false;
      writing := true;
      holding := None;
      passed := multiset{};
      accepted := [];
      written := [];
    }

    /** The first select of Send. */
    method PassTest(line: Line) returns (open: bool)
      requires Valid()
      modifies this
      ensures Valid() && State() == Next(old(State()), Test(line))
      ensures open == !old(closed)
    {
      open := !closed;
      if open {
        passed := passed + multiset{line};
      }
    }

    /** The second select of Send. */
    method TryEnqueue(line: Line) returns (result: SendResult)
      requires Valid() && line in passed
      modifies this
      ensures Valid() && State() == Next(old(State()), Enqueue(line))
      ensures result == if Full(old(State())) then QueueFull else Accepted
    {
      StepKeepsInv(State(), Enqueue(line));
      passed := passed - multiset{line};
      if |queue| >= capacity {
        return QueueFull;
      }
      queue := queue + [line];
      accepted := accepted + [line];
      return Accepted;
    }

    /** Send, when nothing comes between its two steps. */
    method Send(line: Line) returns (result: SendResult)
      requires Valid()
      modifies this
      ensures Valid()
      ensures old(closed) ==> result == ErrClosed && State() == old(State())
      ensures !old(closed) && Full(old(State())) ==> result == QueueFull && State() == old(State())
      ensures !old(closed) && !Full(old(State())) ==>
                result == Accepted && State() == old(State()).(queue := old(queue) + [line], accepted := old(accepted) + [line])
    {
      var open := PassTest(line);
      if !open {
        return ErrClosed;
      }
      result := TryEnqueue(line);
    }

    /** closeOnce: only the first call closes the connection. */
    method Close() returns (first: bool)
      requires Valid()
      modifies this
      ensures Valid() && State() == Next(old(State()), Step.Close)
      ensures first == !old(closed)
    {
      first := !closed;
      closed := true;
    }

    /** One step of runWriter's loop: the case its select takes, or the writing of what it took. */
    method WriterRound(step: Step)
      requires Valid() && !step.Test? && !step.Enqueue? && !step.Close? && Enabled(State(), step)
      modifies this
      ensures Valid() && State() == Next(old(State()), step)
    {
      StepKeepsInv(State(), step);
      match step
      case WriterCancelled =>
        var first := Close();
        writing := false;
      case WriterSeesClosed =>
        writing := false;
      case WriterTakes =>
        holding := Some(queue[0]);
        queue := queue[1..];
      case WriterWrites(fails) =>
        if fails {
          var first := Close();
          writing := false;
        } else {
          written := written + [holding.value];
        }
        holding := None;
    }
  }
}
