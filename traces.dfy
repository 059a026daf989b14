/** Runs of a connection: any interleaving of the calls the loop and the
    user make on it, with the operating system's answers as inputs, and what
    holds after every such run. */
module Traces {
  import opened Os
  import opened Events
  import opened Connection

  /** One call on the connection. A readiness report goes through the
      channel's dispatch with the four handlers the constructor binds. */
  datatype Op =
    | SendOp(data: seq<byte>, w: WriteResult)
    | ShutdownOp
    | EstablishOp
    | DestroyOp
    | EventOp(revents: Mask, ownerAlive: bool, rr: ReadResult, w: WriteResult)
    | WriteCompleteCallbackOp
    | HighWaterMarkCallbackOp(mark: nat)

  /** The callbacks the connection's channel fires for one readiness report. */
  function Fired(c: Conn, revents: Mask, ownerAlive: bool): (fired: seq<Callback>)
    ensures Ordered(fired)
  {
    Dispatch(c.tied, ownerAlive, revents, AllHandlers)
  }

  /** What a call needs of its inputs: writes never take more than they are
      offered, and the acceptor establishes a connection once, right after
      constructing it. */
  predicate Admissible(c: Conn, op: Op)
  {
    match op
    case SendOp(data, w) => Fits(w, |data|)
    case EstablishOp => c.state == Connecting
    case EventOp(revents, alive, _, w) => WriteCallback in Fired(c, revents, alive) ==> Fits(w, |c.output|)
    case _ => true
  }

  function Step(c: Conn, op: Op): Conn
    requires Admissible(c, op)
  {
    match op
    case SendOp(data, w) => Send(c, data, w)
    case ShutdownOp => Shutdown(c)
    case EstablishOp => ConnectEstablished(c)
    case DestroyOp => ConnectDestroyed(c)
    case EventOp(revents, alive, rr, w) => Deliver(c, Fired(c, revents, alive), rr, w)
    case WriteCompleteCallbackOp => c.(hasWriteComplete := true)
    case HighWaterMarkCallbackOp(mark) => c.(hasHighWaterMark := true, highWaterMark := mark)
  }

  /** One call keeps the invariant, never moves the state back, and only
      appends to the task queue and to the callback log. */
  lemma StepKeepsInv(c: Conn, op: Op)
    requires Admissible(c, op) && Inv(c)
    ensures Inv(Step(c, op))
    ensures StateRank(c.state) <= StateRank(Step(c, op).state)
    ensures c.tasks <= Step(c, op).tasks && c.upcalls <= Step(c, op).upcalls
  {
    match op
    case SendOp(data, w) =>
      SendKeepsInv(c, data, w);
      if c.state == Connected {
        SendInLoopQueues(c, data, w);
      }
    case _ =>
  }

  predicate Feasible(c: Conn, ops: seq<Op>)
    decreases |ops|
  {
    ops == [] || (Admissible(c, ops[0]) && Feasible(Step(c, ops[0]), ops[1..]))
  }

  function Run(c: Conn, ops: seq<Op>): Conn
    requires Feasible(c, ops)
    decreases |ops|
  {
    if ops == [] then c else Run(Step(c, ops[0]), ops[1..])
  }

  /** Every run keeps the invariant, never moves the state back, and only
      appends to the task queue and to the callback log. */
  lemma {:induction false} RunKeepsInv(c: Conn, ops: seq<Op>)
    requires Inv(c) && Feasible(c, ops)
    ensures Inv(Run(c, ops))
    ensures StateRank(c.state) <= StateRank(Run(c, ops).state)
    ensures c.tasks <= Run(c, ops).tasks && c.upcalls <= Run(c, ops).upcalls
    decreases |ops|
  {
    if ops != [] {
      StepKeepsInv(c, ops[0]);
      RunKeepsInv(Step(c, ops[0]), ops[1..]);
    }
  }

  /** From construction on, unless a send hit a broken pipe or a reset, the
      descriptor has taken a prefix of what was sent, in order, and the output
      buffer holds exactly the rest. */
  lemma InOrderDelivery(ops: seq<Op>)
    requires Feasible(Initial(), ops)
    ensures var c := Run(Initial(), ops);
      !c.faulted ==> c.wire <= c.sent && c.sent[|c.wire|..] == c.output
  {
    RunKeepsInv(Initial(), ops);
    var c := Run(Initial(), ops);
    if !c.faulted {
      assert c.sent == c.wire + c.output;
      assert c.sent[..|c.wire|] == c.wire;
    }
  }

  /** The deferred half-close loses nothing: once the write side is shut,
      every byte that was sent has gone to the descriptor (unless a send
      faulted). */
  lemma HalfCloseAfterDrain(ops: seq<Op>)
    requires Feasible(Initial(), ops)
    ensures var c := Run(Initial(), ops);
      c.writeShut ==> c.output == [] && (!c.faulted ==> c.wire == c.sent)
  {
    RunKeepsInv(Initial(), ops);
  }

  /** A connection whose owner is gone ignores every readiness report. */
  lemma DeadOwnerIgnored(c: Conn, revents: Mask, rr: ReadResult, w: WriteResult)
    requires c.tied
    ensures Admissible(c, EventOp(revents, false, rr, w))
    ensures Step(c, EventOp(revents, false, rr, w)) == c
  {
  }

  // ---------------------------------------------------------------------------
  // Scenarios

  const Hello: seq<byte> := [104, 101, 108, 108, 111]

  /** send("hello") on a descriptor that takes 2 bytes buffers "llo" and turns
      write interest on; the next writable event writes the 3 bytes, empties
      the buffer, turns write interest off and queues write-complete once. */
  lemma HelloScenario()
    ensures var c0 := ConnectEstablished(Initial().(hasWriteComplete := true));
      var c1 := Send(c0, Hello, Wrote(2));
      var c2 := HandleWrite(c1, Wrote(3));
      && c1.output == Hello[2..] && c1.interest.writing && c1.tasks == []
      && c2.output == [] && !c2.interest.writing && c2.tasks == [WriteComplete]
      && c2.wire == Hello
  {
    var c0 := ConnectEstablished(Initial().(hasWriteComplete := true));
    var c1 := Send(c0, Hello, Wrote(2));
    assert c1.output == Hello[2..];
  }

  /** A newly established connection is Connected and idle. */
  lemma EstablishedIsIdle()
    ensures var c := ConnectEstablished(Initial());
      c.state == Connected && FastPath(c) && c.tasks == []
  {
  }

  /** With a mark of 4, on an idle connection: the buffer goes
      0 -> 3 -> 5 -> 6 -> 2 -> 4 over four sends and one partial drain; the
      high-water-mark task is queued on the two crossings only, with the
      buffered size at each. */
  lemma HighWaterMarkPerCrossing(c0: Conn)
    requires c0.state == Connected && FastPath(c0) && c0.tasks == []
    requires c0.hasHighWaterMark && c0.highWaterMark == 4
    ensures var c1 := Send(c0, [1, 2, 3], WriteFailed(EWouldBlock));
      var c2 := Send(c1, [4, 5], Wrote(0));
      var c3 := Send(c2, [6], Wrote(0));
      var c4 := HandleWrite(c3, Wrote(4));
      var c5 := Send(c4, [7, 8], Wrote(0));
      && |c1.output| == 3 && |c2.output| == 5 && |c3.output| == 6 && |c4.output| == 2
      && c5.output == [5, 6, 7, 8]
      && c5.tasks == [HighWaterMark(5), HighWaterMark(4)]
  {
    FirstCrossing(c0);
    SecondCrossing(Send(Send(Send(c0, [1, 2, 3], WriteFailed(EWouldBlock)), [4, 5], Wrote(0)), [6], Wrote(0)));
  }

  /** 3 bytes that would block stay below the mark, 2 more cross it, 1 more
      stays above it. */
  lemma FirstCrossing(c0: Conn)
    requires c0.state == Connected && FastPath(c0) && c0.tasks == []
    requires c0.hasHighWaterMark && c0.highWaterMark == 4
    ensures var c1 := Send(c0, [1, 2, 3], WriteFailed(EWouldBlock));
      var c2 := Send(c1, [4, 5], Wrote(0));
      var c3 := Send(c2, [6], Wrote(0));
      && c1.output == [1, 2, 3] && c2.output == [1, 2, 3, 4, 5]
      && c3 == c0.(output := [1, 2, 3, 4, 5, 6], sent := c0.sent + [1, 2, 3, 4, 5, 6],
                   interest := c0.interest.(writing := true), loopCalls := c0.loopCalls + [UpdateChannel],
                   tasks := [HighWaterMark(5)])
  {
    SendWouldBlock(c0, [1, 2, 3]);
    var c1 := Send(c0, [1, 2, 3], WriteFailed(EWouldBlock));
    SendWhileDraining(c1, [4, 5], Wrote(0));
    var c2 := Send(c1, [4, 5], Wrote(0));
    assert c2.output == [1, 2, 3, 4, 5] && c2.tasks == [HighWaterMark(5)];
    SendWhileDraining(c2, [6], Wrote(0));
  }

  /** A drain of 4 bytes takes the buffer from 6 back to 2, below the mark;
      2 more bytes cross it again. */
  lemma SecondCrossing(c3: Conn)
    requires c3.state == Connected && c3.interest.writing && c3.output == [1, 2, 3, 4, 5, 6]
    requires c3.hasHighWaterMark && c3.highWaterMark == 4
    ensures var c4 := HandleWrite(c3, Wrote(4));
      var c5 := Send(c4, [7, 8], Wrote(0));
      && c4.output == [5, 6] && c5.output == [5, 6, 7, 8] && c5.tasks == c3.tasks + [HighWaterMark(4)]
  {
    var c4 := HandleWrite(c3, Wrote(4));
    assert c4 == c3.(output := [5, 6], wire := c3.wire + [1, 2, 3, 4]);
    SendWhileDraining(c4, [7, 8], Wrote(0));
  }

  /** shutdown with output pending defers the half-close; the drain that
      empties the buffer performs it. */
  lemma ShutdownDeferred()
    ensures var c0 := ConnectEstablished(Initial());
      var c1 := Send(c0, [1, 2, 3], Wrote(1));
      var c2 := Shutdown(c1);
      var c3 := HandleWrite(c2, Wrote(2));
      && c2.state == Disconnecting && !c2.writeShut
      && c3.writeShut && c3.output == [] && c3.wire == [1, 2, 3]
  {
    var c0 := ConnectEstablished(Initial());
    var c1 := Send(c0, [1, 2, 3], Wrote(1));
    assert c1.output == [2, 3];
  }

  /** A zero-length read on a connection with a drain pending still closes
      exactly once: one connection callback, then the close callback. */
  lemma ZeroReadCloses()
    ensures var c0 := ConnectEstablished(Initial());
      var c1 := Send(c0, [1, 2], WriteFailed(EWouldBlock));
      var c2 := HandleRead(c1, Received([]));
      && c1.interest.writing
      && c2.state == Disconnected && !c2.interest.writing && !c2.interest.reading
      && c2.upcalls == [OnConnection(Connected), OnConnection(Disconnected), OnClose]
  {
  }
}
