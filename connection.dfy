/** The decision logic of TcpConnection.cc as functions on a value: the
    connection state, the channel's interest mask, the two buffers, the
    half-close flag, the tasks queued on the loop and the user callbacks
    invoked inline. Each function is one member of the class, run on the
    loop thread with the operating system's answers given as inputs. */
module Connection {
  import opened Os
  import opened Events

  datatype State = Connecting | Connected | Disconnecting | Disconnected

  /** Position along Connecting -> Connected -> Disconnecting -> Disconnected. */
  function StateRank(s: State): nat
  {
    match s
    case Connecting => 0
    case Connected => 1
    case Disconnecting => 2
    case Disconnected => 3
  }

  /** A functor handed to queueInLoop: run later, never inline. */
  datatype Task = WriteComplete | HighWaterMark(size: nat)

  /** A user callback called inline: the connection callback (with the state
      it then observes), the message callback (with the readable size of the
      input buffer) and the close callback. */
  datatype Upcall = OnConnection(state: State) | OnMessage(readable: nat) | OnClose

  /** highWaterMark_ as the constructor sets it: 64 MiB. */
  const DefaultHighWaterMark: nat := 64 * 1024 * 1024

  datatype Conn = Conn(
    state: State,
    interest: Interest,       // channel_->isReading(), isWriting()
    tied: bool,               // channel_->tied_
    loopCalls: seq<LoopCall>, // what the channel asked of the loop
    input: seq<byte>,         // inputBuffer_, readable part
    output: seq<byte>,        // outputBuffer_, readable part
    writeShut: bool,          // socket_->shutdownWrite() has been called
    tasks: seq<Task>,         // queued with queueInLoop, oldest first
    upcalls: seq<Upcall>,     // user callbacks called inline, oldest first
    hasWriteComplete: bool,   // writeCompleteCallback_ is set
    hasHighWaterMark: bool,   // highWaterMarkCallback_ is set
    highWaterMark: nat,
    wire: seq<byte>,          // every byte the descriptor has taken, in order
    sent: seq<byte>,          // every byte sendInLoop took on, in order
    faulted: bool)            // a direct write failed with EPIPE or ECONNRESET

  /** A freshly constructed connection. */
  function Initial(): (c: Conn)
    ensures c.state == Connecting && c.interest == NoInterest && !c.tied
    ensures c.output == [] && c.input == [] && !c.writeShut && c.tasks == [] && c.upcalls == []
    ensures c.highWaterMark == DefaultHighWaterMark && !c.hasWriteComplete && !c.hasHighWaterMark
    ensures Inv(c)
  {
    Conn(Connecting, NoInterest, false, [], [], [], false, [], [], false, false,
         DefaultHighWaterMark, [], [], false)
  }

  /** What the shown code keeps true of every connection it drives:
      - the bytes on the wire followed by the output buffer are exactly the
        bytes sendInLoop took on, unless a send was abandoned on a fault;
      - write interest is on only while there is something to write;
      - until the connection is Disconnected, a non-empty output buffer has
        write interest on (the drain is still coming);
      - the write side is closed only with an empty output buffer, and only
        once shutdown has been asked for. */
  ghost predicate Inv(c: Conn)
  {
    (!c.faulted ==> c.wire + c.output == c.sent)
    && (c.interest.writing ==> c.output != [])
    && (c.state != Disconnected && c.output != [] ==> c.interest.writing)
    && (c.writeShut ==> c.output == [] && (c.state == Disconnecting || c.state == Disconnected))
  }

  /** One interest setter on the channel: new mask, then one update(). */
  function SetInterest(c: Conn, op: InterestOp): Conn
  {
    c.(interest := Request(c.interest, op), loopCalls := c.loopCalls + [UpdateChannel])
  }

  // ---------------------------------------------------------------------------
  // Shutdown

  /** shutdownInloop: half-close now unless output is still pending. */
  function ShutdownInLoop(c: Conn): (r: Conn)
    ensures r.writeShut == (c.writeShut || !c.interest.writing)
    ensures r == c.(writeShut := r.writeShut)
    ensures Inv(c) && c.state != Disconnected && !c.writeShut ==> (r.writeShut <==> c.output == [])
  {
    if !c.interest.writing then c.(writeShut := true) else c
  }

  /** shutdown: only a Connected connection moves to Disconnecting; it then
      half-closes at once or leaves that to the drain in HandleWrite. */
  function Shutdown(c: Conn): (r: Conn)
    ensures c.state != Connected ==> r == c
    ensures c.state == Connected ==> r.state == Disconnecting
    ensures c.state == Connected ==> r.writeShut == (c.writeShut || !c.interest.writing)
    ensures r == c.(state := r.state, writeShut := r.writeShut)
    ensures Inv(c) && c.state == Connected ==> (r.writeShut <==> c.output == [])
    ensures Inv(c) ==> Inv(r)
  {
    if c.state == Connected then ShutdownInLoop(c.(state := Disconnecting)) else c
  }

  // ---------------------------------------------------------------------------
  // Lifecycle

  /** connectEstablished: Connected, channel tied to the connection, read
      interest on, then the connection callback. */
  function ConnectEstablished(c: Conn): (r: Conn)
    ensures r.state == Connected && r.tied
    ensures r.interest.reading && r.interest.writing == c.interest.writing
    ensures r.loopCalls == c.loopCalls + [UpdateChannel]
    ensures r.upcalls == c.upcalls + [OnConnection(Connected)]
    ensures r == c.(state := r.state, tied := r.tied, interest := r.interest, loopCalls := r.loopCalls,
                    upcalls := r.upcalls)
    ensures Inv(c) && c.state == Connecting ==> Inv(r)
  {
    var c1 := c.(state := Connected, tied := true);
    var c2 := SetInterest(c1, EnableReading);
    c2.(upcalls := c2.upcalls + [OnConnection(Connected)])
  }

  /** connectDestroyed: from Connected it goes to Disconnected, drops all
      interest and calls the connection callback; in every state it then
      removes the channel from the loop. */
  function ConnectDestroyed(c: Conn): (r: Conn)
    ensures c.state == Connected ==>
      r.state == Disconnected && r.interest == NoInterest
      && r.loopCalls == c.loopCalls + [UpdateChannel, RemoveChannel]
      && r.upcalls == c.upcalls + [OnConnection(Disconnected)]
    ensures c.state != Connected ==>
      r == c.(loopCalls := c.loopCalls + [RemoveChannel])
    ensures r == c.(state := r.state, interest := r.interest, loopCalls := r.loopCalls, upcalls := r.upcalls)
    ensures StateRank(c.state) <= StateRank(r.state)
    ensures Inv(c) ==> Inv(r)
  {
    var c1 :=
      if c.state == Connected then
        var d := SetInterest(c.(state := Disconnected), DisableAll);
        d.(upcalls := d.upcalls + [OnConnection(Disconnected)])
      else c;
    c1.(loopCalls := c1.loopCalls + [RemoveChannel])
  }

  /** handleClose: in any state, Disconnected with no interest, then the
      connection callback and after it the close callback. */
  function HandleClose(c: Conn): (r: Conn)
    ensures r.state == Disconnected && !r.interest.reading && !r.interest.writing
    ensures r.loopCalls == c.loopCalls + [UpdateChannel]
    ensures r.upcalls == c.upcalls + [OnConnection(Disconnected), OnClose]
    ensures r == c.(state := r.state, interest := r.interest, loopCalls := r.loopCalls, upcalls := r.upcalls)
    ensures StateRank(c.state) <= StateRank(r.state)
    ensures Inv(c) ==> Inv(r)
  {
    var c1 := SetInterest(c.(state := Disconnected), DisableAll);
    c1.(upcalls := c1.upcalls + [OnConnection(Disconnected), OnClose])
  }

  /** handleError: it only fetches SO_ERROR to log it, so no state changes. */
  function HandleError(c: Conn): (r: Conn)
    ensures r == c
  {
    c
  }

  /** haneleRead: data goes to the input buffer and to the message callback;
      a zero-length read is the peer's orderly close; a failed read only
      reaches HandleError. */
  function HandleRead(c: Conn, rr: ReadResult): (r: Conn)
    ensures rr.Received? && rr.bytes != [] ==>
      r.input == c.input + rr.bytes && r.upcalls == c.upcalls + [OnMessage(|r.input|)]
      && r == c.(input := r.input, upcalls := r.upcalls)
    ensures rr == Received([]) ==> r == HandleClose(c)
    ensures rr.ReadFailed? ==> r == c
    ensures r.output == c.output && r.wire == c.wire && r.sent == c.sent && r.writeShut == c.writeShut
    ensures r.tasks == c.tasks
    ensures StateRank(c.state) <= StateRank(r.state)
    ensures Inv(c) ==> Inv(r)
  {
    match rr
    case Received(bytes) =>
      if |bytes| > 0 then
        var input := c.input + bytes;
        c.(input := input, upcalls := c.upcalls + [OnMessage(|input|)])
      else HandleClose(c)
    case ReadFailed(_) => HandleError(c)
  }

  // ---------------------------------------------------------------------------
  // Drain

  /** handleWrite: one write of the output buffer. Written bytes leave its
      front; once it is empty write interest goes off, write-complete is
      queued if set, and a pending shutdown half-closes. Without write
      interest, or when nothing was written, nothing changes. */
  function HandleWrite(c: Conn, w: WriteResult): (r: Conn)
    requires Fits(w, |c.output|)
    ensures !c.interest.writing ==> r == c
    ensures !(w.Wrote? && w.n > 0) ==> r == c
    ensures c.interest.writing && w.Wrote? && w.n > 0 ==>
      r.output == c.output[w.n..] && r.wire == c.wire + c.output[..w.n]
    ensures c.interest.writing && w.Wrote? && 0 < w.n < |c.output| ==>
      r == c.(output := r.output, wire := r.wire)
    ensures c.interest.writing && w == Wrote(|c.output|) && w.n > 0 ==>
      !r.interest.writing && r.interest.reading == c.interest.reading
      && r.loopCalls == c.loopCalls + [UpdateChannel]
      && r.tasks == c.tasks + (if c.hasWriteComplete then [WriteComplete] else [])
      && r.writeShut == (c.writeShut || c.state == Disconnecting)
    ensures r == c.(output := r.output, wire := r.wire, interest := r.interest, loopCalls := r.loopCalls,
                    tasks := r.tasks, writeShut := r.writeShut)
  {
    if c.interest.writing && w.Wrote? && w.n > 0 then
      var c1 := c.(output := c.output[w.n..], wire := c.wire + c.output[..w.n]);
      if c1.output == [] then AfterDrain(c1) else c1
    else c
  }

  /** The end of a drain that emptied the output buffer: write interest off,
      write-complete queued if set, and a pending shutdown performed. */
  function AfterDrain(c: Conn): (r: Conn)
    ensures !r.interest.writing && r.interest.reading == c.interest.reading
    ensures r.loopCalls == c.loopCalls + [UpdateChannel]
    ensures r.tasks == c.tasks + (if c.hasWriteComplete then [WriteComplete] else [])
    ensures r.writeShut == (c.writeShut || c.state == Disconnecting)
    ensures r == c.(interest := r.interest, loopCalls := r.loopCalls, tasks := r.tasks, writeShut := r.writeShut)
  {
    var c1 := SetInterest(c, DisableWriting);
    var c2 := c1.(tasks := c1.tasks + (if c.hasWriteComplete then [WriteComplete] else []));
    if c2.state == Disconnecting then ShutdownInLoop(c2) else c2
  }

  // ---------------------------------------------------------------------------
  // Send

  /** The direct write is tried only with no write interest and an empty
      output buffer: no earlier bytes are still waiting. */
  predicate FastPath(c: Conn)
  {
    !c.interest.writing && c.output == []
  }

  /** nwrote after the direct-write step: what ::write took on the fast path,
      and 0 otherwise (EWOULDBLOCK and every other errno included). */
  function DirectWritten(c: Conn, w: WriteResult): nat
  {
    if FastPath(c) && w.Wrote? then w.n else 0
  }

  /** faultError: the direct write failed with EPIPE or ECONNRESET. */
  predicate DirectFault(c: Conn, w: WriteResult)
  {
    FastPath(c) && IsFault(w)
  }

  /** sendInLoop on `data`, where `w` is what a direct ::write would return.
      SendInLoopWrites, SendInLoopBuffers, SendInLoopQueues and
      SendInLoopKeepsInv below state what it does. */
  function SendInLoop(c: Conn, data: seq<byte>, w: WriteResult): (r: Conn)
    requires Fits(w, |data|)
    ensures c.state == Disconnected ==> r == c
    ensures r == c.(output := r.output, interest := r.interest, loopCalls := r.loopCalls,
                    tasks := r.tasks, wire := r.wire, sent := r.sent, faulted := r.faulted)
  {
    if c.state == Disconnected then c
    else
      var c1 := AfterDirectWrite(c, data, w);
      var nwrote := DirectWritten(c, w);
      if !DirectFault(c, w) && nwrote < |data| then BufferTail(c1, data[nwrote..]) else c1
  }

  /** The first step of sendInLoop: the direct write on the fast path, and
      write-complete queued when it took everything. */
  function AfterDirectWrite(c: Conn, data: seq<byte>, w: WriteResult): (r: Conn)
    requires Fits(w, |data|)
    ensures r.wire == c.wire + data[..DirectWritten(c, w)] && r.sent == c.sent + data
    ensures r.faulted == (c.faulted || DirectFault(c, w))
    ensures r.tasks == c.tasks + (if FastPath(c) && w == Wrote(|data|) && c.hasWriteComplete
                                  then [WriteComplete] else [])
    ensures r == c.(wire := r.wire, sent := r.sent, faulted := r.faulted, tasks := r.tasks)
  {
    var nwrote := DirectWritten(c, w);
    c.(wire := c.wire + data[..nwrote], sent := c.sent + data,
       faulted := c.faulted || DirectFault(c, w),
       tasks := c.tasks + (if FastPath(c) && w.Wrote? && nwrote == |data| && c.hasWriteComplete
                           then [WriteComplete] else []))
  }

  /** The second step of sendInLoop: the high-water-mark check on the edge,
      the tail appended, write interest turned on. */
  function BufferTail(c: Conn, tail: seq<byte>): (r: Conn)
    ensures r.output == c.output + tail
    ensures r.interest.writing && r.interest.reading == c.interest.reading
    ensures c.interest.writing ==> r.interest == c.interest && r.loopCalls == c.loopCalls
    ensures !c.interest.writing ==> r.loopCalls == c.loopCalls + [UpdateChannel]
    ensures r.tasks == c.tasks + (if c.hasHighWaterMark && |c.output| < c.highWaterMark <= |c.output| + |tail|
                                  then [HighWaterMark(|c.output| + |tail|)] else [])
    ensures r == c.(output := r.output, interest := r.interest, loopCalls := r.loopCalls, tasks := r.tasks)
  {
    var oldLen := |c.output|;
    var crossed := oldLen + |tail| >= c.highWaterMark && oldLen < c.highWaterMark && c.hasHighWaterMark;
    var c2 := c.(tasks := c.tasks + (if crossed then [HighWaterMark(oldLen + |tail|)] else []),
                 output := c.output + tail);
    if !c2.interest.writing then SetInterest(c2, EnableWriting) else c2
  }

  /** The direct write: it is attempted only on the fast path, and the
      bytes it puts on the wire are the first DirectWritten of `data`. */
  lemma SendInLoopWrites(c: Conn, data: seq<byte>, w: WriteResult)
    requires Fits(w, |data|)
    ensures var r := SendInLoop(c, data, w);
      && (!FastPath(c) ==> r.wire == c.wire)
      && (c.state != Disconnected ==>
            r.sent == c.sent + data && r.wire == c.wire + data[..DirectWritten(c, w)]
            && r.faulted == (c.faulted || DirectFault(c, w)))
  {
  }

  /** What happens to the output buffer and the interest mask: a fault leaves
      both alone; an unwritten tail is appended and write interest turned on
      (read interest kept); a complete direct write leaves both alone. */
  lemma SendInLoopBuffers(c: Conn, data: seq<byte>, w: WriteResult)
    requires Fits(w, |data|)
    requires c.state != Disconnected
    ensures var r := SendInLoop(c, data, w);
      && (DirectFault(c, w) ==>
            r.output == c.output && r.interest == c.interest && r.loopCalls == c.loopCalls)
      && (!DirectFault(c, w) && DirectWritten(c, w) < |data| ==>
            r.output == c.output + data[DirectWritten(c, w)..]
            && r.interest.writing && r.interest.reading == c.interest.reading
            && r.loopCalls == c.loopCalls + (if c.interest.writing then [] else [UpdateChannel]))
      && (!DirectFault(c, w) && DirectWritten(c, w) == |data| ==>
            r.output == c.output && r.interest == c.interest && r.loopCalls == c.loopCalls)
  {
  }

  /** While a drain is pending, send skips the direct write: the data goes to
      the back of the buffer, and only the high-water-mark check can queue a
      task. */
  lemma SendWhileDraining(c: Conn, data: seq<byte>, w: WriteResult)
    requires Fits(w, |data|)
    requires c.state == Connected && c.interest.writing && data != []
    ensures Send(c, data, w) == c.(output := c.output + data, sent := c.sent + data,
      tasks := c.tasks + (if c.hasHighWaterMark && |c.output| < c.highWaterMark <= |c.output| + |data|
                          then [HighWaterMark(|c.output| + |data|)] else []))
  {
    assert data[..0] == [] && data[0..] == data;
  }

  /** A direct write that would block takes nothing: all of the data is
      buffered and write interest goes on, with one update. */
  lemma SendWouldBlock(c: Conn, data: seq<byte>)
    requires c.state == Connected && FastPath(c) && data != []
    ensures Send(c, data, WriteFailed(EWouldBlock)) ==
      c.(output := data, sent := c.sent + data,
         interest := c.interest.(writing := true), loopCalls := c.loopCalls + [UpdateChannel],
         tasks := c.tasks + (if c.hasHighWaterMark && 0 < c.highWaterMark <= |data|
                             then [HighWaterMark(|data|)] else []))
  {
    assert data[..0] == [] && data[0..] == data;
  }

  /** The tasks one sendInLoop queues: at most one; write-complete exactly
      when the direct write took everything and the callback is set; the
      high-water-mark task, carrying the buffered size, exactly when the tail
      takes the buffer from below the mark to at or above it. */
  lemma SendInLoopQueues(c: Conn, data: seq<byte>, w: WriteResult)
    requires Fits(w, |data|)
    ensures var r := SendInLoop(c, data, w);
      var remaining := |data| - DirectWritten(c, w);
      && (r.tasks == c.tasks || r.tasks == c.tasks + [WriteComplete]
          || r.tasks == c.tasks + [HighWaterMark(|c.output| + remaining)])
      && (r.tasks == c.tasks + [WriteComplete] <==>
            c.state != Disconnected && FastPath(c) && w == Wrote(|data|) && c.hasWriteComplete)
      && (r.tasks == c.tasks + [HighWaterMark(|c.output| + remaining)] <==>
            c.state != Disconnected && !DirectFault(c, w) && remaining > 0 && c.hasHighWaterMark
            && |c.output| < c.highWaterMark <= |c.output| + remaining)
  {
    var r := SendInLoop(c, data, w);
    var remaining := |data| - DirectWritten(c, w);
    var hwm := HighWaterMark(|c.output| + remaining);
    OneTaskMore(c.tasks, WriteComplete, hwm);
    if c.state != Disconnected && !DirectFault(c, w) && remaining > 0 {
      assert r.tasks == c.tasks + (if c.hasHighWaterMark && |c.output| < c.highWaterMark <= |c.output| + remaining
                                   then [hwm] else []);
    } else if c.state != Disconnected {
      assert r.tasks == c.tasks + (if FastPath(c) && w == Wrote(|data|) && c.hasWriteComplete
                                   then [WriteComplete] else []);
    }
  }

  /** Appending one task is never a no-op and tells the task apart. */
  lemma OneTaskMore(s: seq<Task>, a: Task, b: Task)
    ensures s != s + [a]
    ensures s + [a] == s + [b] <==> a == b
  {
    if s + [a] == s + [b] {
      assert (s + [a])[|s|] == a && (s + [b])[|s|] == b;
    }
  }

  /** sendInLoop keeps the connection invariant while the write side is open:
      a fault or a complete direct write leaves the buffer alone, and an
      unwritten tail goes to the buffer right behind the bytes before it. */
  lemma SendInLoopKeepsInv(c: Conn, data: seq<byte>, w: WriteResult)
    requires Fits(w, |data|)
    requires Inv(c) && !c.writeShut
    ensures Inv(SendInLoop(c, data, w))
  {
    if c.state != Disconnected {
      var nwrote := DirectWritten(c, w);
      var c1 := AfterDirectWrite(c, data, w);
      DirectWriteStream(c, data, w);
      if !DirectFault(c, w) && nwrote < |data| {
        BufferTailKeepsInv(c1, data[nwrote..]);
      } else if !DirectFault(c, w) {
        assert data[nwrote..] == [];
      }
    }
  }

  /** After the direct write (and no fault), the wire, then the buffer, then
      the unwritten part of `data` are everything sent so far. */
  lemma DirectWriteStream(c: Conn, data: seq<byte>, w: WriteResult)
    requires Fits(w, |data|) && Inv(c)
    ensures var c1 := AfterDirectWrite(c, data, w);
      !c1.faulted ==> c1.wire + c1.output + data[DirectWritten(c, w)..] == c1.sent
  {
    var n := DirectWritten(c, w);
    var c1 := AfterDirectWrite(c, data, w);
    if !c1.faulted {
      assert data[..n] + data[n..] == data;
      if FastPath(c) {
        assert c1.wire + c1.output + data[n..] == c.wire + (data[..n] + data[n..]);
      } else {
        assert n == 0 && c1.wire == c.wire && data[n..] == data;
        assert c1.wire + c1.output + data[n..] == (c.wire + c.output) + data;
      }
    }
  }

  /** Buffering a non-empty tail that directly follows the wire and the
      buffer keeps the invariant. */
  lemma BufferTailKeepsInv(c: Conn, tail: seq<byte>)
    requires tail != [] && !c.writeShut
    requires !c.faulted ==> c.wire + c.output + tail == c.sent
    ensures Inv(BufferTail(c, tail))
  {
    var r := BufferTail(c, tail);
    assert r.output != [] by {
      assert |r.output| == |c.output| + |tail|;
    }
  }

  /** send: only a Connected connection sends; on any other state the data
      is dropped and nothing changes. */
  function Send(c: Conn, data: seq<byte>, w: WriteResult): (r: Conn)
    requires Fits(w, |data|)
    ensures c.state != Connected ==> r == c
    ensures c.state == Connected ==> r == SendInLoop(c, data, w)
  {
    if c.state == Connected then SendInLoop(c, data, w) else c
  }

  /** send keeps the connection invariant: it only acts while Connected,
      where the write side is still open. */
  lemma SendKeepsInv(c: Conn, data: seq<byte>, w: WriteResult)
    requires Fits(w, |data|)
    requires Inv(c)
    ensures Inv(Send(c, data, w))
  {
    if c.state == Connected {
      SendInLoopKeepsInv(c, data, w);
    }
  }

  // ---------------------------------------------------------------------------
  // Channel callbacks wired to the connection

  /** The handler the constructor binds to each channel callback. */
  function Handle(c: Conn, cb: Callback, rr: ReadResult, w: WriteResult): (r: Conn)
    requires cb == WriteCallback ==> Fits(w, |c.output|)
    ensures cb != WriteCallback ==> r.output == c.output
    ensures StateRank(c.state) <= StateRank(r.state)
    ensures c.tasks <= r.tasks && c.upcalls <= r.upcalls
    ensures Inv(c) ==> Inv(r)
  {
    match cb
    case CloseCallback => HandleClose(c)
    case ErrorCallback => HandleError(c)
    case ReadCallback => HandleRead(c, rr)
    case WriteCallback => HandleWrite(c, w)
  }

  /** Runs the callbacks one dispatch fired, in order, on the connection. A
      dispatch fires the write callback at most once and last, so the write
      outcome only has to fit the output buffer as it is now. */
  function Deliver(c: Conn, fired: seq<Callback>, rr: ReadResult, w: WriteResult): (r: Conn)
    requires Ordered(fired)
    requires WriteCallback in fired ==> Fits(w, |c.output|)
    ensures StateRank(c.state) <= StateRank(r.state)
    ensures c.tasks <= r.tasks && c.upcalls <= r.upcalls
    ensures Inv(c) ==> Inv(r)
    decreases |fired|
  {
    if fired == [] then c
    else
      assert forall k :: 0 < k < |fired| ==> fired[k] != WriteCallback || fired[0] != WriteCallback;
      Deliver(Handle(c, fired[0], rr, w), fired[1..], rr, w)
  }
}
