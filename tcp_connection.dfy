/** TcpConnection as an object: its fields change in place, its channel is
    its own object, and every method is proved to move the abstract value
    Model() exactly as the matching function of module Connection says. */
module Tcp {
  import opened Os
  import opened Events
  import opened Connection

  class TcpConnection {
    const name: string
    const channel: Channel
    var state: State
    var reading: bool
    var inputBuffer: seq<byte>
    var outputBuffer: seq<byte>
    /** The socket's write side: set by shutdownWrite(). */
    var writeShut: bool
    /** Functors handed to queueInLoop, oldest first. */
    var pendingTasks: seq<Task>
    /** User callbacks called inline, oldest first. */
    var upcalls: seq<Upcall>
    var hasWriteCompleteCallback: bool
    var hasHighWaterMarkCallback: bool
    var highWaterMark: nat
    ghost var wire: seq<byte>
    ghost var sent: seq<byte>
    ghost var faulted: bool

    /** The connection as a value. */
    ghost function Model(): Conn
      reads this, channel
    {
      Conn(state, InterestOf(channel.events), channel.tied, channel.loopCalls, inputBuffer, outputBuffer,
           writeShut, pendingTasks, upcalls, hasWriteCompleteCallback, hasHighWaterMarkCallback,
           highWaterMark, wire, sent, faulted)
    }

    /** The constructor: Connecting, empty buffers, a 64 MiB high-water mark,
        a fresh untied channel on `sockfd` with all four callbacks bound. */
    constructor (name: string, sockfd: int)
      ensures this.name == name && fresh(channel) && channel.fd == sockfd
      ensures channel.callbacks == AllHandlers && channel.revents == NoneEvent && channel.index == -1
      ensures reading
      ensures Model() == Initial()
    {
      this.name := name;
      channel := new Channel(sockfd);
      state := Connecting;
      reading := true;
      inputBuffer, outputBuffer := [], [];
      writeShut := false;
      pendingTasks, upcalls := [], [];
      hasWriteCompleteCallback, hasHighWaterMarkCallback := false, false;
      highWaterMark := DefaultHighWaterMark;
      wire, sent, faulted := [], [], false;
      new;
      channel.SetReadCallback();
      channel.SetWriteCallback();
      channel.SetCloseCallback();
      channel.SetErrorCallback();
    }

    method SetWriteCompleteCallback()
      modifies this
      ensures Model() == old(Model()).(hasWriteComplete := true)
      ensures reading == old(reading)
    {
      hasWriteCompleteCallback := true;
    }

    method SetHighWaterMarkCallback(mark: nat)
      modifies this
      ensures Model() == old(Model()).(hasHighWaterMark := true, highWaterMark := mark)
      ensures reading == old(reading)
    {
      hasHighWaterMarkCallback := true;
      highWaterMark := mark;
    }

    method Shutdown()
      modifies this
      ensures Model() == Connection.Shutdown(old(Model()))
      ensures reading == old(reading)
    {
      if state == Connected {
        state := Disconnecting;
        ShutdownInLoop();
      }
    }

    method ShutdownInLoop()
      modifies this
      ensures Model() == Connection.ShutdownInLoop(old(Model()))
      ensures reading == old(reading)
    {
      if !channel.IsWriting() {
        writeShut := true;
      }
    }

    method ConnectEstablished()
      modifies this, channel`events, channel`loopCalls, channel`tie, channel`tied
      ensures Model() == Connection.ConnectEstablished(old(Model()))
      ensures channel.tie == Some(this as object)
      ensures reading == old(reading)
    {
      state := Connected;
      channel.Tie(this);
      channel.EnableReading();
      upcalls := upcalls + [OnConnection(state)];
    }

    method ConnectDestroyed()
      modifies this, channel`events, channel`loopCalls
      ensures Model() == Connection.ConnectDestroyed(old(Model()))
      ensures reading == old(reading)
    {
      if state == Connected {
        state := Disconnected;
        channel.DisableAll();
        upcalls := upcalls + [OnConnection(state)];
      }
      channel.Remove();
    }

    method HandleRead(rr: ReadResult)
      modifies this, channel`events, channel`loopCalls
      ensures Model() == Connection.HandleRead(old(Model()), rr)
      ensures reading == old(reading)
    {
      match rr
      case Received(bytes) =>
        if |bytes| > 0 {
          inputBuffer := inputBuffer + bytes;
          upcalls := upcalls + [OnMessage(|inputBuffer|)];
        } else {
          HandleClose();
        }
      case ReadFailed(_) =>
        HandleError();
    }

    method HandleWrite(w: WriteResult)
      requires Fits(w, |outputBuffer|)
      modifies this, channel`events, channel`loopCalls
      ensures Model() == Connection.HandleWrite(old(Model()), w)
      ensures reading == old(reading)
    {
      if channel.IsWriting() {
        if w.Wrote? && w.n > 0 {
          wire := wire + outputBuffer[..w.n];
          outputBuffer := outputBuffer[w.n..];
          if |outputBuffer| == 0 {
            FinishDrain();
          }
        }
      }
    }

    /** The end of a drain that emptied the output buffer. */
    method FinishDrain()
      modifies this, channel`events, channel`loopCalls
      ensures Model() == AfterDrain(old(Model()))
      ensures reading == old(reading)
    {
      channel.DisableWriting();
      if hasWriteCompleteCallback {
        pendingTasks := pendingTasks + [WriteComplete];
      }
      if state == Disconnecting {
        ShutdownInLoop();
      }
    }

    method HandleClose()
      modifies this, channel`events, channel`loopCalls
      ensures Model() == Connection.HandleClose(old(Model()))
      ensures reading == old(reading)
    {
      state := Disconnected;
      channel.DisableAll();
      upcalls := upcalls + [OnConnection(state), OnClose];
    }

    method HandleError()
      ensures Model() == Connection.HandleError(old(Model()))
    {
    }

    method Send(data: seq<byte>, w: WriteResult)
      requires Fits(w, |data|)
      modifies this, channel`events, channel`loopCalls
      ensures Model() == Connection.Send(old(Model()), data, w)
      ensures reading == old(reading)
    {
      if state == Connected {
        SendInLoop(data, w);
      }
    }

    /** `w` is what the direct ::write returns if it is called. */
    method SendInLoop(data: seq<byte>, w: WriteResult)
      requires Fits(w, |data|)
      modifies this, channel`events, channel`loopCalls
      ensures Model() == Connection.SendInLoop(old(Model()), data, w)
      ensures reading == old(reading)
    {
      if state == Disconnected {
        return;
      }
      var nwrote, faultError := WriteDirect(data, w);
      var remaining := |data| - nwrote;
      if !faultError && remaining > 0 {
        AppendTail(data[nwrote..]);
      }
    }

    /** The first half of sendInLoop: with no write interest and nothing
        buffered, one ::write of `data`. */
    method WriteDirect(data: seq<byte>, w: WriteResult) returns (nwrote: nat, faultError: bool)
      requires Fits(w, |data|)
      modifies this
      ensures nwrote == DirectWritten(old(Model()), w) && nwrote <= |data|
      ensures faultError == DirectFault(old(Model()), w)
      ensures Model() == AfterDirectWrite(old(Model()), data, w)
      ensures reading == old(reading)
    {
      nwrote := 0;
      faultError := false;
      ghost var before := Model();
      sent := sent + data;
      var directly := !channel.IsWriting() && |outputBuffer| == 0;
      assert directly == FastPath(before);
      if directly {
        match w
        case Wrote(n) =>
          nwrote := n;
          wire := wire + data[..n];
          if |data| - n == 0 && hasWriteCompleteCallback {
            pendingTasks := pendingTasks + [WriteComplete];
          }
        case WriteFailed(err) =>
          nwrote := 0;
          if err != EWouldBlock {
            if err == EPipe || err == EConnReset {
              faultError := true;
              faulted := true;
            }
          }
      }
    }

    /** The second half of sendInLoop: buffer the unwritten tail. */
    method AppendTail(tail: seq<byte>)
      modifies this, channel`events, channel`loopCalls
      ensures Model() == BufferTail(old(Model()), tail)
      ensures reading == old(reading)
    {
      var oldLen := |outputBuffer|;
      var remaining := |tail|;
      if oldLen + remaining >= highWaterMark && oldLen < highWaterMark && hasHighWaterMarkCallback {
        pendingTasks := pendingTasks + [HighWaterMark(oldLen + remaining)];
      }
      outputBuffer := outputBuffer + tail;
      if !channel.IsWriting() {
        channel.EnableWriting();
      }
    }
  }
}
