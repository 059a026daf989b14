# TCP connection and event channel of a muduo-style reactor

This project models the decision logic of a muduo-style reactor's per-connection object and its event channel. Every operating-system call is replaced by an input that gives its outcome:

- a non-blocking `::write` or `Buffer::writeFd` returns `Wrote(n)` or `WriteFailed(errno)`;
- `Buffer::readFd` returns `Received(bytes)` or `ReadFailed(errno)`.

Modules:

- `Os` (os.dfy): bytes, the errno values the code distinguishes, and the two oracle result types. `Fits(w, len)` is the operating system's promise that a write takes at most the bytes it was offered.
- `Events` (events.dfy) covers Channel:
  - the epoll bits, and the interest constants written as bit masks;
  - the interest setters as bit operations on `events_`, each followed by one `update()`;
  - `handleEventWithGuard`, a pure function from the readiness mask and the registered callbacks to the ordered list of callbacks it calls;
  - `handleEvent`'s weak-owner guard;
  - class `Channel`, holding the fields the source changes in place.
- `Connection` (connection.dfy) describes one TcpConnection as a value `Conn`, with one function per member of the class:
  - `queueInLoop` appends a `Task` to a list;
  - user callbacks called inline append an `Upcall` to a log;
  - `socket_->shutdownWrite()` sets `writeShut`;
  - the observer fields `wire`, `sent` and `faulted` record every byte the descriptor took, every byte `sendInLoop` was given, and whether a send was abandoned on a fault.
  The invariant `Inv` says four things:
  - `wire ++ output == sent` unless a send faulted;
  - write interest is on only while output is pending;
  - before Disconnected, pending output has write interest;
  - the write side is shut only once the output buffer is empty, and only after shutdown.
- `Tcp` (tcp_connection.dfy) is class `TcpConnection`. Its fields are updated in place and it owns a `Channel` object. Each method is proved to move `Model()` exactly as the matching `Connection` function does.
- `Traces` (traces.dfy) models any sequence of sends, shutdowns, lifecycle calls, readiness reports and callback registrations. It proves the invariant and monotonicity over every run, and includes scenario lemmas.

## Model

| member | source | states |
|---|---|---|
| Events.Apply | Channel.cc:7-9 | enableReading sets read interest, enableWriting sets write interest and disableWriting clears it, each keeping the other flag; disableAll gives kNoneEvent |
| Events.ApplyMatchesRequest | Channel.cc:7-9 | whatever other bits events_ holds, the setters move isReading()/isWriting() exactly as the two-flag request says |
| Events.InterestFollowsLastRequest | Channel.cc:34-38 | after any sequence of setter calls, the channel is writing (reading) exactly when the last call concerning writing (reading) asked for it |
| Events.InOrder | Channel.cc:63-99 | a callback is in the fired list iff its condition holds, and the list is in close, error, read, write order with no repeats |
| Events.HandleEventWithGuard | Channel.cc:63-99 | close fires iff set and EPOLLHUP without EPOLLIN; error iff set and EPOLLERR; read iff set and EPOLLIN or EPOLLPRI; write iff set and EPOLLOUT; fixed order, each at most once |
| Events.Dispatch | Channel.cc:46-60 | a tied channel whose owner cannot be locked fires nothing; otherwise (untied, or owner alive) it dispatches as handleEventWithGuard |
| Events.HangUpWithError | Channel.cc:69-82 | EPOLLHUP with EPOLLERR fires close and then error in one dispatch |
| Events.HangUpWithData | Channel.cc:69-91 | EPOLLHUP with EPOLLIN is a read, not a close |
| Events.Channel.constructor | Channel.cc:12-19 | a new channel has no interest, no revents, index -1, no tie and no callbacks |
| Events.Channel.Tie | Channel.cc:26-30 | records the owner and sets tied |
| Events.Channel.Update | Channel.cc:34-38 | records exactly one updateChannel call into the loop |
| Events.Channel.Remove | Channel.cc:41-44 | records exactly one removeChannel call into the loop |
| Events.Channel.SetInterest | Channel.cc:34-38 | the new mask is the setter's bit operation on the old one, the flags move as requested, and exactly one update follows |
| Events.Channel.EnableReading | Channel.cc:34-38 | ORs kReadEvent into the mask (read interest on, write interest kept), then exactly one update |
| Events.Channel.EnableWriting | Channel.cc:34-38 | ORs kWriteEvent into the mask (write interest on, read interest kept), then exactly one update |
| Events.Channel.DisableWriting | Channel.cc:34-38 | masks kWriteEvent out (write interest off, read interest kept), then exactly one update |
| Events.Channel.DisableAll | Channel.cc:34-38 | sets the mask to kNoneEvent, then exactly one update |
| Events.Channel.IsNoneEvent | Channel.cc:7 | a channel whose mask is kNoneEvent is neither reading nor writing |
| Events.Channel.SetReadCallback | TcpConnection.cc:41-43 | binds the read callback and changes no other field |
| Events.Channel.SetWriteCallback | TcpConnection.cc:44-46 | binds the write callback and changes no other field |
| Events.Channel.SetCloseCallback | TcpConnection.cc:47-49 | binds the close callback and changes no other field |
| Events.Channel.SetErrorCallback | TcpConnection.cc:50-52 | binds the error callback and changes no other field |
| Events.Channel.SetRevents | Channel.cc:63-69 | stores the readiness mask that handleEventWithGuard then reads, and changes no other field |
| Events.Channel.HandleEvent | Channel.cc:46-60 | on the stored revents: nothing when tied with a dead owner, otherwise exactly the callbacks handleEventWithGuard selects |
| Connection.Initial | TcpConnection.cc:25-38 | a new connection is Connecting, with empty buffers, no interest, untied, a 64 MiB high-water mark, no callbacks, and satisfies Inv |
| Connection.ShutdownInLoop | TcpConnection.cc:76-82 | half-closes exactly when write interest is off and changes nothing else; under Inv, on a connection not yet Disconnected whose write side is still open, this means exactly when the output buffer is empty |
| Connection.Shutdown | TcpConnection.cc:66-75 | acts only from Connected: goes to Disconnecting, then half-closes now iff nothing is pending (otherwise deferred); keeps Inv |
| Connection.ConnectEstablished | TcpConnection.cc:85-93 | Connected, tied, read interest on with write interest kept, one update, then one connection callback, and no other field changes; from Connecting keeps Inv |
| Connection.ConnectDestroyed | TcpConnection.cc:95-104 | from Connected: Disconnected, all interest off, one update, connection callback; in every state it removes the channel exactly once; no other field changes; keeps Inv |
| Connection.HandleClose | TcpConnection.cc:166-175 | in any state: Disconnected, no interest, one update, the connection callback then the close callback; no other field changes; keeps Inv |
| Connection.HandleError | TcpConnection.cc:177-192 | changes no connection state |
| Connection.HandleRead | TcpConnection.cc:106-127 | n > 0 appends the bytes to the input buffer and calls the message callback with its size, changing nothing else; n == 0 is handleClose; n < 0 only reaches handleError; the output side is never touched; keeps Inv |
| Connection.HandleWrite | TcpConnection.cc:129-164 | without write interest, or when nothing was written, nothing changes; n > 0 removes exactly the first n bytes and puts them on the wire; an emptied buffer turns write interest off, queues write-complete iff set, and half-closes if Disconnecting; only the buffer, wire, interest, loop calls, tasks and write side can change |
| Connection.AfterDrain | TcpConnection.cc:138-151 | write interest off with read interest kept, exactly one update, write-complete queued iff set, the write side shut if Disconnecting, and nothing else changed |
| Connection.SendInLoop | TcpConnection.cc:215-226 | on a Disconnected connection nothing changes; otherwise only the buffer, interest, loop calls, tasks and the wire change |
| Connection.AfterDirectWrite | TcpConnection.cc:228-256 | the direct write puts the first nwrote bytes on the wire (nwrote is 0 off the fast path or on a failed write), EPIPE/ECONNRESET mark a fault, and write-complete is queued iff the fast-path write took everything and the callback is set |
| Connection.BufferTail | TcpConnection.cc:262-279 | the tail is appended to the output buffer, write interest is on afterwards with read interest kept (exactly one update when it was off, none when it was on), and the high-water-mark task (carrying oldLen + remaining) is queued iff oldLen < mark <= oldLen + remaining and the callback is set |
| Connection.SendInLoopWrites | TcpConnection.cc:228-245 | a direct write happens only with no write interest and an empty buffer; it takes the first nwrote bytes of data, and all of data is counted as sent |
| Connection.SendInLoopBuffers | TcpConnection.cc:246-279 | a fault leaves buffer and interest untouched; an unwritten tail makes the buffer old ++ data[nwrote..] with write interest on and one update iff it was off; a complete write leaves both alone |
| Connection.SendInLoopQueues | TcpConnection.cc:232-273 | one sendInLoop queues at most one task: write-complete exactly when the direct write took all of data and the callback is set, and the high-water mark exactly on the upward crossing |
| Connection.SendWhileDraining | TcpConnection.cc:229-279 | with write interest on, send skips the direct write: the data goes to the back of the buffer and only the high-water-mark task can be queued |
| Connection.SendWouldBlock | TcpConnection.cc:243-279 | a direct write that would block takes nothing: all of data is buffered, write interest goes on with one update, and the high-water-mark task is queued iff data reaches the mark |
| Connection.SendInLoopKeepsInv | TcpConnection.cc:215-280 | while the write side is open, sendInLoop keeps wire ++ output == sent and the interest/backlog invariant |
| Connection.DirectWriteStream | TcpConnection.cc:229-245 | without a fault, the wire after the direct write, then the buffer, then data[nwrote..] are exactly everything sent |
| Connection.BufferTailKeepsInv | TcpConnection.cc:262-279 | appending a non-empty tail that follows the wire and the buffer keeps Inv |
| Connection.Send | TcpConnection.cc:194-213 | does nothing at all unless Connected; when Connected it is sendInLoop |
| Connection.SendKeepsInv | TcpConnection.cc:194-213 | send keeps Inv in every state |
| Connection.Handle | TcpConnection.cc:41-52 | each channel callback runs its bound handler; only the write handler touches the output buffer; state never regresses, tasks and callbacks only grow, Inv is kept |
| Connection.Deliver | Channel.cc:63-99 | running one dispatch's callbacks in order on the connection never regresses the state, only grows tasks and callbacks, and keeps Inv |
| Tcp.TcpConnection.constructor | TcpConnection.cc:25-56 | the object's value is the initial connection, on a fresh channel for sockfd with all four callbacks bound and reading_ true |
| Tcp.TcpConnection.SetWriteCompleteCallback | TcpConnection.cc:141-146 | only the write-complete callback becomes set, which the drain and the send path test |
| Tcp.TcpConnection.SetHighWaterMarkCallback | TcpConnection.cc:266-273 | only the high-water-mark callback and its mark become set, which the send path tests |
| Tcp.TcpConnection.Shutdown | TcpConnection.cc:66-75 | the object moves as Connection.Shutdown; reading_ is kept and the channel is untouched |
| Tcp.TcpConnection.ShutdownInLoop | TcpConnection.cc:76-82 | the object moves as Connection.ShutdownInLoop; reading_ is kept and the channel is untouched |
| Tcp.TcpConnection.ConnectEstablished | TcpConnection.cc:85-93 | the object moves as Connection.ConnectEstablished and the channel's tie is this connection; reading_ is kept, and of the channel only the mask, the loop calls and the tie change |
| Tcp.TcpConnection.ConnectDestroyed | TcpConnection.cc:95-104 | the object moves as Connection.ConnectDestroyed; reading_ is kept, and of the channel at most the mask and its loop calls change |
| Tcp.TcpConnection.HandleRead | TcpConnection.cc:106-127 | the object moves as Connection.HandleRead; reading_ is kept, and of the channel at most the mask and its loop calls change |
| Tcp.TcpConnection.HandleWrite | TcpConnection.cc:129-164 | the object moves as Connection.HandleWrite, trimming the buffer in place; reading_ is kept, and of the channel at most the mask and its loop calls change |
| Tcp.TcpConnection.FinishDrain | TcpConnection.cc:138-151 | the object moves as Connection.AfterDrain; reading_ is kept, and of the channel at most the mask and its loop calls change |
| Tcp.TcpConnection.HandleClose | TcpConnection.cc:166-175 | the object moves as Connection.HandleClose; reading_ is kept, and of the channel at most the mask and its loop calls change |
| Tcp.TcpConnection.HandleError | TcpConnection.cc:177-192 | the object's value does not change |
| Tcp.TcpConnection.Send | TcpConnection.cc:194-213 | the object moves as Connection.Send; reading_ is kept, and of the channel at most the mask and its loop calls change |
| Tcp.TcpConnection.SendInLoop | TcpConnection.cc:215-280 | the object moves as Connection.SendInLoop; reading_ is kept, and of the channel at most the mask and its loop calls change |
| Tcp.TcpConnection.WriteDirect | TcpConnection.cc:228-256 | returns nwrote and faultError as the direct write decides them, and moves the object as Connection.AfterDirectWrite; reading_ is kept and the channel is untouched |
| Tcp.TcpConnection.AppendTail | TcpConnection.cc:262-279 | the object moves as Connection.BufferTail, appending to the buffer in place; reading_ is kept, and of the channel at most the mask and its loop calls change |
| Traces.Fired | Channel.cc:46-99 | the callbacks one readiness report fires on a connection's channel are in dispatch order |
| Traces.StepKeepsInv | TcpConnection.cc:66-280 | any one admissible call keeps Inv, never moves the state back, and only appends to tasks and callbacks |
| Traces.RunKeepsInv | TcpConnection.cc:66-280 | over any run of admissible calls, Inv holds, the state never moves back, and tasks and callbacks only grow |
| Traces.InOrderDelivery | TcpConnection.cc:229-274 | from construction, unless a send faulted, the descriptor has taken a prefix of all data sent, in order, and the output buffer is exactly the rest |
| Traces.HalfCloseAfterDrain | TcpConnection.cc:76-82 | from construction, the write side is shut only with an empty buffer, and then every byte sent has reached the descriptor unless a send faulted |
| Traces.DeadOwnerIgnored | Channel.cc:46-60 | a readiness report on a tied connection whose owner is gone changes nothing |
| Traces.HelloScenario | TcpConnection.cc:129-280 | "hello" with a 2-byte direct write buffers "llo" with write interest on; a 3-byte drain empties it, turns write interest off and queues write-complete exactly once |
| Traces.EstablishedIsIdle | TcpConnection.cc:85-93 | a freshly established connection is Connected with no write interest, an empty buffer and no tasks |
| Traces.HighWaterMarkPerCrossing | TcpConnection.cc:262-273 | on any idle connection with a mark of 4, buffer sizes 3, 5, 6, 2, 4 queue the high-water-mark task exactly on the two upward crossings, with sizes 5 and 4 |
| Traces.FirstCrossing | TcpConnection.cc:229-273 | 3 bytes that would block stay below the mark of 4, 2 more cross it (task with size 5), 1 more stays above it |
| Traces.SecondCrossing | TcpConnection.cc:133-273 | a 4-byte drain takes the buffer from 6 to 2, and 2 more bytes cross the mark again (task with size 4) |
| Traces.ShutdownDeferred | TcpConnection.cc:66-82 | shutdown with output pending defers the half-close; the drain that empties the buffer performs it and everything sent is on the wire |
| Traces.ZeroReadCloses | TcpConnection.cc:115-118 | a zero-length read while a drain is pending gives Disconnected, no interest, and exactly one connection callback followed by one close callback |

## Left out

- Logging: all `LOG_INFO`/`LOG_ERROR`/`LOG_FATAL` output, and the null-loop fatal check in `CheckLoopNotNull`. The model always has a loop.
- `handleError`'s `getsockopt(SO_ERROR)` lookup: it only feeds a log line, so `HandleError` changes nothing.
- The system calls and Buffer internals: `::write`, `readFd`, `writeFd`, `Socket::setKeepAlive` and `shutdownWrite`. Their outcomes are the inputs `WriteResult`/`ReadResult`; the half-close is the flag `writeShut`; keep-alive is not modelled.
- Threading:
  - every call is taken to run on the loop thread, so `runInLoop` runs its functor at once and `isInLoopThread` is not modelled;
  - `queueInLoop` records a `Task`, and the queued functors are never run;
  - the cross-thread branch of `send` binding `buf.c_str()` without a copy is a lifetime issue that values cannot express.
- `shared_ptr`/`weak_ptr`/`shared_from_this`: the owner is an `object` reference, and whether `tie_.lock()` succeeds is the input `ownerAlive`.
- `index_` is only initialised. `Timestamp`, the receive time passed to the read callback, and `InetAddress` contents are not modelled.
- The user callbacks' bodies are not modelled: `Upcall` records the call and its argument, and `Task` records a queued functor.
- The connection, message and close callbacks are called without a test that they are set, so an unset one throws `std::bad_function_call`. The model assumes all three are set: it always records the `Upcall`, and has no exception path.
- The connection's own callback setters for the connection, message and close callbacks are not modelled, as those callbacks are assumed set. The write-complete and high-water-mark setters are `Tcp.TcpConnection.SetWriteCompleteCallback` and `SetHighWaterMarkCallback`.
- The class headers TcpConnection.h and Channel.h are not part of this model. Their members appear here as follows:
  - the interest setters are `Events.Channel.EnableReading`, `EnableWriting`, `DisableWriting` and `DisableAll`, each an OR/AND-NOT of the mask followed by one `update()`;
  - `isWriting`/`isReading` are the bit tests `Events.Channel.IsWriting`/`IsReading`, and `isNoneEvent` is `IsNoneEvent`;
  - the callback setters are `Events.Channel.SetReadCallback`, `SetWriteCallback`, `SetCloseCallback`, `SetErrorCallback`;
  - `set_revents` is `SetRevents`.
- Connection.Conn keeps only the reading/writing flags of `events_`. That is exact because `events_` changes only through the setters (Events.ApplyMatchesRequest); the class keeps the full mask.
- Events.Apply: does not state that bits outside kReadEvent/kWriteEvent are kept; only the two interest flags are specified.
- Integer widths: `size_t`/`ssize_t` are unbounded, so an overflow of `oldLen + remaining` is not modelled.
- Traces.Step admits `connectEstablished` only from Connecting, as an acceptor calls it once after construction. The source itself does not check the state, and `Connection.ConnectEstablished` models it unguarded.
- Two behaviours of the code are modelled as written:
  - a failed read does not close the connection: it only reaches `handleError`, which only logs;
  - `connectDestroyed` outside kConnected only removes the channel, with no state change and no callback.
