/** The event channel of Channel.cc: one descriptor's interest mask, the
    readiness mask the poller last delivered, the weak tie to an owner, and
    the decision which registered callbacks a readiness report fires. */
module Events {
  import opened Os

  /** A set of epoll readiness bits, as the `int` events_ and revents_ hold them. */
  type Mask = bv32

  const EPOLLIN: Mask := 1
  const EPOLLPRI: Mask := 2
  const EPOLLOUT: Mask := 4
  const EPOLLERR: Mask := 8
  const EPOLLHUP: Mask := 16

  const NoneEvent: Mask := 0
  const ReadEvent: Mask := EPOLLIN | EPOLLPRI
  const WriteEvent: Mask := EPOLLOUT

  predicate HasRead(m: Mask) { m & ReadEvent != 0 }
  predicate HasWrite(m: Mask) { m & WriteEvent != 0 }

  // ---------------------------------------------------------------------------
  // Interest setters: each one ORs in or masks out bits of events_ and then
  // re-registers the channel with its loop.

  datatype InterestOp = EnableReading | EnableWriting | DisableWriting | DisableAll

  /** The interest mask after one setter call. */
  function Apply(m: Mask, op: InterestOp): (r: Mask)
    ensures op == EnableReading ==> HasRead(r) && HasWrite(r) == HasWrite(m)
    ensures op == EnableWriting ==> HasWrite(r) && HasRead(r) == HasRead(m)
    ensures op == DisableWriting ==> !HasWrite(r) && HasRead(r) == HasRead(m)
    ensures op == DisableAll ==> !HasRead(r) && !HasWrite(r) && r == NoneEvent
  {
    match op
    case EnableReading => m | ReadEvent
    case EnableWriting => m | WriteEvent
    case DisableWriting => m & !WriteEvent
    case DisableAll => NoneEvent
  }

  /** The interest of a channel as the two things callers ask about:
      isReading() and isWriting(). */
  datatype Interest = Interest(reading: bool, writing: bool)

  const NoInterest := Interest(false, false)

  function InterestOf(m: Mask): Interest
  {
    Interest(HasRead(m), HasWrite(m))
  }

  /** The two flags after one setter call. */
  function Request(i: Interest, op: InterestOp): Interest
  {
    match op
    case EnableReading => i.(reading := true)
    case EnableWriting => i.(writing := true)
    case DisableWriting => i.(writing := false)
    case DisableAll => NoInterest
  }

  /** The bit operations on events_ move the two flags exactly as Request
      says, whatever other bits the mask holds. */
  lemma ApplyMatchesRequest(m: Mask, op: InterestOp)
    ensures InterestOf(Apply(m, op)) == Request(InterestOf(m), op)
  {
  }

  /** The interest mask after a sequence of setter calls, in order. */
  function ApplyAll(m: Mask, ops: seq<InterestOp>): Mask
    decreases |ops|
  {
    if ops == [] then m else Apply(ApplyAll(m, ops[..|ops| - 1]), ops[|ops| - 1])
  }

  /** Reference reading of "the last request wins": whether the most recent
      call that concerns writing asked for it (`init` when there is none). */
  function LastWriteRequest(init: bool, ops: seq<InterestOp>): bool
    decreases |ops|
  {
    if ops == [] then init
    else match ops[|ops| - 1]
      case EnableWriting => true
      case DisableWriting => false
      case DisableAll => false
      case EnableReading => LastWriteRequest(init, ops[..|ops| - 1])
  }

  /** The same for reading: only enableReading and disableAll concern it. */
  function LastReadRequest(init: bool, ops: seq<InterestOp>): bool
    decreases |ops|
  {
    if ops == [] then init
    else match ops[|ops| - 1]
      case EnableReading => true
      case DisableAll => false
      case EnableWriting => LastReadRequest(init, ops[..|ops| - 1])
      case DisableWriting => LastReadRequest(init, ops[..|ops| - 1])
  }

  /** Whatever the order of the setter calls, the channel is interested in
      writing (reading) exactly when the last call about writing (reading)
      asked for it. */
  lemma {:induction false} InterestFollowsLastRequest(m: Mask, ops: seq<InterestOp>)
    ensures HasWrite(ApplyAll(m, ops)) == LastWriteRequest(HasWrite(m), ops)
    ensures HasRead(ApplyAll(m, ops)) == LastReadRequest(HasRead(m), ops)
    decreases |ops|
  {
    if ops != [] {
      InterestFollowsLastRequest(m, ops[..|ops| - 1]);
    }
  }

  // ---------------------------------------------------------------------------
  // Dispatch

  datatype Callback = CloseCallback | ErrorCallback | ReadCallback | WriteCallback

  /** Position of a callback in the fixed dispatch order. */
  function CallbackRank(cb: Callback): nat
  {
    match cb
    case CloseCallback => 0
    case ErrorCallback => 1
    case ReadCallback => 2
    case WriteCallback => 3
  }

  /** Strictly increasing in the dispatch order: so no callback twice. */
  predicate Ordered(s: seq<Callback>)
  {
    forall i, j :: 0 <= i < j < |s| ==> CallbackRank(s[i]) < CallbackRank(s[j])
  }

  /** Which of the four callbacks are set (a null std::function is not). */
  datatype Handlers = Handlers(read: bool, write: bool, close: bool, error: bool)

  const NoHandlers := Handlers(false, false, false, false)
  const AllHandlers := Handlers(true, true, true, true)

  /** The callbacks whose conditions hold, in the dispatch order. */
  function InOrder(close: bool, error: bool, read: bool, write: bool): (fired: seq<Callback>)
    ensures CloseCallback in fired <==> close
    ensures ErrorCallback in fired <==> error
    ensures ReadCallback in fired <==> read
    ensures WriteCallback in fired <==> write
    ensures Ordered(fired)
  {
    (if close then [CloseCallback] else []) + (if error then [ErrorCallback] else [])
    + (if read then [ReadCallback] else []) + (if write then [WriteCallback] else [])
  }

  /** handleEventWithGuard: the callbacks one readiness report fires, in the
      order they are called. */
  function HandleEventWithGuard(revents: Mask, h: Handlers): (fired: seq<Callback>)
    ensures CloseCallback in fired <==> h.close && revents & EPOLLHUP != 0 && revents & EPOLLIN == 0
    ensures ErrorCallback in fired <==> h.error && revents & EPOLLERR != 0
    ensures ReadCallback in fired <==> h.read && revents & (EPOLLIN | EPOLLPRI) != 0
    ensures WriteCallback in fired <==> h.write && revents & EPOLLOUT != 0
    ensures Ordered(fired)
  {
    InOrder(h.close && revents & EPOLLHUP != 0 && revents & EPOLLIN == 0,
            h.error && revents & EPOLLERR != 0,
            h.read && revents & (EPOLLIN | EPOLLPRI) != 0,
            h.write && revents & EPOLLOUT != 0)
  }

  /** handleEvent: a tied channel dispatches only while its owner can be
      locked; an untied channel always dispatches. */
  function Dispatch(tied: bool, ownerAlive: bool, revents: Mask, h: Handlers): (fired: seq<Callback>)
    ensures tied && !ownerAlive ==> fired == []
    ensures !tied || ownerAlive ==> fired == HandleEventWithGuard(revents, h)
  {
    if tied then (if ownerAlive then HandleEventWithGuard(revents, h) else [])
    else HandleEventWithGuard(revents, h)
  }

  /** A hang-up together with an error fires both callbacks, close first. */
  lemma HangUpWithError()
    ensures HandleEventWithGuard(EPOLLHUP | EPOLLERR, AllHandlers) == [CloseCallback, ErrorCallback]
  {
  }

  /** A hang-up with data still to read is a read, not a close. */
  lemma HangUpWithData()
    ensures HandleEventWithGuard(EPOLLHUP | EPOLLIN, AllHandlers) == [ReadCallback]
  {
  }

  // ---------------------------------------------------------------------------
  // The channel object

  /** A call the channel makes into its loop (EventLoop::updateChannel / removeChannel). */
  datatype LoopCall = UpdateChannel | RemoveChannel

  class Channel {
    const fd: int
    var events: Mask
    var revents: Mask
    var index: int
    var tie: Option<object>
    var tied: bool
    var callbacks: Handlers
    /** The calls into the owning loop, oldest first. */
    var loopCalls: seq<LoopCall>

    constructor (fd: int)
      ensures this.fd == fd && events == NoneEvent && revents == NoneEvent && index == -1
      ensures tie == None && !tied && callbacks == NoHandlers && loopCalls == []
    {
      this.fd := fd;
      events, revents, index := NoneEvent, NoneEvent, -1;
      tie, tied := None, false;
      callbacks := NoHandlers;
      loopCalls := [];
    }

    predicate IsWriting() reads this { HasWrite(events) }
    predicate IsReading() reads this { HasRead(events) }
    predicate IsNoneEvent()
      reads this
      ensures IsNoneEvent() ==> !IsReading() && !IsWriting()
    {
      events == NoneEvent
    }

    method Tie(owner: object)
      modifies this`tie, this`tied
      ensures tie == Some(owner) && tied
    {
      tie := Some(owner);
      tied := true;
    }

    method SetReadCallback()
      modifies this`callbacks
      ensures callbacks == old(callbacks).(read := true)
    {
      callbacks := callbacks.(read := true);
    }

    method SetWriteCallback()
      modifies this`callbacks
      ensures callbacks == old(callbacks).(write := true)
    {
      callbacks := callbacks.(write := true);
    }

    method SetCloseCallback()
      modifies this`callbacks
      ensures callbacks == old(callbacks).(close := true)
    {
      callbacks := callbacks.(close := true);
    }

    method SetErrorCallback()
      modifies this`callbacks
      ensures callbacks == old(callbacks).(error := true)
    {
      callbacks := callbacks.(error := true);
    }

    /** The poller stores what it observed for this descriptor. */
    method SetRevents(r: Mask)
      modifies this`revents
      ensures revents == r
    {
      revents := r;
    }

    /** update(): hand the current interest mask to the loop. */
    method Update()
      modifies this`loopCalls
      ensures loopCalls == old(loopCalls) + [UpdateChannel]
    {
      loopCalls := loopCalls + [UpdateChannel];
    }

    /** remove(): ask the loop to stop tracking the channel. */
    method Remove()
      modifies this`loopCalls
      ensures loopCalls == old(loopCalls) + [RemoveChannel]
    {
      loopCalls := loopCalls + [RemoveChannel];
    }

    /** One interest setter: change the mask, then one update() with the new mask. */
    method SetInterest(op: InterestOp)
      modifies this`events, this`loopCalls
      ensures events == Apply(old(events), op)
      ensures InterestOf(events) == Request(InterestOf(old(events)), op)
      ensures loopCalls == old(loopCalls) + [UpdateChannel]
    {
      ApplyMatchesRequest(events, op);
      events := Apply(events, op);
      Update();
    }

    method EnableReading()
      modifies this`events, this`loopCalls
      ensures events == Apply(old(events), InterestOp.EnableReading)
      ensures InterestOf(events) == Request(InterestOf(old(events)), InterestOp.EnableReading)
      ensures loopCalls == old(loopCalls) + [UpdateChannel]
    {
      SetInterest(InterestOp.EnableReading);
    }

    method EnableWriting()
      modifies this`events, this`loopCalls
      ensures events == Apply(old(events), InterestOp.EnableWriting)
      ensures InterestOf(events) == Request(InterestOf(old(events)), InterestOp.EnableWriting)
      ensures loopCalls == old(loopCalls) + [UpdateChannel]
    {
      SetInterest(InterestOp.EnableWriting);
    }

    method DisableWriting()
      modifies this`events, this`loopCalls
      ensures events == Apply(old(events), InterestOp.DisableWriting)
      ensures InterestOf(events) == Request(InterestOf(old(events)), InterestOp.DisableWriting)
      ensures loopCalls == old(loopCalls) + [UpdateChannel]
    {
      SetInterest(InterestOp.DisableWriting);
    }

    method DisableAll()
      modifies this`events, this`loopCalls
      ensures events == Apply(old(events), InterestOp.DisableAll)
      ensures InterestOf(events) == Request(InterestOf(old(events)), InterestOp.DisableAll)
      ensures loopCalls == old(loopCalls) + [UpdateChannel]
    {
      SetInterest(InterestOp.DisableAll);
    }

    /** handleEvent on the stored revents: the callbacks it calls, in order,
        given whether the weak owner can currently be locked. */
    method HandleEvent(ownerAlive: bool) returns (fired: seq<Callback>)
      ensures tied && !ownerAlive ==> fired == []
      ensures !tied || ownerAlive ==> fired == HandleEventWithGuard(revents, callbacks)
    {
      fired := Dispatch(tied, ownerAlive, revents, callbacks);
    }
  }
}
