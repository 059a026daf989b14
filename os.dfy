/** What the connection sees of the operating system: the outcomes of one
    non-blocking `::write`/`Buffer::writeFd` and one `Buffer::readFd` call,
    supplied as inputs instead of being performed. */
module Os {

  newtype byte = b: int | 0 <= b < 256

  datatype Option<T> = None | Some(value: T)

  /** The errno values the connection tells apart; every other value is EOther. */
  datatype Errno = EWouldBlock | EPipe | EConnReset | EOther

  /** One non-blocking write of a span: the number of bytes the descriptor took,
      or the errno of a failed call (a return value below zero). */
  datatype WriteResult = Wrote(n: nat) | WriteFailed(err: Errno)

  /** A write never takes more bytes than it was offered. */
  predicate Fits(w: WriteResult, len: nat)
  {
    w.Wrote? ==> w.n <= len
  }

  /** One read from the descriptor into the input buffer: the bytes that
      arrived (none at all means the peer closed in order), or the errno of a
      failed call. */
  datatype ReadResult = Received(bytes: seq<byte>) | ReadFailed(err: Errno)

  /** A broken pipe or a reset: the two errors that abandon a send. */
  predicate IsFault(w: WriteResult)
  {
    w.WriteFailed? && (w.err == EPipe || w.err == EConnReset)
  }
}
