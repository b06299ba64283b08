/** The Linux input reader: one epoll instance watches the input file and
    the read end of a private pipe; `Cancel` sets the cancel flag and writes
    one byte into the pipe to wake a blocked wait. The system calls are
    replaced by their outcomes, passed in as parameters. */
module EpollReader {

  import Boba
  import opened Wrappers
  import opened Errors
  import opened Retry
  import opened Strings
  import opened InputReader

  /** `newInputReader`'s choice: a file gets the epoll reader, anything else
      the fallback reader that cannot be cancelled. */
  function NewInputReader(src: Source): (s: Strategy)
    ensures s == Fallback <==> src.OtherReader?
    ensures s != Select
  {
    if src.OtherReader? then Fallback else Epoll
  }

  /** What one `EpollWait` call reports: an error, or an event whose
      descriptor is `fd`. */
  datatype WaitOutcome = WaitFailed(errno: Errno) | EventOn(fd: int)

  /** The outcomes `wait` retries. */
  predicate Interrupted(o: WaitOutcome)
  {
    o == WaitFailed(EINTR)
  }

  /** Some call eventually returns something other than EINTR. */
  predicate Settles(outcomes: seq<WaitOutcome>)
  {
    exists i :: 0 <= i < |outcomes| && !Interrupted(outcomes[i])
  }

  class Reader {
    const fileFd: nat
    /** The descriptor of the pipe's read end, watched beside the file. */
    const signalFd: nat
    var cancelled: bool
    /** Bytes written into the pipe and not yet read back. */
    var pending: nat
    var epollOpen: bool
    var signalWriterOpen: bool
    var signalReaderOpen: bool

    /** The reader as a successful `newInputReader` leaves it. */
    constructor (fileFd: nat, signalFd: nat)
      ensures this.fileFd == fileFd && this.signalFd == signalFd
      ensures !cancelled && pending == 0
      ensures epollOpen && signalWriterOpen && signalReaderOpen
    {
      this.fileFd, this.signalFd := fileFd, signalFd;
      cancelled, pending := false, 0;
      epollOpen, signalWriterOpen, signalReaderOpen := true, true, true;
    }

    /** What `wait` makes of the outcome it stops at: a failure wrapped as
      "kevent: %w"; an event on the file means readable (nil); on the pipe,
      cancelled; on anything else, an unknown error. */
    function Classify(o: WaitOutcome): (err: Option<Error>)
      ensures err.None? <==> o == EventOn(fileFd)
      ensures err == Some(Canceled) <==> o == EventOn(signalFd) && signalFd != fileFd
      ensures o.WaitFailed? ==> err == Some(Wrapped("kevent", Sys(o.errno)))
      ensures err.Some? ==> (Is(err.value, Canceled) <==> err.value == Canceled)
    {
      match o
      case WaitFailed(e) => Some(Wrapped("kevent", Sys(e)))
      case EventOn(fd) =>
        if fd == fileFd then None
        else if fd == signalFd then Some(Canceled)
        else Some(Message("unknown error"))
    }

    /** `wait`: calls `EpollWait` until it returns something other than
      EINTR, then classifies the first event. Returns the error and the
      number of `EpollWait` calls made. */
    method Wait(outcomes: seq<WaitOutcome>) returns (err: Option<Error>, calls: nat)
      requires Settles(outcomes)
      ensures calls == FirstSettled(outcomes, Interrupted) + 1
      ensures err == Classify(outcomes[calls - 1])
    {
      var k := 0;
      while true
        invariant 0 <= k < |outcomes|
        invariant forall j :: 0 <= j < k ==> Interrupted(outcomes[j])
        invariant k <= FirstSettled(outcomes, Interrupted)
        decreases |outcomes| - k
      {
        var o := outcomes[k];
        if o == WaitFailed(EINTR) {
          k := k + 1;
          continue;
        }
        if o.WaitFailed? {
          return Some(Wrapped("kevent", Sys(o.errno))), k + 1;
        }
        break;
      }
      calls := k + 1;
      var fd := outcomes[k].fd;
      if fd == fileFd {
        return None, calls;
      } else if fd == signalFd {
        return Some(Canceled), calls;
      }
      return Some(Message("unknown error")), calls;
    }

    /** `ReadInput`. `outcomes` are what the `EpollWait` calls report,
      `drain` the error of reading the signal byte back (if it fails), and
      `parse` what the decoder makes of the readable file. */
    method ReadInput(outcomes: seq<WaitOutcome>, drain: Option<Errno>, parse: ParseOutcome)
      returns (msgs: seq<Boba.Msg>, err: Option<Error>)
      requires !cancelled ==> Settles(outcomes)
      modifies this`pending
      // Already cancelled: no wait, and the pipe is left as it is.
      ensures old(cancelled) ==> msgs == [] && err == Some(Canceled) && pending == old(pending)
      ensures !old(cancelled) ==>
        var w := Classify(outcomes[FirstSettled(outcomes, Interrupted)]);
        // Woken by the pipe: one byte is read back; a failed read is reported instead.
        (w == Some(Canceled) && drain.None? ==>
           msgs == [] && err == Some(Canceled) && pending == if old(pending) > 0 then old(pending) - 1 else 0) &&
        (w == Some(Canceled) && drain.Some? ==>
           msgs == [] && err == Some(Wrapped(DrainContext, Sys(drain.value))) && pending == old(pending)) &&
        // Any other wait error is passed on as it is.
        (w.Some? && w != Some(Canceled) ==> msgs == [] && err == w && pending == old(pending)) &&
        // Readable: exactly one parsed message, or the parse error.
        (w.None? ==> (msgs, err) == Delivered(parse) && pending == old(pending))
    {
      if cancelled {
        return [], Some(Canceled);
      }
      var w, _ := Wait(outcomes);
      if w.Some? {
        if Is(w.value, Canceled) {
          match drain
          case Some(e) =>
            return [], Some(Wrapped(DrainContext, Sys(e)));
          case None =>
            pending := if pending > 0 then pending - 1 else 0;
        }
        return [], w;
      }
      match parse
      case ParseFailed(e) =>
        return [], Some(e);
      case Parsed(m) =>
        return [m], None;
    }

    /** `Cancel`: sets the flag whatever happens, writes one byte into the
      pipe, and reports whether the write succeeded. */
    method Cancel(writeErr: Option<Errno>) returns (ok: bool)
      modifies this`cancelled, this`pending
      ensures cancelled
      ensures ok <==> writeErr.None?
      ensures pending == old(pending) + (if ok then 1 else 0)
    {
      cancelled := true;
      if writeErr.None? {
        pending := pending + 1;
      }
      ok := writeErr.None?;
    }

    /** `Close`: closes the epoll instance, the pipe's writer and its
      reader, each whatever the earlier ones did, and reports every failure
      in that order. A failed close still gives the descriptor up. */
    method Close(epollErr: Option<string>, writerErr: Option<string>, readerErr: Option<string>)
      returns (err: Option<string>)
      modifies this`epollOpen, this`signalWriterOpen, this`signalReaderOpen
      ensures !epollOpen && !signalWriterOpen && !signalReaderOpen
      ensures err == Aggregate([Release("closing epoll", epollErr),
                                Release("closing cancel signal writer", writerErr),
                                Release("closing cancel signal reader", readerErr)])
    {
      var errMsgs: seq<string> := [];
      ghost var attempted: seq<Release> := [];
      epollOpen := false;
      if epollErr.Some? {
        errMsgs := errMsgs + [FailureMessage("closing epoll", epollErr.value)];
      }
      FailureMessagesAppend(attempted, Release("closing epoll", epollErr));
      attempted := attempted + [Release("closing epoll", epollErr)];
      signalWriterOpen := false;
      if writerErr.Some? {
        errMsgs := errMsgs + [FailureMessage("closing cancel signal writer", writerErr.value)];
      }
      FailureMessagesAppend(attempted, Release("closing cancel signal writer", writerErr));
      attempted := attempted + [Release("closing cancel signal writer", writerErr)];
      signalReaderOpen := false;
      if readerErr.Some? {
        errMsgs := errMsgs + [FailureMessage("closing cancel signal reader", readerErr.value)];
      }
      FailureMessagesAppend(attempted, Release("closing cancel signal reader", readerErr));
      attempted := attempted + [Release("closing cancel signal reader", readerErr)];
      assert FailureMessages(attempted) == errMsgs;
      assert attempted == [Release("closing epoll", epollErr),
                           Release("closing cancel signal writer", writerErr),
                           Release("closing cancel signal reader", readerErr)];
      if |errMsgs| > 0 {
        return Some(Join(errMsgs, ", "));
      }
      return None;
    }
  }

  /** Cancelling before a read: the read returns cancelled at once and the
      wake-up byte stays in the pipe; a read woken by the pipe instead takes
      the byte back out. */
  method CancelProtocol(fileFd: nat, signalFd: nat, key: Boba.Msg)
    requires fileFd != signalFd
  {
    var idle := new Reader(fileFd, signalFd);
    var ok := idle.Cancel(None);
    assert ok && idle.pending == 1;
    var msgs, err := idle.ReadInput([], None, Parsed(key));
    assert msgs == [] && err == Some(Canceled) && idle.pending == 1;

    var busy := new Reader(fileFd, signalFd);
    // The byte of a Cancel made on another goroutine while the wait was blocked.
    busy.pending := 1;
    assert !Interrupted([WaitFailed(EINTR), EventOn(signalFd)][1]);
    msgs, err := busy.ReadInput([WaitFailed(EINTR), EventOn(signalFd)], None, Parsed(key));
    assert msgs == [] && err == Some(Canceled) && busy.pending == 0;

    var reading := new Reader(fileFd, signalFd);
    assert !Interrupted([WaitFailed(EINTR), WaitFailed(EINTR), EventOn(fileFd)][2]);
    msgs, err := reading.ReadInput([WaitFailed(EINTR), WaitFailed(EINTR), EventOn(fileFd)], None, Parsed(key));
    assert msgs == [key] && err == None;
  }
}
