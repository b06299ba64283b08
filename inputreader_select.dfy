/** The input reader for the BSDs, macOS and Solaris: each wait builds a
    `select` descriptor set holding the input file and the read end of a
    private pipe; `Cancel` sets the cancel flag and writes one byte into
    the pipe to wake a blocked wait. The system calls are replaced by their
    outcomes, passed in as parameters. */
module SelectReader {

  import Boba
  import opened Wrappers
  import opened Errors
  import opened Retry
  import opened Strings
  import opened InputReader

  /** `unix.FD_SETSIZE`: `select` can only watch descriptors below it. */
  const FdSetSize: nat := 1024

  /** `newSelectInputReader`'s choice: the fallback reader, which cannot be
      cancelled, for anything but a file and for a file whose descriptor
      `select` cannot watch. The pipe's descriptor is not checked here. */
  function NewSelectInputReader(src: Source): (s: Strategy)
    ensures s == Fallback <==> src.OtherReader? || src.fd >= FdSetSize
    ensures s != Epoll
  {
    if src.OtherReader? || src.fd >= FdSetSize then Fallback else Select
  }

  /** What one `Select` call does: fail, or return with the descriptors in
      `ready` readable. */
  datatype SelectOutcome = SelectFailed(errno: Errno) | SelectReturned(ready: set<nat>)

  /** The decimal digits of `n`, as `%d` prints it. */
  function Decimal(n: nat): (s: string)
    ensures |s| > 0
  {
    var digit := ['0' + (n % 10) as char];
    if n < 10 then digit else Decimal(n / 10) + digit
  }

  /** The error `waitForRead` gives when a descriptor is too large. */
  function FdTooLarge(maxFd: nat): Error
  {
    Message("cannot select on file descriptor " + Decimal(maxFd) + " which is larger than 1024")
  }

  const NothingSet: Error := Message("select returned without setting a file descriptor")

  function Max(a: nat, b: nat): nat
  {
    if a > b then a else b
  }

  /** What `waitForRead` returns for `outcome`, once both descriptors are
      below `FD_SETSIZE`: the select error wrapped as "select: %w"; else
      cancelled if the pipe is readable, whether or not the file is too;
      nil if only the file is; an error if neither is. */
  function Readiness(readerFd: nat, abortFd: nat, outcome: SelectOutcome): (err: Option<Error>)
    ensures outcome.SelectFailed? ==> err == Some(Wrapped("select", Sys(outcome.errno)))
    ensures outcome.SelectReturned? ==>
              (err == Some(Canceled) <==> abortFd in outcome.ready) &&
              (err.None? <==> readerFd in outcome.ready && abortFd !in outcome.ready)
    ensures err.Some? ==> (Is(err.value, Canceled) <==> err.value == Canceled)
    ensures err.Some? ==> (Is(err.value, Sys(EINTR)) <==> outcome == SelectFailed(EINTR))
  {
    match outcome
    case SelectFailed(e) => Some(Wrapped("select", Sys(e)))
    case SelectReturned(ready) =>
      if abortFd in ready then Some(Canceled)
      else if readerFd in ready then None
      else Some(NothingSet)
  }

  /** `waitForRead`. Besides the error it returns the `nfds` it passed to
      `Select`, or `None` when it did not call `Select` at all. */
  method WaitForRead(readerFd: nat, abortFd: nat, outcome: SelectOutcome)
    returns (err: Option<Error>, nfds: Option<nat>)
    ensures Max(readerFd, abortFd) >= FdSetSize ==>
              nfds == None && err == Some(FdTooLarge(Max(readerFd, abortFd)))
    ensures Max(readerFd, abortFd) < FdSetSize ==>
              nfds == Some(Max(readerFd, abortFd) + 1) && err == Readiness(readerFd, abortFd, outcome)
  {
    var maxFd := readerFd;
    if abortFd > maxFd {
      maxFd := abortFd;
    }
    if maxFd >= FdSetSize {
      return Some(FdTooLarge(maxFd)), None;
    }

    // The descriptor set: one bit per descriptor below FD_SETSIZE.
    var fdSet := new bool[FdSetSize](_ => false);
    fdSet[readerFd] := true;
    fdSet[abortFd] := true;

    nfds := Some(maxFd + 1);
    match outcome
    case SelectFailed(e) =>
      return Some(Wrapped("select", Sys(e))), nfds;
    case SelectReturned(ready) =>
      // Select leaves set only the watched descriptors below nfds that are ready.
      forall fd | 0 <= fd < fdSet.Length {
        fdSet[fd] := fdSet[fd] && fd < maxFd + 1 && fd in ready;
      }

    if fdSet[abortFd] {
      return Some(Canceled), nfds;
    }
    if fdSet[readerFd] {
      return None, nfds;
    }
    return Some(NothingSet), nfds;
  }

  /** The outcomes `ReadInput` retries. */
  predicate Interrupted(o: SelectOutcome)
  {
    o == SelectFailed(EINTR)
  }

  /** Some call eventually returns something other than EINTR. */
  predicate Settles(outcomes: seq<SelectOutcome>)
  {
    exists i :: 0 <= i < |outcomes| && !Interrupted(outcomes[i])
  }

  class Reader {
    const fileFd: nat
    /** The descriptor of the pipe's read end, selected on beside the file. */
    const signalFd: nat
    var cancelled: bool
    /** Bytes written into the pipe and not yet read back. */
    var pending: nat
    var signalWriterOpen: bool
    var signalReaderOpen: bool

    /** The reader as a successful `newSelectInputReader` leaves it. */
    constructor (fileFd: nat, signalFd: nat)
      requires fileFd < FdSetSize
      ensures this.fileFd == fileFd && this.signalFd == signalFd
      ensures !cancelled && pending == 0
      ensures signalWriterOpen && signalReaderOpen
    {
      this.fileFd, this.signalFd := fileFd, signalFd;
      cancelled, pending := false, 0;
      signalWriterOpen, signalReaderOpen := true, true;
    }

    /** What the wait loop of `ReadInput` settles on: an `EINTR` never
      reaches the caller; with a descriptor too large for `select` the wait
      fails before any outcome is looked at; otherwise the first outcome
      that is not `EINTR` decides, the pipe winning over the file. */
    function Waited(outcomes: seq<SelectOutcome>): (err: Option<Error>)
      requires Settles(outcomes)
      ensures err.Some? ==> !Is(err.value, Sys(EINTR))
      ensures Max(fileFd, signalFd) >= FdSetSize ==> err == Some(FdTooLarge(Max(fileFd, signalFd)))
      ensures var o := outcomes[FirstSettled(outcomes, Interrupted)];
              (err == Some(Canceled) <==>
                 Max(fileFd, signalFd) < FdSetSize && o.SelectReturned? && signalFd in o.ready) &&
              (err.None? <==>
                 Max(fileFd, signalFd) < FdSetSize && o.SelectReturned? && fileFd in o.ready && signalFd !in o.ready)
    {
      if Max(fileFd, signalFd) >= FdSetSize then Some(FdTooLarge(Max(fileFd, signalFd)))
      else Readiness(fileFd, signalFd, outcomes[FirstSettled(outcomes, Interrupted)])
    }

    /** `ReadInput`. `outcomes` are what the `Select` calls report, `drain`
      the error of reading the signal byte back (if it fails), and `parse`
      what the decoder makes of the readable file. */
    method ReadInput(outcomes: seq<SelectOutcome>, drain: Option<Errno>, parse: ParseOutcome)
      returns (msgs: seq<Boba.Msg>, err: Option<Error>)
      requires !cancelled ==> Settles(outcomes)
      modifies this`pending
      // Already cancelled: no wait, and the pipe is left as it is.
      ensures old(cancelled) ==> msgs == [] && err == Some(Canceled) && pending == old(pending)
      ensures !old(cancelled) ==>
        var w := Waited(outcomes);
        // Woken by the pipe: one byte is read back; a failed read is reported instead.
        (w == Some(Canceled) && drain.None? ==>
           msgs == [] && err == Some(Canceled) && pending == if old(pending) > 0 then old(pending) - 1 else 0) &&
        (w == Some(Canceled) && drain.Some? ==>
           msgs == [] && err == Some(Wrapped(DrainContext, Sys(drain.value))) && pending == old(pending)) &&
        // Any other wait error is passed on as it is.
        (w.Some? && w != Some(Canceled) ==> msgs == [] && err == w && pending == old(pending)) &&
        // Readable: exactly one parsed message, or the parse error.
        (w.None? ==> (msgs, err) == Delivered(parse) && pending == old(pending))
    {
      if cancelled {
        return [], Some(Canceled);
      }
      var k := 0;
      while true
        invariant 0 <= k < |outcomes|
        invariant forall j :: 0 <= j < k ==> Interrupted(outcomes[j])
        invariant k <= FirstSettled(outcomes, Interrupted)
        invariant k > 0 ==> Max(fileFd, signalFd) < FdSetSize
        invariant pending == old(pending)
        decreases |outcomes| - k
      {
        var e, _ := WaitForRead(fileFd, signalFd, outcomes[k]);
        if e.Some? {
          if Is(e.value, Sys(EINTR)) {
            k := k + 1;
            continue;
          }
          if Is(e.value, Canceled) {
            match drain
            case Some(d) =>
              return [], Some(Wrapped(DrainContext, Sys(d)));
            case None =>
              pending := if pending > 0 then pending - 1 else 0;
          }
          return [], e;
        }
        match parse
        case ParseFailed(pe) =>
          return [], Some(pe);
        case Parsed(m) =>
          return [m], None;
      }
    }

    /** `Cancel`: sets the flag whatever happens, writes one byte into the
      pipe, and reports whether the write succeeded. */
    method Cancel(writeErr: Option<Errno>) returns (ok: bool)
      modifies this`cancelled, this`pending
      ensures cancelled
      ensures ok <==> writeErr.None?
      ensures pending == old(pending) + (if ok then 1 else 0)
    {
      cancelled := true;
      if writeErr.None? {
        pending := pending + 1;
      }
      ok := writeErr.None?;
    }

    /** `Close`: closes the pipe's writer, then its reader whatever the
      first close did, and reports every failure in that order. A failed
      close still gives the descriptor up. */
    method Close(writerErr: Option<string>, readerErr: Option<string>) returns (err: Option<string>)
      modifies this`signalWriterOpen, this`signalReaderOpen
      ensures !signalWriterOpen && !signalReaderOpen
      ensures err == Aggregate([Release("closing cancel signal writer", writerErr),
                                Release("closing cancel signal reader", readerErr)])
    {
      var errMsgs: seq<string> := [];
      ghost var attempted: seq<Release> := [];
      signalWriterOpen := false;
      if writerErr.Some? {
        errMsgs := errMsgs + [FailureMessage("closing cancel signal writer", writerErr.value)];
      }
      FailureMessagesAppend(attempted, Release("closing cancel signal writer", writerErr));
      attempted := attempted + [Release("closing cancel signal writer", writerErr)];
      signalReaderOpen := false;
      if readerErr.Some? {
        errMsgs := errMsgs + [FailureMessage("closing cancel signal reader", readerErr.value)];
      }
      FailureMessagesAppend(attempted, Release("closing cancel signal reader", readerErr));
      attempted := attempted + [Release("closing cancel signal reader", readerErr)];
      assert FailureMessages(attempted) == errMsgs;
      assert attempted == [Release("closing cancel signal writer", writerErr),
                           Release("closing cancel signal reader", readerErr)];
      if |errMsgs| > 0 {
        return Some(Join(errMsgs, ", "));
      }
      return None;
    }
  }

  /** Both descriptors readable at once: the read reports cancellation and
      takes the wake-up byte back, rather than decoding the input. */
  method CancelWinsOverData(fileFd: nat, signalFd: nat, key: Boba.Msg)
    requires fileFd < FdSetSize && signalFd < FdSetSize && fileFd != signalFd
  {
    var r := new Reader(fileFd, signalFd);
    // The byte of a Cancel made on another goroutine while the wait was blocked.
    r.pending := 1;
    var outcomes := [SelectFailed(EINTR), SelectReturned({fileFd, signalFd})];
    assert !Interrupted(outcomes[1]);
    var msgs, err := r.ReadInput(outcomes, None, Parsed(key));
    assert msgs == [] && err == Some(Canceled) && r.pending == 0;
  }

  /** The constructor checks only the input file's descriptor, while every
      wait checks both: with the file below `FD_SETSIZE` and the pipe's read
      end at or above it, the select reader is still chosen, and a read on
      it fails with the too-large-descriptor error whatever `select` would
      have reported. */
  method PipeBeyondLimit(fileFd: nat, signalFd: nat, outcomes: seq<SelectOutcome>,
      drain: Option<Errno>, parse: ParseOutcome)
    returns (msgs: seq<Boba.Msg>, err: Option<Error>)
    requires fileFd < FdSetSize <= signalFd && Settles(outcomes)
    ensures NewSelectInputReader(OsFile(fileFd)) == Select
    ensures msgs == [] && err == Some(FdTooLarge(signalFd))
  {
    var r := new Reader(fileFd, signalFd);
    msgs, err := r.ReadInput(outcomes, drain, parse);
  }
}
