/** What the cancelable input readers have in common: the stream they are
    built on, the strategy the constructor picks, and the outcome of the
    input decoder they hand the stream to once it is readable. */
module InputReader {

  import Boba
  import opened Wrappers
  import opened Errors

  /** The `io.Reader` a constructor receives: an `*os.File` with its
      descriptor, or any other reader. */
  datatype Source = OsFile(fd: nat) | OtherReader

  /** Which reader a constructor builds. */
  datatype Strategy = Epoll | Select | Fallback

  /** What `parseInputMsgFromReader` returns for the readable stream. */
  datatype ParseOutcome = Parsed(msg: Boba.Msg) | ParseFailed(err: Error)

  /** The context `ReadInput` wraps a failed drain of the signal pipe in. */
  const DrainContext: string := "reading cancel signal"

  /** What `ReadInput` returns once the wait has told it the stream is
      readable: the one parsed message, or the parse error and nothing. */
  function Delivered(parse: ParseOutcome): (r: (seq<Boba.Msg>, Option<Error>))
    ensures r.1.None? <==> parse.Parsed?
    ensures parse.Parsed? ==> r.0 == [parse.msg]
    ensures parse.ParseFailed? ==> r.0 == [] && r.1 == Some(parse.err)
  {
    match parse
    case Parsed(m) => ([m], None)
    case ParseFailed(e) => ([], Some(e))
  }
}
