/** Error values shared by the two cancelable input readers, in the shape Go
    gives them: sentinel errors, raw errno values, errors wrapped with `%w`
    (which `errors.Is` sees through) and plain formatted messages. Also the
    aggregation of resource-release failures that both readers' `Close`
    performs. */
module Errors {

  import opened Wrappers
  import opened Strings

  /** The operating-system error numbers the readers distinguish. */
  datatype Errno = EINTR | EBADF | EIO | OtherErrno(code: nat)

  /** A Go `error` value. */
  datatype Error =
    | Canceled                               // the package's errCanceled sentinel
    | Sys(errno: Errno)                      // a syscall.Errno returned as it is
    | Wrapped(context: string, cause: Error) // fmt.Errorf("<context>: %w", cause)
    | Message(text: string)                  // fmt.Errorf without %w

  /** `errors.Is(err, target)`: `err` or some error it wraps equals `target`. */
  predicate Is(err: Error, target: Error)
  {
    err == target || (err.Wrapped? && Is(err.cause, target))
  }

  /** One resource-release step of a `Close`: what is released, and the text
      of its error if the release failed. */
  datatype Release = Release(resource: string, failure: Option<string>)

  /** `fmt.Sprintf("<resource>: %v", err)` for a failed release. */
  function FailureMessage(resource: string, failure: string): string
  {
    resource + ": " + failure
  }

  /** How many of the releases failed. */
  function FailedCount(attempts: seq<Release>): nat
  {
    if |attempts| == 0 then 0
    else (if attempts[0].failure.Some? then 1 else 0) + FailedCount(attempts[1..])
  }

  /** The messages of the failed releases, in the order they were attempted,
      each as `fmt.Sprintf("<resource>: %v", err)`. */
  function FailureMessages(attempts: seq<Release>): (msgs: seq<string>)
    ensures |msgs| == FailedCount(attempts) <= |attempts|
    ensures forall i :: 0 <= i < |attempts| && attempts[i].failure.Some? ==>
              FailureMessage(attempts[i].resource, attempts[i].failure.value) in msgs
    ensures |msgs| == 0 <==> forall i :: 0 <= i < |attempts| ==> attempts[i].failure.None?
  {
    if |attempts| == 0 then []
    else
      var rest := FailureMessages(attempts[1..]);
      assert forall i :: 1 <= i < |attempts| ==> attempts[i] == attempts[1..][i - 1];
      match attempts[0].failure
      case None => rest
      case Some(e) => [FailureMessage(attempts[0].resource, e)] + rest
  }

  /** The error `Close` returns: nil when every release succeeded, otherwise
      one message listing every failure in order, joined by ", ". */
  function Aggregate(attempts: seq<Release>): (r: Option<string>)
    ensures r.None? <==> forall i :: 0 <= i < |attempts| ==> attempts[i].failure.None?
  {
    var msgs := FailureMessages(attempts);
    if |msgs| > 0 then Some(Join(msgs, ", ")) else None
  }

  lemma {:induction false} FailureMessagesConcat(a: seq<Release>, b: seq<Release>)
    ensures FailureMessages(a + b) == FailureMessages(a) + FailureMessages(b)
  {
    if |a| == 0 {
      assert a + b == b;
    } else {
      assert (a + b)[1..] == a[1..] + b;
      FailureMessagesConcat(a[1..], b);
    }
  }

  /** Attempting one more release adds its message, if it failed, at the
      end: the messages can be collected release by release. */
  lemma FailureMessagesAppend(done: seq<Release>, next: Release)
    ensures FailureMessages(done + [next]) == FailureMessages(done) +
              (if next.failure.Some? then [FailureMessage(next.resource, next.failure.value)] else [])
  {
    FailureMessagesConcat(done, [next]);
    assert [next][1..] == [];
  }

  /** Aggregation composes: the report for two runs of releases, one after
      the other, is the first report, ", ", then the second. No failure is
      dropped or reordered. */
  lemma AggregateConcat(a: seq<Release>, b: seq<Release>)
    requires Aggregate(a).Some? && Aggregate(b).Some?
    ensures Aggregate(a + b) == Some(Aggregate(a).value + ", " + Aggregate(b).value)
  {
    FailureMessagesConcat(a, b);
    JoinConcat(FailureMessages(a), FailureMessages(b), ", ");
  }
}
