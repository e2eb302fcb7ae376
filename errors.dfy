/**
 * The error values the sync engine produces or inspects: the five kinds of
 * the errors package, the two foreign kinds the retry classifier looks at
 * (googleapi.Error and net.Error), and the plain errors made by errors.New.
 */
module Errors {
  import Strings

  datatype Error =
    | NotFound(text: string)                  // ErrorNotFound
    | AlreadySynced(text: string)             // ErrorAlreadySynced
    | ChecksumMismatch(text: string)          // ErrorChecksumMismatch
    | SetMarkFailed(text: string)             // ErrorSetMarkFailed
    | MultipleResults(ids: seq<string>)       // ErrorMultipleResults
    | ApiError(code: int, message: string)    // *googleapi.Error
    | NetError(text: string)                  // any net.Error
    | Plain(text: string)                     // errors.New(...)

  /** A Go function's error result: a value or an error. */
  datatype Result<+T> = Ok(value: T) | Err(error: Error)

  /**
   * What a call of the engine ends in: a value, an error returned to the
   * caller, or a log.Fatalf that ends the process.
   */
  datatype Outcome<+T> = Done(value: T) | Failed(error: Error) | Fatal(reason: string)

  const MultiplePrefix := "multiple results: "

  /** Error(): the string the error reports. */
  function Message(e: Error): string {
    match e
    case NotFound(t) => t
    case AlreadySynced(t) => t
    case ChecksumMismatch(t) => t
    case SetMarkFailed(t) => t
    case MultipleResults(ids) => MultiplePrefix + Strings.Join(ids, " ")
    case ApiError(_, m) => m
    case NetError(t) => t
    case Plain(t) => t
  }

  /** The four string-backed kinds report exactly the string they wrap. */
  lemma WrappedKindsReportTheirText(t: string)
    ensures Message(NotFound(t)) == t && Message(AlreadySynced(t)) == t
    ensures Message(ChecksumMismatch(t)) == t && Message(SetMarkFailed(t)) == t
  {
  }

  /** MultipleResults with no ids reports the bare prefix, with one id no separator. */
  lemma MultipleResultsShortLists(id: string)
    ensures Message(MultipleResults([])) == "multiple results: "
    ensures Message(MultipleResults([id])) == "multiple results: " + id
  {
  }

  /**
   * The message of MultipleResults carries every id: removing the prefix and
   * splitting on single spaces gives the ids back, when none contains a space.
   */
  lemma MultipleResultsIdsRecoverable(ids: seq<string>)
    requires |ids| >= 1
    requires forall k :: 0 <= k < |ids| ==> ' ' !in ids[k]
    ensures Strings.HasPrefix(Message(MultipleResults(ids)), MultiplePrefix)
    ensures Strings.SplitOn(Message(MultipleResults(ids))[|MultiplePrefix|..], ' ') == ids
  {
    var m := Message(MultipleResults(ids));
    assert m[|MultiplePrefix|..] == Strings.Join(ids, " ");
    Strings.SplitJoin(ids, ' ');
  }
}
