/**
 * remote/utils.go: the yes/no gate, folder lookup, find-or-create of the
 * archive root and category folders with the category cache, folder and
 * file creation with the checksum recheck, and the retry executor with its
 * error classifier.
 */
module RemoteUtils {
  import opened Wrappers
  import opened Errors
  import Strings
  import Paths
  import Config
  import Utils
  import Drive
  import LocalFs

  // ---------------------------------------------------------------------
  // Error classification

  /** retryIfNeeded: is the error worth another attempt? */
  predicate RetryIfNeeded(err: Option<Error>) {
    err.Some? &&
    match err.value
    case ApiError(code, message) =>
      (code == 403 && Strings.Contains(Strings.ToLower(message), "rate limit")) || (499 < code && code < 600)
    case ChecksumMismatch(_) => true
    case NetError(_) => true
    case _ => false
  }

  /** A rate-limit answer: status 403 whose lower-cased message has "rate limit" somewhere. */
  ghost predicate IsRateLimit(e: Error) {
    e.ApiError? && e.code == 403 && exists i: nat :: Strings.OccursAt(Strings.ToLower(e.message), "rate limit", i)
  }

  /** A server-side failure: a status from 500 to 599. */
  predicate IsServerError(e: Error) {
    e.ApiError? && 500 <= e.code <= 599
  }

  /** The retryable errors are exactly: rate limits, server errors, checksum mismatches and network errors. */
  lemma RetryableExactly(err: Option<Error>)
    ensures RetryIfNeeded(err) <==>
              err.Some? && (IsRateLimit(err.value) || IsServerError(err.value) ||
                            err.value.ChecksumMismatch? || err.value.NetError?)
  {
    if err.Some? && err.value.ApiError? {
      Strings.ContainsIff(Strings.ToLower(err.value.message), "rate limit");
    }
  }

  /** Nil, lookups that found nothing, ambiguity and wrapped errors are never retried. */
  lemma NotRetryable(t: string, ids: seq<string>, code: int, message: string)
    ensures !RetryIfNeeded(None)
    ensures !RetryIfNeeded(Some(NotFound(t))) && !RetryIfNeeded(Some(MultipleResults(ids)))
    ensures !RetryIfNeeded(Some(AlreadySynced(t))) && !RetryIfNeeded(Some(SetMarkFailed(t)))
    ensures !RetryIfNeeded(Some(Plain(t)))
    ensures code != 403 && !(500 <= code <= 599) ==> !RetryIfNeeded(Some(ApiError(code, message)))
  {
  }

  /** A 403 is retried exactly when its message mentions a rate limit, in any letter case. */
  lemma ForbiddenRetriedOnlyForRateLimit(message: string)
    ensures RetryIfNeeded(Some(ApiError(403, message))) <==>
              exists i: nat :: Strings.OccursAt(Strings.ToLower(message), "rate limit", i)
  {
    Strings.ContainsIff(Strings.ToLower(message), "rate limit");
  }

  lemma UserRateLimitRetried()
    ensures RetryIfNeeded(Some(ApiError(403, "User Rate Limit Exceeded")))
  {
    var lower := Strings.ToLower("User Rate Limit Exceeded");
    forall k | 5 <= k < 15 ensures lower[k] == "rate limit"[k - 5] {
      assert lower[k] == Strings.LowerChar("User Rate Limit Exceeded"[k]);
    }
    assert lower[5..15] == "rate limit";
    assert Strings.OccursAt(lower, "rate limit", 5);
    ForbiddenRetriedOnlyForRateLimit("User Rate Limit Exceeded");
  }

  // ---------------------------------------------------------------------
  // Backoff schedule

  function Pow(base: int, n: nat): int {
    if n == 0 then 1 else base * Pow(base, n - 1)
  }

  /** The sleeps of n retries: start, start*ratio, ..., start*ratio^(n-1). */
  function Backoff(start: int, ratio: int, n: nat): (s: seq<int>)
    ensures |s| == n
    decreases n
  {
    if n == 0 then [] else Backoff(start, ratio, n - 1) + [start * Pow(ratio, n - 1)]
  }

  /** The i-th sleep is start * ratio^i. */
  lemma {:induction false} BackoffAt(start: int, ratio: int, n: nat, i: nat)
    requires i < n
    ensures Backoff(start, ratio, n)[i] == start * Pow(ratio, i)
    decreases n
  {
    if i < n - 1 {
      BackoffAt(start, ratio, n - 1, i);
      assert Backoff(start, ratio, n)[i] == Backoff(start, ratio, n - 1)[i];
    }
  }

  /** Each sleep is `ratio` times the one before it. */
  lemma BackoffGrows(start: int, ratio: int, n: nat, i: nat)
    requires i + 1 < n
    ensures Backoff(start, ratio, n)[i + 1] == Backoff(start, ratio, n)[i] * ratio
  {
    BackoffAt(start, ratio, n, i);
    BackoffAt(start, ratio, n, i + 1);
    calc {
      start * Pow(ratio, i + 1);
      start * (ratio * Pow(ratio, i));
      { assert start * (ratio * Pow(ratio, i)) == (start * Pow(ratio, i)) * ratio; }
      (start * Pow(ratio, i)) * ratio;
    }
  }

  // ---------------------------------------------------------------------
  // The retry loop's view of an operation: the outcomes of successive attempts

  /**
   * The index of the first attempt whose outcome is not retried, counting
   * from `from`; the last outcome is one that is not retried.
   */
  function FirstStop(outs: seq<Option<Error>>, from: nat): (k: nat)
    requires from < |outs| && !RetryIfNeeded(outs[|outs| - 1])
    ensures from <= k < |outs| && !RetryIfNeeded(outs[k])
    ensures forall i :: from <= i < k ==> RetryIfNeeded(outs[i])
    decreases |outs| - from
  {
    if !RetryIfNeeded(outs[from]) then from else FirstStop(outs, from + 1)
  }

  /** With k retryable outcomes before a non-retryable one, the stop is at k: k+1 calls. */
  lemma {:induction false} FirstStopAfterRetries(outs: seq<Option<Error>>, k: nat, from: nat)
    requires from <= k < |outs| && !RetryIfNeeded(outs[|outs| - 1])
    requires forall i :: from <= i < k ==> RetryIfNeeded(outs[i])
    requires !RetryIfNeeded(outs[k])
    ensures FirstStop(outs, from) == k
    decreases k - from
  {
    if from < k {
      FirstStopAfterRetries(outs, k, from + 1);
    }
  }

  // ---------------------------------------------------------------------
  // yesNoResponse

  datatype Answer = Yes | No | ReadFailed

  /** How one input line is understood: yes, no, or not understood (None). */
  function Verdict(line: string): Option<bool> {
    var u := Strings.ToUpper(line);
    if u == "" || u == "Y" then Some(true) else if u == "N" then Some(false) else None
  }

  /** The answer the prompt gets from the input lines, and how many lines it reads. */
  function Response(lines: seq<string>): (r: (Answer, nat))
    ensures r.1 <= |lines|
    ensures r.0 != ReadFailed ==> r.1 >= 1
    decreases |lines|
  {
    if lines == [] then (ReadFailed, 0)
    else match Verdict(lines[0])
      case Some(b) => (if b then Yes else No, 1)
      case None => var rest := Response(lines[1..]); (rest.0, rest.1 + 1)
  }

  /** "" and "Y"/"y" mean yes, "N"/"n" mean no, nothing else is understood. */
  lemma VerdictCases(line: string)
    ensures Verdict(line) == Some(true) <==> line == "" || line == "Y" || line == "y"
    ensures Verdict(line) == Some(false) <==> line == "N" || line == "n"
  {
    var u := Strings.ToUpper(line);
    if |line| == 1 {
      assert u == [Strings.UpperChar(line[0])];
    }
  }

  /** The first understood line decides, after every line before it is re-prompted. */
  lemma {:induction false} FirstUnderstoodLineDecides(lines: seq<string>, k: nat)
    requires k < |lines| && Verdict(lines[k]).Some?
    requires forall m :: 0 <= m < k ==> Verdict(lines[m]).None?
    ensures Response(lines) == (if Verdict(lines[k]).value then Yes else No, k + 1)
    decreases k
  {
    if k > 0 {
      assert forall m :: 0 <= m < k - 1 ==> lines[1..][m] == lines[m + 1];
      FirstUnderstoodLineDecides(lines[1..], k - 1);
    }
  }

  /** Input ending before any understood line makes the read fail. */
  lemma {:induction false} NoUnderstoodLineFails(lines: seq<string>)
    requires forall m :: 0 <= m < |lines| ==> Verdict(lines[m]).None?
    ensures Response(lines) == (ReadFailed, |lines|)
    decreases |lines|
  {
    if lines != [] {
      assert forall m :: 0 <= m < |lines| - 1 ==> lines[1..][m] == lines[m + 1];
      NoUnderstoodLineFails(lines[1..]);
    }
  }

  /** The operator's input: the lines still to be read. */
  class Input {
    var lines: seq<string>

    constructor (pending: seq<string>)
      ensures lines == pending
    {
      lines := pending;
    }
  }

  /** The answer a prompt gets: always no when not interactive. */
  ghost function Answered(interactive: bool, lines: seq<string>): Answer {
    if interactive then Response(lines).0 else No
  }

  method YesNoResponse(interactive: bool, input: Input) returns (answer: Answer)
    modifies input
    ensures answer == Answered(interactive, old(input.lines))
    ensures !interactive ==> input.lines == old(input.lines)
    ensures interactive ==> input.lines == old(input.lines)[Response(old(input.lines)).1..]
  {
    if !interactive {
      return No;
    }
    ghost var all := input.lines;
    while true
      invariant |input.lines| <= |all| && input.lines == all[|all| - |input.lines|..]
      invariant Response(all) == (Response(input.lines).0, |all| - |input.lines| + Response(input.lines).1)
      decreases |input.lines|
    {
      if input.lines == [] {
        return ReadFailed;
      }
      var line := input.lines[0];
      input.lines := input.lines[1..];
      var v := Verdict(line);
      if v.Some? {
        return if v.value then Yes else No;
      }
    }
  }

  // ---------------------------------------------------------------------
  // getLeafFromParent

  /** What the lookup reports for what the list call answered. */
  function ClassifyLookup(leafName: string, parentID: string, listed: Result<seq<string>>): Result<string> {
    match listed
    case Err(e) => Err(Plain("failed to fetch ID of '" + leafName + "': " + Message(e)))
    case Ok(ids) =>
      if |ids| == 0 then Err(NotFound("error: no '" + leafName + "' in '" + parentID + "'"))
      else if |ids| > 1 then Err(Plain("error: multiple '" + leafName + "' in '" + parentID + "'"))
      else Ok(ids[0])
  }

  /** One match gives its id; none gives NotFound; several or a list failure give a plain error. */
  lemma LookupOutcomes(leafName: string, parentID: string, listed: Result<seq<string>>)
    ensures listed.Ok? && |listed.value| == 1 <==> ClassifyLookup(leafName, parentID, listed).Ok?
    ensures ClassifyLookup(leafName, parentID, listed).Ok? ==>
              ClassifyLookup(leafName, parentID, listed).value == listed.value[0]
    ensures ClassifyLookup(leafName, parentID, listed).Err? &&
            ClassifyLookup(leafName, parentID, listed).error.NotFound? <==>
              listed.Ok? && |listed.value| == 0
    ensures listed.Ok? && |listed.value| > 1 ==>
              ClassifyLookup(leafName, parentID, listed) ==
              Err(Plain("error: multiple '" + leafName + "' in '" + parentID + "'"))
    ensures listed.Err? ==> ClassifyLookup(leafName, parentID, listed).error.Plain?
  {
  }

  /** What a lookup of `leafName` in `parentID` reports in a store with these folders and this next reply. */
  function LookupIn(folders: seq<Drive.Folder>, next: Drive.Reply, leafName: string, parentID: string): Result<string> {
    ClassifyLookup(leafName, parentID,
      if next.Fail? then Err(next.error) else Ok(Drive.Matching(folders, leafName, parentID)))
  }

  method GetLeafFromParent(store: Drive.Store, leafName: string, parentID: string) returns (r: Result<string>)
    modifies store
    ensures r == LookupIn(old(store.folders), old(store.Peek()), leafName, parentID)
    ensures r.Ok? ==> exists f :: f in store.folders && f.id == r.value && Drive.IsMatch(f, leafName, parentID)
    ensures store.folders == old(store.folders) && store.nextId == old(store.nextId)
    ensures store.script == Drive.Rest(old(store.script))
    ensures store.requests == old(store.requests) + [Drive.ListRequest(leafName, parentID)]
  {
    var listed := store.List(leafName, parentID);
    r := ClassifyLookup(leafName, parentID, listed);
    if r.Ok? {
      assert r.value in Drive.Matching(store.folders, leafName, parentID);
    }
  }

  // ---------------------------------------------------------------------
  // createDirectory

  method CreateDirectory(store: Drive.Store, leafName: string, parentID: string) returns (r: Result<string>)
    requires store.Valid()
    modifies store
    ensures store.Valid() && store.script == Drive.Rest(old(store.script))
    ensures store.requests == old(store.requests) + [Drive.CreateFolderRequest(leafName, parentID)]
    ensures old(store.Peek()).Fail? ==> r == Err(old(store.Peek()).error) && store.folders == old(store.folders)
    ensures !old(store.Peek()).Fail? ==>
              r.Ok? && store.folders == old(store.folders) + [Drive.Folder(r.value, leafName, parentID, false)]
    ensures r.Ok? ==> r.value != "" && forall f :: f in old(store.folders) ==> f.id != r.value
  {
    r := store.CreateFolder(leafName, parentID);
  }

  // ---------------------------------------------------------------------
  // The find-or-create step, done first for the archive root and then for the category

  /** Whether a failed lookup leads to creating the folder. */
  ghost predicate CreatesOnMiss(flags: Config.Flags, lookupError: Error, lines: seq<string>) {
    flags.createMissing || (lookupError.NotFound? && Answered(flags.interactive, lines) == Yes)
  }

  /** Whether a failed lookup leads to a prompt. */
  predicate Prompts(flags: Config.Flags, lookupError: Error) {
    !flags.createMissing && lookupError.NotFound?
  }

  /** The error is one the find-or-create step for `what` reports. */
  predicate FromStep(e: Error, what: string) {
    e.Plain? &&
    (Strings.HasPrefix(e.text, "failed to retrieve " + what + " '") ||
     Strings.HasPrefix(e.text, "failed to create " + what + " '"))
  }

  /** A step's error message starts with the step and the kind of folder, then the quoted name. */
  lemma StepMessagePrefix(verb: string, what: string, name: string, detail: string)
    ensures Strings.HasPrefix(verb + what + " '" + name + "': " + detail, verb + what + " '")
    ensures Strings.HasPrefix(verb + what + " '" + name + "': " + detail, verb + what)
  {
    var s := verb + what + " '" + name + "': " + detail;
    assert s[..|verb + what + " '"|] == verb + what + " '";
    assert s[..|verb + what|] == verb + what;
  }

  method FindOrCreate(flags: Config.Flags, store: Drive.Store, input: Input,
                      name: string, parentID: string, what: string) returns (r: Outcome<string>)
    requires store.Valid()
    modifies store, input
    ensures store.Valid()
    ensures var found := LookupIn(old(store.folders), old(store.Peek()), name, parentID);
      && (found.Ok? ==> r == Done(found.value) && store.folders == old(store.folders) &&
                        store.script == Drive.Rest(old(store.script)) &&
                        store.requests == old(store.requests) + [Drive.ListRequest(name, parentID)])
      && (found.Err? && !Prompts(flags, found.error) ==> input.lines == old(input.lines))
      && (found.Err? && Prompts(flags, found.error) && flags.interactive ==>
            input.lines == old(input.lines)[Response(old(input.lines)).1..])
      && (found.Ok? ==> input.lines == old(input.lines))
      // nothing is created: the prompt's read failed (fatal), or the step fails with the lookup's error
      && (found.Err? && !CreatesOnMiss(flags, found.error, old(input.lines)) ==>
            store.folders == old(store.folders) &&
            store.requests == old(store.requests) + [Drive.ListRequest(name, parentID)] &&
            r == (if Prompts(flags, found.error) && Answered(flags.interactive, old(input.lines)) == ReadFailed
                  then Fatal("failed to scan response: EOF")
                  else Failed(Plain("failed to retrieve " + what + " '" + name + "': " + Message(found.error)))))
      && (found.Err? && CreatesOnMiss(flags, found.error, old(input.lines)) ==>
            store.requests == old(store.requests) +
              [Drive.ListRequest(name, parentID), Drive.CreateFolderRequest(name, parentID)] &&
            !r.Fatal? &&
            (r.Failed? <==> store.folders == old(store.folders)) &&
            (r.Failed? ==> r.error.Plain? && Strings.HasPrefix(r.error.text, "failed to create " + what)) &&
            // the create succeeds exactly when the store accepts it, and then the new folder is the one returned
            (r.Failed? <==> Drive.ReplyAt(old(store.script), 1).Fail?) &&
            (r.Done? ==> store.folders == old(store.folders) + [Drive.Folder(r.value, name, parentID, false)] &&
                         r.value != "" && forall f :: f in old(store.folders) ==> f.id != r.value))
    ensures r.Fatal? ==> r.reason == "failed to scan response: EOF"
    ensures r.Failed? ==> FromStep(r.error, what)
    ensures old(store.requests) <= store.requests
    ensures forall k :: |old(store.requests)| <= k < |store.requests| ==> store.requests[k].parent == parentID
    // input is only ever consumed, and without create-missing a folder is made only after a line was read
    ensures |input.lines| <= |old(input.lines)|
    ensures !flags.createMissing && store.folders != old(store.folders) ==> |input.lines| < |old(input.lines)|
    ensures r.Done? ==> exists f :: f in store.folders && f.id == r.value && Drive.IsMatch(f, name, parentID)
    ensures r.Done? ==> store.folders == old(store.folders) ||
                        store.folders == old(store.folders) + [Drive.Folder(r.value, name, parentID, false)]
  {
    ghost var lines0 := input.lines;
    Drive.RestNext(store.script);
    var found := GetLeafFromParent(store, name, parentID);
    if found.Ok? {
      return Done(found.value);
    }
    var create := flags.createMissing;
    if !create && found.error.NotFound? {
      var answer := YesNoResponse(flags.interactive, input);
      if answer == ReadFailed {
        return Fatal("failed to scan response: EOF");
      }
      create := answer == Yes;
    }
    if create {
      var made := CreateDirectory(store, name, parentID);
      if made.Err? {
        var text := "failed to create " + what + " '" + name + "': " + Message(made.error);
        StepMessagePrefix("failed to create ", what, name, Message(made.error));
        return Failed(Plain(text));
      }
      assert store.folders[|store.folders| - 1] == Drive.Folder(made.value, name, parentID, false);
      return Done(made.value);
    }
    var text := "failed to retrieve " + what + " '" + name + "': " + Message(found.error);
    StepMessagePrefix("failed to retrieve ", what, name, Message(found.error));
    return Failed(Plain(text));
  }

  // ---------------------------------------------------------------------
  // getUploadLocation

  /**
   * Where getUploadLocation puts a file when every folder it needs is known without a create: the root id
   * already set or found by the next reply, then the category cached or found by the reply after that.
   * The second component is what is left of the store's replies afterwards.
   */
  function Located(flags: Config.Flags, folders: seq<Drive.Folder>, script: seq<Drive.Reply>, rootID: string,
                   cache: map<string, string>, category: string): Option<(string, seq<Drive.Reply>)>
  {
    if rootID != "" then CategoryLocated(folders, script, rootID, cache, category)
    else
      var rootFound := LookupIn(folders, Drive.ReplyAt(script, 0), flags.archiveRootName, "root");
      if rootFound.Err? then None else CategoryLocated(folders, Drive.Rest(script), rootFound.value, cache, category)
  }

  /** The category half of Located, once the root id is known. */
  function CategoryLocated(folders: seq<Drive.Folder>, script: seq<Drive.Reply>, rootID: string,
                           cache: map<string, string>, category: string): Option<(string, seq<Drive.Reply>)>
  {
    if category in cache then Some((cache[category], script))
    else
      var found := LookupIn(folders, Drive.ReplyAt(script, 0), category, rootID);
      if found.Err? then None else Some((found.value, Drive.Rest(script)))
  }

  method GetUploadLocation(flags: Config.Flags, globals: Config.Globals, store: Drive.Store, input: Input,
                           category: string) returns (r: Outcome<string>)
    requires store.Valid()
    modifies globals, globals.categoryIDs, store, input
    ensures store.Valid()
    // the archive root is looked up only while its id is unknown
    ensures old(globals.archiveRootID) != "" ==> globals.archiveRootID == old(globals.archiveRootID)
    ensures old(globals.archiveRootID) != "" ==>
              forall k :: |old(store.requests)| <= k < |store.requests| ==>
                store.requests[k].parent == old(globals.archiveRootID)
    ensures old(globals.archiveRootID) == "" ==>
              |store.requests| > |old(store.requests)| &&
              store.requests[|old(store.requests)|] == Drive.ListRequest(flags.archiveRootName, "root")
    ensures old(globals.archiveRootID) == "" && r.Done? ==>
              exists f :: f in store.folders && f.id == globals.archiveRootID &&
                          Drive.IsMatch(f, flags.archiveRootName, "root")
    // a failed root step leaves the id empty, so the next call looks the root up again
    ensures old(globals.archiveRootID) == "" && r.Failed? && !FromStep(r.error, "category") ==>
              globals.archiveRootID == "" && FromStep(r.error, "archive root")
    ensures r.Failed? ==> FromStep(r.error, "archive root") || FromStep(r.error, "category")
    // a cache hit makes no remote call and reads no input
    ensures old(globals.archiveRootID) != "" && category in old(globals.categoryIDs.v) ==>
              r == Done(old(globals.categoryIDs.v)[category]) &&
              store.requests == old(store.requests) && store.folders == old(store.folders) &&
              store.script == old(store.script) && input.lines == old(input.lines)
    ensures category in old(globals.categoryIDs.v) && r.Done? ==> r.value == old(globals.categoryIDs.v)[category]
    // a failure leaves the cache as it was; a success caches the id
    ensures !r.Done? ==> globals.categoryIDs.v == old(globals.categoryIDs.v)
    ensures r.Done? ==> globals.categoryIDs.v == old(globals.categoryIDs.v)[category := r.value]
    ensures r.Done? && category !in old(globals.categoryIDs.v) ==>
              exists f :: f in store.folders && f.id == r.value && Drive.IsMatch(f, category, globals.archiveRootID)
    ensures r.Fatal? ==> r.reason == "failed to scan response: EOF"
    ensures forall f :: f in old(store.folders) ==> f in store.folders
    ensures old(store.requests) <= store.requests
    ensures |input.lines| <= |old(input.lines)|
    ensures !flags.createMissing && store.folders != old(store.folders) ==> |input.lines| < |old(input.lines)|
    // a root that is found goes on to the category step, and a category that is cached or found gives its id
    ensures var rootFound := LookupIn(old(store.folders), old(store.Peek()), flags.archiveRootName, "root");
            var next := Drive.ReplyAt(old(store.script), 1);
            old(globals.archiveRootID) == "" && rootFound.Ok? ==>
              globals.archiveRootID == rootFound.value && (r.Failed? ==> FromStep(r.error, "category")) &&
              (category in old(globals.categoryIDs.v) ==> r == Done(old(globals.categoryIDs.v)[category])) &&
              (category !in old(globals.categoryIDs.v) && LookupIn(old(store.folders), next, category, rootFound.value).Ok? ==>
                 r == Done(LookupIn(old(store.folders), next, category, rootFound.value).value) &&
                 store.script == Drive.Drop(old(store.script), 2))
    ensures var found := LookupIn(old(store.folders), old(store.Peek()), category, old(globals.archiveRootID));
            old(globals.archiveRootID) != "" && category !in old(globals.categoryIDs.v) && found.Ok? ==>
              r == Done(found.value) && store.script == Drive.Rest(old(store.script))
    // every folder known without a create: the location is the one Located gives, with the replies it leaves
    ensures var loc := Located(flags, old(store.folders), old(store.script), old(globals.archiveRootID),
                               old(globals.categoryIDs.v), category);
            loc.Some? ==> r == Done(loc.value.0) && store.script == loc.value.1
    // a missing root that may be created: a refused create fails the root step, an accepted one goes on to the category
    ensures var rootFound := LookupIn(old(store.folders), old(store.Peek()), flags.archiveRootName, "root");
            old(globals.archiveRootID) == "" && rootFound.Err? && CreatesOnMiss(flags, rootFound.error, old(input.lines)) ==>
              (Drive.ReplyAt(old(store.script), 1).Fail? ==>
                 r.Failed? && FromStep(r.error, "archive root") && globals.archiveRootID == "") &&
              (!Drive.ReplyAt(old(store.script), 1).Fail? ==>
                 globals.archiveRootID != "" && (r.Failed? ==> FromStep(r.error, "category")) &&
                 (category in old(globals.categoryIDs.v) ==> r == Done(old(globals.categoryIDs.v)[category])))
  {
    ghost var script0 := store.script;
    var root := ArchiveRoot(flags, globals, store, input);
    if !root.Done? {
      return root;
    }
    Drive.RestNext(script0);
    Drive.DropStep(script0, 1);
    r := CategoryFolder(flags, globals, store, input, category);
  }

  /** The archive-root step: look the root up (or create it) while its id is unknown, and keep the id found. */
  method ArchiveRoot(flags: Config.Flags, globals: Config.Globals, store: Drive.Store, input: Input)
    returns (r: Outcome<string>)
    requires store.Valid()
    modifies globals, store, input
    ensures store.Valid()
    ensures old(globals.archiveRootID) != "" ==>
              r == Done(old(globals.archiveRootID)) && globals.archiveRootID == old(globals.archiveRootID) &&
              store.requests == old(store.requests) && store.folders == old(store.folders) &&
              store.script == old(store.script) && input.lines == old(input.lines)
    ensures old(globals.archiveRootID) == "" ==>
              |store.requests| > |old(store.requests)| &&
              store.requests[|old(store.requests)|] == Drive.ListRequest(flags.archiveRootName, "root")
    ensures r.Done? ==> globals.archiveRootID == r.value
    ensures !r.Done? ==> globals.archiveRootID == ""
    ensures old(globals.archiveRootID) == "" && r.Done? ==>
              exists f :: f in store.folders && f.id == r.value && Drive.IsMatch(f, flags.archiveRootName, "root")
    ensures var found := LookupIn(old(store.folders), old(store.Peek()), flags.archiveRootName, "root");
            old(globals.archiveRootID) == "" && found.Ok? ==>
              r == Done(found.value) && store.folders == old(store.folders) &&
              store.script == Drive.Rest(old(store.script)) && input.lines == old(input.lines)
    // a root that is missing and may be created is kept exactly when the store accepts the create
    ensures var found := LookupIn(old(store.folders), old(store.Peek()), flags.archiveRootName, "root");
            old(globals.archiveRootID) == "" && found.Err? && CreatesOnMiss(flags, found.error, old(input.lines)) ==>
              !r.Fatal? && (r.Done? <==> !Drive.ReplyAt(old(store.script), 1).Fail?) &&
              (r.Done? ==> r.value != "" &&
                           store.folders == old(store.folders) + [Drive.Folder(r.value, flags.archiveRootName, "root", false)])
    ensures r.Failed? ==> FromStep(r.error, "archive root")
    ensures r.Fatal? ==> r.reason == "failed to scan response: EOF"
    ensures forall f :: f in old(store.folders) ==> f in store.folders
    ensures old(store.requests) <= store.requests
    ensures |input.lines| <= |old(input.lines)|
    ensures !flags.createMissing && store.folders != old(store.folders) ==> |input.lines| < |old(input.lines)|
  {
    if globals.archiveRootID != "" {
      return Done(globals.archiveRootID);
    }
    r := FindOrCreate(flags, store, input, flags.archiveRootName, "root", "archive root");
    globals.archiveRootID := if r.Done? then r.value else "";
  }

  /** The category step: the cached id, or else a lookup (or creation) under the archive root whose id is cached. */
  method CategoryFolder(flags: Config.Flags, globals: Config.Globals, store: Drive.Store, input: Input, category: string)
    returns (r: Outcome<string>)
    requires store.Valid()
    modifies globals.categoryIDs, store, input
    ensures store.Valid()
    ensures category in old(globals.categoryIDs.v) ==>
              r == Done(old(globals.categoryIDs.v)[category]) &&
              store.requests == old(store.requests) && store.folders == old(store.folders) &&
              store.script == old(store.script) && input.lines == old(input.lines)
    ensures forall k :: |old(store.requests)| <= k < |store.requests| ==> store.requests[k].parent == globals.archiveRootID
    ensures !r.Done? ==> globals.categoryIDs.v == old(globals.categoryIDs.v)
    ensures r.Done? ==> globals.categoryIDs.v == old(globals.categoryIDs.v)[category := r.value]
    ensures r.Done? && category !in old(globals.categoryIDs.v) ==>
              exists f :: f in store.folders && f.id == r.value && Drive.IsMatch(f, category, globals.archiveRootID)
    ensures var found := LookupIn(old(store.folders), old(store.Peek()), category, globals.archiveRootID);
            category !in old(globals.categoryIDs.v) && found.Ok? ==>
              r == Done(found.value) && store.script == Drive.Rest(old(store.script))
    // a category that is missing and may be created is cached exactly when the store accepts the create
    ensures var found := LookupIn(old(store.folders), old(store.Peek()), category, globals.archiveRootID);
            category !in old(globals.categoryIDs.v) && found.Err? && CreatesOnMiss(flags, found.error, old(input.lines)) ==>
              !r.Fatal? && (r.Done? <==> !Drive.ReplyAt(old(store.script), 1).Fail?) &&
              (r.Done? ==> store.folders == old(store.folders) + [Drive.Folder(r.value, category, globals.archiveRootID, false)])
    ensures r.Failed? ==> FromStep(r.error, "category")
    ensures r.Fatal? ==> r.reason == "failed to scan response: EOF"
    ensures forall f :: f in old(store.folders) ==> f in store.folders
    ensures old(store.requests) <= store.requests
    ensures |input.lines| <= |old(input.lines)|
    ensures !flags.createMissing && store.folders != old(store.folders) ==> |input.lines| < |old(input.lines)|
  {
    var categoryID, ok := globals.categoryIDs.Get(category);
    if ok {
      return Done(categoryID);
    }
    r := FindOrCreate(flags, store, input, category, globals.archiveRootID, "category");
    if r.Done? {
      globals.categoryIDs.Set(category, r.value);
    }
  }

  // ---------------------------------------------------------------------
  // createFile

  /** The upload call's answer as the store gives it, for a new file id. */
  function UploadAnswer(reply: Drive.Reply, id: string, content: seq<bv8>, md5: seq<bv8> -> string): Result<Drive.Uploaded> {
    match reply
    case Fail(e) => Err(e)
    case Garble(sum) => Ok(Drive.Uploaded(id, sum))
    case Succeed => Ok(Drive.Uploaded(id, md5(content)))
  }

  /**
   * What createFile reports once the file is open and its upload is under
   * way: a fault computing the local hash first, then the upload's own
   * error, then a checksum that differs from the local one.
   */
  function CheckUpload(forceRecheck: bool, file: LocalFs.LocalFile, md5: seq<bv8> -> string,
                       reply: Result<Drive.Uploaded>): (r: Result<string>)
    ensures r.Ok? <==> reply.Ok? && (forceRecheck ==> file.hashFault.HashOk? && reply.value.md5Checksum == md5(file.content))
    ensures r.Ok? ==> r.value == reply.value.id
    ensures r.Err? && r.error.ChecksumMismatch? <==>
              || (forceRecheck && file.hashFault.HashOk? && reply.Ok? && reply.value.md5Checksum != md5(file.content))
              || ((!forceRecheck || file.hashFault.HashOk?) && reply.Err? && reply.error.ChecksumMismatch?)
    ensures forceRecheck && !file.hashFault.HashOk? ==> r.Err? && r.error.Plain?
    ensures (!forceRecheck || file.hashFault.HashOk?) && reply.Err? ==> r == Err(reply.error)
  {
    if !forceRecheck then
      (if reply.Err? then Err(reply.error) else Ok(reply.value.id))
    else match file.hashFault
      case ReopenFails(reason) => Err(Plain("failed to open file for checksum: " + reason))
      case ReadFails(reason) => Err(Plain("failed to calculate md5Checksum: " + reason))
      case HashOk =>
        var realSum := md5(file.content);
        if reply.Err? then Err(reply.error)
        else if reply.value.md5Checksum != realSum then
          Err(ChecksumMismatch("md5Checksum mismatch: remote " + reply.value.md5Checksum + ", local " + realSum))
        else Ok(reply.value.id)
  }

  /** The message when the file to upload cannot be opened. */
  function OpenFailure(leafPath: string, reason: string): Error {
    Plain("failed to open file '" + leafPath + "': " + reason)
  }

  method CreateFile(forceRecheck: bool, store: Drive.Store, leafPath: string, file: LocalFs.LocalFile,
                    parentID: string, md5: seq<bv8> -> string) returns (r: Result<string>)
    requires store.Valid()
    modifies store
    ensures store.Valid() && store.folders == old(store.folders)
    // an unreadable file is reported before anything is sent
    ensures file.openError.Some? ==>
              r == Err(OpenFailure(leafPath, file.openError.value)) &&
              store.script == old(store.script) && store.requests == old(store.requests)
    ensures file.openError.None? ==>
              r == CheckUpload(forceRecheck, file, md5,
                               UploadAnswer(old(store.Peek()), Drive.FreshId(old(store.nextId)), file.content, md5)) &&
              store.script == Drive.Rest(old(store.script)) &&
              store.requests == old(store.requests) + [Drive.UploadRequest(Paths.Base(leafPath), parentID)]
  {
    if file.openError.Some? {
      return Err(OpenFailure(leafPath, file.openError.value));
    }
    ghost var id := Drive.FreshId(store.nextId);
    ghost var next := store.Peek();
    var answer := store.Upload(Paths.Base(leafPath), parentID, file.content, md5);
    assert answer == UploadAnswer(next, id, file.content, md5);
    r := CheckUpload(forceRecheck, file, md5, answer);
  }

  // ---------------------------------------------------------------------
  // withRetry

  /** A unit of remote work the retry executor repeats. */
  datatype Job = MakeDir(name: string, parent: string) | PutFile(path: string, file: LocalFs.LocalFile, parent: string)

  /** Whether an attempt of the job reaches the remote store at all. */
  predicate Reaches(job: Job) {
    job.MakeDir? || job.file.openError.None?
  }

  /** The request one attempt sends. */
  function JobRequest(job: Job): Drive.Request {
    match job
    case MakeDir(name, parent) => Drive.CreateFolderRequest(name, parent)
    case PutFile(path, _, parent) => Drive.UploadRequest(Paths.Base(path), parent)
  }

  /** The error one attempt returns when the store gives this reply. */
  function JobOutcome(forceRecheck: bool, md5: seq<bv8> -> string, job: Job, reply: Drive.Reply): Option<Error> {
    match job
    case MakeDir(_, _) => if reply.Fail? then Some(reply.error) else None
    case PutFile(path, file, _) =>
      if file.openError.Some? then Some(OpenFailure(path, file.openError.value))
      else
        var r := CheckUpload(forceRecheck, file, md5, UploadAnswer(reply, "", file.content, md5));
        if r.Err? then Some(r.error) else None
  }

  /** A store that answers normally ends the retries: no attempt is repeated forever. */
  lemma SucceedStops(forceRecheck: bool, md5: seq<bv8> -> string, job: Job)
    ensures !RetryIfNeeded(JobOutcome(forceRecheck, md5, job, Drive.Succeed))
  {
  }

  /** A remote checksum that differs from the local one is retried when the recheck is on. */
  lemma GarbledUploadRetried(md5: seq<bv8> -> string, path: string, file: LocalFs.LocalFile, parent: string, sum: string)
    requires file.openError.None? && file.hashFault.HashOk? && sum != md5(file.content)
    ensures RetryIfNeeded(JobOutcome(true, md5, PutFile(path, file, parent), Drive.Garble(sum)))
    ensures !RetryIfNeeded(JobOutcome(false, md5, PutFile(path, file, parent), Drive.Garble(sum)))
  {
  }

  /** The outcomes of successive attempts against a script of replies, ending with a normal answer. */
  function Outcomes(forceRecheck: bool, md5: seq<bv8> -> string, job: Job, script: seq<Drive.Reply>): (outs: seq<Option<Error>>)
    ensures |outs| == |script| + 1 && !RetryIfNeeded(outs[|script|])
  {
    SucceedStops(forceRecheck, md5, job);
    seq(|script| + 1, i requires 0 <= i <= |script| => JobOutcome(forceRecheck, md5, job, Drive.ReplyAt(script, i)))
  }

  /** Whether withRetry ends without an error for `job` against the reply script `script`. */
  predicate RetrySucceeds(forceRecheck: bool, md5: seq<bv8> -> string, job: Job, script: seq<Drive.Reply>) {
    var outs := Outcomes(forceRecheck, md5, job, script);
    outs[FirstStop(outs, 0)].None?
  }

  /** A store that answers every call normally lets a job succeed when its file opens, and hashes if rechecked. */
  lemma EmptyScriptSucceeds(forceRecheck: bool, md5: seq<bv8> -> string, job: Job)
    requires job.PutFile? ==> job.file.openError.None? && (forceRecheck ==> job.file.hashFault.HashOk?)
    ensures RetrySucceeds(forceRecheck, md5, job, [])
  {
    var outs := Outcomes(forceRecheck, md5, job, []);
    assert outs[0] == JobOutcome(forceRecheck, md5, job, Drive.Succeed);
  }

  /** The final error of withRetry: the last error, labelled with the job. */
  function Wrap(jobId: string, e: Error): Error {
    Plain("[Job #" + jobId + "] retry failed: " + Message(e))
  }

  /** A wrapped error is never retried by an enclosing executor. */
  lemma WrappedNotRetried(jobId: string, e: Error)
    ensures !RetryIfNeeded(Some(Wrap(jobId, e)))
    ensures Message(Wrap(jobId, e)) == "[Job #" + jobId + "] retry failed: " + Message(e)
  {
  }

  method Attempt(forceRecheck: bool, store: Drive.Store, job: Job, md5: seq<bv8> -> string)
    returns (err: Option<Error>, id: string)
    requires store.Valid()
    modifies store
    ensures store.Valid()
    ensures err == JobOutcome(forceRecheck, md5, job, old(store.Peek()))
    ensures Reaches(job) ==>
              store.script == Drive.Rest(old(store.script)) && store.requests == old(store.requests) + [JobRequest(job)]
    ensures !Reaches(job) ==> store.script == old(store.script) && store.requests == old(store.requests) && err.Some?
    ensures job.MakeDir? && err.None? ==>
              store.folders == old(store.folders) + [Drive.Folder(id, job.name, job.parent, false)] &&
              forall f :: f in old(store.folders) ==> f.id != id
    ensures !(job.MakeDir? && err.None?) ==> store.folders == old(store.folders)
  {
    match job
    case MakeDir(name, parent) =>
      var r := CreateDirectory(store, name, parent);
      err, id := if r.Err? then Some(r.error) else None, if r.Ok? then r.value else "";
    case PutFile(path, file, parent) =>
      var r := CreateFile(forceRecheck, store, path, file, parent, md5);
      err, id := if r.Err? then Some(r.error) else None, if r.Ok? then r.value else "";
  }

  /** One more request appended to n repeated requests makes n + 1 of them. */
  lemma RepeatStep(before: seq<Drive.Request>, n: nat, r: Drive.Request, mid: seq<Drive.Request>, after: seq<Drive.Request>)
    requires mid == before + seq(n, _ => r) && after == mid + [r]
    ensures after == before + seq(n + 1, _ => r)
  {
    assert seq(n + 1, _ => r) == seq(n, _ => r) + [r];
  }

  /** The last of n >= 1 repeated requests is the repeated one. */
  lemma RepeatLast(before: seq<Drive.Request>, n: nat, r: Drive.Request)
    requires n >= 1
    ensures |before + seq(n, _ => r)| > 0 && (before + seq(n, _ => r))[|before + seq(n, _ => r)| - 1] == r
  {
  }

  /** The next sleep is the current one times the ratio. */
  lemma PowStep(start: int, ratio: int, n: nat)
    ensures start * Pow(ratio, n) * ratio == start * Pow(ratio, n + 1)
  {
    assert Pow(ratio, n + 1) == ratio * Pow(ratio, n);
    assert start * Pow(ratio, n) * ratio == start * (ratio * Pow(ratio, n));
  }

  /**
   * The state of withRetry after `calls` attempts against the script
   * `script0`: the last outcome is `err`, every earlier one was retryable,
   * and each attempt that reached the store used up one reply and sent one
   * request.
   */
  ghost predicate Retrying(forceRecheck: bool, md5: seq<bv8> -> string, job: Job, script0: seq<Drive.Reply>,
                           requests0: seq<Drive.Request>, calls: nat, err: Option<Error>,
                           script: seq<Drive.Reply>, requests: seq<Drive.Request>)
  {
    var outs := Outcomes(forceRecheck, md5, job, script0);
    && 1 <= calls <= |outs| && err == outs[calls - 1]
    && (forall i :: 0 <= i < calls - 1 ==> RetryIfNeeded(outs[i]))
    && (RetryIfNeeded(err) ==> Reaches(job))
    && (Reaches(job) ==> script == Drive.Drop(script0, calls) && requests == requests0 + seq(calls, _ => JobRequest(job)))
    && (!Reaches(job) ==> calls == 1 && script == script0 && requests == requests0 && err.Some?)
  }

  lemma RetryingStart(forceRecheck: bool, md5: seq<bv8> -> string, job: Job, script0: seq<Drive.Reply>,
                      requests0: seq<Drive.Request>, err: Option<Error>,
                      script: seq<Drive.Reply>, requests: seq<Drive.Request>)
    requires err == JobOutcome(forceRecheck, md5, job, Drive.ReplyAt(script0, 0))
    requires Reaches(job) ==> script == Drive.Rest(script0) && requests == requests0 + [JobRequest(job)]
    requires !Reaches(job) ==> script == script0 && requests == requests0 && err.Some?
    ensures Retrying(forceRecheck, md5, job, script0, requests0, 1, err, script, requests)
  {
    OutcomeAt(forceRecheck, md5, job, script0, 0);
    assert Drive.Drop(script0, 1) == Drive.Rest(script0);
    assert seq(1, _ => JobRequest(job)) == [JobRequest(job)];
    if !Reaches(job) {
      assert job.PutFile? && job.file.openError.Some?;
    }
  }

  /** A retryable outcome comes from an attempt that reached the store, and the script had a reply left for it. */
  lemma RetryingReaches(forceRecheck: bool, md5: seq<bv8> -> string, job: Job, script0: seq<Drive.Reply>,
                        requests0: seq<Drive.Request>, calls: nat, err: Option<Error>,
                        script: seq<Drive.Reply>, requests: seq<Drive.Request>)
    requires Retrying(forceRecheck, md5, job, script0, requests0, calls, err, script, requests) && RetryIfNeeded(err)
    ensures Reaches(job) && calls <= |script0|
    ensures script == Drive.Drop(script0, calls) && requests == requests0 + seq(calls, _ => JobRequest(job))
  {
  }

  lemma RetryingStep(forceRecheck: bool, md5: seq<bv8> -> string, job: Job, script0: seq<Drive.Reply>,
                     requests0: seq<Drive.Request>, calls: nat, err: Option<Error>, err': Option<Error>,
                     script': seq<Drive.Reply>, requests': seq<Drive.Request>)
    requires var outs := Outcomes(forceRecheck, md5, job, script0);
             && 1 <= calls <= |script0| && err == outs[calls - 1] && RetryIfNeeded(err)
             && (forall i :: 0 <= i < calls - 1 ==> RetryIfNeeded(outs[i]))
    requires Reaches(job) && err' == JobOutcome(forceRecheck, md5, job, Drive.ReplyAt(script0, calls))
    requires script' == Drive.Drop(script0, calls + 1) && requests' == requests0 + seq(calls + 1, _ => JobRequest(job))
    ensures Retrying(forceRecheck, md5, job, script0, requests0, calls + 1, err', script', requests')
  {
    OutcomeAt(forceRecheck, md5, job, script0, calls);
  }

  /**
   * What withRetry guarantees about a job run against the script `script0`:
   * it made one attempt more than the retryable outcomes before the first
   * one that is not, slept the backoff schedule in between, returns that
   * outcome (an error labelled with the job id), and every attempt that
   * reached the store used one reply and sent one request.
   */
  ghost predicate Retried(flags: Config.Flags, md5: seq<bv8> -> string, job: Job, jobId: string,
                          script0: seq<Drive.Reply>, requests0: seq<Drive.Request>,
                          err: Option<Error>, calls: nat, sleeps: seq<int>,
                          script: seq<Drive.Reply>, requests: seq<Drive.Request>)
  {
    var outs := Outcomes(flags.forceRecheck, md5, job, script0);
    && calls == FirstStop(outs, 0) + 1
    && sleeps == Backoff(flags.retryStartingRate, flags.retryRatio, calls - 1)
    && (err.None? <==> outs[calls - 1].None?)
    && (err.Some? ==> err.value == Wrap(jobId, outs[calls - 1].value))
    && (Reaches(job) ==> script == Drive.Drop(script0, calls) && requests == requests0 + seq(calls, _ => JobRequest(job)))
    && (!Reaches(job) ==> calls == 1 && script == script0 && requests == requests0 && err.Some?)
  }

  lemma RetryingEnd(flags: Config.Flags, md5: seq<bv8> -> string, job: Job, jobId: string,
                    script0: seq<Drive.Reply>, requests0: seq<Drive.Request>, calls: nat,
                    last: Option<Error>, err: Option<Error>, sleeps: seq<int>,
                    script: seq<Drive.Reply>, requests: seq<Drive.Request>)
    requires Retrying(flags.forceRecheck, md5, job, script0, requests0, calls, last, script, requests)
    requires !RetryIfNeeded(last) && sleeps == Backoff(flags.retryStartingRate, flags.retryRatio, calls - 1)
    requires err == if last.Some? then Some(Wrap(jobId, last.value)) else None
    ensures Retried(flags, md5, job, jobId, script0, requests0, err, calls, sleeps, script, requests)
    ensures requests0 <= requests
    ensures err.None? <==> RetrySucceeds(flags.forceRecheck, md5, job, script0)
    ensures script0 == [] ==> script == []
  {
    FirstStopAfterRetries(Outcomes(flags.forceRecheck, md5, job, script0), calls - 1, 0);
    assert requests[..|requests0|] == requests0;
  }

  /** A run that ends without an error reached the store: its last request is the job's. */
  lemma RetriedLastRequest(flags: Config.Flags, md5: seq<bv8> -> string, job: Job, jobId: string,
                           script0: seq<Drive.Reply>, requests0: seq<Drive.Request>,
                           err: Option<Error>, calls: nat, sleeps: seq<int>,
                           script: seq<Drive.Reply>, requests: seq<Drive.Request>)
    requires Retried(flags, md5, job, jobId, script0, requests0, err, calls, sleeps, script, requests) && err.None?
    ensures |requests| > |requests0| && requests[|requests| - 1] == JobRequest(job)
  {
    RepeatLast(requests0, calls, JobRequest(job));
  }

  /** One more sleep of the current rate extends the schedule, and the rate grows by the ratio. */
  lemma ScheduleStep(start: int, ratio: int, n: nat, rate: int, sleeps: seq<int>)
    requires rate == start * Pow(ratio, n) && sleeps == Backoff(start, ratio, n)
    ensures sleeps + [rate] == Backoff(start, ratio, n + 1)
    ensures rate * ratio == start * Pow(ratio, n + 1)
  {
    PowStep(start, ratio, n);
  }

  lemma OutcomeAt(forceRecheck: bool, md5: seq<bv8> -> string, job: Job, script: seq<Drive.Reply>, i: nat)
    requires i <= |script|
    ensures Outcomes(forceRecheck, md5, job, script)[i] == JobOutcome(forceRecheck, md5, job, Drive.ReplyAt(script, i))
  {
  }

  /** The attempt after `calls` attempts whose outcomes were all retryable: it gets the next reply of the script. */
  method RetryOnce(forceRecheck: bool, store: Drive.Store, job: Job, md5: seq<bv8> -> string,
                   ghost script0: seq<Drive.Reply>, ghost requests0: seq<Drive.Request>, ghost calls: nat, ghost last: Option<Error>)
    returns (err: Option<Error>, id: string)
    requires store.Valid() && RetryIfNeeded(last)
    requires Retrying(forceRecheck, md5, job, script0, requests0, calls, last, store.script, store.requests)
    modifies store
    ensures store.Valid() && calls + 1 <= |script0| + 1
    ensures Retrying(forceRecheck, md5, job, script0, requests0, calls + 1, err, store.script, store.requests)
    ensures job.MakeDir? && err.None? ==>
              store.folders == old(store.folders) + [Drive.Folder(id, job.name, job.parent, false)] &&
              forall f :: f in old(store.folders) ==> f.id != id
    ensures !(job.MakeDir? && err.None?) ==> store.folders == old(store.folders)
  {
    RetryingReaches(forceRecheck, md5, job, script0, requests0, calls, last, store.script, store.requests);
    Drive.DropStep(script0, calls);
    ghost var requests := store.requests;
    err, id := Attempt(forceRecheck, store, job, md5);
    RepeatStep(requests0, calls, JobRequest(job), requests, store.requests);
    RetryingStep(forceRecheck, md5, job, script0, requests0, calls, last, err, store.script, store.requests);
  }

  /** The retry loop of withRetry, entered after the first attempt: attempt again while the error is worth it. */
  method RetryLoop(flags: Config.Flags, store: Drive.Store, job: Job, md5: seq<bv8> -> string,
                   ghost script0: seq<Drive.Reply>, ghost requests0: seq<Drive.Request>, ghost folders0: seq<Drive.Folder>,
                   first: Option<Error>, firstId: string)
    returns (err: Option<Error>, id: string, calls: nat, ghost sleeps: seq<int>)
    requires store.Valid()
    requires Retrying(flags.forceRecheck, md5, job, script0, requests0, 1, first, store.script, store.requests)
    requires job.MakeDir? && first.None? ==>
               store.folders == folders0 + [Drive.Folder(firstId, job.name, job.parent, false)] &&
               forall f :: f in folders0 ==> f.id != firstId
    requires !(job.MakeDir? && first.None?) ==> store.folders == folders0
    modifies store
    ensures store.Valid()
    ensures Retrying(flags.forceRecheck, md5, job, script0, requests0, calls, err, store.script, store.requests)
    ensures !RetryIfNeeded(err) && sleeps == Backoff(flags.retryStartingRate, flags.retryRatio, calls - 1)
    ensures job.MakeDir? && err.None? ==>
              store.folders == folders0 + [Drive.Folder(id, job.name, job.parent, false)] &&
              forall f :: f in folders0 ==> f.id != id
    ensures !(job.MakeDir? && err.None?) ==> store.folders == folders0
  {
    err, id := first, firstId;
    var rate := flags.retryStartingRate;
    calls := 1;
    sleeps := [];
    while RetryIfNeeded(err)
      invariant Retrying(flags.forceRecheck, md5, job, script0, requests0, calls, err, store.script, store.requests)
      invariant calls <= |script0| + 1
      invariant rate == flags.retryStartingRate * Pow(flags.retryRatio, calls - 1)
      invariant sleeps == Backoff(flags.retryStartingRate, flags.retryRatio, calls - 1)
      invariant store.Valid()
      invariant job.MakeDir? && err.None? ==>
                  store.folders == folders0 + [Drive.Folder(id, job.name, job.parent, false)] &&
                  forall f :: f in folders0 ==> f.id != id
      invariant !(job.MakeDir? && err.None?) ==> store.folders == folders0
      decreases |script0| + 1 - calls
    {
      ScheduleStep(flags.retryStartingRate, flags.retryRatio, calls - 1, rate, sleeps);
      sleeps := sleeps + [rate];
      err, id := RetryOnce(flags.forceRecheck, store, job, md5, script0, requests0, calls, err);
      calls := calls + 1;
      rate := rate * flags.retryRatio;
    }
  }

  /**
   * withRetry with retryIfNeeded as its classifier: one attempt, then one
   * more after each sleep while the outcome is retryable, the sleep growing
   * by the ratio each time; a final error is wrapped with the job id.
   */
  method WithRetry(flags: Config.Flags, store: Drive.Store, job: Job, md5: seq<bv8> -> string, jobId: string)
    returns (err: Option<Error>, id: string, calls: nat, ghost sleeps: seq<int>)
    requires store.Valid()
    modifies store
    ensures store.Valid()
    ensures Retried(flags, md5, job, jobId, old(store.script), old(store.requests), err, calls, sleeps, store.script, store.requests)
    ensures old(store.requests) <= store.requests
    ensures err.None? <==> RetrySucceeds(flags.forceRecheck, md5, job, old(store.script))
    ensures old(store.script) == [] ==> store.script == []
    ensures job.MakeDir? && err.None? ==>
              store.folders == old(store.folders) + [Drive.Folder(id, job.name, job.parent, false)] &&
              forall f :: f in old(store.folders) ==> f.id != id
    ensures !(job.MakeDir? && err.None?) ==> store.folders == old(store.folders)
  {
    ghost var script0, requests0 := store.script, store.requests;
    assert store.Peek() == Drive.ReplyAt(script0, 0);
    err, id := Attempt(flags.forceRecheck, store, job, md5);
    RetryingStart(flags.forceRecheck, md5, job, script0, requests0, err, store.script, store.requests);
    err, id, calls, sleeps := RetryLoop(flags, store, job, md5, script0, requests0, old(store.folders), err, id);
    ghost var last := err;
    if err.Some? {
      err := Some(Wrap(jobId, err.value));
    }
    RetryingEnd(flags, md5, job, jobId, script0, requests0, calls, last, err, sleeps, store.script, store.requests);
  }
}
