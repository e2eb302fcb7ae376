/**
 * uploader.go, the single-file predecessor of the engine: the same lookup,
 * creation, upload and retry code with fixed settings, a prompt that is
 * always shown, an ignore list matched by exact name only, and its own
 * SyncDirectory.
 */
module Uploader {
  import opened Wrappers
  import opened Errors
  import Strings
  import Paths
  import Config
  import Drive
  import LocalFs
  import RemoteUtils
  import Walk
  import RemoteSync

  const IgnoreList: set<string> := {".DS_Store", ".localized", ".idea", ".sync_finished"}

  /** The settings this copy has as constants: no CreateMissing and an operator always at the prompt. */
  const Settings := Config.Flags("archive", "", true, true, false, 2, 1)

  /** Names are passed over only when they are on the list, exactly. */
  predicate Skipped(name: string) {
    name in IgnoreList
  }

  const LegacyRules := Walk.Rules(Skipped, "Failed to upload file")

  /** The two copies pass over different names: only the newer one knows ".git" and the mark prefix. */
  lemma SkipRulesDiffer()
    ensures Skipped(".sync_finished") && RemoteSync.Skipped(".sync_finished")
    ensures !Skipped(".sync_finished-notes.txt") && RemoteSync.Skipped(".sync_finished-notes.txt")
    ensures !Skipped(".git") && RemoteSync.Skipped(".git")
    ensures forall name :: Skipped(name) && name != ".sync_finished" ==> RemoteSync.Skipped(name)
  {
    RemoteSync.MarkPrefixSkipped(".sync_finished");
    var n := ".sync_finished-notes.txt";
    assert n[..|RemoteSync.MarkName|] == RemoteSync.MarkName;
    RemoteSync.MarkPrefixSkipped(n);
  }

  /** yesNoResponse without the interactive switch: it always reads the input. */
  method YesNoResponse(input: RemoteUtils.Input) returns (answer: RemoteUtils.Answer)
    modifies input
    ensures answer == RemoteUtils.Response(old(input.lines)).0
    ensures input.lines == old(input.lines)[RemoteUtils.Response(old(input.lines)).1..]
  {
    answer := RemoteUtils.YesNoResponse(true, input);
  }

  /**
   * GetUploadLocation: a missing archive root or category is created only
   * when the operator answers yes, so every folder it makes costs a line of
   * input.
   */
  method GetUploadLocation(globals: Config.Globals, store: Drive.Store, input: RemoteUtils.Input, category: string)
    returns (r: Outcome<string>)
    requires store.Valid()
    modifies globals, globals.categoryIDs, store, input
    ensures store.Valid()
    ensures old(globals.archiveRootID) != "" ==> globals.archiveRootID == old(globals.archiveRootID)
    ensures old(globals.archiveRootID) != "" ==>
              forall k :: |old(store.requests)| <= k < |store.requests| ==>
                store.requests[k].parent == old(globals.archiveRootID)
    ensures old(globals.archiveRootID) == "" ==>
              |store.requests| > |old(store.requests)| &&
              store.requests[|old(store.requests)|] == Drive.ListRequest("archive", "root")
    ensures old(globals.archiveRootID) == "" && r.Done? ==>
              exists f :: f in store.folders && f.id == globals.archiveRootID && Drive.IsMatch(f, "archive", "root")
    ensures old(globals.archiveRootID) == "" && r.Failed? && !RemoteUtils.FromStep(r.error, "category") ==>
              globals.archiveRootID == "" && RemoteUtils.FromStep(r.error, "archive root")
    ensures r.Failed? ==> RemoteUtils.FromStep(r.error, "archive root") || RemoteUtils.FromStep(r.error, "category")
    ensures old(globals.archiveRootID) != "" && category in old(globals.categoryIDs.v) ==>
              r == Done(old(globals.categoryIDs.v)[category]) &&
              store.requests == old(store.requests) && store.folders == old(store.folders) &&
              store.script == old(store.script) && input.lines == old(input.lines)
    ensures category in old(globals.categoryIDs.v) && r.Done? ==> r.value == old(globals.categoryIDs.v)[category]
    ensures !r.Done? ==> globals.categoryIDs.v == old(globals.categoryIDs.v)
    ensures r.Done? ==> globals.categoryIDs.v == old(globals.categoryIDs.v)[category := r.value]
    ensures r.Done? && category !in old(globals.categoryIDs.v) ==>
              exists f :: f in store.folders && f.id == r.value && Drive.IsMatch(f, category, globals.archiveRootID)
    ensures r.Fatal? ==> r.reason == "failed to scan response: EOF"
    ensures forall f :: f in old(store.folders) ==> f in store.folders
    ensures old(store.requests) <= store.requests
    ensures store.folders != old(store.folders) ==> |input.lines| < |old(input.lines)|
    // a root that is found goes on to the category step, and a category that is cached or found gives its id
    ensures var rootFound := RemoteUtils.LookupIn(old(store.folders), old(store.Peek()), "archive", "root");
            var next := Drive.ReplyAt(old(store.script), 1);
            old(globals.archiveRootID) == "" && rootFound.Ok? ==>
              globals.archiveRootID == rootFound.value && (r.Failed? ==> RemoteUtils.FromStep(r.error, "category")) &&
              (category in old(globals.categoryIDs.v) ==> r == Done(old(globals.categoryIDs.v)[category])) &&
              (category !in old(globals.categoryIDs.v) &&
               RemoteUtils.LookupIn(old(store.folders), next, category, rootFound.value).Ok? ==>
                 r == Done(RemoteUtils.LookupIn(old(store.folders), next, category, rootFound.value).value))
    ensures var found := RemoteUtils.LookupIn(old(store.folders), old(store.Peek()), category, old(globals.archiveRootID));
            old(globals.archiveRootID) != "" && category !in old(globals.categoryIDs.v) && found.Ok? ==>
              r == Done(found.value)
    // a root that is not found and that the operator agrees to create: a refused create fails the root step,
    // an accepted one goes on to the category
    ensures var rootFound := RemoteUtils.LookupIn(old(store.folders), old(store.Peek()), "archive", "root");
            old(globals.archiveRootID) == "" && rootFound.Err? &&
            RemoteUtils.CreatesOnMiss(Settings, rootFound.error, old(input.lines)) ==>
              (Drive.ReplyAt(old(store.script), 1).Fail? ==>
                 r.Failed? && RemoteUtils.FromStep(r.error, "archive root") && globals.archiveRootID == "") &&
              (!Drive.ReplyAt(old(store.script), 1).Fail? ==>
                 globals.archiveRootID != "" && (r.Failed? ==> RemoteUtils.FromStep(r.error, "category")) &&
                 (category in old(globals.categoryIDs.v) ==> r == Done(old(globals.categoryIDs.v)[category])))
    // every folder known without a create: the location is the one Located gives, with the replies it leaves
    ensures var loc := RemoteUtils.Located(Settings, old(store.folders), old(store.script), old(globals.archiveRootID),
                                           old(globals.categoryIDs.v), category);
            loc.Some? ==> r == Done(loc.value.0) && store.script == loc.value.1
  {
    r := RemoteUtils.GetUploadLocation(Settings, globals, store, input, category);
  }

  /** With a starting rate of 1 and a ratio of 2 the i-th sleep is 2^i seconds. */
  lemma SleepsDouble(n: nat, i: nat)
    requires i < n
    ensures RemoteUtils.Backoff(Settings.retryStartingRate, Settings.retryRatio, n)[i] == RemoteUtils.Pow(2, i)
  {
    RemoteUtils.BackoffAt(1, 2, n, i);
  }

  /** WithRetry with the fixed starting rate 1 and ratio 2. */
  method WithRetry(store: Drive.Store, job: RemoteUtils.Job, md5: seq<bv8> -> string, jobId: string)
    returns (err: Option<Error>, id: string, calls: nat, ghost sleeps: seq<int>)
    requires store.Valid()
    modifies store
    ensures store.Valid()
    ensures var outs := RemoteUtils.Outcomes(true, md5, job, old(store.script));
      && calls == RemoteUtils.FirstStop(outs, 0) + 1
      && |sleeps| == calls - 1
      && (forall i :: 0 <= i < |sleeps| ==> sleeps[i] == RemoteUtils.Pow(2, i))
      && (err.None? <==> outs[calls - 1].None?)
      && (err.Some? ==> err.value == RemoteUtils.Wrap(jobId, outs[calls - 1].value))
    ensures job.MakeDir? && err.None? ==>
              store.folders == old(store.folders) + [Drive.Folder(id, job.name, job.parent, false)]
    ensures !(job.MakeDir? && err.None?) ==> store.folders == old(store.folders)
  {
    err, id, calls, sleeps := RemoteUtils.WithRetry(Settings, store, job, md5, jobId);
    forall i | 0 <= i < |sleeps| ensures sleeps[i] == RemoteUtils.Pow(2, i) {
      SleepsDouble(calls - 1, i);
    }
  }

  /** The mark path, built from the cleaned path as in the newer copy. */
  function MarkPath(path: string): string {
    Paths.Clean(path) + "/.sync_finished"
  }

  method SyncDirectory(globals: Config.Globals, store: Drive.Store, input: RemoteUtils.Input,
                       disk: LocalFs.Disk, path: string, tree: LocalFs.Node, category: string,
                       md5: seq<bv8> -> string, jobIds: nat -> string)
    returns (r: Outcome<()>, ops: seq<Walk.Op>)
    requires store.Valid()
    modifies globals, globals.categoryIDs, store, input, disk
    ensures store.Valid()
    // anything but "does not exist", including a failing stat, counts as synced
    ensures !old(disk.StatOf(MarkPath(path))).Missing? ==>
              r == Failed(AlreadySynced("folder already synced")) && ops == [] &&
              RemoteSync.NoRemoteWork(globals, store, input) && disk.marks == old(disk.marks)
    ensures r.Done? ==>
              disk.marks == old(disk.marks) + {MarkPath(path)} &&
              Walk.RecordsAll(ops, Walk.Kept(Skipped, RemoteSync.Listing(path, tree)))
    ensures !r.Done? ==> disk.marks == old(disk.marks)
    ensures old(disk.StatOf(MarkPath(path))).Missing? && r.Failed? ==>
              r.error.Plain? &&
              (Strings.HasPrefix(r.error.text, "failed to sync directory: ") ||
               (MarkPath(path) in disk.createErrors &&
                r.error.text == "failed to set synced mark: " + disk.createErrors[MarkPath(path)]))
    // a fatal exit is the prompt's EOF, or the failed upload of a file of the tree, named in the message
    ensures r.Fatal? ==>
              old(disk.StatOf(MarkPath(path))).Missing? &&
              (r.reason == "failed to scan response: EOF" ||
               exists j :: 0 <= j < |RemoteSync.Listing(path, tree)| &&
                 Walk.UploadAbort(LegacyRules, RemoteSync.Listing(path, tree)[j], r.reason))
    ensures forall k :: 0 <= k < |ops| ==> Walk.Placed(ops, k, globals.categoryIDs.v, category)
    ensures forall k :: 0 <= k < |ops| && ops[k].MadeDir? ==>
              Drive.Folder(ops[k].id, ops[k].name, ops[k].parent, false) in store.folders
    // every file recorded as uploaded was sent to Drive during this sync, into the recorded parent
    ensures old(store.requests) <= store.requests
    ensures Walk.UploadsSent(ops, store.requests[|old(store.requests)|..])
    // on success: children in their kept parent's new folder, parents listed first, the root folder in the category
    ensures r.Done? ==> Walk.InParentFolders(Skipped, RemoteSync.Listing(path, tree), ops)
    ensures r.Done? && LocalFs.WellNamed(LocalFs.Rooted(Paths.Clean(path), tree)) ==>
              forall j :: 0 < j < |RemoteSync.Listing(path, tree)| ==>
                LocalFs.HasParentBefore(RemoteSync.Listing(path, tree), j)
    ensures r.Done? && tree.Dir? && !Skipped(Paths.Base(Paths.Clean(path))) ==>
              |ops| >= 1 && ops[0].MadeDir? && ops[0].path == Paths.Clean(path) &&
              category in globals.categoryIDs.v && ops[0].parent == globals.categoryIDs.v[category]
    // a sync that is done met no error entry, not even one whose name is passed over
    ensures r.Done? ==>
              forall j :: 0 <= j < |RemoteSync.Listing(path, tree)| ==> !RemoteSync.Listing(path, tree)[j].kind.Failed?
    // with the root and category known and a store that answers normally, an unmarked tree of actionable entries is synced
    ensures old(disk.StatOf(MarkPath(path))).Missing? && MarkPath(path) !in disk.createErrors &&
            old(store.script) == [] && old(globals.archiveRootID) != "" && category in old(globals.categoryIDs.v) &&
            (forall j :: 0 <= j < |RemoteSync.Listing(path, tree)| ==>
               Walk.Actionable(LegacyRules, Settings.forceRecheck, RemoteSync.Listing(path, tree)[j])) ==>
              r.Done?
  {
    var p := Paths.Clean(path);
    var mark := p + "/.sync_finished";
    var stat := disk.Stat(mark);
    if !stat.Missing? {
      return Failed(AlreadySynced("folder already synced")), [];
    }
    var es := LocalFs.Preorder(p, LocalFs.Rooted(p, tree));
    assert es == RemoteSync.Listing(path, tree);
    ghost var before := store.requests;
    var res, done, processed := Walk.Walk(LegacyRules, Settings, globals, store, input, es, category, md5, jobIds);
    ops := done;
    Walk.ProgressFacts(Skipped, es, processed, ops, globals.categoryIDs.v, store.folders, store.requests[|before|..], category);
    if res.Finished? {
      RemoteSync.FinishedWalkFacts(Skipped, path, tree, ops, processed, globals.categoryIDs.v, store.folders,
                                   store.requests[|before|..], category);
    }
    match res
    case Stopped(err) =>
      var text := "failed to sync directory: " + Message(err);
      assert Strings.HasPrefix(text, "failed to sync directory: ");
      return Failed(Plain(text)), ops;
    case Aborted(reason) =>
      assert reason != "failed to scan response: EOF" ==> Walk.UploadAbort(LegacyRules, es[processed], reason);
      return Fatal(reason), ops;
    case Finished =>
      var failure := disk.Create(mark);
      if failure.Some? {
        return Failed(Plain("failed to set synced mark: " + failure.value)), ops;
      }
      return Done(()), ops;
  }
}
