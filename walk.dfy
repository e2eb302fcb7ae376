/**
 * The filepath.Walk callback shared by the two copies of SyncDirectory
 * (remote/sync.go and uploader.go): an error entry stops the walk, an
 * ignored name is passed over (its children are still visited), every other
 * entry is placed in the folder recorded for its parent path or, when there
 * is none, in the category folder; a directory is created and recorded, a
 * file is uploaded and a failed upload ends the program.
 */
module Walk {
  import opened Wrappers
  import opened Errors
  import Paths
  import Config
  import Drive
  import LocalFs
  import RemoteUtils
  import Strings

  /** What differs between the two copies: the names passed over and the wording of the fatal upload message. */
  datatype Rules = Rules(skip: string -> bool, uploadFailure: string)

  /** What the walk did for one entry. */
  datatype Op =
    | MadeDir(path: string, name: string, parent: string, id: string)
    | Uploaded(path: string, name: string, parent: string, id: string)

  datatype WalkResult = Finished | Stopped(error: Error) | Aborted(reason: string)

  /** The outcome of the callback for one entry: go on (having done something or not), an error, or a fatal exit. */
  datatype Step = Continue(op: Option<Op>) | Stop(error: Error) | Abort(reason: string)

  /** The entries whose names are not passed over, in walk order. */
  function Kept(skip: string -> bool, es: seq<LocalFs.Entry>): (kept: seq<LocalFs.Entry>)
    ensures |kept| <= |es|
    decreases |es|
  {
    if es == [] then []
    else
      var rest := Kept(skip, es[..|es| - 1]);
      if skip(es[|es| - 1].name) then rest else rest + [es[|es| - 1]]
  }

  /** The entries kept are exactly the listed entries whose name is not passed over. */
  lemma {:induction false} KeptExactly(skip: string -> bool, es: seq<LocalFs.Entry>)
    ensures forall e :: e in Kept(skip, es) <==> e in es && !skip(e.name)
    decreases |es|
  {
    if es != [] {
      KeptExactly(skip, es[..|es| - 1]);
      assert es == es[..|es| - 1] + [es[|es| - 1]];
    }
  }

  /** `op` is what the walk does for the entry `e`. */
  predicate Records(op: Op, e: LocalFs.Entry) {
    op.path == e.path && op.name == e.name &&
    (op.MadeDir? <==> e.kind.DirKind?) && (op.Uploaded? <==> e.kind.FileKind?)
  }

  /** One operation for each entry, in the same order. */
  predicate RecordsAll(ops: seq<Op>, es: seq<LocalFs.Entry>) {
    |ops| == |es| && forall k :: 0 <= k < |ops| ==> Records(ops[k], es[k])
  }

  /** The parentIDs map of the walk: each created directory's path to its folder id (a later one wins). */
  function DirMap(ops: seq<Op>): map<string, string>
    decreases |ops|
  {
    if ops == [] then map[]
    else
      var m := DirMap(ops[..|ops| - 1]);
      var op := ops[|ops| - 1];
      if op.MadeDir? then m[op.path := op.id] else m
  }

  /** A path is recorded exactly when a directory of that path was made; its id is the latest one's. */
  lemma {:induction false} DirMapRecordsMadeDirs(ops: seq<Op>, p: string)
    ensures p in DirMap(ops) <==> exists k :: 0 <= k < |ops| && ops[k].MadeDir? && ops[k].path == p
    ensures p in DirMap(ops) ==>
              exists k :: 0 <= k < |ops| && ops[k].MadeDir? && ops[k].path == p && DirMap(ops)[p] == ops[k].id &&
                          forall m :: k < m < |ops| ==> !(ops[m].MadeDir? && ops[m].path == p)
    decreases |ops|
  {
    if ops != [] {
      var init := ops[..|ops| - 1];
      DirMapRecordsMadeDirs(init, p);
      assert forall k :: 0 <= k < |init| ==> init[k] == ops[k];
    }
  }

  /** The op at k went into the folder made for its parent path, or into the category folder when there is none. */
  predicate Placed(ops: seq<Op>, k: int, cache: map<string, string>, category: string)
    requires 0 <= k < |ops|
  {
    var m := DirMap(ops[..k]);
    var key := Paths.ParentKey(ops[k].path);
    if key in m then ops[k].parent == m[key] else category in cache && ops[k].parent == cache[category]
  }

  /** Placement survives a cache that keeps the category's id. */
  lemma PlacedCacheGrows(ops: seq<Op>, k: int, cache: map<string, string>, cache': map<string, string>, category: string)
    requires 0 <= k < |ops| && Placed(ops, k, cache, category)
    requires category in cache ==> category in cache' && cache'[category] == cache[category]
    ensures Placed(ops, k, cache', category)
  {
  }

  lemma DirMapStep(ops: seq<Op>, op: Option<Op>)
    ensures DirMap(if op.Some? then ops + [op.value] else ops) ==
            if op.Some? && op.value.MadeDir? then DirMap(ops)[op.value.path := op.value.id] else DirMap(ops)
  {
    if op.Some? {
      assert (ops + [op.value])[..|ops|] == ops;
    }
  }

  /** Placement survives appending a later op. */
  lemma PlacedStable(ops: seq<Op>, op: Op, k: int, cache: map<string, string>, cache': map<string, string>, category: string)
    requires 0 <= k < |ops| && Placed(ops, k, cache, category)
    requires category in cache ==> category in cache' && cache'[category] == cache[category]
    ensures Placed(ops + [op], k, cache', category)
  {
    assert (ops + [op])[..k] == ops[..k];
  }

  /** The last request in the log is the upload of the file at `path` into the folder `parent`. */
  predicate SentLast(requests: seq<Drive.Request>, path: string, parent: string) {
    |requests| > 0 && requests[|requests| - 1] == Drive.UploadRequest(Paths.Base(path), parent)
  }

  /** The message of a fatal upload failure. */
  function FatalUpload(rules: Rules, e: LocalFs.Entry, err: Error): string {
    rules.uploadFailure + " '" + e.name + "' (from " + e.path + "): " + Message(err)
  }

  /** `reason` is the fatal message of a failed upload of the file entry `e`: it names the file. */
  predicate UploadAbort(rules: Rules, e: LocalFs.Entry, reason: string) {
    e.kind.FileKind? && Strings.HasPrefix(reason, rules.uploadFailure + " '" + e.name + "'")
  }

  /**
   * How a walk that did not finish ended at entry `i`: a stop comes from an error entry, a directory's creation,
   * or the root or category step; a fatal exit is the prompt's EOF, or the failed upload of that file.
   */
  predicate EndedAt(rules: Rules, es: seq<LocalFs.Entry>, res: WalkResult, i: int) {
    (res.Stopped? ==>
       0 <= i < |es| &&
       (es[i].kind.Failed? || es[i].kind.DirKind? ||
        RemoteUtils.FromStep(res.error, "archive root") || RemoteUtils.FromStep(res.error, "category"))) &&
    (res.Aborted? ==>
       0 <= i < |es| && (res.reason == "failed to scan response: EOF" || UploadAbort(rules, es[i], res.reason)))
  }

  lemma FatalUploadNamesEntry(rules: Rules, e: LocalFs.Entry, err: Error)
    ensures Strings.HasPrefix(FatalUpload(rules, e, err), rules.uploadFailure + " '" + e.name + "'")
  {
    var prefix := rules.uploadFailure + " '" + e.name + "'";
    var rest := " (from " + e.path + "): " + Message(err);
    assert "' (from " == "'" + " (from ";
    assert FatalUpload(rules, e, err) == prefix + rest;
    assert prefix[..|prefix|] == prefix;
    Strings.PrefixExtends(prefix, rest, prefix);
  }

  /** The retried job the callback runs for a kept entry once its parent folder is known. */
  function JobFor(e: LocalFs.Entry, parentID: string): RemoteUtils.Job
    requires !e.kind.Failed?
  {
    if e.kind.DirKind? then RemoteUtils.MakeDir(e.name, parentID) else RemoteUtils.PutFile(e.path, e.kind.file, parentID)
  }

  /**
   * An entry the callback gets through when the store answers every call
   * normally: no walk error, and a kept file that opens and, when uploads are
   * rechecked, hashes.
   */
  predicate Actionable(rules: Rules, forceRecheck: bool, e: LocalFs.Entry) {
    !e.kind.Failed? &&
    (!rules.skip(e.name) && e.kind.FileKind? ==>
       e.kind.file.openError.None? && (forceRecheck ==> e.kind.file.hashFault.HashOk?))
  }

  /**
   * The parent folder the callback can use without a remote call, if there is
   * one: the folder recorded for the parent path, or else the cached category
   * folder once the archive root is known.
   */
  function KnownParent(parentIDs: map<string, string>, key: string, rootID: string, cache: map<string, string>,
                       category: string): Option<string>
  {
    if key in parentIDs then Some(parentIDs[key])
    else if rootID != "" && category in cache then Some(cache[category])
    else None
  }

  /** The walk callback for one entry. */
  method Visit(rules: Rules, flags: Config.Flags, globals: Config.Globals, store: Drive.Store, input: RemoteUtils.Input,
               parentIDs: map<string, string>, e: LocalFs.Entry, category: string, md5: seq<bv8> -> string, jobId: string)
    returns (step: Step)
    requires store.Valid()
    modifies globals, globals.categoryIDs, store, input
    ensures store.Valid()
    ensures e.kind.Failed? ==> step == Stop(Plain(e.kind.reason))
    ensures !e.kind.Failed? && rules.skip(e.name) ==> step == Continue(None)
    ensures e.kind.Failed? || rules.skip(e.name) ==>
              store.requests == old(store.requests) && store.folders == old(store.folders) &&
              store.script == old(store.script) &&
              globals.categoryIDs.v == old(globals.categoryIDs.v) && input.lines == old(input.lines)
    ensures step.Continue? && step.op.None? ==> rules.skip(e.name)
    ensures step.Continue? && step.op.Some? ==>
              !rules.skip(e.name) && Records(step.op.value, e) &&
              var key := Paths.ParentKey(e.path);
              if key in parentIDs then step.op.value.parent == parentIDs[key]
              else category in globals.categoryIDs.v && step.op.value.parent == globals.categoryIDs.v[category]
    ensures step.Continue? && step.op.Some? && step.op.value.MadeDir? ==>
              Drive.Folder(step.op.value.id, step.op.value.name, step.op.value.parent, false) in store.folders
    // a file is recorded only after its upload into that parent went through
    ensures step.Continue? && step.op.Some? && step.op.value.Uploaded? ==>
              |store.requests| > |old(store.requests)| &&
              SentLast(store.requests, e.path, step.op.value.parent)
    ensures old(store.requests) <= store.requests
    // an upload failure is never handed back to the walk: it ends the program
    ensures e.kind.FileKind? && step.Stop? ==> Paths.ParentKey(e.path) !in parentIDs
    ensures category in old(globals.categoryIDs.v) ==>
              category in globals.categoryIDs.v && globals.categoryIDs.v[category] == old(globals.categoryIDs.v)[category]
    ensures forall f :: f in old(store.folders) ==> f in store.folders
    ensures old(globals.archiveRootID) != "" ==> globals.archiveRootID == old(globals.archiveRootID)
    // a kept entry whose parent folder is known goes on exactly when its retried job succeeds
    ensures var known := KnownParent(parentIDs, Paths.ParentKey(e.path), old(globals.archiveRootID),
                                     old(globals.categoryIDs.v), category);
            !e.kind.Failed? && !rules.skip(e.name) && known.Some? ==>
              (step.Continue? <==> RemoteUtils.RetrySucceeds(flags.forceRecheck, md5, JobFor(e, known.value), old(store.script)))
    // the errors a kept entry can give: its directory's creation, or the root or category step
    ensures step.Stop? && !e.kind.Failed? ==>
              e.kind.DirKind? || RemoteUtils.FromStep(step.error, "archive root") || RemoteUtils.FromStep(step.error, "category")
    // a fatal exit is the prompt's EOF, or the failed upload of this file
    ensures step.Abort? ==> step.reason == "failed to scan response: EOF" || UploadAbort(rules, e, step.reason)
    // with the root and category known and a store that answers normally, an actionable entry is handled
    ensures old(store.script) == [] && old(globals.archiveRootID) != "" && category in old(globals.categoryIDs.v) &&
            Actionable(rules, flags.forceRecheck, e) ==>
              step.Continue? && store.script == []
  {
    if e.kind.Failed? {
      return Stop(Plain(e.kind.reason));
    }
    if rules.skip(e.name) {
      return Continue(None);
    }
    step := VisitKept(rules, flags, globals, store, input, parentIDs, e, category, md5, jobId);
  }

  /** The callback for an entry that is neither an error nor passed over: find its parent folder, then act. */
  method VisitKept(rules: Rules, flags: Config.Flags, globals: Config.Globals, store: Drive.Store, input: RemoteUtils.Input,
                   parentIDs: map<string, string>, e: LocalFs.Entry, category: string, md5: seq<bv8> -> string, jobId: string)
    returns (step: Step)
    requires store.Valid() && !e.kind.Failed? && !rules.skip(e.name)
    modifies globals, globals.categoryIDs, store, input
    ensures store.Valid()
    ensures step.Continue? ==>
              step.op.Some? && Records(step.op.value, e) &&
              var key := Paths.ParentKey(e.path);
              if key in parentIDs then step.op.value.parent == parentIDs[key]
              else category in globals.categoryIDs.v && step.op.value.parent == globals.categoryIDs.v[category]
    ensures step.Continue? && step.op.value.MadeDir? ==>
              Drive.Folder(step.op.value.id, step.op.value.name, step.op.value.parent, false) in store.folders
    // a file is recorded only after its upload into that parent went through
    ensures step.Continue? && step.op.value.Uploaded? ==>
              |store.requests| > |old(store.requests)| &&
              SentLast(store.requests, e.path, step.op.value.parent)
    ensures old(store.requests) <= store.requests
    // an upload failure is never handed back to the walk: it ends the program
    ensures e.kind.FileKind? && step.Stop? ==> Paths.ParentKey(e.path) !in parentIDs
    ensures category in old(globals.categoryIDs.v) ==>
              category in globals.categoryIDs.v && globals.categoryIDs.v[category] == old(globals.categoryIDs.v)[category]
    ensures forall f :: f in old(store.folders) ==> f in store.folders
    ensures old(globals.archiveRootID) != "" ==> globals.archiveRootID == old(globals.archiveRootID)
    // a kept entry whose parent folder is known goes on exactly when its retried job succeeds
    ensures var known := KnownParent(parentIDs, Paths.ParentKey(e.path), old(globals.archiveRootID),
                                     old(globals.categoryIDs.v), category);
            known.Some? ==>
              (step.Continue? <==> RemoteUtils.RetrySucceeds(flags.forceRecheck, md5, JobFor(e, known.value), old(store.script)))
    // the errors a kept entry can give: its directory's creation, or the root or category step
    ensures step.Stop? ==>
              e.kind.DirKind? || RemoteUtils.FromStep(step.error, "archive root") || RemoteUtils.FromStep(step.error, "category")
    // a fatal exit is the prompt's EOF, or the failed upload of this file
    ensures step.Abort? ==> step.reason == "failed to scan response: EOF" || UploadAbort(rules, e, step.reason)
    // with the root and category known and a store that answers normally, an actionable entry is handled
    ensures old(store.script) == [] && old(globals.archiveRootID) != "" && category in old(globals.categoryIDs.v) &&
            Actionable(rules, flags.forceRecheck, e) ==>
              step.Continue? && store.script == []
  {
    var location := ParentFolder(flags, globals, store, input, parentIDs, Paths.ParentKey(e.path), category);
    match location
    case Failed(err) => return Stop(err);
    case Fatal(reason) => return Abort(reason);
    case Done(parentID) =>
      ghost var mid := store.requests;
      assert |old(store.requests)| <= |mid|;
      step := Act(rules, flags, store, e, parentID, md5, jobId);
  }

  /** The folder for an entry whose parent path is `key`: the one recorded for it, or else the category folder. */
  method ParentFolder(flags: Config.Flags, globals: Config.Globals, store: Drive.Store, input: RemoteUtils.Input,
                      parentIDs: map<string, string>, key: string, category: string)
    returns (r: Outcome<string>)
    requires store.Valid()
    modifies globals, globals.categoryIDs, store, input
    ensures store.Valid()
    ensures key in parentIDs ==>
              r == Done(parentIDs[key]) && store.requests == old(store.requests) && store.folders == old(store.folders) &&
              store.script == old(store.script) && globals.categoryIDs.v == old(globals.categoryIDs.v)
    ensures key !in parentIDs && r.Done? ==> category in globals.categoryIDs.v && r.value == globals.categoryIDs.v[category]
    ensures category in old(globals.categoryIDs.v) ==>
              category in globals.categoryIDs.v && globals.categoryIDs.v[category] == old(globals.categoryIDs.v)[category]
    ensures forall f :: f in old(store.folders) ==> f in store.folders
    ensures old(store.requests) <= store.requests
    ensures old(globals.archiveRootID) != "" ==> globals.archiveRootID == old(globals.archiveRootID)
    ensures r.Failed? ==> RemoteUtils.FromStep(r.error, "archive root") || RemoteUtils.FromStep(r.error, "category")
    ensures r.Fatal? ==> r.reason == "failed to scan response: EOF"
    // a known parent folder is used without a remote call
    ensures var known := KnownParent(parentIDs, key, old(globals.archiveRootID), old(globals.categoryIDs.v), category);
            known.Some? ==> r == Done(known.value) && store.requests == old(store.requests) && store.script == old(store.script)
    // without a recorded parent: a root that the next reply finds leaves only the category step to fail,
    // and a category that the reply after it finds under that root gives its id
    ensures var rootFound := RemoteUtils.LookupIn(old(store.folders), old(store.Peek()), flags.archiveRootName, "root");
            var next := Drive.ReplyAt(old(store.script), 1);
            key !in parentIDs && old(globals.archiveRootID) == "" && rootFound.Ok? ==>
              globals.archiveRootID == rootFound.value && (r.Failed? ==> RemoteUtils.FromStep(r.error, "category")) &&
              (category !in old(globals.categoryIDs.v) &&
               RemoteUtils.LookupIn(old(store.folders), next, category, rootFound.value).Ok? ==>
                 r == Done(RemoteUtils.LookupIn(old(store.folders), next, category, rootFound.value).value))
    // with the root known, a category that the next reply finds gives its id
    ensures var found := RemoteUtils.LookupIn(old(store.folders), old(store.Peek()), category, old(globals.archiveRootID));
            key !in parentIDs && old(globals.archiveRootID) != "" && category !in old(globals.categoryIDs.v) && found.Ok? ==>
              r == Done(found.value)
  {
    if key in parentIDs {
      return Done(parentIDs[key]);
    }
    r := RemoteUtils.GetUploadLocation(flags, globals, store, input, category);
  }

  /** The part of the callback after the parent folder is known: create the directory or upload the file, with retries. */
  method Act(rules: Rules, flags: Config.Flags, store: Drive.Store, e: LocalFs.Entry, parentID: string,
             md5: seq<bv8> -> string, jobId: string)
    returns (step: Step)
    requires store.Valid() && !e.kind.Failed?
    modifies store
    ensures store.Valid()
    ensures old(store.requests) <= store.requests
    ensures forall f :: f in old(store.folders) ==> f in store.folders
    ensures step.Continue? ==> step.op.Some? && Records(step.op.value, e) && step.op.value.parent == parentID
    ensures step.Continue? && step.op.value.MadeDir? ==>
              Drive.Folder(step.op.value.id, step.op.value.name, parentID, false) in store.folders
    ensures step.Continue? && step.op.value.Uploaded? ==>
              |store.requests| > |old(store.requests)| &&
              SentLast(store.requests, e.path, parentID)
    ensures e.kind.FileKind? ==> !step.Stop?
    ensures e.kind.DirKind? ==> !step.Abort?
    // a fatal exit names the file whose upload failed
    ensures step.Abort? ==> UploadAbort(rules, e, step.reason)
    // the callback goes on exactly when the retried job succeeds
    ensures step.Continue? <==> RemoteUtils.RetrySucceeds(flags.forceRecheck, md5, JobFor(e, parentID), old(store.script))
    ensures old(store.script) == [] ==> store.script == []
    // a store that answers every call normally lets a directory, or a file that opens (and hashes when rechecked), through
    ensures old(store.script) == [] &&
            (e.kind.FileKind? ==> e.kind.file.openError.None? && (flags.forceRecheck ==> e.kind.file.hashFault.HashOk?)) ==>
              step.Continue?
  {
    if store.script == [] &&
       (e.kind.FileKind? ==> e.kind.file.openError.None? && (flags.forceRecheck ==> e.kind.file.hashFault.HashOk?)) {
      RemoteUtils.EmptyScriptSucceeds(flags.forceRecheck, md5, JobFor(e, parentID));
    }
    if e.kind.DirKind? {
      var err, id, _, _ := RemoteUtils.WithRetry(flags, store, RemoteUtils.MakeDir(e.name, parentID), md5, jobId);
      if err.Some? {
        return Stop(err.value);
      }
      assert store.folders[|store.folders| - 1] == Drive.Folder(id, e.name, parentID, false);
      return Continue(Some(MadeDir(e.path, e.name, parentID, id)));
    } else {
      ghost var script0, requests0 := store.script, store.requests;
      var job := RemoteUtils.PutFile(e.path, e.kind.file, parentID);
      var err, id, calls, sleeps := RemoteUtils.WithRetry(flags, store, job, md5, jobId);
      if err.Some? {
        FatalUploadNamesEntry(rules, e, err.value);
        return Abort(FatalUpload(rules, e, err.value));
      }
      RemoteUtils.RetriedLastRequest(flags, md5, job, jobId, script0, requests0, err, calls, sleeps, store.script, store.requests);
      return Continue(Some(Uploaded(e.path, e.name, parentID, id)));
    }
  }

  /** Every file recorded as uploaded had its upload request, under the recorded parent, among the requests `sent`. */
  ghost predicate UploadsSent(ops: seq<Op>, sent: seq<Drive.Request>) {
    forall k :: 0 <= k < |ops| && ops[k].Uploaded? ==>
      Drive.UploadRequest(Paths.Base(ops[k].path), ops[k].parent) in sent
  }

  lemma UploadsSentGrows(ops: seq<Op>, sent: seq<Drive.Request>, sent': seq<Drive.Request>)
    requires UploadsSent(ops, sent) && sent <= sent'
    ensures UploadsSent(ops, sent')
  {
    forall k | 0 <= k < |ops| && ops[k].Uploaded?
      ensures Drive.UploadRequest(Paths.Base(ops[k].path), ops[k].parent) in sent'
    {
      var q := Drive.UploadRequest(Paths.Base(ops[k].path), ops[k].parent);
      var t :| 0 <= t < |sent| && sent[t] == q;
      assert sent'[t] == q;
    }
  }

  lemma UploadsSentStep(ops: seq<Op>, op: Op, sent: seq<Drive.Request>)
    requires UploadsSent(ops, sent)
    requires op.Uploaded? ==> Drive.UploadRequest(Paths.Base(op.path), op.parent) in sent
    ensures UploadsSent(ops + [op], sent)
  {
    assert forall k :: 0 <= k < |ops| ==> (ops + [op])[k] == ops[k];
  }

  lemma PrefixTrans(a: seq<Drive.Request>, b: seq<Drive.Request>, c: seq<Drive.Request>)
    requires a <= b && b <= c
    ensures a <= c
  {
    assert c[..|b|][..|a|] == c[..|a|];
  }

  /** The requests sent after the first n, so far, grow as the store's log does. */
  lemma SentGrows(before: seq<Drive.Request>, after: seq<Drive.Request>, n: int)
    requires 0 <= n <= |before| && before <= after
    ensures before[n..] <= after[n..]
  {
    assert after[..|before|] == before;
    assert after[n..][..|before| - n] == before[n..];
  }

  /**
   * What holds after the first i entries of the listing have been
   * processed, with `sent` the requests made since the walk began.
   */
  ghost predicate Progress(skip: string -> bool, es: seq<LocalFs.Entry>, i: int, ops: seq<Op>,
                           cache: map<string, string>, folders: seq<Drive.Folder>, sent: seq<Drive.Request>,
                           category: string)
  {
    && 0 <= i <= |es|
    && RecordsAll(ops, Kept(skip, es[..i]))
    && (forall m :: 0 <= m < i ==> !es[m].kind.Failed?)
    && (forall k :: 0 <= k < |ops| ==> Placed(ops, k, cache, category))
    && (forall k :: 0 <= k < |ops| && ops[k].MadeDir? ==>
          Drive.Folder(ops[k].id, ops[k].name, ops[k].parent, false) in folders)
    && UploadsSent(ops, sent)
  }

  lemma ProgressStart(skip: string -> bool, es: seq<LocalFs.Entry>, cache: map<string, string>,
                      folders: seq<Drive.Folder>, sent: seq<Drive.Request>, category: string)
    ensures Progress(skip, es, 0, [], cache, folders, sent, category)
  {
    assert es[..0] == [];
  }

  /** Progress survives a callback that keeps the category's cached id and the folders already there. */
  lemma ProgressKept(skip: string -> bool, es: seq<LocalFs.Entry>, i: int, ops: seq<Op>,
                     cache: map<string, string>, folders: seq<Drive.Folder>, sent: seq<Drive.Request>,
                     cache': map<string, string>, folders': seq<Drive.Folder>, sent': seq<Drive.Request>,
                     category: string)
    requires Progress(skip, es, i, ops, cache, folders, sent, category)
    requires category in cache ==> category in cache' && cache'[category] == cache[category]
    requires forall f :: f in folders ==> f in folders'
    requires sent <= sent'
    ensures Progress(skip, es, i, ops, cache', folders', sent', category)
  {
    UploadsSentGrows(ops, sent, sent');
    forall k | 0 <= k < |ops|
      ensures Placed(ops, k, cache', category)
    {
      PlacedCacheGrows(ops, k, cache, cache', category);
    }
  }

  /** Progress after one more entry, passed over or recorded by `op`. */
  lemma ProgressStep(skip: string -> bool, es: seq<LocalFs.Entry>, i: int, ops: seq<Op>, op: Option<Op>,
                     cache: map<string, string>, folders: seq<Drive.Folder>, sent: seq<Drive.Request>,
                     category: string)
    requires Progress(skip, es, i, ops, cache, folders, sent, category) && i < |es|
    requires !es[i].kind.Failed?
    requires op.None? <==> skip(es[i].name)
    requires op.Some? ==>
               Records(op.value, es[i]) &&
               var key := Paths.ParentKey(es[i].path);
               var m := DirMap(ops);
               if key in m then op.value.parent == m[key] else category in cache && op.value.parent == cache[category]
    requires op.Some? && op.value.MadeDir? ==>
               Drive.Folder(op.value.id, op.value.name, op.value.parent, false) in folders
    requires op.Some? && op.value.Uploaded? ==> Drive.UploadRequest(Paths.Base(op.value.path), op.value.parent) in sent
    ensures Progress(skip, es, i + 1, if op.Some? then ops + [op.value] else ops, cache, folders, sent, category)
  {
    if op.Some? {
      ProgressRecorded(skip, es, i, ops, op.value, cache, folders, sent, category);
    } else {
      ProgressSkipped(skip, es, i, ops, cache, folders, sent, category);
    }
  }

  lemma ProgressSkipped(skip: string -> bool, es: seq<LocalFs.Entry>, i: int, ops: seq<Op>,
                        cache: map<string, string>, folders: seq<Drive.Folder>, sent: seq<Drive.Request>,
                     category: string)
    requires Progress(skip, es, i, ops, cache, folders, sent, category) && i < |es|
    requires !es[i].kind.Failed? && skip(es[i].name)
    ensures Progress(skip, es, i + 1, ops, cache, folders, sent, category)
  {
    KeptStep(skip, es, i);
  }

  lemma ProgressRecorded(skip: string -> bool, es: seq<LocalFs.Entry>, i: int, ops: seq<Op>, op: Op,
                         cache: map<string, string>, folders: seq<Drive.Folder>, sent: seq<Drive.Request>,
                     category: string)
    requires Progress(skip, es, i, ops, cache, folders, sent, category) && i < |es|
    requires !es[i].kind.Failed? && !skip(es[i].name) && Records(op, es[i])
    requires var key := Paths.ParentKey(es[i].path);
             var m := DirMap(ops);
             if key in m then op.parent == m[key] else category in cache && op.parent == cache[category]
    requires op.MadeDir? ==> Drive.Folder(op.id, op.name, op.parent, false) in folders
    requires op.Uploaded? ==> Drive.UploadRequest(Paths.Base(op.path), op.parent) in sent
    ensures Progress(skip, es, i + 1, ops + [op], cache, folders, sent, category)
  {
    RecordStep(skip, es, i, ops, op, cache, folders, category);
    UploadsSentStep(ops, op, sent);
  }

  /** The parts of Progress that recording one more entry with `op` keeps. */
  lemma RecordStep(skip: string -> bool, es: seq<LocalFs.Entry>, i: int, ops: seq<Op>, op: Op,
                   cache: map<string, string>, folders: seq<Drive.Folder>, category: string)
    requires 0 <= i < |es| && !skip(es[i].name) && Records(op, es[i])
    requires RecordsAll(ops, Kept(skip, es[..i]))
    requires forall k :: 0 <= k < |ops| ==> Placed(ops, k, cache, category)
    requires forall k :: 0 <= k < |ops| && ops[k].MadeDir? ==>
               Drive.Folder(ops[k].id, ops[k].name, ops[k].parent, false) in folders
    requires var key := Paths.ParentKey(es[i].path);
             var m := DirMap(ops);
             if key in m then op.parent == m[key] else category in cache && op.parent == cache[category]
    requires op.MadeDir? ==> Drive.Folder(op.id, op.name, op.parent, false) in folders
    ensures RecordsAll(ops + [op], Kept(skip, es[..i + 1]))
    ensures forall k :: 0 <= k < |ops + [op]| ==> Placed(ops + [op], k, cache, category)
    ensures forall k :: 0 <= k < |ops + [op]| && (ops + [op])[k].MadeDir? ==>
              Drive.Folder((ops + [op])[k].id, (ops + [op])[k].name, (ops + [op])[k].parent, false) in folders
  {
    KeptStep(skip, es, i);
    RecordsAllStep(ops, Kept(skip, es[..i]), op, es[i]);
    PlacedStep(ops, op, cache, category);
    FoldersStep(ops, op, folders);
  }

  /** The kept entries of one more entry of the listing. */
  lemma KeptStep(skip: string -> bool, es: seq<LocalFs.Entry>, i: int)
    requires 0 <= i < |es|
    ensures Kept(skip, es[..i + 1]) == if skip(es[i].name) then Kept(skip, es[..i]) else Kept(skip, es[..i]) + [es[i]]
  {
    assert es[..i + 1][..i] == es[..i] && es[..i + 1][i] == es[i];
  }

  lemma RecordsAllStep(ops: seq<Op>, es: seq<LocalFs.Entry>, op: Op, e: LocalFs.Entry)
    requires RecordsAll(ops, es) && Records(op, e)
    ensures RecordsAll(ops + [op], es + [e])
  {
    assert forall k :: 0 <= k < |ops| ==> (ops + [op])[k] == ops[k] && (es + [e])[k] == es[k];
  }

  /** Appending an op placed under the parent map of the ops before it keeps every op placed. */
  lemma PlacedStep(ops: seq<Op>, op: Op, cache: map<string, string>, category: string)
    requires forall k :: 0 <= k < |ops| ==> Placed(ops, k, cache, category)
    requires var key := Paths.ParentKey(op.path);
             var m := DirMap(ops);
             if key in m then op.parent == m[key] else category in cache && op.parent == cache[category]
    ensures forall k :: 0 <= k < |ops + [op]| ==> Placed(ops + [op], k, cache, category)
  {
    forall k | 0 <= k < |ops|
      ensures Placed(ops + [op], k, cache, category)
    {
      PlacedStable(ops, op, k, cache, cache, category);
    }
    assert (ops + [op])[..|ops|] == ops && (ops + [op])[|ops|] == op;
  }

  lemma FoldersStep(ops: seq<Op>, op: Op, folders: seq<Drive.Folder>)
    requires forall k :: 0 <= k < |ops| && ops[k].MadeDir? ==>
               Drive.Folder(ops[k].id, ops[k].name, ops[k].parent, false) in folders
    requires op.MadeDir? ==> Drive.Folder(op.id, op.name, op.parent, false) in folders
    ensures forall k :: 0 <= k < |ops + [op]| && (ops + [op])[k].MadeDir? ==>
              Drive.Folder((ops + [op])[k].id, (ops + [op])[k].name, (ops + [op])[k].parent, false) in folders
  {
    assert forall k :: 0 <= k < |ops| ==> (ops + [op])[k] == ops[k];
  }

  /**
   * filepath.Walk over the listing `es` with the callback: returns what was
   * done, and how many entries were processed before the walk ended.
   */
  method Walk(rules: Rules, flags: Config.Flags, globals: Config.Globals, store: Drive.Store, input: RemoteUtils.Input,
              es: seq<LocalFs.Entry>, category: string, md5: seq<bv8> -> string, jobIds: nat -> string)
    returns (res: WalkResult, ops: seq<Op>, ghost processed: nat)
    requires store.Valid()
    modifies globals, globals.categoryIDs, store, input
    ensures store.Valid()
    ensures old(store.requests) <= store.requests
    ensures Progress(rules.skip, es, processed, ops, globals.categoryIDs.v, store.folders,
                     store.requests[|old(store.requests)|..], category)
    ensures res.Finished? ==> processed == |es|
    ensures !res.Finished? ==> processed < |es|
    ensures processed < |es| && es[processed].kind.Failed? ==> res == Stopped(Plain(es[processed].kind.reason))
    ensures EndedAt(rules, es, res, processed)
    ensures forall f :: f in old(store.folders) ==> f in store.folders
    // a finished walk handled every kept entry, sent every recorded upload, and put each child in its parent's folder
    ensures res.Finished? ==>
              RecordsAll(ops, Kept(rules.skip, es)) && UploadsSent(ops, store.requests[|old(store.requests)|..]) &&
              InParentFolders(rules.skip, es, ops)
    // with the root and category known and a store that answers normally, a walk over actionable entries finishes
    ensures old(store.script) == [] && old(globals.archiveRootID) != "" && category in old(globals.categoryIDs.v) &&
            (forall m :: 0 <= m < |es| ==> Actionable(rules, flags.forceRecheck, es[m])) ==>
              res.Finished?
  {
    var i := 0;
    ops := [];
    var parentIDs: map<string, string> := map[];
    ghost var n0 := |store.requests|;
    ghost var ready := store.script == [] && globals.archiveRootID != "" && category in globals.categoryIDs.v &&
                       forall m :: 0 <= m < |es| ==> Actionable(rules, flags.forceRecheck, es[m]);
    ProgressStart(rules.skip, es, globals.categoryIDs.v, store.folders, store.requests[n0..], category);
    while i < |es|
      invariant old(store.requests) <= store.requests
      invariant Progress(rules.skip, es, i, ops, globals.categoryIDs.v, store.folders, store.requests[n0..], category)
      invariant parentIDs == DirMap(ops)
      invariant forall f :: f in old(store.folders) ==> f in store.folders
      invariant store.Valid()
      invariant ready ==> store.script == [] && globals.archiveRootID != "" && category in globals.categoryIDs.v
    {
      var step;
      ghost var before := store.requests;
      step, ops, parentIDs := WalkStep(rules, flags, globals, store, input, es, i, ops, parentIDs, category, md5, jobIds(i), n0);
      PrefixTrans(old(store.requests), before, store.requests);
      if !step.Continue? {
        res := if step.Stop? then Stopped(step.error) else Aborted(step.reason);
        return res, ops, i;
      }
      i := i + 1;
    }
    ProgressFacts(rules.skip, es, i, ops, globals.categoryIDs.v, store.folders, store.requests[n0..], category);
    return Finished, ops, i;
  }

  /** The callback for entry i, with the bookkeeping of the walk: the ops so far and the parentIDs map. */
  method WalkStep(rules: Rules, flags: Config.Flags, globals: Config.Globals, store: Drive.Store, input: RemoteUtils.Input,
                  es: seq<LocalFs.Entry>, i: int, ops: seq<Op>, parentIDs: map<string, string>, category: string,
                  md5: seq<bv8> -> string, jobId: string, ghost n0: nat)
    returns (step: Step, ops': seq<Op>, parentIDs': map<string, string>)
    requires store.Valid() && i < |es| && n0 <= |store.requests|
    requires Progress(rules.skip, es, i, ops, globals.categoryIDs.v, store.folders, store.requests[n0..], category)
    requires parentIDs == DirMap(ops)
    modifies globals, globals.categoryIDs, store, input
    ensures store.Valid()
    ensures forall f :: f in old(store.folders) ==> f in store.folders
    ensures old(store.requests) <= store.requests
    ensures step.Continue? ==>
              Progress(rules.skip, es, i + 1, ops', globals.categoryIDs.v, store.folders, store.requests[n0..], category) &&
              parentIDs' == DirMap(ops')
    ensures !step.Continue? ==>
              ops' == ops && Progress(rules.skip, es, i, ops, globals.categoryIDs.v, store.folders, store.requests[n0..], category)
    ensures es[i].kind.Failed? ==> step == Stop(Plain(es[i].kind.reason))
    ensures step.Stop? ==>
              es[i].kind.Failed? || es[i].kind.DirKind? ||
              RemoteUtils.FromStep(step.error, "archive root") || RemoteUtils.FromStep(step.error, "category")
    ensures step.Abort? ==> step.reason == "failed to scan response: EOF" || UploadAbort(rules, es[i], step.reason)
    ensures old(store.script) == [] && old(globals.archiveRootID) != "" && category in old(globals.categoryIDs.v) &&
            Actionable(rules, flags.forceRecheck, es[i]) ==>
              step.Continue? && store.script == [] && globals.archiveRootID != "" && category in globals.categoryIDs.v
  {
    ghost var cache, folders, requests := globals.categoryIDs.v, store.folders, store.requests;
    step := Visit(rules, flags, globals, store, input, parentIDs, es[i], category, md5, jobId);
    SentGrows(requests, store.requests, n0);
    ProgressKept(rules.skip, es, i, ops, cache, folders, requests[n0..],
                 globals.categoryIDs.v, store.folders, store.requests[n0..], category);
    ops', parentIDs' := ops, parentIDs;
    if step.Continue? {
      if step.op.Some? && step.op.value.Uploaded? {
        assert store.requests[n0..][|store.requests| - 1 - n0] == store.requests[|store.requests| - 1];
      }
      ProgressStep(rules.skip, es, i, ops, step.op, globals.categoryIDs.v, store.folders, store.requests[n0..], category);
      DirMapStep(ops, step.op);
      if step.op.Some? {
        ops' := ops + [step.op.value];
        if step.op.value.MadeDir? {
          parentIDs' := parentIDs[step.op.value.path := step.op.value.id];
        }
      }
    }
  }

  /** What a walk that got to entry i guarantees, and, when it got to the end, that every kept entry was handled. */
  lemma ProgressFacts(skip: string -> bool, es: seq<LocalFs.Entry>, i: int, ops: seq<Op>,
                      cache: map<string, string>, folders: seq<Drive.Folder>, sent: seq<Drive.Request>,
                     category: string)
    requires Progress(skip, es, i, ops, cache, folders, sent, category)
    ensures forall k :: 0 <= k < |ops| ==> Placed(ops, k, cache, category)
    ensures forall k :: 0 <= k < |ops| ==> !skip(ops[k].name)
    ensures forall k :: 0 <= k < |ops| && ops[k].MadeDir? ==>
              Drive.Folder(ops[k].id, ops[k].name, ops[k].parent, false) in folders
    ensures UploadsSent(ops, sent)
    ensures i == |es| ==> RecordsAll(ops, Kept(skip, es))
    ensures i == |es| ==> InParentFolders(skip, es, ops)
  {
    forall k | 0 <= k < |ops| ensures !skip(ops[k].name) {
      NoSkippedNameRecorded(skip, es, i, ops, cache, folders, sent, category, k);
    }
    assert i == |es| ==> es[..i] == es;
    if i == |es| {
      ChildrenInParentFolders(skip, es, ops, cache, category);
    }
  }

  /** At the end of a walk, no recorded name is one that is passed over. */
  lemma NoSkippedNameRecorded(skip: string -> bool, es: seq<LocalFs.Entry>, i: int, ops: seq<Op>,
                              cache: map<string, string>, folders: seq<Drive.Folder>, sent: seq<Drive.Request>,
                              category: string, k: int)
    requires Progress(skip, es, i, ops, cache, folders, sent, category) && 0 <= k < |ops|
    ensures !skip(ops[k].name)
  {
    KeptExactly(skip, es[..i]);
    assert Kept(skip, es[..i])[k] in Kept(skip, es[..i]);
  }

  /** An op whose parent path is recorded went into the folder of an earlier directory of that path. */
  lemma ParentFolderMadeBefore(ops: seq<Op>, k: int, cache: map<string, string>, category: string)
    requires 0 <= k < |ops| && Placed(ops, k, cache, category)
    requires Paths.ParentKey(ops[k].path) in DirMap(ops[..k])
    ensures exists i :: 0 <= i < k && ops[i].MadeDir? && ops[i].path == Paths.ParentKey(ops[k].path) &&
                        ops[k].parent == ops[i].id
  {
    var prefix := ops[..k];
    DirMapRecordsMadeDirs(prefix, Paths.ParentKey(ops[k].path));
    var i :| 0 <= i < |prefix| && prefix[i].MadeDir? && prefix[i].path == Paths.ParentKey(ops[k].path) &&
             DirMap(prefix)[Paths.ParentKey(ops[k].path)] == prefix[i].id &&
             forall m :: i < m < |prefix| ==> !(prefix[m].MadeDir? && prefix[m].path == Paths.ParentKey(ops[k].path));
    assert prefix[i] == ops[i];
  }

  /**
   * An op with no earlier directory of its parent path, such as the walk
   * root or an entry of a directory that was passed over, went into the
   * category folder.
   */
  lemma UnrecordedParentIsCategory(ops: seq<Op>, k: int, cache: map<string, string>, category: string)
    requires 0 <= k < |ops| && Placed(ops, k, cache, category)
    requires forall i :: 0 <= i < k ==> !(ops[i].MadeDir? && ops[i].path == Paths.ParentKey(ops[k].path))
    ensures category in cache && ops[k].parent == cache[category]
  {
    var prefix := ops[..k];
    assert forall i :: 0 <= i < k ==> prefix[i] == ops[i];
    DirMapRecordsMadeDirs(prefix, Paths.ParentKey(ops[k].path));
  }

  /** The first entry not passed over is the first of what is kept. */
  lemma {:induction false} KeptFirst(skip: string -> bool, es: seq<LocalFs.Entry>)
    requires |es| >= 1 && !skip(es[0].name)
    ensures |Kept(skip, es)| >= 1 && Kept(skip, es)[0] == es[0]
    decreases |es|
  {
    if |es| > 1 {
      var init := es[..|es| - 1];
      assert init[0] == es[0];
      KeptFirst(skip, init);
    }
  }

  /** The walk root, when it is a directory that is not passed over, becomes a folder in the category folder. */
  lemma RootUnderCategory(skip: string -> bool, es: seq<LocalFs.Entry>, i: int, ops: seq<Op>,
                          cache: map<string, string>, folders: seq<Drive.Folder>, sent: seq<Drive.Request>,
                     category: string)
    requires Progress(skip, es, i, ops, cache, folders, sent, category) && i >= 1
    requires !skip(es[0].name) && es[0].kind.DirKind?
    ensures |ops| >= 1 && ops[0].MadeDir? && ops[0].path == es[0].path && ops[0].name == es[0].name
    ensures category in cache && ops[0].parent == cache[category]
    ensures Drive.Folder(ops[0].id, ops[0].name, cache[category], false) in folders
  {
    assert es[..i][0] == es[0];
    KeptFirst(skip, es[..i]);
    UnrecordedParentIsCategory(ops, 0, cache, category);
  }

  // ---------------------------------------------------------------------
  // Where a kept entry's operation sits, and the folder of its parent directory

  /** The index of entry i's operation: how many entries before it are kept. */
  function KeptPos(skip: string -> bool, es: seq<LocalFs.Entry>, i: int): nat
    requires 0 <= i <= |es|
  {
    |Kept(skip, es[..i])|
  }

  /** What is kept of a shorter prefix of the listing starts what is kept of a longer one. */
  lemma {:induction false} KeptPrefix(skip: string -> bool, es: seq<LocalFs.Entry>, a: int, b: int)
    requires 0 <= a <= b <= |es|
    ensures Kept(skip, es[..a]) <= Kept(skip, es[..b])
    decreases b - a
  {
    if a < b {
      KeptPrefix(skip, es, a, b - 1);
      KeptStep(skip, es, b - 1);
      if !skip(es[b - 1].name) {
        PrefixOfLonger(Kept(skip, es[..a]), Kept(skip, es[..b - 1]), [es[b - 1]]);
      }
    }
  }

  lemma PrefixOfLonger(x: seq<LocalFs.Entry>, y: seq<LocalFs.Entry>, z: seq<LocalFs.Entry>)
    requires x <= y
    ensures x <= y + z
  {
    assert (y + z)[..|x|] == y[..|x|];
  }

  /** A kept entry is found in what is kept at its own position. */
  lemma KeptAt(skip: string -> bool, es: seq<LocalFs.Entry>, i: int)
    requires 0 <= i < |es| && !skip(es[i].name)
    ensures KeptPos(skip, es, i + 1) == KeptPos(skip, es, i) + 1 <= |Kept(skip, es)|
    ensures Kept(skip, es)[KeptPos(skip, es, i)] == es[i]
  {
    KeptStep(skip, es, i);
    KeptPrefix(skip, es, i + 1, |es|);
    assert es[..|es|] == es;
  }

  /** What is kept past position a of the first b entries comes from entries a to b - 1. */
  lemma {:induction false} KeptBetween(skip: string -> bool, es: seq<LocalFs.Entry>, a: int, b: int, m: int, p: string)
    requires 0 <= a <= b <= |es|
    requires forall t :: a <= t < b ==> es[t].path != p
    requires KeptPos(skip, es, a) <= m < KeptPos(skip, es, b)
    ensures Kept(skip, es[..b])[m].path != p
    decreases b - a
  {
    KeptStep(skip, es, b - 1);
    if m < KeptPos(skip, es, b - 1) {
      KeptBetween(skip, es, a, b - 1, m, p);
    }
  }

  /**
   * Every kept entry whose parent directory's entry is kept went into the
   * folder made for that directory.
   */
  ghost predicate InParentFolders(skip: string -> bool, es: seq<LocalFs.Entry>, ops: seq<Op>) {
    forall i, j :: LocalFs.ParentAt(es, i, j) && !skip(es[i].name) && !skip(es[j].name) ==>
      KeptPos(skip, es, i) < KeptPos(skip, es, j) < |ops| &&
      ops[KeptPos(skip, es, i)].MadeDir? && ops[KeptPos(skip, es, i)].path == es[i].path &&
      ops[KeptPos(skip, es, j)].path == es[j].path &&
      ops[KeptPos(skip, es, j)].parent == ops[KeptPos(skip, es, i)].id
  }

  /**
   * The parent map holds a directory's id from its own visit until the next
   * entry of the same path, so a child visited in between goes into the
   * directory's folder.
   */
  lemma ChildInParentFolder(skip: string -> bool, es: seq<LocalFs.Entry>, ops: seq<Op>,
                            cache: map<string, string>, category: string, i: int, j: int)
    requires RecordsAll(ops, Kept(skip, es))
    requires forall k :: 0 <= k < |ops| ==> Placed(ops, k, cache, category)
    requires LocalFs.ParentAt(es, i, j) && !skip(es[i].name) && !skip(es[j].name)
    ensures KeptPos(skip, es, i) < KeptPos(skip, es, j) < |ops|
    ensures ops[KeptPos(skip, es, i)].MadeDir? && ops[KeptPos(skip, es, i)].path == es[i].path
    ensures ops[KeptPos(skip, es, j)].path == es[j].path
    ensures ops[KeptPos(skip, es, j)].parent == ops[KeptPos(skip, es, i)].id
  {
    var pi, pj := KeptPos(skip, es, i), KeptPos(skip, es, j);
    KeptAt(skip, es, i);
    KeptAt(skip, es, j);
    KeptPrefix(skip, es, i + 1, j);
    assert Records(ops[pi], es[i]) && Records(ops[pj], es[j]);
    var key := es[i].path;
    forall m | pi < m < pj ensures ops[m].path != key {
      BetweenPathsDiffer(skip, es, ops, i, j, m);
    }
    LatestMadeDir(ops, pi, pj, key);
    assert Placed(ops, pj, cache, category);
  }

  /** The ops between a directory's op and its child's op record entries of other paths. */
  lemma BetweenPathsDiffer(skip: string -> bool, es: seq<LocalFs.Entry>, ops: seq<Op>, i: int, j: int, m: int)
    requires RecordsAll(ops, Kept(skip, es))
    requires LocalFs.ParentAt(es, i, j)
    requires KeptPos(skip, es, i + 1) <= m < KeptPos(skip, es, j) && m < |ops|
    ensures ops[m].path != es[i].path
  {
    KeptPrefix(skip, es, j, |es|);
    assert es[..|es|] == es;
    KeptBetween(skip, es, i + 1, j, m, es[i].path);
    assert Kept(skip, es)[m] == Kept(skip, es[..j])[m];
    assert Records(ops[m], Kept(skip, es)[m]);
  }

  /** A directory made at lo, with no op of its path after it up to hi, is what the parent map gives for that path. */
  lemma {:induction false} LatestMadeDir(ops: seq<Op>, lo: int, hi: int, key: string)
    requires 0 <= lo < hi <= |ops| && ops[lo].MadeDir? && ops[lo].path == key
    requires forall m :: lo < m < hi ==> ops[m].path != key
    ensures key in DirMap(ops[..hi]) && DirMap(ops[..hi])[key] == ops[lo].id
    decreases hi
  {
    assert ops[..hi][..hi - 1] == ops[..hi - 1];
    if hi > lo + 1 {
      LatestMadeDir(ops, lo, hi - 1, key);
    }
  }

  /** In a walk that handled every kept entry, each one whose parent directory is kept is in that directory's folder. */
  lemma ChildrenInParentFolders(skip: string -> bool, es: seq<LocalFs.Entry>, ops: seq<Op>,
                                cache: map<string, string>, category: string)
    requires RecordsAll(ops, Kept(skip, es))
    requires forall k :: 0 <= k < |ops| ==> Placed(ops, k, cache, category)
    ensures InParentFolders(skip, es, ops)
  {
    forall i, j | LocalFs.ParentAt(es, i, j) && !skip(es[i].name) && !skip(es[j].name)
      ensures KeptPos(skip, es, i) < KeptPos(skip, es, j) < |ops| &&
              ops[KeptPos(skip, es, i)].MadeDir? && ops[KeptPos(skip, es, i)].path == es[i].path &&
              ops[KeptPos(skip, es, j)].path == es[j].path &&
              ops[KeptPos(skip, es, j)].parent == ops[KeptPos(skip, es, i)].id
    {
      ChildInParentFolder(skip, es, ops, cache, category, i, j);
    }
  }
}
