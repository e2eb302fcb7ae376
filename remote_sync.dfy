/**
 * remote/sync.go: syncing a directory tree or a single file into a
 * category, guarded by a ".sync_finished" mark file, and the dispatcher
 * that picks between the two.
 */
module RemoteSync {
  import opened Wrappers
  import opened Errors
  import Strings
  import Paths
  import Config
  import Drive
  import LocalFs
  import RemoteUtils
  import Walk
  import CategoryGuessing

  const MarkName := ".sync_finished"
  const FileMarkPrefix := ".sync_finished-"

  /** The names a sync passes over: the ignore list, and every name starting with the mark name. */
  predicate Skipped(name: string) {
    name in Config.IgnoreList || Strings.HasPrefix(name, MarkName)
  }

  const RemoteRules := Walk.Rules(Skipped, "Unexpected error while uploading file")

  /** The mark of a synced directory: a file inside it. */
  function DirMarkPath(path: string): string {
    Paths.Clean(path) + "/" + MarkName
  }

  /** The mark of a synced file: a sibling named after it. */
  function FileMarkPath(path: string): string {
    var parts := Paths.Split(Paths.Clean(path));
    parts.0 + FileMarkPrefix + parts.1
  }

  /** The last request logged is the upload of the file at `path` into the cached `category` folder. */
  ghost predicate UploadedLast(requests: seq<Drive.Request>, cache: map<string, string>, path: string, category: string) {
    category in cache && |requests| > 0 &&
    requests[|requests| - 1] == Drive.UploadRequest(Paths.Base(Paths.Clean(path)), cache[category])
  }

  /** Every name starting with the mark name is passed over, whatever follows it. */
  lemma MarkPrefixSkipped(name: string)
    requires Strings.HasPrefix(name, MarkName)
    ensures Skipped(name)
  {
  }

  /** A directory's mark lies inside it and a later walk of the directory passes over it. */
  lemma DirMarkSkipped(path: string)
    ensures Paths.Base(DirMarkPath(path)) == MarkName && Skipped(Paths.Base(DirMarkPath(path)))
    ensures Paths.Split(DirMarkPath(path)).0 == Paths.Clean(path) + "/"
  {
    var m := DirMarkPath(path);
    Paths.SplitAfterSlash(Paths.Clean(path) + "/", MarkName);
    assert m == (Paths.Clean(path) + "/") + MarkName;
    assert m[|m| - 1] == 'd';
    assert Paths.TrimTrailingSlashes(m) == m;
    assert Strings.HasPrefix(MarkName, MarkName);
  }

  lemma FileMarkPrefixFacts()
    ensures '/' !in FileMarkPrefix && Strings.HasPrefix(FileMarkPrefix, MarkName)
  {
    assert FileMarkPrefix[..|MarkName|] == MarkName;
  }

  /** The mark name for a file named `base` in the directory part `dir`. */
  lemma FileMarkIn(dir: string, base: string)
    requires dir == [] || dir[|dir| - 1] == '/'
    requires '/' !in base
    ensures Paths.Split(dir + FileMarkPrefix + base).0 == dir
    ensures Paths.Base(dir + FileMarkPrefix + base) == FileMarkPrefix + base
    ensures Strings.HasPrefix(FileMarkPrefix + base, MarkName)
  {
    FileMarkPrefixFacts();
    var name := FileMarkPrefix + base;
    assert '/' !in name;
    assert dir + FileMarkPrefix + base == dir + name;
    Paths.BaseAfterDirectory(dir, name);
    Strings.PrefixExtends(FileMarkPrefix, base, MarkName);
  }

  /** A file's mark sits next to it, is named after it, and a walk of their directory passes over it. */
  lemma FileMarkSkipped(path: string)
    ensures Paths.Split(FileMarkPath(path)).0 == Paths.Split(Paths.Clean(path)).0
    ensures Paths.Base(FileMarkPath(path)) == FileMarkPrefix + BaseOf(path)
    ensures Strings.HasPrefix(Paths.Base(FileMarkPath(path)), MarkName)
  {
    var parts := Paths.Split(Paths.Clean(path));
    FileMarkIn(parts.0, parts.1);
  }

  // ---------------------------------------------------------------------

  /** The listing filepath.Walk produces for the tree found at `path`. */
  function Listing(path: string, tree: LocalFs.Node): seq<LocalFs.Entry> {
    LocalFs.Preorder(Paths.Clean(path), LocalFs.Rooted(Paths.Clean(path), tree))
  }

  /** The tree a/ holding an ignored directory a/.idea/ with one file w. */
  function IdeaTree(f: LocalFs.LocalFile): LocalFs.Node {
    LocalFs.Dir("a", [LocalFs.Dir(".idea", [LocalFs.File("w", f)])])
  }

  lemma IdeaListing(f: LocalFs.LocalFile)
    ensures Listing("a", IdeaTree(f)) ==
            [LocalFs.Entry("a", "a", LocalFs.DirKind), LocalFs.Entry("a/.idea", ".idea", LocalFs.DirKind),
             LocalFs.Entry("a/.idea/w", "w", LocalFs.FileKind(f))]
  {
    assert Paths.TrimTrailingSlashes("a") == "a";
    assert Paths.LastSlash("a") == -1;
    assert Paths.Base("a") == "a";
    assert Paths.Clean("a") == "a";
    var idea := LocalFs.Dir(".idea", [LocalFs.File("w", f)]);
    var w := LocalFs.File("w", f);
    assert LocalFs.Rooted("a", IdeaTree(f)) == IdeaTree(f);
    assert Paths.ChildPath("a", ".idea") == "a/.idea";
    assert Paths.ChildPath("a/.idea", "w") == "a/.idea/w";
    assert [idea][1..] == [] && [w][1..] == [];
    assert LocalFs.Children("a/.idea", [w]) == [LocalFs.Entry("a/.idea/w", "w", LocalFs.FileKind(f))];
    assert LocalFs.Preorder("a/.idea", idea) ==
           [LocalFs.Entry("a/.idea", ".idea", LocalFs.DirKind), LocalFs.Entry("a/.idea/w", "w", LocalFs.FileKind(f))];
    assert LocalFs.Children("a", [idea]) == LocalFs.Preorder("a/.idea", idea);
  }

  /** Of that listing, the walk keeps the root and the file, and passes over a/.idea. */
  lemma IdeaKept(f: LocalFs.LocalFile)
    ensures Walk.Kept(Skipped, [LocalFs.Entry("a", "a", LocalFs.DirKind), LocalFs.Entry("a/.idea", ".idea", LocalFs.DirKind),
                                LocalFs.Entry("a/.idea/w", "w", LocalFs.FileKind(f))]) ==
            [LocalFs.Entry("a", "a", LocalFs.DirKind), LocalFs.Entry("a/.idea/w", "w", LocalFs.FileKind(f))]
  {
    var es := [LocalFs.Entry("a", "a", LocalFs.DirKind), LocalFs.Entry("a/.idea", ".idea", LocalFs.DirKind),
               LocalFs.Entry("a/.idea/w", "w", LocalFs.FileKind(f))];
    assert Skipped(".idea");
    assert !Skipped("a") && !Skipped("w");
    assert es[..2][..1] == [es[0]] && es[..1][..0] == [] && es[..2] == es[..|es| - 1];
    assert Walk.Kept(Skipped, es[..1]) == [es[0]];
    assert Walk.Kept(Skipped, es[..2]) == [es[0]];
  }

  lemma IdeaFileParentKey()
    ensures Paths.ParentKey("a/.idea/w") == "a/.idea"
  {
    Paths.SplitAfterSlash("a/.idea/", "w");
    assert "a/.idea/" + "w" == "a/.idea/w";
    assert Paths.TrimTrailingSlashes("a/.idea/") == "a/.idea" by {
      assert "a/.idea/"[..|"a/.idea/"| - 1] == "a/.idea";
    }
  }

  /**
   * Passing over a directory does not pass over what is inside it: the file
   * a/.idea/w is still uploaded, and since no folder was made for a/.idea it
   * goes into the category folder, next to the folder made for a.
   */
  lemma IgnoredDirectoryChildUploaded(f: LocalFs.LocalFile, ops: seq<Walk.Op>, cache: map<string, string>, category: string)
    requires Walk.RecordsAll(ops, Walk.Kept(Skipped, Listing("a", IdeaTree(f))))
    requires forall k :: 0 <= k < |ops| ==> Walk.Placed(ops, k, cache, category)
    ensures |ops| == 2
    ensures ops[0].MadeDir? && ops[0].path == "a"
    ensures ops[1].Uploaded? && ops[1].path == "a/.idea/w" && ops[1].name == "w"
    ensures category in cache && ops[0].parent == cache[category] && ops[1].parent == cache[category]
  {
    IdeaListing(f);
    IdeaKept(f);
    IdeaOpsPlaced(f, ops, cache, category);
  }

  lemma IdeaOpsPlaced(f: LocalFs.LocalFile, ops: seq<Walk.Op>, cache: map<string, string>, category: string)
    requires Walk.RecordsAll(ops, [LocalFs.Entry("a", "a", LocalFs.DirKind), LocalFs.Entry("a/.idea/w", "w", LocalFs.FileKind(f))])
    requires forall k :: 0 <= k < |ops| ==> Walk.Placed(ops, k, cache, category)
    ensures |ops| == 2
    ensures ops[0].MadeDir? && ops[0].path == "a"
    ensures ops[1].Uploaded? && ops[1].path == "a/.idea/w" && ops[1].name == "w"
    ensures category in cache && ops[0].parent == cache[category] && ops[1].parent == cache[category]
  {
    assert Walk.Records(ops[0], LocalFs.Entry("a", "a", LocalFs.DirKind));
    assert Walk.Records(ops[1], LocalFs.Entry("a/.idea/w", "w", LocalFs.FileKind(f)));
    IdeaFileParentKey();
    assert ops[0].path != Paths.ParentKey(ops[1].path);
    Walk.UnrecordedParentIsCategory(ops, 0, cache, category);
    Walk.UnrecordedParentIsCategory(ops, 1, cache, category);
  }

  /** Nothing on the remote side, in the cache or in the input changed. */
  twostate predicate NoRemoteWork(globals: Config.Globals, store: Drive.Store, input: RemoteUtils.Input)
    reads globals, globals.categoryIDs, store, input
  {
    store.requests == old(store.requests) && store.folders == old(store.folders) &&
    store.script == old(store.script) && input.lines == old(input.lines) &&
    globals.archiveRootID == old(globals.archiveRootID) && globals.categoryIDs.v == old(globals.categoryIDs.v)
  }

  /** In the listing of a well-named tree, every entry but the root that is not an error has its parent's entry before it. */
  lemma ListingParents(path: string, tree: LocalFs.Node, j: int)
    requires LocalFs.WellNamed(LocalFs.Rooted(Paths.Clean(path), tree))
    requires 0 < j < |Listing(path, tree)| && !Listing(path, tree)[j].kind.Failed?
    ensures LocalFs.HasParentBefore(Listing(path, tree), j)
  {
    Paths.CleanIsNormal(path);
    LocalFs.PreorderParents(Paths.Clean(path), LocalFs.Rooted(Paths.Clean(path), tree), j);
  }

  /** What a walk over the whole listing of `tree` at `path` guarantees about parents and the root. */
  lemma FinishedWalkFacts(skip: string -> bool, path: string, tree: LocalFs.Node, ops: seq<Walk.Op>, i: int,
                          cache: map<string, string>, folders: seq<Drive.Folder>, sent: seq<Drive.Request>,
                          category: string)
    requires Walk.Progress(skip, Listing(path, tree), i, ops, cache, folders, sent, category)
    requires i == |Listing(path, tree)|
    ensures LocalFs.WellNamed(LocalFs.Rooted(Paths.Clean(path), tree)) ==>
              forall j :: 0 < j < |Listing(path, tree)| ==> LocalFs.HasParentBefore(Listing(path, tree), j)
    ensures tree.Dir? && !skip(Paths.Base(Paths.Clean(path))) ==>
              |ops| >= 1 && ops[0].MadeDir? && ops[0].path == Paths.Clean(path) &&
              category in cache && ops[0].parent == cache[category]
  {
    var es := Listing(path, tree);
    if LocalFs.WellNamed(LocalFs.Rooted(Paths.Clean(path), tree)) {
      forall j | 0 < j < |es| ensures LocalFs.HasParentBefore(es, j) {
        ListingParents(path, tree, j);
      }
    }
    if tree.Dir? && !skip(Paths.Base(Paths.Clean(path))) {
      Walk.RootUnderCategory(skip, es, i, ops, cache, folders, sent, category);
    }
  }

  /** What syncing the directory `tree` found at `path` promises: the contract of SyncDirectory. */
  twostate predicate DirectorySynced(flags: Config.Flags, globals: Config.Globals, store: Drive.Store,
      input: RemoteUtils.Input, disk: LocalFs.Disk, path: string, tree: LocalFs.Node,
      category: string, new r: Outcome<()>, ops: seq<Walk.Op>)
    reads globals, globals.categoryIDs, store, input, disk
  {
    DirectoryRefusal(flags, globals, store, input, disk, path, tree, category, r, ops) &&
    DirectoryMarking(flags, globals, store, input, disk, path, tree, category, r, ops) &&
    DirectoryPlacement(flags, globals, store, input, disk, path, tree, category, r, ops) &&
    DirectoryCompletion(flags, globals, store, input, disk, path, tree, category, r, ops)
  }

  /** A marked directory, or one whose mark cannot be checked, is refused. */
  twostate predicate DirectoryRefusal(flags: Config.Flags, globals: Config.Globals, store: Drive.Store,
      input: RemoteUtils.Input, disk: LocalFs.Disk, path: string, tree: LocalFs.Node,
      category: string, new r: Outcome<()>, ops: seq<Walk.Op>)
    reads globals, globals.categoryIDs, store, input, disk
  {
    // an existing mark, or a failure to look for it, ends the sync before any remote call
    (old(disk.StatOf(DirMarkPath(path))).Exists? ==>
      r == Failed(AlreadySynced("folder already synced")) && ops == [] &&
      NoRemoteWork(globals, store, input) && disk.marks == old(disk.marks)) &&
    (old(disk.StatOf(DirMarkPath(path))).StatFailed? ==>
      r == Failed(Plain("failed to check sync mark: " + old(disk.StatOf(DirMarkPath(path))).reason)) &&
      ops == [] && NoRemoteWork(globals, store, input) && disk.marks == old(disk.marks))
  }

  /** When the mark is written, and what a failure after the mark check is. */
  twostate predicate DirectoryMarking(flags: Config.Flags, globals: Config.Globals, store: Drive.Store,
      input: RemoteUtils.Input, disk: LocalFs.Disk, path: string, tree: LocalFs.Node,
      category: string, new r: Outcome<()>, ops: seq<Walk.Op>)
    reads globals, globals.categoryIDs, store, input, disk
  {
    // the mark is written only after a walk that visited every entry
    (r.Done? ==>
      old(disk.StatOf(DirMarkPath(path))).Missing? && disk.marks == old(disk.marks) + {DirMarkPath(path)} &&
      Walk.RecordsAll(ops, Walk.Kept(Skipped, Listing(path, tree)))) &&
    (!r.Done? ==> disk.marks == old(disk.marks)) &&
    (r.Failed? && r.error.SetMarkFailed? ==>
      old(disk.StatOf(DirMarkPath(path))).Missing? &&
      Walk.RecordsAll(ops, Walk.Kept(Skipped, Listing(path, tree))) &&
      DirMarkPath(path) in disk.createErrors && r.error.text == disk.createErrors[DirMarkPath(path)]) &&
    (old(disk.StatOf(DirMarkPath(path))).Missing? && r.Failed? && !r.error.SetMarkFailed? ==>
      r.error.Plain? && Strings.HasPrefix(r.error.text, "failed to sync directory: ")) &&
    // a fatal exit is the prompt's EOF, or the failed upload of a file of the tree, named in the message
    (r.Fatal? ==>
      old(disk.StatOf(DirMarkPath(path))).Missing? &&
      (r.reason == "failed to scan response: EOF" ||
       exists j :: 0 <= j < |Listing(path, tree)| && Walk.UploadAbort(RemoteRules, Listing(path, tree)[j], r.reason)))
  }

  /** Where the walk put what it made and uploaded. */
  twostate predicate DirectoryPlacement(flags: Config.Flags, globals: Config.Globals, store: Drive.Store,
      input: RemoteUtils.Input, disk: LocalFs.Disk, path: string, tree: LocalFs.Node,
      category: string, new r: Outcome<()>, ops: seq<Walk.Op>)
    reads globals, globals.categoryIDs, store, input, disk
  {
    // every entry went into the folder made for its parent path, or into the category folder
    (forall k :: 0 <= k < |ops| ==> Walk.Placed(ops, k, globals.categoryIDs.v, category)) &&
    (forall k :: 0 <= k < |ops| ==> !Skipped(ops[k].name)) &&
    (forall k :: 0 <= k < |ops| && ops[k].MadeDir? ==>
      Drive.Folder(ops[k].id, ops[k].name, ops[k].parent, false) in store.folders) &&
    // every file recorded as uploaded was sent to Drive during this sync, into the recorded parent
    (old(store.requests) <= store.requests) &&
    (Walk.UploadsSent(ops, store.requests[|old(store.requests)|..]))
  }

  /** What a finished sync guarantees about the tree, and when a sync is sure to finish. */
  twostate predicate DirectoryCompletion(flags: Config.Flags, globals: Config.Globals, store: Drive.Store,
      input: RemoteUtils.Input, disk: LocalFs.Disk, path: string, tree: LocalFs.Node,
      category: string, new r: Outcome<()>, ops: seq<Walk.Op>)
    reads globals, globals.categoryIDs, store, input, disk
  {
    // before the mark is written: each kept entry whose parent directory is kept is in that directory's new folder,
    // in a well-named tree every entry but the root has its parent directory's entry before it,
    // and the root directory's folder is made in the category folder
    (r.Done? ==> Walk.InParentFolders(Skipped, Listing(path, tree), ops)) &&
    (r.Done? && LocalFs.WellNamed(LocalFs.Rooted(Paths.Clean(path), tree)) ==>
      forall j :: 0 < j < |Listing(path, tree)| ==> LocalFs.HasParentBefore(Listing(path, tree), j)) &&
    (r.Done? && tree.Dir? && !Skipped(Paths.Base(Paths.Clean(path))) ==>
      |ops| >= 1 && ops[0].MadeDir? && ops[0].path == Paths.Clean(path) &&
      category in globals.categoryIDs.v && ops[0].parent == globals.categoryIDs.v[category]) &&
    // a sync that is done met no error entry, not even one whose name is passed over
    (r.Done? ==> forall j :: 0 <= j < |Listing(path, tree)| ==> !Listing(path, tree)[j].kind.Failed?) &&
    // with the root and category known and a store that answers normally, an unmarked tree of actionable entries is synced
    (old(disk.StatOf(DirMarkPath(path))).Missing? && DirMarkPath(path) !in disk.createErrors &&
      old(store.script) == [] && old(globals.archiveRootID) != "" && category in old(globals.categoryIDs.v) &&
      (forall j :: 0 <= j < |Listing(path, tree)| ==>
       Walk.Actionable(RemoteRules, flags.forceRecheck, Listing(path, tree)[j])) ==>
      r.Done?)
  }

  method SyncDirectory(flags: Config.Flags, globals: Config.Globals, store: Drive.Store, input: RemoteUtils.Input,
                       disk: LocalFs.Disk, path: string, tree: LocalFs.Node, category: string,
                       md5: seq<bv8> -> string, jobIds: nat -> string)
    returns (r: Outcome<()>, ops: seq<Walk.Op>)
    requires store.Valid()
    modifies globals, globals.categoryIDs, store, input, disk
    ensures store.Valid()
    ensures DirectoryRefusal(flags, globals, store, input, disk, path, tree, category, r, ops)
    ensures DirectoryMarking(flags, globals, store, input, disk, path, tree, category, r, ops)
    ensures DirectoryPlacement(flags, globals, store, input, disk, path, tree, category, r, ops)
    ensures DirectoryCompletion(flags, globals, store, input, disk, path, tree, category, r, ops)
  {
    var p := Paths.Clean(path);
    var mark := p + "/" + MarkName;
    var stat := disk.Stat(mark);
    if stat.Exists? {
      return Failed(AlreadySynced("folder already synced")), [];
    } else if stat.StatFailed? {
      return Failed(Plain("failed to check sync mark: " + stat.reason)), [];
    }
    r, ops := WalkAndMark(flags, globals, store, input, disk, path, tree, category, md5, jobIds);
  }

  /** SyncDirectory once the mark is known to be missing: walk the tree, then write the mark. */
  method WalkAndMark(flags: Config.Flags, globals: Config.Globals, store: Drive.Store, input: RemoteUtils.Input,
                     disk: LocalFs.Disk, path: string, tree: LocalFs.Node, category: string,
                     md5: seq<bv8> -> string, jobIds: nat -> string)
    returns (r: Outcome<()>, ops: seq<Walk.Op>)
    requires store.Valid() && disk.StatOf(DirMarkPath(path)).Missing?
    modifies globals, globals.categoryIDs, store, input, disk
    ensures store.Valid()
    ensures DirectoryMarking(flags, globals, store, input, disk, path, tree, category, r, ops)
    ensures DirectoryPlacement(flags, globals, store, input, disk, path, tree, category, r, ops)
    ensures DirectoryCompletion(flags, globals, store, input, disk, path, tree, category, r, ops)
  {
    var p := Paths.Clean(path);
    var mark := p + "/" + MarkName;
    var es := LocalFs.Preorder(p, LocalFs.Rooted(p, tree));
    assert es == Listing(path, tree);
    ghost var before := store.requests;
    var res, done, processed := Walk.Walk(RemoteRules, flags, globals, store, input, es, category, md5, jobIds);
    ops := done;
    Walk.ProgressFacts(Skipped, es, processed, ops, globals.categoryIDs.v, store.folders, store.requests[|before|..], category);
    if res.Finished? {
      FinishedWalkFacts(Skipped, path, tree, ops, processed, globals.categoryIDs.v, store.folders, store.requests[|before|..], category);
    }
    match res
    case Stopped(err) =>
      var text := "failed to sync directory: " + Message(err);
      assert Strings.HasPrefix(text, "failed to sync directory: ");
      return Failed(Plain(text)), ops;
    case Aborted(reason) =>
      assert reason != "failed to scan response: EOF" ==> Walk.UploadAbort(RemoteRules, es[processed], reason);
      return Fatal(reason), ops;
    case Finished =>
      var failure := disk.Create(mark);
      if failure.Some? {
        return Failed(SetMarkFailed(failure.value)), ops;
      }
      return Done(()), ops;
  }

  /** The last element of the cleaned path, as filepath.Split gives it. */
  function BaseOf(path: string): string {
    Paths.Split(Paths.Clean(path)).1
  }

  /** The message of a fatal upload failure of a single file. */
  function FatalFileUpload(base: string, path: string, err: Error): string {
    "Unexpected error while uploading file '" + base + "' (from " + path + "): " + Message(err)
  }

  /** The fatal message starts by naming the file. */
  lemma FatalFileUploadNamesFile(base: string, path: string, err: Error)
    ensures Strings.HasPrefix(FatalFileUpload(base, path, err), "Unexpected error while uploading file '" + base + "'")
  {
    var prefix := "Unexpected error while uploading file '" + base + "'";
    var rest := " (from " + path + "): " + Message(err);
    assert "' (from " == "'" + " (from ";
    assert FatalFileUpload(base, path, err) == prefix + rest;
    assert prefix[..|prefix|] == prefix;
    Strings.PrefixExtends(prefix, rest, prefix);
  }

  /** What syncing the regular file `file` found at `path` promises: the contract of SyncFile. */
  twostate predicate FileSynced(flags: Config.Flags, globals: Config.Globals, store: Drive.Store,
                                input: RemoteUtils.Input, disk: LocalFs.Disk, path: string, file: LocalFs.LocalFile,
                                category: string, md5: seq<bv8> -> string, new r: Outcome<()>)
    reads globals, globals.categoryIDs, store, input, disk
  {
    (Skipped(BaseOf(path)) ==>
      r == Done(()) && NoRemoteWork(globals, store, input) && disk.marks == old(disk.marks)) &&
    (!Skipped(BaseOf(path)) && old(disk.StatOf(FileMarkPath(path))).Exists? ==>
      r == Failed(AlreadySynced("file already synced")) &&
      NoRemoteWork(globals, store, input) && disk.marks == old(disk.marks)) &&
    (!Skipped(BaseOf(path)) && old(disk.StatOf(FileMarkPath(path))).StatFailed? ==>
      r == Failed(Plain("failed to check sync mark: " + old(disk.StatOf(FileMarkPath(path))).reason)) &&
      NoRemoteWork(globals, store, input) && disk.marks == old(disk.marks)) &&
    // a synced file was uploaded into the category folder and then marked
    (r.Done? && !Skipped(BaseOf(path)) ==>
      old(disk.StatOf(FileMarkPath(path))).Missing? &&
      disk.marks == old(disk.marks) + {FileMarkPath(path)} &&
      UploadedLast(store.requests, globals.categoryIDs.v, path, category)) &&
    (r.Fatal? ==>
      r.reason == "failed to scan response: EOF" ||
      Strings.HasPrefix(r.reason, "Unexpected error while uploading file '" + BaseOf(path) + "'")) &&
    // past the mark check, a failure is the category lookup's or the mark's: a failed upload is fatal instead
    (!Skipped(BaseOf(path)) && old(disk.StatOf(FileMarkPath(path))).Missing? && r.Failed? ==>
      (FileMarkPath(path) in disk.createErrors && r.error == SetMarkFailed(disk.createErrors[FileMarkPath(path)])) ||
      RemoteUtils.FromStep(r.error, "archive root") || RemoteUtils.FromStep(r.error, "category")) &&
    (r.Failed? ==>
      r.error.SetMarkFailed? || r.error == AlreadySynced("file already synced") ||
      (r.error.Plain? && Strings.HasPrefix(r.error.text, "failed to check sync mark: ")) ||
      RemoteUtils.FromStep(r.error, "archive root") || RemoteUtils.FromStep(r.error, "category")) &&
    (r.Failed? && r.error.SetMarkFailed? ==>
      UploadedLast(store.requests, globals.categoryIDs.v, path, category)) &&
    (!r.Done? ==> disk.marks == old(disk.marks)) &&
    // with the root and category known, the upload is fatal exactly when its retried job fails
    (!Skipped(BaseOf(path)) && old(disk.StatOf(FileMarkPath(path))).Missing? &&
      old(globals.archiveRootID) != "" && category in old(globals.categoryIDs.v) ==>
      (r.Fatal? <==>
         !RemoteUtils.RetrySucceeds(flags.forceRecheck, md5,
                                    RemoteUtils.PutFile(Paths.Clean(path), file, old(globals.categoryIDs.v)[category]),
                                    old(store.script)))) &&
    // with the root and category known and a store that answers normally, an unmarked readable file is synced
    (!Skipped(BaseOf(path)) && old(disk.StatOf(FileMarkPath(path))).Missing? &&
      FileMarkPath(path) !in disk.createErrors &&
      old(store.script) == [] && old(globals.archiveRootID) != "" && category in old(globals.categoryIDs.v) &&
      file.openError.None? && (flags.forceRecheck ==> file.hashFault.HashOk?) ==>
      r.Done?)
  }

  method SyncFile(flags: Config.Flags, globals: Config.Globals, store: Drive.Store, input: RemoteUtils.Input,
                  disk: LocalFs.Disk, path: string, file: LocalFs.LocalFile, category: string,
                  md5: seq<bv8> -> string, jobId: string)
    returns (r: Outcome<()>)
    requires store.Valid()
    modifies globals, globals.categoryIDs, store, input, disk
    ensures store.Valid()
    ensures FileSynced(flags, globals, store, input, disk, path, file, category, md5, r)
  {
    var p := Paths.Clean(path);
    var parts := Paths.Split(p);
    var parentPath, basename := parts.0, parts.1;
    if Skipped(basename) {
      return Done(());
    }
    var mark := parentPath + FileMarkPrefix + basename;
    var stat := disk.Stat(mark);
    if stat.Exists? {
      return Failed(AlreadySynced("file already synced"));
    } else if stat.StatFailed? {
      return Failed(Plain("failed to check sync mark: " + stat.reason));
    }
    r := UploadAndMark(flags, globals, store, input, disk, p, basename, mark, file, category, md5, jobId);
  }

  /** The second half of SyncFile: resolve the category folder, upload with retries, write the mark. */
  method UploadAndMark(flags: Config.Flags, globals: Config.Globals, store: Drive.Store, input: RemoteUtils.Input,
                       disk: LocalFs.Disk, p: string, basename: string, mark: string, file: LocalFs.LocalFile,
                       category: string, md5: seq<bv8> -> string, jobId: string)
    returns (r: Outcome<()>)
    requires store.Valid()
    modifies globals, globals.categoryIDs, store, input, disk
    ensures store.Valid()
    ensures r.Done? ==> disk.marks == old(disk.marks) + {mark}
    ensures r.Done? || (r.Failed? && r.error.SetMarkFailed?) ==>
              category in globals.categoryIDs.v && |store.requests| > 0 &&
              store.requests[|store.requests| - 1] == Drive.UploadRequest(Paths.Base(p), globals.categoryIDs.v[category])
    // a failure is the category lookup's or the mark's: a failed upload is fatal instead
    ensures r.Failed? ==>
              (mark in disk.createErrors && r.error == SetMarkFailed(disk.createErrors[mark])) ||
              RemoteUtils.FromStep(r.error, "archive root") || RemoteUtils.FromStep(r.error, "category")
    ensures !r.Done? ==> disk.marks == old(disk.marks)
    ensures r.Fatal? ==>
              r.reason == "failed to scan response: EOF" ||
              Strings.HasPrefix(r.reason, "Unexpected error while uploading file '" + basename + "'")
    ensures old(globals.archiveRootID) != "" && category in old(globals.categoryIDs.v) ==>
              (r.Fatal? <==>
                 !RemoteUtils.RetrySucceeds(flags.forceRecheck, md5, RemoteUtils.PutFile(p, file, old(globals.categoryIDs.v)[category]),
                                            old(store.script)))
    ensures old(store.script) == [] && old(globals.archiveRootID) != "" && category in old(globals.categoryIDs.v) &&
            file.openError.None? && (flags.forceRecheck ==> file.hashFault.HashOk?) && mark !in disk.createErrors ==>
              r.Done?
    // with every folder known without a create, the file is fatal exactly when its retried upload fails on the
    // replies the lookups leave, and done exactly when it is not and the mark is written
    ensures var loc := RemoteUtils.Located(flags, old(store.folders), old(store.script), old(globals.archiveRootID),
                                           old(globals.categoryIDs.v), category);
            loc.Some? ==>
              (r.Fatal? <==> !RemoteUtils.RetrySucceeds(flags.forceRecheck, md5, RemoteUtils.PutFile(p, file, loc.value.0),
                                                         loc.value.1)) &&
              (r.Done? <==> !r.Fatal? && mark !in disk.createErrors)
  {
    var location := RemoteUtils.GetUploadLocation(flags, globals, store, input, category);
    if location.Failed? {
      return Failed(location.error);
    } else if location.Fatal? {
      return Fatal(location.reason);
    }
    r := PutAndMark(flags, store, disk, p, basename, mark, file, location.value, md5, jobId);
  }

  /** Upload the file into the folder `parentID` with retries, then write the mark. */
  method PutAndMark(flags: Config.Flags, store: Drive.Store, disk: LocalFs.Disk, p: string, basename: string,
                    mark: string, file: LocalFs.LocalFile, parentID: string, md5: seq<bv8> -> string, jobId: string)
    returns (r: Outcome<()>)
    requires store.Valid()
    modifies store, disk
    ensures store.Valid()
    ensures r.Done? ==> disk.marks == old(disk.marks) + {mark}
    ensures !r.Fatal? ==>
              |store.requests| > 0 && store.requests[|store.requests| - 1] == Drive.UploadRequest(Paths.Base(p), parentID)
    ensures !r.Done? ==> disk.marks == old(disk.marks)
    ensures r.Fatal? ==> Strings.HasPrefix(r.reason, "Unexpected error while uploading file '" + basename + "'")
    ensures r.Failed? ==> mark in disk.createErrors && r.error == SetMarkFailed(disk.createErrors[mark])
    ensures r.Done? <==> !r.Fatal? && mark !in disk.createErrors
    // the upload is fatal exactly when its retried job fails, which a store that answers normally never makes it
    ensures r.Fatal? <==> !RemoteUtils.RetrySucceeds(flags.forceRecheck, md5, RemoteUtils.PutFile(p, file, parentID), old(store.script))
    ensures old(store.script) == [] && file.openError.None? && (flags.forceRecheck ==> file.hashFault.HashOk?) ==> !r.Fatal?
  {
    ghost var script0, before := store.script, store.requests;
    var job := RemoteUtils.PutFile(p, file, parentID);
    if script0 == [] && file.openError.None? && (flags.forceRecheck ==> file.hashFault.HashOk?) {
      RemoteUtils.EmptyScriptSucceeds(flags.forceRecheck, md5, job);
    }
    var err, id, calls, sleeps := RemoteUtils.WithRetry(flags, store, job, md5, jobId);
    if err.Some? {
      var reason := FatalFileUpload(basename, p, err.value);
      FatalFileUploadNamesFile(basename, p, err.value);
      return Fatal(reason);
    }
    RemoteUtils.RetriedLastRequest(flags, md5, job, jobId, script0, before, err, calls, sleeps, store.script, store.requests);
    var failure := disk.Create(mark);
    if failure.Some? {
      return Failed(SetMarkFailed(failure.value));
    }
    return Done(());
  }

  // ---------------------------------------------------------------------

  /** What opening and stat'ing the path to sync finds. */
  datatype Target =
    | CannotOpen(reason: string)
    | CannotStat(reason: string)
    | Directory(tree: LocalFs.Node)
    | RegularFile(file: LocalFs.LocalFile)

  method Sync(flags: Config.Flags, globals: Config.Globals, store: Drive.Store, input: RemoteUtils.Input,
              disk: LocalFs.Disk, path: string, target: Target, category: string,
              md5: seq<bv8> -> string, jobIds: nat -> string)
    returns (r: Outcome<()>, ops: seq<Walk.Op>)
    requires store.Valid()
    modifies globals, globals.categoryIDs, store, input, disk
    ensures store.Valid()
    ensures target.CannotOpen? ==>
              r == Failed(Plain("failed to open path: " + target.reason)) && ops == [] &&
              NoRemoteWork(globals, store, input) && disk.marks == old(disk.marks)
    ensures target.CannotStat? ==>
              r == Failed(Plain("failed to stat path: " + target.reason)) && ops == [] &&
              NoRemoteWork(globals, store, input) && disk.marks == old(disk.marks)
    // a directory or a file is synced as SyncDirectory or SyncFile promise
    ensures target.Directory? ==> DirectorySynced(flags, globals, store, input, disk, path, target.tree, category, r, ops)
    ensures target.RegularFile? ==>
              ops == [] && FileSynced(flags, globals, store, input, disk, path, target.file, category, md5, r)
  {
    match target
    case CannotOpen(reason) =>
      return Failed(Plain("failed to open path: " + reason)), [];
    case CannotStat(reason) =>
      return Failed(Plain("failed to stat path: " + reason)), [];
    case Directory(tree) =>
      r, ops := SyncDirectory(flags, globals, store, input, disk, path, tree, category, md5, jobIds);
    case RegularFile(file) =>
      r := SyncFile(flags, globals, store, input, disk, path, file, category, md5, jobIds(0));
      ops := [];
  }

  /** Sync into the category the guesser proposes for the path's last element. */
  method SyncWithGuess(flags: Config.Flags, config: Config.SafeConfig, guesser: CategoryGuessing.Guesser,
                       globals: Config.Globals, store: Drive.Store, input: RemoteUtils.Input,
                       disk: LocalFs.Disk, path: string, target: Target,
                       md5: seq<bv8> -> string, jobIds: nat -> string)
    returns (r: Outcome<()>, ops: seq<Walk.Op>)
    requires store.Valid()
    modifies globals, globals.categoryIDs, store, input, disk
    ensures store.Valid()
    ensures target.CannotOpen? ==>
              r == Failed(Plain("failed to open path: " + target.reason)) && ops == [] &&
              NoRemoteWork(globals, store, input) && disk.marks == old(disk.marks)
    ensures target.CannotStat? ==>
              r == Failed(Plain("failed to stat path: " + target.reason)) && ops == [] &&
              NoRemoteWork(globals, store, input) && disk.marks == old(disk.marks)
    // the path is synced into the configured default category
    ensures target.Directory? ==>
              DirectorySynced(flags, globals, store, input, disk, path, target.tree, config.v.defaultCategory, r, ops)
    ensures target.RegularFile? ==>
              ops == [] &&
              FileSynced(flags, globals, store, input, disk, path, target.file, config.v.defaultCategory, md5, r)
  {
    var category := CategoryGuessing.Guess(guesser, config, Paths.Base(path));
    r, ops := Sync(flags, globals, store, input, disk, path, target, category, md5, jobIds);
  }

  /**
   * Syncing a directory a second time after it succeeded reports it synced and makes no
   * remote call: `between` is the request log as the first sync left it.
   */
  method SyncDirectoryTwice(flags: Config.Flags, globals: Config.Globals, store: Drive.Store, input: RemoteUtils.Input,
                            disk: LocalFs.Disk, path: string, tree: LocalFs.Node, category: string,
                            md5: seq<bv8> -> string, jobIds: nat -> string)
    returns (first: Outcome<()>, second: Outcome<()>, ghost between: seq<Drive.Request>)
    requires store.Valid()
    modifies globals, globals.categoryIDs, store, input, disk
    ensures first.Done? ==> second == Failed(AlreadySynced("folder already synced")) && store.requests == between
  {
    var ops;
    first, ops := SyncDirectory(flags, globals, store, input, disk, path, tree, category, md5, jobIds);
    between := store.requests;
    second, ops := SyncDirectory(flags, globals, store, input, disk, path, tree, category, md5, jobIds);
  }
}
