# DriveSync sync engine in Dafny

DriveSync archives local directories and files into Google Drive. Every upload
goes under `<archive root>/<category>/` on Drive. After a successful sync it
leaves a mark file on disk, so the same object is not uploaded twice.

This project models the engine that does that work:

- resolving the archive root and category folders, with an optional
  interactive "create it now?" prompt and a per-process category cache;
- creating folders and uploading files, with an optional MD5 recheck;
- retrying failed remote calls with exponential back-off while the error is
  one worth retrying;
- walking a directory tree, skipping ignored names and mark files, and mapping
  each local directory to the folder created for it;
- writing the mark file, and dispatching between a directory and a file.

It also models the legacy single-file uploader (`uploader.go`). Where that
uploader behaves differently, the model proves the difference.

Modules, one per source component:

| module | file | models |
|---|---|---|
| `Wrappers`, `Strings`, `Paths` | wrappers.dfy, strings.dfy, paths.dfy | `Option`, and the parts of Go's `strings` and `path/filepath` the core uses |
| `Errors` | errors.dfy | errors/errors.go, plus the other error shapes the core meets (Drive API error, network error, plain message) |
| `Utils` | utils.dfy | the `safeMap` of utils/utils.go |
| `Config` | config.dfy | config/config.go: the ignore list, the defaults, the flags, `safeConfig`, the archive-root and category-cache globals |
| `CategoryGuessing` | category_guessing.dfy | config/category_guessing.go |
| `Drive` | drive.dfy | the Drive service as a store of folders plus a script of replies (success, failure, or an upload whose checksum comes back wrong), with a log of the requests made |
| `LocalFs` | local_fs.dfy | the local tree as `filepath.Walk` visits it (pre-order; a directory that cannot be listed gives a single visit carrying the error, and nothing below it), and the disk of mark files |
| `RemoteUtils` | remote_utils.dfy | remote/utils.go |
| `Walk` | walk.dfy | the `filepath.Walk` callback shared by both `SyncDirectory` versions |
| `RemoteSync` | remote_sync.dfy | remote/sync.go |
| `Uploader` | uploader.dfy | the legacy uploader.go, where it differs |

Everything outside the process is a parameter:

- `Drive.Store` stands in for the Drive service. Its reply script says which
  calls succeed, which fail and which uploads come back with a wrong checksum.
  A failed reply never has a side effect (see "## Left out").
- `RemoteUtils.Input` holds the newline-terminated lines standard input will
  give. An unterminated last line reads as EOF, so it is not one of them.
- `LocalFs.Disk` knows which mark files exist and which `Stat` or `Create`
  calls will fail.
- The MD5 digest is a function parameter `md5`.
- The random job ids are the `jobId`/`jobIds` parameters.
- `time.Sleep` shows up only as the ghost list of sleep lengths that
  `WithRetry` returns.
- `log.Fatalf` is the `Fatal(reason)` outcome of `Errors.Outcome`.

## Model

| member | source | states |
|---|---|---|
| `Utils.SafeMap.constructor` | utils/utils.go:20-22 | a new map is empty |
| `Utils.SafeMap.Get` | utils/utils.go:24-29 | `ok` holds exactly when the key is present; `value` is the stored value, or `""` when the key is missing |
| `Utils.SafeMap.Set` | utils/utils.go:31-35 | the map afterwards is the old map with that one key updated |
| `Utils.LookupEmpty` | utils/utils.go:20-29 | looking anything up in a fresh map gives `("", false)` |
| `Utils.LookupAfterSet` | utils/utils.go:24-35 | a key reads back the value just set under it |
| `Utils.LookupAfterSetOther` | utils/utils.go:24-35 | setting one key does not change what any other key reads |
| `Utils.SetOverwrites` | utils/utils.go:31-35 | the second of two sets to the same key wins |
| `Utils.GetAgreesWithLookup` | utils/utils.go:24-29 | `Get` returns what the pure `Lookup` of the stored map gives |
| `Errors.WrappedKindsReportTheirText` | errors/errors.go:5-27 | each string-wrapping error kind reports exactly its own text |
| `Errors.MultipleResultsShortLists` | errors/errors.go:29-33 | the message for zero ids and for one id |
| `Errors.MultipleResultsIdsRecoverable` | errors/errors.go:29-33 | the message starts with `multiple results: `, and splitting the rest on spaces gives back the ids when no id contains a space |
| `Config.DefaultFlagValues` | config/config.go:23-39 | the defaults: ratio 2, starting rate 1, root `archive`, category `Uncategorized`, recheck on, create-missing off, non-interactive |
| `Config.IgnoreListHasNoMarkName` | config/config.go:11-17 | the ignore list has five names and no longer contains `.sync_finished` |
| `Config.SafeConfig.constructor` | config/config.go:70-72 | a new holder holds the zero config |
| `Config.SafeConfig.Get` | config/config.go:58-62 | returns the held config |
| `Config.SafeConfig.Set` | config/config.go:64-68 | replaces the held config |
| `Config.GetAfterSet` | config/config.go:58-68 | after two sets, a get returns the second value |
| `Config.GetBeforeSet` | config/config.go:70-95 | before any set, every field reads as Go's zero value |
| `Config.Globals.constructor` | config/config.go:18-19 | the process starts with no archive root id and an empty category cache |
| `CategoryGuessing.Guess` | config/category_guessing.go:11-14 | the guess is the configured default category |
| `CategoryGuessing.GuessIgnoresBasename` | config/category_guessing.go:11-14 | two basenames get the same guess |
| `CategoryGuessing.GuessBeforeAnySet` | config/category_guessing.go:11-16 | with the config never set, the guess is the empty string |
| `Drive.Matching` | remote/utils.go:53-58 | the list query returns exactly the ids of folders with that name in that parent |
| `Drive.Store.List` | remote/utils.go:58 | a list call gives the scripted failure or the matching ids, consumes one reply, logs one request and changes no folder |
| `Drive.Store.CreateFolder` | remote/utils.go:125-131 | a folder create either fails as scripted, changing nothing, or appends one folder under a fresh id |
| `Drive.Store.Upload` | remote/utils.go:153-172 | an upload returns a fresh id with the content's md5 (or the scripted wrong sum); a failure returns the scripted error; folders never change |
| `LocalFs.Preorder` | remote/sync.go:41 | the walk visits the root first; the root visit is a directory visit exactly when the node is a directory, and an error visit exactly when the node cannot be listed or read; anything but a directory is visited once |
| `LocalFs.Rooted` | remote/sync.go:41 | the root visit is named after the base of the walked path; the node keeps its kind, its children and its file |
| `LocalFs.ChildPathFacts` | remote/sync.go:51-54 | a child's cleaned parent path is the directory it was listed in |
| `LocalFs.PreorderParents` | remote/sync.go:51-54 | in the visit order, every visit after the first is preceded by its parent directory's visit |
| `LocalFs.ChildrenParents` | remote/sync.go:51-54 | inside a listing, every visit has its parent earlier in the listing, or sits directly in the listed directory |
| `LocalFs.PreorderPathLonger` | remote/sync.go:41 | no visited path is shorter than the walked root |
| `LocalFs.Disk.Stat` | remote/sync.go:33-37 | a stat reports the existing mark, the scripted failure, or absence |
| `LocalFs.Disk.Create` | remote/sync.go:112-115 | creating a mark either fails with the scripted message, leaving the marks alone, or adds exactly that path |
| `RemoteUtils.RetryableExactly` | remote/utils.go:241-260 | an error is retried exactly when it is a 403 whose lower-cased message contains "rate limit", a 5xx, a checksum mismatch or a network error |
| `RemoteUtils.NotRetryable` | remote/utils.go:241-260 | no error, not-found, multiple results, already-synced, set-mark and plain errors are never retried, nor is any API code other than 403 or 5xx |
| `RemoteUtils.ForbiddenRetriedOnlyForRateLimit` | remote/utils.go:245-247 | a 403 is retried exactly when its message mentions a rate limit in any letter case |
| `RemoteUtils.UserRateLimitRetried` | remote/utils.go:245-247 | Drive's "User Rate Limit Exceeded" is retried |
| `RemoteUtils.BackoffAt` | remote/utils.go:227-238 | the i-th sleep is the starting rate times ratio to the power i |
| `RemoteUtils.BackoffGrows` | remote/utils.go:235 | each sleep is the previous one times the ratio |
| `RemoteUtils.FirstStop` | remote/utils.go:210-238 | the attempt that ends the retry loop is the first one whose outcome is not retryable |
| `RemoteUtils.FirstStopAfterRetries` | remote/utils.go:210-238 | any attempt preceded only by retryable outcomes and itself not retryable is that stopping attempt |
| `RemoteUtils.VerdictCases` | remote/utils.go:38-47 | a line means yes exactly when it is empty, `Y` or `y`, and no exactly when it is `N` or `n` |
| `RemoteUtils.FirstUnderstoodLineDecides` | remote/utils.go:33-48 | the first understood line decides the answer, and every line up to it is consumed |
| `RemoteUtils.NoUnderstoodLineFails` | remote/utils.go:33-37 | if no line is understood, input runs out and the prompt fails on reading |
| `RemoteUtils.YesNoResponse` | remote/utils.go:28-49 | without the interactive flag: no, with no input read. Otherwise the loop's answer and consumed lines are those of `Response` |
| `RemoteUtils.LookupOutcomes` | remote/utils.go:58-67 | success exactly when the list holds one id, and then that id; an empty list is a not-found error; more than one gives the "multiple" message; a list failure gives "failed to fetch ID of" |
| `RemoteUtils.GetLeafFromParent` | remote/utils.go:52-68 | the id found names a folder with that name in that parent; one list request; no folder changes |
| `RemoteUtils.CreateDirectory` | remote/utils.go:124-138 | on success, exactly one new folder with that name and parent, under a non-empty id no earlier folder has; a failure returns the store's error unchanged |
| `RemoteUtils.FindOrCreate` | remote/utils.go:74-91 | a found folder is used and nothing is created. A miss creates only with create-missing set, or when the miss is not-found and the prompt says yes. Otherwise the result is exactly the fatal "failed to scan response: EOF" when the prompt ran out of input, and the "failed to retrieve" error with the lookup's message in every other case. A failed create adds no folder. The prompt reads only in the not-found case; without create-missing no folder is made without consuming a line. When a create is attempted, it fails exactly when the store refuses it (the reply after the lookup's is a failure); a successful create adds exactly one folder, with that name and parent and a non-empty id no earlier folder has, and returns that id |
| `RemoteUtils.StepMessagePrefix` | remote/utils.go:81-110 | a step error message begins with the step ("failed to create", "failed to retrieve"), the kind of folder and the opening quote of its name |
| `RemoteUtils.GetUploadLocation` | remote/utils.go:71-117 | the root is looked up only when unset and never changes once set; a cached category costs no remote call and no input; only success writes the cache; the id returned names a folder under the root; every failure is from the root step or the category step; folders and the request log only grow; without create-missing a folder is made only after a line of input is consumed. A root that the next reply finds is kept, and then only the category step can fail; a category that is cached, or that the following reply finds under that root, gives its id. With the root set, a category found by the next reply gives its id. A missing root that may be created: a refused create fails the root step and leaves the root unset; an accepted one keeps a new root, after which only the category step can fail and a cached category gives its id. Whenever every folder is known without a create, the result is the folder `Located` names and the store is left with the replies `Located` leaves |
| `RemoteUtils.ArchiveRoot` | remote/utils.go:73-92 | a set root is returned with no call and no change; otherwise the root is listed first, a found root is used with one reply consumed and no folder made, the id kept is the one returned, and a failure leaves it empty and is from the root step; a missing root that may be created is kept exactly when the store accepts the create, and is then the one new folder, under "root", with a non-empty id |
| `RemoteUtils.CategoryFolder` | remote/utils.go:93-116 | a cached category is returned with no call and no change; otherwise every request goes to the archive root, a found category gives its id, only success writes the cache, and a failure is from the category step; a found category consumes one reply; a missing category that may be created is cached exactly when the store accepts the create, and is then the one new folder, under the archive root |
| `RemoteUtils.CheckUpload` | remote/utils.go:162-205 | success exactly when the upload succeeded and, with the recheck on, the hash was computed and matches; a mismatch carries both sums; a hashing failure is a plain error |
| `RemoteUtils.CreateFile` | remote/utils.go:147-206 | a file that cannot be opened fails with no remote call; otherwise one upload request is judged by `CheckUpload`; folders never change |
| `RemoteUtils.SucceedStops` | remote/utils.go:213 | a successful attempt is never retried |
| `RemoteUtils.GarbledUploadRetried` | remote/utils.go:193-195 | a wrong remote checksum is retried with the recheck on, and is invisible with it off |
| `RemoteUtils.Outcomes` | remote/utils.go:210-238 | the outcomes of consecutive attempts, one per scripted reply, ending in one that is never retried |
| `RemoteUtils.WrappedNotRetried` | remote/utils.go:219-221 | the wrapped final error reads "[Job #id] retry failed: " followed by the cause, and is never itself retried |
| `RemoteUtils.Attempt` | remote/sync.go:70-74 | one attempt's outcome is the job's outcome on the next reply; a file that cannot be opened makes no request. The same closure shape is the file job at remote/sync.go:91-95 and the legacy jobs at uploader.go:476-480 and 495-499 |
| `RemoteUtils.WithRetry` | remote/utils.go:210-238 | calls end at the first non-retryable outcome; the sleeps are start·ratio^i for each retry; success exactly when the last outcome is success, which is `RetrySucceeds` of the old script; otherwise the wrapped last error. Exactly that many requests are appended to the log, and a script that was empty stays empty |
| `RemoteUtils.EmptyScriptSucceeds` | remote/utils.go:210-221 | when every call is answered normally, a folder creation succeeds at once, and so does an upload of a file that opens and, with the recheck on, hashes |
| `RemoteUtils.RetriedLastRequest` | remote/utils.go:210-238 | a job whose retries end without an error reached the store: the log grew, and its last request is the job's own |
| `Walk.KeptExactly` | remote/sync.go:46-50 | the entries acted on are exactly the visited entries whose name is not skipped |
| `Walk.DirMapRecordsMadeDirs` | remote/sync.go:79 | a path is in the parent map exactly when a directory was created for it, and it maps to the latest such folder id |
| `Walk.PlacedStable` | remote/sync.go:51-62 | where an earlier operation was placed stays true as operations are added |
| `Walk.Visit` | remote/sync.go:41-105 | a visit error stops the walk with that error; a skipped name makes no call; otherwise the parent id is taken from the map, or from `GetUploadLocation` when the parent is missing. A directory is created with retry; its failure stops the walk. A file is uploaded with retry; its failure aborts the process. An uploaded file's upload request, named after the file's base and its parent folder, is the last request in the log. When the parent is in the map, or the root is set and the category cached, a kept entry goes on exactly when its retried job succeeds. A kept entry stops only on its directory's creation or on the root or category step, and aborts only on the prompt's EOF or on a file whose upload failed, with a message that starts with the upload-failure wording and the file's quoted name. With the root set, the category cached and every call answered normally, an actionable entry goes on and leaves the script empty; a set root is kept |
| `Walk.ParentFolder` | remote/sync.go:54-62 | a parent in the map gives its id with no call and no change; otherwise the id comes from `GetUploadLocation`, is the cached category id, and the cache entry already present is kept. A failure is from the root or category step, a fatal end is the prompt's EOF; a set root with a cached category gives that id with no call; a root that the next reply finds leaves only the category step to fail, and a category that the following reply finds gives its id; with the root set, a category found by the next reply gives its id |
| `Walk.Act` | remote/sync.go:63-103 | a directory becomes a `MadeDir` under the given parent whose folder exists in the store, and its failure stops the walk; a file becomes an `Uploaded` whose upload request is the last one logged, and its failure aborts; a file never stops and a directory never aborts; the entry goes on exactly when the retried job for it (`JobFor`) succeeds, and an empty script stays empty; an abort names the file: its message starts with the upload-failure wording and the quoted file name |
| `Walk.ProgressStep` | remote/sync.go:41-105 | one more visit keeps the walk's invariant: ops record the kept entries in order, each placed in its parent's folder or the category folder |
| `Walk.Walk` | remote/sync.go:41-107 | on finishing, every kept entry has one operation, in visit order, placed under its parent's folder or under the category; every uploaded file's upload request is in the requests the walk added; a kept child of a kept directory goes into that directory's folder; an error visit stops the walk with its reason; folders and the request log only grow. With the root set, the category cached, every call answered normally and every entry actionable, the walk finishes. A walk that stops does so at an error visit, a directory's creation, or the root or category step; a walk that aborts does so on the prompt's EOF or on the failed upload of the file it ended at, named in the message (`EndedAt`) |
| `Walk.KeptAt` | remote/sync.go:46-50 | a kept entry's operation sits at the count of kept entries before it |
| `Walk.LatestMadeDir` | remote/sync.go:79 | when a directory's folder is the last one made for its path, the parent map gives that folder's id |
| `Walk.ChildInParentFolder` | remote/sync.go:51-84 | a kept entry listed in a kept directory goes into the folder created for that directory |
| `Walk.ChildrenInParentFolders` | remote/sync.go:51-84 | for every pair of a kept directory and a kept entry listed in it, the entry goes into the directory's folder |
| `Walk.ProgressFacts` | remote/sync.go:41-107 | after any prefix of the walk every operation is placed, none carries a skipped name, every created folder exists; every uploaded file's request is in the log; at the end the operations record exactly the kept entries, and each child of a kept directory goes into the folder made for that directory |
| `Walk.NoSkippedNameRecorded` | remote/sync.go:46-50 | no ignored name or mark file ever gets a remote operation |
| `Walk.ParentFolderMadeBefore` | remote/sync.go:54 | an operation found in the parent map goes into the folder made earlier for that local parent |
| `Walk.UnrecordedParentIsCategory` | remote/sync.go:55-61 | an operation whose parent has not been created goes into the category folder |
| `Walk.KeptFirst` | remote/sync.go:41-50 | an unskipped root is the first entry acted on |
| `Walk.RootUnderCategory` | remote/sync.go:51-84 | the walked root directory becomes a folder directly under the category folder |
| `RemoteSync.MarkPrefixSkipped` | remote/sync.go:48-50 | every name starting with `.sync_finished` is skipped |
| `RemoteSync.DirMarkSkipped` | remote/sync.go:30-31 | the directory mark lies inside the cleaned directory and is itself skipped |
| `RemoteSync.FileMarkIn` | remote/sync.go:131-138 | a file mark lies in the file's directory, and its name starts with the mark prefix |
| `RemoteSync.FileMarkSkipped` | remote/sync.go:131-138 | the file mark sits beside the file, is named `.sync_finished-<base>`, and so is skipped by a later directory walk |
| `RemoteSync.IgnoredDirectoryChildUploaded` | remote/sync.go:46-62 | walking `a/.idea/w` skips `.idea` but still uploads `w`, and because `.idea` got no folder, `w` lands in the category folder |
| `RemoteSync.ListingParents` | remote/sync.go:41-54 | in a well-named tree walked from its cleaned path, every visit after the first follows its parent directory's visit |
| `RemoteSync.FinishedWalkFacts` | remote/sync.go:41-84 | a finished walk of a well-named tree has every parent before its child, and an unskipped root directory becomes the first operation, a folder under the category |
| `RemoteSync.SyncDirectory` | remote/sync.go:27-120 | an existing mark gives "folder already synced" with no remote work or input; a failed stat gives "failed to check sync mark"; success means the mark was absent, every kept entry was handled and the mark was added; a failure leaves the marks alone; a mark failure carries the create error; other failures carry "failed to sync directory: ". Every uploaded file's request is in the requests added; on success each kept child of a kept directory went into that directory's folder, every visit follows its parent's in a well-named tree, and the root directory is a folder directly under the category. A sync that is done met no error visit, even one whose name is skipped. With the mark absent and creatable, the root set, the category cached, every call answered normally and every entry actionable, the sync is done. The contract is the twostate predicates `DirectoryRefusal`, `DirectoryMarking`, `DirectoryPlacement` and `DirectoryCompletion`. A fatal end comes only after the mark check, and is the prompt's EOF or a message starting "Unexpected error while uploading file '" and the name of a file in the tree |
| `RemoteSync.SyncFile` | remote/sync.go:127-169 | an ignored or mark name succeeds with no effect; an existing mark gives "file already synced"; success uploads the file into the category folder and adds the mark beside it; an upload failure is fatal, so every failure is the refusal, the stat failure, the archive-root or category step, or the mark; past the mark check only the last two; a mark failure comes after the upload request. With the root set and the category cached, the sync is fatal exactly when the retried upload fails; with the mark absent and creatable, every call answered normally and the file readable, it is done. The contract is the twostate predicate `FileSynced` |
| `RemoteSync.UploadAndMark` | remote/sync.go:145-166 | a failure is the root or category step or the mark; success or a mark failure comes after the upload request to the category folder; with the root set and the category cached, fatal exactly when the retried upload fails, and done when every call is answered normally, the file is readable and the mark creatable. Whenever every folder is known without a create (`RemoteUtils.Located`: the root set or found, the category cached or found), fatal exactly when the retried upload into that folder fails on the replies the lookups leave, and done exactly when it is not fatal and the mark is creatable |
| `RemoteSync.PutAndMark` | remote/sync.go:150-166 | fatal exactly when the retried upload fails, never when every call is answered normally and the file is readable; otherwise the upload request is the last one, and the only failure is the mark's; done exactly when not fatal and the mark is creatable |
| `RemoteSync.FatalFileUploadNamesFile` | remote/sync.go:158 | the fatal upload message starts with "Unexpected error while uploading file '", the base name and a closing quote |
| `RemoteSync.Sync` | remote/sync.go:175-189 | open and stat failures give their messages with no remote work; a directory gets the whole contract of `SyncDirectory` (`DirectorySynced`), a regular file the whole contract of `SyncFile` (`FileSynced`) and no operations |
| `RemoteSync.SyncWithGuess` | remote/sync.go:193-195 | the category used is the guesser's answer for the base name, the configured default: open and stat failures as in `Sync`, and a directory or file synced into that category with the whole contract of `SyncDirectory` or `SyncFile` |
| `RemoteSync.SyncDirectoryTwice` | remote/sync.go:27-37 | a second sync of a directory that synced fine is refused as already synced, and leaves the request log as the first sync left it |
| `Uploader.SkipRulesDiffer` | uploader.go:34-39 | the legacy uploader skips `.sync_finished` exactly, but not `.sync_finished-x` or `.git`; everything it skips, the new engine skips too |
| `Uploader.YesNoResponse` | uploader.go:232-250 | the legacy prompt always reads input and answers as `Response` does |
| `Uploader.GetUploadLocation` | uploader.go:253-292 | as the new one, with create-missing off and the prompt always asked: a cached category costs nothing, failures are from the root or category step, a failed root step leaves the root unset, folders and the log only grow, and a folder is made only after the operator answered a line; a found root leaves only the category step to fail, and a cached or found category gives its id; a missing root the operator agrees to create: a refused create fails the root step, an accepted one leaves only the category step to fail; whenever every folder is known without a create, the result is the folder `RemoteUtils.Located` names |
| `Uploader.SleepsDouble` | uploader.go:45-51 | the legacy sleeps are 1, 2, 4, … seconds |
| `Uploader.WithRetry` | uploader.go:385-409 | the same retry contract with the recheck on, starting rate 1 and ratio 2 |
| `Uploader.SyncDirectory` | uploader.go:438-520 | any stat result other than "does not exist", failures included, counts as already synced, with no remote work, no input read and no mark written; a mark failure is the plain "failed to set synced mark"; each kept entry is handled in order under its parent folder; the uploads are in the log, each child of a kept directory goes into that directory's folder, and the root directory lands under the category. A sync that is done met no error visit, even under a skipped name; with the mark absent and creatable, the root set, the category cached, every call answered normally and every entry actionable with the recheck on, the sync is done; a fatal end is the prompt's EOF or a message starting "Failed to upload file '" and the name of a file in the tree |

## Left out

- OAuth, token caching and `main` (uploader.go, the `cmd/` programs) are not part of this model; the Drive service is `Drive.Store`.
- The daemon, the file watcher, config-file reading and the proxy setting are not part of this model.
- The logger, `Verbose` printing and prompt texts are output only; they are not modelled.
- Drive query strings, requested fields and MIME types are not modelled. A list request is represented by the name and parent it asks about.
- MD5 is an uninterpreted function parameter. File contents are byte sequences, and a hash failure is a flag on the file.
- Concurrency is not modelled: uploads run one after another. The goroutines, the `WaitGroup` and the mutexes in `safeMap`/`safeConfig` are left out. So is the race between an upload already in flight and a hashing failure: the model returns the hashing error first, as the code does, and the upload's reply is still consumed.
- `log.Fatalf` inside a file upload aborts the whole process. In the model the walk ends there with `Aborted`, and later entries are not visited.
- RemoteUtils.WithRetry: sleeps are a ghost list of lengths, not real time. The Go `int` product `currentRate*ratio` is unbounded in the model, so its wrap-around after about 63 doublings is not captured.
- RemoteUtils.WithRetry: the reply script is finite and every call past its end succeeds, so every retry loop in the model ends. The source sets no bound on retries (remote/utils.go:227-238, uploader.go:400-409): a persistent 5xx, rate limit or checksum mismatch is retried forever, which the model does not capture. `RemoteUtils.Outcomes` has the same bound.
- Walk.Visit: the exact condition for going on is stated when the parent folder needs no lookup (the parent is in the map, or the root is set and the category cached). After a lookup that resolves a new root or category, the lookup's own success clauses apply, but the two are not joined into one statement.
- RemoteUtils.GetUploadLocation: the outcome is stated whenever every folder is set, cached or found (`Located`), and for a root created after a miss followed by a cached category. When the category is created after a miss, its outcome is stated by `RemoteUtils.CategoryFolder` and `RemoteUtils.FindOrCreate`, and GetUploadLocation does not join that step to the root step in one clause.
- Uploader.GetUploadLocation: the same gap as `RemoteUtils.GetUploadLocation`: a category made after the operator's yes is covered only by `RemoteUtils.CategoryFolder` and `RemoteUtils.FindOrCreate`.
- RemoteSync.UploadAndMark: the outcome is stated whenever every folder is set, cached or found (`RemoteUtils.Located`). When the root or the category is created after a miss, whether the upload then succeeds is not stated; the create's own outcome is stated by `RemoteUtils.FindOrCreate`.
- RemoteSync.SyncDirectory, RemoteSync.SyncFile, Uploader.SyncDirectory: success is promised from a set root, a cached category and a store that answers every call normally. Success after retries, or after the root and category are found by a lookup, is not stated as one end-to-end clause; the per-step clauses say when each step succeeds.
- Drive.Store: a failed reply leaves no folder or file behind. Real Drive can commit a `Files.Create` and still lose the reply (a `net.Error` or a 5xx after the commit), and `retryIfNeeded` retries exactly those errors (remote/utils.go:241-260, uploader.go:412-431). The duplicate folder or file such a retry makes is not captured. So `RemoteUtils.WithRetry`'s clause that a successful `MakeDir` adds exactly one folder, and `RemoteUtils.CreateDirectory`'s one-new-folder clause, hold only under this store; the source already warns that a create made without a prior lookup duplicates a directory (remote/utils.go:122-124, uploader.go:297-299), and a lost reply followed by a retry is another way to get one.
- Job ids are given as parameters, not drawn from `rand`.
- A Drive API error is shown through `%v` as its message in the model; the error's other fields are not modelled.
- Strings.ToLower / Strings.ToUpper map ASCII letters only. Go's Unicode case mapping of other letters is not captured.
- Paths.Clean only drops trailing slashes, and a `ChildPath` of `"."` gives `"./x"`. The core feeds `Clean` walk paths and user paths whose only untidiness is a trailing slash. `.`/`..` elements and doubled slashes are outside this model.
- `filepath.Walk` visits children in lexical order. The model walks the children in the order the tree lists them, and does not follow symlinks.
- Errors carry no id: every error return in the source pairs the error with an empty id, and the model's `Result` simply has no value on the error side.
- The remaining file I/O helpers in `config/` (reading and writing the config file) are not part of this model.
