/**
 * The config package: the runtime ignore set, the documented defaults, the
 * process-wide lookup state (`ArchiveRootID`, `CategoryIDs`) and the
 * goroutine-safe configuration box.
 */
module Config {
  import Utils

  /** Basenames the walker never uploads. */
  const IgnoreList: set<string> := {".DS_Store", ".localized", ".idea", ".git", ".drivesync-lock"}

  const DriveFolderType := "application/vnd.google-apps.folder"
  const RetryRatio := 2
  const RetryStartingRate := 1
  const ArchiveRootName := "archive"
  const Category := "Uncategorized"
  const ForceRecheck := true
  const CreateMissing := false
  /** `Interactive` is a variable whose initial value is false. */
  const Interactive := false

  /** The package-level settings the remote package reads. */
  datatype Flags = Flags(
    archiveRootName: string,
    category: string,
    forceRecheck: bool,
    interactive: bool,
    createMissing: bool,
    retryRatio: int,
    retryStartingRate: int)

  const DefaultFlags := Flags(ArchiveRootName, Category, ForceRecheck, Interactive,
                              CreateMissing, RetryRatio, RetryStartingRate)

  /** The settings of the default flags, one by one. */
  lemma DefaultFlagValues()
    ensures DefaultFlags.retryRatio == 2 && DefaultFlags.retryStartingRate == 1
    ensures DefaultFlags.archiveRootName == "archive" && DefaultFlags.category == "Uncategorized"
    ensures DefaultFlags.forceRecheck && !DefaultFlags.createMissing && !DefaultFlags.interactive
  {
  }

  /** The ignore set holds no mark name: marks are filtered by their prefix instead. */
  lemma IgnoreListHasNoMarkName()
    ensures ".sync_finished" !in IgnoreList
    ensures |IgnoreList| == 5
  {
  }

  /** The configuration record the daemon reads. */
  datatype ConfigRecord = ConfigRecord(
    archiveRootName: string,
    clientSecretPath: string,
    createMissing: bool,
    defaultCategory: string,
    forceRecheck: bool,
    logFile: string,
    pidFile: string,
    proxyURL: string,
    retryRatio: int,
    retryStartingRate: int,
    scanInterval: string,
    target: string,
    useProxy: bool,
    verbose: bool)

  /** The zero value of the record (also what NewConfig returns). */
  const ZeroConfig := ConfigRecord("", "", false, "", false, "", "", "", 0, 0, "", "", false, false)

  /** safeConfig: one record, replaced as a whole by Set. */
  class SafeConfig {
    var v: ConfigRecord

    /** NewSafeConfig: holds the zero record until the first Set. */
    constructor ()
      ensures v == ZeroConfig
    {
      v := ZeroConfig;
    }

    method Get() returns (c: ConfigRecord)
      ensures c == v
    {
      c := v;
    }

    method Set(c: ConfigRecord)
      modifies this
      ensures v == c
    {
      v := c;
    }
  }

  /** Get returns exactly the record given to the most recent Set. */
  method GetAfterSet(box: SafeConfig, first: ConfigRecord, second: ConfigRecord) returns (c: ConfigRecord)
    modifies box
    ensures c == second
  {
    box.Set(first);
    box.Set(second);
    c := box.Get();
  }

  /** Before any Set, Get returns the zero record: empty strings, false and 0. */
  method GetBeforeSet() returns (c: ConfigRecord)
    ensures c.defaultCategory == "" && c.archiveRootName == "" && c.target == ""
    ensures !c.createMissing && !c.forceRecheck && !c.verbose
    ensures c.retryRatio == 0 && c.retryStartingRate == 0
    ensures c.clientSecretPath == "" && c.logFile == "" && c.pidFile == ""
    ensures c.proxyURL == "" && c.scanInterval == "" && !c.useProxy
  {
    var box := new SafeConfig();
    c := box.Get();
  }

  /**
   * The process-wide lookup state: the archive root's id (empty until
   * resolved) and the category cache.
   */
  class Globals {
    var archiveRootID: string
    const categoryIDs: Utils.SafeMap

    constructor ()
      ensures archiveRootID == "" && categoryIDs.v == map[] && fresh(categoryIDs)
    {
      archiveRootID := "";
      categoryIDs := new Utils.SafeMap();
    }
  }
}
