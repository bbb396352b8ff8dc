/**
 * The download operation: its four states, `start`, `cancel`, `cleanup`, the finalize step and
 * the request scheduler, over an abstract disk (path to length), the stage queue of posted
 * runnables and the log of delegate calls.
 *
 * Every method of the class is specified by a transition function on the snapshot of its
 * mutable fields (`StartEffect`, `RunTask`, `FinishEffect`, ...); the object invariant `Inv`
 * is proved about those functions.
 */
module FileLoad {
  import opened Wrappers
  import opened JavaInt
  import opened FileNames
  import opened Chunking

  datatype State = Idle | Downloading | Failed | Finished

  /** A photo's `TL_fileLocation`; `None` stands for null or any other kind of location. */
  datatype FileLocation = FileLocation(volumeId: Int64, localId: Int32, dcId: Int32)

  /**
   * What the document constructor reads from a `TLRPC.Document`. `isTLDocument` says whether it
   * is a `TL_document`; `fileName` is what `FileLoader.getDocumentFileName` returns for it.
   */
  datatype Document = Document(
    isTLDocument: bool, id: Int64, accessHash: Int64, dcId: Int32, size: Int32,
    mimeType: Option<string>, fileName: Option<string>)

  /** The placeholder `RequestInfo` objects the scheduler records. */
  datatype RequestInfo = RequestInfo(dummy: int)

  /** Calls made on the delegate. */
  datatype Event = DidFinishLoadingFile(file: Option<string>) | DidFailedLoadingFile(code: int)

  /**
   * Runnables posted to the stage queue: the failure report of `start`'s error paths (code 0),
   * the continuation after the temp file is opened, the delayed finalize retry, and `cancel`.
   */
  datatype Task = ReportFailure | BeginTransfer | RetryFinish | RunCancel

  /** The fields the operation's methods change, and the environment they act on. */
  datatype Snapshot = Snapshot(
    state: State,
    downloadedBytes: Int32,
    nextDownloadOffset: Int32,
    chunkSize: int,
    maxRequests: int,
    requestInfos: seq<RequestInfo>,
    delayedRequestInfos: seq<RequestInfo>,
    renameRetryCount: nat,
    renameAttempts: nat,
    cacheFileTemp: Option<string>,
    cacheFileFinal: Option<string>,
    outputOpen: bool,
    disk: map<string, nat>,
    queue: seq<Task>,
    events: seq<Event>)

  /** The fields fixed by the constructors and the setters. */
  datatype Config = Config(
    location: Option<InputFileLocation>,
    datacenterId: Int32,
    totalBytesCount: Int32,
    ext: string,
    storePath: string,
    tempPath: string,
    isForceRequest: bool)

  /** `new File(dir, name)`, as a path. */
  function Join(dir: string, name: string): string {
    dir + "/" + name
  }

  function Dummies(n: nat): (r: seq<RequestInfo>)
    ensures |r| == n
  {
    seq(n, _ => RequestInfo(0))
  }

  /** `renameTo` that succeeds: the file at `from` is now at `to`, with its length. */
  function Moved(disk: map<string, nat>, from: string, to: string): (r: map<string, nat>)
    requires from in disk
    ensures to in r && r[to] == disk[from]
    ensures from != to ==> from !in r
  {
    (disk - {from})[to := disk[from]]
  }

  /** A rename touches no other file. */
  lemma MovedLeavesOthers(disk: map<string, nat>, from: string, to: string, p: string)
    requires from in disk && p != from && p != to
    ensures p in Moved(disk, from, to) <==> p in disk
    ensures p in disk ==> Moved(disk, from, to)[p] == disk[p]
  {
  }

  function FinishCount(log: seq<Event>): nat {
    if log == [] then 0
    else FinishCount(log[..|log| - 1]) + (if log[|log| - 1].DidFinishLoadingFile? then 1 else 0)
  }

  function FailCount(log: seq<Event>, code: int): nat {
    multiset(log)[DidFailedLoadingFile(code)]
  }

  // ---------------------------------------------------------------------------
  // The object invariant

  predicate SchedulerInv(s: Snapshot, c: Config) {
    && s.delayedRequestInfos == []
    && if s.chunkSize == 0 then
         && s.maxRequests == 0 && s.downloadedBytes == 0 && s.nextDownloadOffset == 0
         && s.requestInfos == [] && (s.state == Idle || s.state == Failed)
       else
         && Policy(s.chunkSize, s.maxRequests) == ChunkPolicy(c.totalBytesCount)
         && s.state != Idle
         && s.nextDownloadOffset % s.chunkSize == 0
         && s.downloadedBytes % s.chunkSize == 0
         && |s.requestInfos| + |s.delayedRequestInfos| <= s.maxRequests
  }

  predicate RenameInv(s: Snapshot) {
    && (s.cacheFileTemp.Some? ==> s.cacheFileFinal.Some?)
    && s.renameRetryCount <= 3
    && (s.renameRetryCount == 3 ==> s.state == Finished)
    && (s.renameAttempts == s.renameRetryCount
        || (s.renameAttempts == s.renameRetryCount + 1 && s.renameRetryCount < 3 && s.state == Finished))
  }

  predicate NotificationInv(s: Snapshot) {
    && (s.state == Idle ==>
          && s.events == [] && s.cacheFileTemp.None? && s.cacheFileFinal.None?
          && s.renameRetryCount == 0 && s.renameAttempts == 0
          && BeginTransfer !in s.queue && RetryFinish !in s.queue && ReportFailure !in s.queue)
    && (forall i :: 0 <= i < |s.events| ==>
          s.events[i].DidFinishLoadingFile? || s.events[i].code == 0 || s.events[i].code == 1)
    && FinishCount(s.events) <= 1
    && (s.state == Finished <==> FinishCount(s.events) == 1)
    && FailCount(s.events, 1) <= 1
    && (FailCount(s.events, 1) > 0 ==> s.state == Failed)
    && multiset(s.queue)[ReportFailure] + FailCount(s.events, 0) <= 1
    && (s.state == Failed ==> FailCount(s.events, 0) + FailCount(s.events, 1) > 0 || ReportFailure in s.queue)
    && (ReportFailure in s.queue || FailCount(s.events, 0) > 0 ==>
          (s.state == Downloading || s.state == Failed)
          && BeginTransfer !in s.queue && RetryFinish !in s.queue)
  }

  predicate Inv(s: Snapshot, c: Config) {
    SchedulerInv(s, c) && RenameInv(s) && NotificationInv(s)
  }

  // ---------------------------------------------------------------------------
  // Transitions

  /** `cleanup`: the file handle is closed and the delayed requests are dropped. */
  function Cleaned(s: Snapshot): Snapshot {
    s.(outputOpen := false, delayedRequestInfos := [])
  }

  /** `startDownloadRequest`. */
  function ScheduleEffect(s: Snapshot, c: Config): Snapshot {
    var r := Schedule(s.state == Downloading, c.totalBytesCount, s.nextDownloadOffset, s.chunkSize,
                      |s.requestInfos| + |s.delayedRequestInfos|, s.maxRequests);
    s.(requestInfos := s.requestInfos + Dummies(r.added), nextDownloadOffset := r.offset)
  }

  /**
   * `onFinishLoadingFile`, with `renameOk` the outcome the file system gives `renameTo` (which
   * also fails when the temp file is missing).
   */
  function FinishEffect(s: Snapshot, renameOk: bool): Snapshot
    requires s.cacheFileTemp.Some? ==> s.cacheFileFinal.Some?
  {
    if s.state != Downloading then s
    else
      var closed := Cleaned(s).(state := Finished);
      if s.cacheFileTemp.None? then Reported(closed) else RenameEffect(closed, renameOk)
  }

  /** `didFinishLoadingFile(cacheFileFinal)`. */
  function Reported(s: Snapshot): Snapshot {
    s.(events := s.events + [DidFinishLoadingFile(s.cacheFileFinal)])
  }

  /**
   * The rename attempt of `onFinishLoadingFile`: success reports the final file; a failure posts
   * a retry while fewer than three attempts have failed, and otherwise reports the temp file.
   */
  function RenameEffect(s: Snapshot, renameOk: bool): Snapshot
    requires s.cacheFileTemp.Some? && s.cacheFileFinal.Some?
  {
    var temp := s.cacheFileTemp.value;
    var tried := s.(renameAttempts := s.renameAttempts + 1);
    if renameOk && temp in s.disk then Reported(tried.(disk := Moved(s.disk, temp, s.cacheFileFinal.value)))
    else
      var failed := tried.(renameRetryCount := s.renameRetryCount + 1);
      if failed.renameRetryCount < 3 then failed.(state := Downloading, queue := s.queue + [RetryFinish])
      else Reported(failed.(cacheFileFinal := Some(temp)))
  }

  /** The body of the runnable `cancel` posts. */
  function CancelEffect(s: Snapshot): Snapshot {
    if s.state == Finished || s.state == Failed then s
    else Cleaned(s).(state := Failed, events := s.events + [DidFailedLoadingFile(1)])
  }

  /** The names `start` derives, or `None` when the location is missing or rejected. */
  function StartNames(c: Config): Option<Names> {
    if c.location.None? then None
    else match ResolveNames(c.location.value, c.datacenterId, c.ext)
      case Err(_) => None
      case Ok(names) => Some(names)
  }

  /** `start` from Idle: the chunk policy is chosen, the request lists are fresh, the state is Downloading. */
  function Started(s: Snapshot, c: Config): Snapshot {
    var p := ChunkPolicy(c.totalBytesCount);
    s.(chunkSize := p.chunkSize, maxRequests := p.maxRequests,
       requestInfos := [], delayedRequestInfos := [], state := Downloading)
  }

  /** An error path of `start`: cleanup, then a failure report (code 0) is posted. The state stays as it is. */
  function StartFailed(s: Snapshot): Snapshot {
    Cleaned(s).(queue := s.queue + [ReportFailure])
  }

  /**
   * `start` once the names are known: a final file of the wrong length is deleted (when `delete`
   * succeeds); a final file that remains is finalized at once; otherwise the download resumes from
   * the temp file.
   */
  function PlaceFiles(s: Snapshot, c: Config, names: Names, deleteOk: bool, openOk: bool): Snapshot
    requires s.cacheFileTemp.None?
    requires s.chunkSize == DOWNLOAD_CHUNK_SIZE || s.chunkSize == DOWNLOAD_CHUNK_SIZE_BIG
  {
    var final := Join(c.storePath, names.final);
    var disk1 :=
      if deleteOk && final in s.disk && c.totalBytesCount != 0 && c.totalBytesCount != s.disk[final]
      then s.disk - {final} else s.disk;
    var s2 := s.(cacheFileFinal := Some(final), disk := disk1);
    if final in disk1 then FinishEffect(s2, false)
    else OpenTemp(s2, Join(c.tempPath, names.temp), openOk)
  }

  /**
   * `start` with no final file: an existing temp file sets both cursors to its length rounded
   * down to a chunk; the temp file is opened (created when missing) and the continuation is posted.
   */
  function OpenTemp(s: Snapshot, temp: string, openOk: bool): Snapshot
    requires s.chunkSize == DOWNLOAD_CHUNK_SIZE || s.chunkSize == DOWNLOAD_CHUNK_SIZE_BIG
  {
    var s3 := ResumeFrom(s, temp);
    if !openOk then StartFailed(s3)
    else s3.(outputOpen := true,
             disk := s.disk[temp := if temp in s.disk then s.disk[temp] else 0],
             queue := s.queue + [BeginTransfer])
  }

  /** The temp file is chosen; when it exists, both cursors move to its length rounded down to a chunk. */
  function ResumeFrom(s: Snapshot, temp: string): Snapshot
    requires s.chunkSize == DOWNLOAD_CHUNK_SIZE || s.chunkSize == DOWNLOAD_CHUNK_SIZE_BIG
  {
    if temp in s.disk then
      var resume := ResumeOffset(s.disk[temp], s.chunkSize);
      s.(cacheFileTemp := Some(temp), downloadedBytes := resume, nextDownloadOffset := resume)
    else s.(cacheFileTemp := Some(temp))
  }

  /** `start`, with `deleteOk` the outcome of deleting a wrong-length final file and `openOk` that of opening the temp file. */
  function StartEffect(s: Snapshot, c: Config, deleteOk: bool, openOk: bool): Snapshot
    requires s.state == Idle ==> s.cacheFileTemp.None?
  {
    if s.state != Idle then s
    else match StartNames(c)
      case None => StartFailed(Started(s, c))
      case Some(names) => PlaceFiles(Started(s, c), c, names, deleteOk, openOk)
  }

  /** What running the posted runnable `t` does. */
  function TaskEffect(t: Task, s: Snapshot, c: Config, renameOk: bool): Snapshot
    requires s.cacheFileTemp.Some? ==> s.cacheFileFinal.Some?
  {
    match t
    case ReportFailure => s.(events := s.events + [DidFailedLoadingFile(0)])
    case RunCancel => CancelEffect(s)
    case BeginTransfer =>
      if c.totalBytesCount != 0 && s.downloadedBytes == c.totalBytesCount then FinishEffect(s, renameOk)
      else ScheduleEffect(s, c)
    case RetryFinish => FinishEffect(s, renameOk)
  }

  /** The stage queue takes its first runnable and runs it. */
  function RunTask(s: Snapshot, c: Config, renameOk: bool): Snapshot
    requires s.queue != []
    requires s.cacheFileTemp.Some? ==> s.cacheFileFinal.Some?
  {
    TaskEffect(s.queue[0], s.(queue := s.queue[1..]), c, renameOk)
  }

  // ---------------------------------------------------------------------------
  // The invariant is kept by every transition

  lemma FinishCountAppend(log: seq<Event>, e: Event)
    ensures FinishCount(log + [e]) == FinishCount(log) + (if e.DidFinishLoadingFile? then 1 else 0)
  {
    assert (log + [e])[..|log|] == log;
  }

  lemma DummiesAppend(n: nat)
    ensures Dummies(n) + [RequestInfo(0)] == Dummies(n + 1)
  {
  }

  lemma SchedulePreservesInv(s: Snapshot, c: Config)
    requires Inv(s, c)
    ensures Inv(ScheduleEffect(s, c), c)
  {
    var pending := |s.requestInfos| + |s.delayedRequestInfos|;
    if s.chunkSize != 0 {
      ScheduleAligned(s.state == Downloading, c.totalBytesCount, s.nextDownloadOffset, s.chunkSize, pending, s.maxRequests);
    }
  }

  lemma FinishPreservesInv(s: Snapshot, c: Config, renameOk: bool)
    requires Inv(s, c)
    requires s.state == Downloading ==> ReportFailure !in s.queue && FailCount(s.events, 0) == 0
    ensures Inv(FinishEffect(s, renameOk), c)
  {
    if s.state == Downloading {
      var r := FinishEffect(s, renameOk);
      if s.cacheFileTemp.Some? && !(renameOk && s.cacheFileTemp.value in s.disk) && s.renameRetryCount + 1 < 3 {
        assert r.events == s.events;
      } else {
        var file := r.cacheFileFinal;
        assert r.events == s.events + [DidFinishLoadingFile(file)];
        FinishCountAppend(s.events, DidFinishLoadingFile(file));
        assert multiset(r.events) == multiset(s.events) + multiset{DidFinishLoadingFile(file)};
      }
    }
  }

  lemma CancelPreservesInv(s: Snapshot, c: Config)
    requires Inv(s, c)
    ensures Inv(CancelEffect(s), c)
  {
    FinishCountAppend(s.events, DidFailedLoadingFile(1));
  }

  lemma StartPreservesInv(s: Snapshot, c: Config, deleteOk: bool, openOk: bool, s': Snapshot)
    requires Inv(s, c)
    requires s' == StartEffect(s, c, deleteOk, openOk)
    ensures Inv(s', c)
  {
    if s.state == Idle && StartNames(c).Some? {
      var names := StartNames(c).value;
      var s1 := Started(s, c);
      var final := Join(c.storePath, names.final);
      var disk1 :=
        if deleteOk && final in s1.disk && c.totalBytesCount != 0 && c.totalBytesCount != s1.disk[final]
        then s1.disk - {final} else s1.disk;
      var s2 := s1.(cacheFileFinal := Some(final), disk := disk1);
      assert Inv(s2, c);
      if final in disk1 {
        FinishPreservesInv(s2, c, false);
      } else {
        OpenTempPreservesInv(s2, c, Join(c.tempPath, names.temp), openOk, s');
      }
    }
  }

  lemma OpenTempPreservesInv(s: Snapshot, c: Config, temp: string, openOk: bool, s': Snapshot)
    requires Inv(s, c) && s.state == Downloading && s.cacheFileFinal.Some? && s.events == []
    requires s.chunkSize == DOWNLOAD_CHUNK_SIZE || s.chunkSize == DOWNLOAD_CHUNK_SIZE_BIG
    requires BeginTransfer !in s.queue && RetryFinish !in s.queue && ReportFailure !in s.queue
    requires s' == OpenTemp(s, temp, openOk)
    ensures Inv(s', c)
  {
  }

  /** Taking a runnable other than a failure report off the queue keeps the invariant. */
  lemma PopPreservesInv(s: Snapshot, c: Config)
    requires Inv(s, c) && s.queue != [] && s.queue[0] != ReportFailure
    ensures Inv(s.(queue := s.queue[1..]), c)
  {
    assert s.queue == [s.queue[0]] + s.queue[1..];
    assert multiset(s.queue) == multiset{s.queue[0]} + multiset(s.queue[1..]);
  }

  /** Running a queued failure report moves the report from the queue to the log. */
  lemma ReportPreservesInv(s: Snapshot, c: Config)
    requires Inv(s, c) && s.queue != [] && s.queue[0] == ReportFailure
    ensures Inv(s.(queue := s.queue[1..], events := s.events + [DidFailedLoadingFile(0)]), c)
  {
    assert s.queue == [s.queue[0]] + s.queue[1..];
    assert multiset(s.queue) == multiset{s.queue[0]} + multiset(s.queue[1..]);
    FinishCountAppend(s.events, DidFailedLoadingFile(0));
  }

  lemma RunTaskPreservesInv(s: Snapshot, c: Config, renameOk: bool, s': Snapshot)
    requires Inv(s, c) && s.queue != []
    requires s' == RunTask(s, c, renameOk)
    ensures Inv(s', c)
  {
    var rest := s.(queue := s.queue[1..]);
    match s.queue[0]
    case ReportFailure =>
      ReportPreservesInv(s, c);
    case RunCancel =>
      PopPreservesInv(s, c);
      CancelPreservesInv(rest, c);
    case BeginTransfer =>
      PopPreservesInv(s, c);
      if c.totalBytesCount != 0 && s.downloadedBytes == c.totalBytesCount {
        FinishPreservesInv(rest, c, renameOk);
      } else {
        SchedulePreservesInv(rest, c);
      }
    case RetryFinish =>
      PopPreservesInv(s, c);
      FinishPreservesInv(rest, c, renameOk);
  }

  // ---------------------------------------------------------------------------
  // What the invariant says about the delegate and the rename retries

  lemma {:induction false} EventsAreCounted(log: seq<Event>)
    requires forall i :: 0 <= i < |log| ==> log[i].DidFinishLoadingFile? || log[i].code == 0 || log[i].code == 1
    ensures |log| == FinishCount(log) + FailCount(log, 0) + FailCount(log, 1)
  {
    if log != [] {
      var init := log[..|log| - 1];
      assert log == init + [log[|log| - 1]];
      EventsAreCounted(init);
    }
  }

  /**
   * In any reachable state the delegate has been called at most twice; success is reported at
   * most once and, when it is, it is the only call; cancellation (code 1) is reported at most once.
   * A failed operation has told the delegate, or has the failure report queued.
   */
  lemma NotificationBounds(s: Snapshot, c: Config)
    requires Inv(s, c)
    ensures |s.events| <= 2
    ensures FinishCount(s.events) <= 1 && FailCount(s.events, 0) <= 1 && FailCount(s.events, 1) <= 1
    ensures FinishCount(s.events) == 1 ==> |s.events| == 1
    ensures s.state == Finished <==> FinishCount(s.events) == 1
    ensures s.state == Failed ==> FailCount(s.events, 0) + FailCount(s.events, 1) > 0 || ReportFailure in s.queue
    ensures s.state == Failed ==> |s.events| > 0 || ReportFailure in s.queue
  {
    EventsAreCounted(s.events);
  }

  /** `renameTo` is attempted at most three times, and after three failures the operation is finished. */
  lemma RenameAttemptsBounded(s: Snapshot, c: Config)
    requires Inv(s, c)
    ensures s.renameAttempts <= 3
    ensures s.renameRetryCount == 3 ==> s.state == Finished
  {
  }

  /**
   * Three failed renames in a row: the first two put the operation back to Downloading with a
   * retry posted; the third makes the temp file the final file and still reports success.
   */
  lemma ThirdRenameFailureReportsTempFile(s: Snapshot, c: Config)
    requires Inv(s, c) && s.state == Downloading && s.renameRetryCount == 0
    requires s.cacheFileTemp.Some? && s.queue == []
    ensures var s1 := FinishEffect(s, false);
      s1.state == Downloading && s1.queue == [RetryFinish] &&
      var s2 := RunTask(s1, c, false);
      s2.state == Downloading && s2.queue == [RetryFinish] &&
      var s3 := RunTask(s2, c, false);
      s3.state == Finished && s3.queue == [] && s3.renameAttempts == 3 &&
      s3.cacheFileFinal == s.cacheFileTemp &&
      s3.events == s.events + [DidFinishLoadingFile(s.cacheFileTemp)]
  {
    var s1 := FinishEffect(s, false);
    assert s1.queue[1..] == [];
    var s2 := RunTask(s1, c, false);
    assert s2.queue[1..] == [];
  }

  /** Once the operation is finished or failed, running a posted cancel changes nothing but the queue. */
  lemma CancelAfterTerminalIsNoOp(s: Snapshot, c: Config)
    requires s.queue != [] && s.queue[0] == RunCancel
    requires s.state == Finished || s.state == Failed
    requires s.cacheFileTemp.Some? ==> s.cacheFileFinal.Some?
    ensures RunTask(s, c, false) == s.(queue := s.queue[1..])
    ensures RunTask(s, c, false).events == s.events
  {
  }

  /** A posted cancel on a live operation fails it and reports code 1, nothing else. */
  lemma CancelFailsLiveOperation(s: Snapshot)
    requires s.state == Idle || s.state == Downloading
    ensures var r := CancelEffect(s);
      r.state == Failed && r.events == s.events + [DidFailedLoadingFile(1)] &&
      !r.outputOpen && r.delayedRequestInfos == [] && r.queue == s.queue && r.disk == s.disk
  {
  }

  /** `onFinishLoadingFile` does nothing unless the operation is downloading. */
  lemma FinishOnlyWhenDownloading(s: Snapshot, renameOk: bool)
    requires s.cacheFileTemp.Some? ==> s.cacheFileFinal.Some?
    ensures s.state != Downloading ==> FinishEffect(s, renameOk) == s
    ensures s.state == Downloading && s.cacheFileTemp.Some? && renameOk && s.cacheFileTemp.value in s.disk ==>
      var r := FinishEffect(s, renameOk);
      r.state == Finished && s.cacheFileFinal.value in r.disk &&
      r.disk[s.cacheFileFinal.value] == s.disk[s.cacheFileTemp.value] &&
      r.events == s.events + [DidFinishLoadingFile(s.cacheFileFinal)]
  {
  }

  // ---------------------------------------------------------------------------
  // What `start` does

  /** `start` does nothing unless the operation is idle; from Idle it picks the chunk policy and leaves Idle. */
  lemma StartChoosesPolicy(s: Snapshot, c: Config, deleteOk: bool, openOk: bool)
    requires s.state == Idle ==> s.cacheFileTemp.None?
    ensures s.state != Idle ==> StartEffect(s, c, deleteOk, openOk) == s
    ensures s.state == Idle ==>
      var r := StartEffect(s, c, deleteOk, openOk);
      Policy(r.chunkSize, r.maxRequests) == ChunkPolicy(c.totalBytesCount) && r.state != Idle
  {
    if s.state == Idle && StartNames(c).Some? {
      var s1 := Started(s, c);
      var names := StartNames(c).value;
      var final := Join(c.storePath, names.final);
      var disk1 :=
        if deleteOk && final in s1.disk && c.totalBytesCount != 0 && c.totalBytesCount != s1.disk[final]
        then s1.disk - {final} else s1.disk;
      var s2 := s1.(cacheFileFinal := Some(final), disk := disk1);
      assert StartEffect(s, c, deleteOk, openOk) == PlaceFiles(s1, c, names, deleteOk, openOk);
      if final in disk1 {
        assert PlaceFiles(s1, c, names, deleteOk, openOk) == FinishEffect(s2, false);
      } else {
        assert PlaceFiles(s1, c, names, deleteOk, openOk) == OpenTemp(s2, Join(c.tempPath, names.temp), openOk);
      }
    }
  }

  /**
   * A missing or rejected location: `start` posts a failure report (code 0) and changes nothing
   * else but the policy fields; the state stays Downloading.
   */
  lemma StartFailsWithoutNames(s: Snapshot, c: Config, deleteOk: bool, openOk: bool)
    requires s.state == Idle && s.cacheFileTemp.None?
    ensures StartNames(c).None? <==>
      c.location.None? || ResolveNames(c.location.value, c.datacenterId, c.ext).Err?
    ensures StartNames(c).None? ==>
      var r := StartEffect(s, c, deleteOk, openOk);
      r.state == Downloading && r.queue == s.queue + [ReportFailure] && r.events == s.events &&
      r.disk == s.disk && r.cacheFileTemp.None? && r.cacheFileFinal == s.cacheFileFinal
  {
  }

  /**
   * A final file that is present is reported at once when its length is right, when the total is
   * unknown, or when deleting it fails: in that last case a file of the wrong length is reported.
   */
  lemma StartFinishesOnExistingFile(s: Snapshot, c: Config, deleteOk: bool, openOk: bool)
    requires s.state == Idle && s.cacheFileTemp.None?
    requires StartNames(c).Some?
    requires var final := Join(c.storePath, StartNames(c).value.final);
      final in s.disk && (c.totalBytesCount == 0 || c.totalBytesCount == s.disk[final] || !deleteOk)
    ensures var r := StartEffect(s, c, deleteOk, openOk);
      var final := Join(c.storePath, StartNames(c).value.final);
      r.state == Finished && r.events == s.events + [DidFinishLoadingFile(Some(final))] &&
      r.requestInfos == [] && r.queue == s.queue && r.disk == s.disk && r.cacheFileTemp.None?
  {
  }

  /**
   * Otherwise the final file is gone (deleted when its length is wrong), the temp file is chosen and the
   * cursors resume from it, and the continuation (or, when opening fails, a failure report) is posted.
   */
  lemma StartBeginsDownload(s: Snapshot, c: Config, deleteOk: bool, openOk: bool)
    requires s.state == Idle && s.cacheFileTemp.None?
    requires StartNames(c).Some?
    requires var final := Join(c.storePath, StartNames(c).value.final);
      !(final in s.disk && (c.totalBytesCount == 0 || c.totalBytesCount == s.disk[final] || !deleteOk))
    ensures var r := StartEffect(s, c, deleteOk, openOk);
      var names := StartNames(c).value;
      var final, temp := Join(c.storePath, names.final), Join(c.tempPath, names.temp);
      && r.state == Downloading && r.events == s.events && r.requestInfos == []
      && r.cacheFileFinal == Some(final) && r.cacheFileTemp == Some(temp)
      && (final != temp ==> final !in r.disk)
      && (temp in s.disk && temp != final ==>
            r.downloadedBytes == r.nextDownloadOffset == ResumeOffset(s.disk[temp], r.chunkSize))
      && (openOk ==> r.outputOpen && temp in r.disk && r.queue == s.queue + [BeginTransfer])
      && (!openOk ==> !r.outputOpen && r.queue == s.queue + [ReportFailure])
  {
  }

  /** The state of a newly constructed operation over the files `files`. */
  function Fresh(files: map<string, nat>): Snapshot {
    Snapshot(Idle, 0, 0, 0, 0, [], [], 0, 0, None, None, false, files, [], [])
  }

  /** A freshly constructed operation, and one whose document constructor failed, satisfy the invariant. */
  lemma ConstructedInv(files: map<string, nat>, c: Config)
    ensures Inv(Fresh(files), c)
    ensures Inv(Fresh(files).(state := Failed, queue := [ReportFailure]), c)
  {
  }

  // ---------------------------------------------------------------------------
  // The operation object

  class FileLoadOperation {
    const datacenterId: Int32
    const location: Option<InputFileLocation>
    var state: State
    var downloadedBytes: Int32
    const totalBytesCount: Int32
    var currentDownloadChunkSize: int
    var currentMaxDownloadRequests: int
    var renameRetryCount: nat
    var nextDownloadOffset: Int32
    var requestInfos: seq<RequestInfo>
    var delayedRequestInfos: seq<RequestInfo>
    var cacheFileTemp: Option<string>
    var cacheFileFinal: Option<string>
    const ext: string
    /** Whether `fileOutputStream` is open. */
    var outputOpen: bool
    var storePath: string
    var tempPath: string
    var isForceRequest: bool

    /** The file system: path to length. */
    var disk: map<string, nat>
    /** `Utilities.stageQueue`: posted runnables, run in order by `RunNextTask`. */
    var queue: seq<Task>
    /** The calls made on the delegate, in order. */
    var events: seq<Event>
    /** How many times `renameTo` has been called. */
    ghost var renameAttempts: nat

    ghost function Snap(): Snapshot
      reads this
    {
      Snapshot(state, downloadedBytes, nextDownloadOffset, currentDownloadChunkSize,
               currentMaxDownloadRequests, requestInfos, delayedRequestInfos, renameRetryCount,
               renameAttempts, cacheFileTemp, cacheFileFinal, outputOpen, disk, queue, events)
    }

    function Conf(): Config
      reads this
    {
      Config(location, datacenterId, totalBytesCount, ext, storePath, tempPath, isForceRequest)
    }

    ghost predicate Valid()
      reads this
    {
      Inv(Snap(), Conf())
    }

    /** The photo constructor, over a disk whose files are given by `files`. */
    constructor FromPhoto(photo: Option<FileLocation>, extension: Option<string>, size: Int32, files: map<string, nat>)
      ensures Valid()
      ensures Conf() == Config(
        if photo.Some? then Some(InputFileLocation(photo.value.volumeId, photo.value.localId, 0, 0)) else None,
        if photo.Some? then photo.value.dcId else 0,
        size, PhotoExtension(extension), "", "", false)
      ensures Snap() == Fresh(files)
    {
      if photo.Some? {
        location := Some(InputFileLocation(photo.value.volumeId, photo.value.localId, 0, 0));
        datacenterId := photo.value.dcId;
      } else {
        location := None;
        datacenterId := 0;
      }
      totalBytesCount := size;
      ext := PhotoExtension(extension);
      state := Idle;
      downloadedBytes, nextDownloadOffset := 0, 0;
      currentDownloadChunkSize, currentMaxDownloadRequests := 0, 0;
      renameRetryCount := 0;
      renameAttempts := 0;
      requestInfos, delayedRequestInfos := [], [];
      cacheFileTemp, cacheFileFinal := None, None;
      outputOpen := false;
      storePath, tempPath := "", "";
      isForceRequest := false;
      disk, queue, events := files, [], [];
      new;
      ConstructedInv(files, Conf());
    }

    /**
     * The document constructor. A null document makes the constructor's own exception handler
     * run: the operation is failed at once and a failure report (code 0) is posted.
     */
    constructor FromDocument(document: Option<Document>, files: map<string, nat>)
      ensures Valid()
      ensures document.Some? ==> Conf() == Config(
        if document.value.isTLDocument then Some(InputFileLocation(0, 0, document.value.id, document.value.accessHash)) else None,
        if document.value.isTLDocument then document.value.dcId else 0,
        document.value.size,
        DocumentExtension(document.value.fileName, document.value.mimeType), "", "", false)
      ensures document.Some? ==> Snap() == Fresh(files)
      ensures document.None? ==> Conf() == Config(None, 0, 0, "", "", "", false)
      ensures document.None? ==> Snap() == Fresh(files).(state := Failed, queue := [ReportFailure])
    {
      match document {
        case Some(d) =>
          location := if d.isTLDocument then Some(InputFileLocation(0, 0, d.id, d.accessHash)) else None;
          datacenterId := if d.isTLDocument then d.dcId else 0;
          totalBytesCount := d.size;
          ext := DocumentExtension(d.fileName, d.mimeType);
        case None =>
          location, datacenterId, totalBytesCount, ext := None, 0, 0, "";
      }
      state := Idle;
      downloadedBytes, nextDownloadOffset := 0, 0;
      currentDownloadChunkSize, currentMaxDownloadRequests := 0, 0;
      renameRetryCount := 0;
      renameAttempts := 0;
      requestInfos, delayedRequestInfos := [], [];
      cacheFileTemp, cacheFileFinal := None, None;
      outputOpen := false;
      storePath, tempPath := "", "";
      isForceRequest := false;
      disk, queue, events := files, [], [];
      new;
      if document.None? {
        state := Failed;
        Cleanup();
        queue := queue + [ReportFailure];
      }
      ConstructedInv(files, Conf());
    }

    method SetForceRequest(forceRequest: bool)
      modifies this
      ensures Conf() == old(Conf()).(isForceRequest := forceRequest)
      ensures Snap() == old(Snap())
    {
      isForceRequest := forceRequest;
    }

    method IsForceRequest() returns (forceRequest: bool)
      ensures forceRequest == isForceRequest
    {
      forceRequest := isForceRequest;
    }

    method SetPaths(store: string, temp: string)
      requires Valid()
      modifies this
      ensures Valid()
      ensures Conf() == old(Conf()).(storePath := store, tempPath := temp)
      ensures Snap() == old(Snap())
    {
      storePath, tempPath := store, temp;
    }

    /** `start`; `deleteOk` is whether `delete` removes a wrong-length final file, `openOk` whether the temp file can be opened for writing. */
    method Start(deleteOk: bool, openOk: bool)
      requires Valid()
      modifies this
      ensures Valid()
      ensures Conf() == old(Conf())
      ensures Snap() == StartEffect(old(Snap()), old(Conf()), deleteOk, openOk)
    {
      ghost var s0, c0 := Snap(), Conf();
      StartSteps(deleteOk, openOk);
      assert Conf() == c0;
      StartPreservesInv(s0, c0, deleteOk, openOk, Snap());
    }

    /** The statements of `start`, specified without the object invariant. */
    method StartSteps(deleteOk: bool, openOk: bool)
      requires state == Idle ==> cacheFileTemp.None?
      modifies this`state, this`downloadedBytes, this`nextDownloadOffset, this`currentDownloadChunkSize, this`currentMaxDownloadRequests, this`requestInfos, this`delayedRequestInfos, this`renameRetryCount, this`renameAttempts, this`cacheFileTemp, this`cacheFileFinal, this`outputOpen, this`disk, this`queue, this`events
      ensures Snap() == StartEffect(old(Snap()), old(Conf()), deleteOk, openOk)
    {
      if state == Idle {
        Begin();
        var names := if location.None? then Err(()) else ResolveNames(location.value, datacenterId, ext);
        if names.Err? {
          FailStart();
        } else {
          PlaceFilesSteps(names.value, deleteOk, openOk);
        }
      }
    }

    /** The opening of `start` from Idle: the chunk policy, fresh request lists, state Downloading. */
    method Begin()
      modifies this`currentDownloadChunkSize, this`currentMaxDownloadRequests, this`requestInfos, this`delayedRequestInfos, this`state
      ensures Snap() == Started(old(Snap()), Conf())
    {
      var policy := ChunkPolicy(totalBytesCount);
      currentDownloadChunkSize := policy.chunkSize;
      currentMaxDownloadRequests := policy.maxRequests;
      requestInfos := [];
      delayedRequestInfos := [];
      state := Downloading;
    }

    /** An error path of `start`: cleanup, then the failure report is posted. */
    method FailStart()
      modifies this`outputOpen, this`delayedRequestInfos, this`queue
      ensures Snap() == StartFailed(old(Snap()))
    {
      Cleanup();
      queue := queue + [ReportFailure];
    }

    /** The part of `start` that runs once the file names are known. */
    method PlaceFilesSteps(names: Names, deleteOk: bool, openOk: bool)
      requires cacheFileTemp.None?
      requires currentDownloadChunkSize == DOWNLOAD_CHUNK_SIZE || currentDownloadChunkSize == DOWNLOAD_CHUNK_SIZE_BIG
      modifies this`state, this`downloadedBytes, this`nextDownloadOffset, this`delayedRequestInfos, this`renameRetryCount, this`renameAttempts, this`cacheFileTemp, this`cacheFileFinal, this`outputOpen, this`disk, this`queue, this`events
      ensures Snap() == PlaceFiles(old(Snap()), old(Conf()), names, deleteOk, openOk)
    {
      var finalFile := Join(storePath, names.final);
      cacheFileFinal := Some(finalFile);
      if finalFile in disk && totalBytesCount != 0 && totalBytesCount != disk[finalFile] {
        if deleteOk {
          disk := disk - {finalFile};
        }
      }
      if finalFile !in disk {
        OpenTempSteps(Join(tempPath, names.temp), openOk);
      } else {
        OnFinishLoadingFile(false);
      }
    }

    /** The part of `start` that resumes from the temp file and opens it. */
    method OpenTempSteps(tempFile: string, openOk: bool)
      requires currentDownloadChunkSize == DOWNLOAD_CHUNK_SIZE || currentDownloadChunkSize == DOWNLOAD_CHUNK_SIZE_BIG
      modifies this`cacheFileTemp, this`downloadedBytes, this`nextDownloadOffset, this`disk, this`outputOpen, this`delayedRequestInfos, this`queue
      ensures Snap() == OpenTemp(old(Snap()), tempFile, openOk)
    {
      ghost var s0 := Snap();
      cacheFileTemp := Some(tempFile);
      if tempFile in disk {
        downloadedBytes := ResumeOffset(disk[tempFile], currentDownloadChunkSize);
        nextDownloadOffset := downloadedBytes;
      }
      assert Snap() == ResumeFrom(s0, tempFile);
      if openOk {
        disk := disk[tempFile := if tempFile in disk then disk[tempFile] else 0];
        outputOpen := true;
        queue := queue + [BeginTransfer];
      } else {
        FailStart();
      }
    }

    /** `cancel` posts its work to the stage queue. */
    method Cancel()
      requires Valid()
      modifies this
      ensures Valid()
      ensures Conf() == old(Conf())
      ensures Snap() == old(Snap()).(queue := old(queue) + [RunCancel])
    {
      queue := queue + [RunCancel];
    }

    /** The stage queue runs the first posted runnable; `renameOk` is the outcome of a rename in it. */
    method RunNextTask(renameOk: bool)
      requires Valid() && queue != []
      modifies this
      ensures Valid()
      ensures Conf() == old(Conf())
      ensures Snap() == RunTask(old(Snap()), old(Conf()), renameOk)
    {
      ghost var s0, c0 := Snap(), Conf();
      var task := queue[0];
      queue := queue[1..];
      Run(task, renameOk);
      assert Conf() == c0;
      RunTaskPreservesInv(s0, c0, renameOk, Snap());
    }

    /** The bodies of the posted runnables. */
    method Run(task: Task, renameOk: bool)
      requires cacheFileTemp.Some? ==> cacheFileFinal.Some?
      modifies this`state, this`nextDownloadOffset, this`requestInfos, this`delayedRequestInfos, this`renameRetryCount, this`renameAttempts, this`cacheFileFinal, this`outputOpen, this`disk, this`queue, this`events
      ensures Snap() == TaskEffect(task, old(Snap()), old(Conf()), renameOk)
    {
      match task
      case ReportFailure =>
        events := events + [DidFailedLoadingFile(0)];
      case RunCancel =>
        if state != Finished && state != Failed {
          state := Failed;
          Cleanup();
          events := events + [DidFailedLoadingFile(1)];
        }
      case BeginTransfer =>
        if totalBytesCount != 0 && downloadedBytes == totalBytesCount {
          OnFinishLoadingFile(renameOk);
        } else {
          StartDownloadRequest();
        }
      case RetryFinish =>
        OnFinishLoadingFile(renameOk);
    }

    method Cleanup()
      modifies this`outputOpen, this`delayedRequestInfos
      ensures Snap() == Cleaned(old(Snap()))
    {
      outputOpen := false;
      delayedRequestInfos := [];
    }

    method OnFinishLoadingFile(renameOk: bool)
      requires cacheFileTemp.Some? ==> cacheFileFinal.Some?
      modifies this`state, this`outputOpen, this`delayedRequestInfos, this`renameAttempts, this`renameRetryCount, this`disk, this`queue, this`cacheFileFinal, this`events
      ensures Snap() == FinishEffect(old(Snap()), renameOk)
    {
      if state != Downloading {
        return;
      }
      state := Finished;
      Cleanup();
      if cacheFileTemp.Some? {
        RenameTemp(renameOk);
      } else {
        events := events + [DidFinishLoadingFile(cacheFileFinal)];
      }
    }

    /**
     * `cacheFileTemp.renameTo(cacheFileFinal)` and what follows it; the rename fails when the file
     * system refuses (`renameOk` false) or the temp file is missing.
     */
    method RenameTemp(renameOk: bool)
      requires cacheFileTemp.Some? && cacheFileFinal.Some?
      modifies this`state, this`renameAttempts, this`renameRetryCount, this`disk, this`queue, this`cacheFileFinal, this`events
      ensures Snap() == RenameEffect(old(Snap()), renameOk)
    {
      renameAttempts := renameAttempts + 1;
      var renameResult := renameOk && cacheFileTemp.value in disk;
      if renameResult {
        disk := Moved(disk, cacheFileTemp.value, cacheFileFinal.value);
      } else {
        renameRetryCount := renameRetryCount + 1;
        if renameRetryCount < 3 {
          state := Downloading;
          queue := queue + [RetryFinish];
          return;
        }
        cacheFileFinal := cacheFileTemp;
      }
      events := events + [DidFinishLoadingFile(cacheFileFinal)];
    }

    method StartDownloadRequest()
      modifies this`requestInfos, this`nextDownloadOffset
      ensures Snap() == ScheduleEffect(old(Snap()), old(Conf()))
    {
      if state != Downloading || (totalBytesCount > 0 && nextDownloadOffset >= totalBytesCount)
         || |requestInfos| + |delayedRequestInfos| >= currentMaxDownloadRequests {
        return;
      }
      var count := 1;
      if totalBytesCount > 0 {
        var room := currentMaxDownloadRequests - |requestInfos| - |delayedRequestInfos|;
        count := if room > 0 then room else 0;
      }
      ghost var offset0 := nextDownloadOffset;
      ghost var requests0 := requestInfos;
      var a := 0;
      while a < count
        modifies this`requestInfos, this`nextDownloadOffset
        invariant 0 <= a <= count
        invariant requestInfos == requests0 + Dummies(a)
        invariant var rest := IssueLoop(totalBytesCount, nextDownloadOffset, currentDownloadChunkSize, count - a);
          IssueLoop(totalBytesCount, offset0, currentDownloadChunkSize, count) == Issue(a + rest.added, rest.offset)
      {
        if totalBytesCount > 0 && nextDownloadOffset >= totalBytesCount {
          break;
        }
        nextDownloadOffset := Wrap32(nextDownloadOffset + currentDownloadChunkSize);
        DummiesAppend(a);
        requestInfos := requestInfos + [RequestInfo(0)];
        a := a + 1;
      }
    }
  }
}
