/**
 * Whole runs of a `FileLoadOperation` against a given disk, driven through the object's methods:
 * the constructor, `setPaths`, `start`, `cancel` and the stage queue. Each returns what the
 * delegate observed, so its `ensures` states the outcome of the run.
 */
module Scenarios {
  import opened Wrappers
  import opened JavaInt
  import opened FileNames
  import opened Chunking
  import opened FileLoad

  /** Photo location 7/9 on datacenter 2: named `7_9.temp` and `7_9.jpg`. */
  const Photo79: FileLocation := FileLocation(7, 9, 2)

  lemma Photo79Names()
    ensures ResolveNames(InputFileLocation(7, 9, 0, 0), 2, "jpg") == Ok(Names("7_9.temp", "7_9.jpg"))
  {
    assert DigitChar(7) == '7' && DigitChar(9) == '9';
    assert NatToDecimal(7) == "7" && NatToDecimal(9) == "9";
    assert IntToDecimal(7) == "7" && IntToDecimal(9) == "9";
    assert IdPair(7, 9) == "7_9";
    assert IdPair(7, 9) + ".temp" == "7_9.temp";
    assert IdPair(7, 9) + "." + "jpg" == "7_9.jpg";
  }

  const Final79 := "store/7_9.jpg"
  const Temp79 := "tmp/7_9.temp"

  /** The configuration of a photo 7/9 of `size` bytes after `setPaths("store", "tmp")`. */
  function Conf79(size: Int32): Config {
    Config(Some(InputFileLocation(7, 9, 0, 0)), 2, size, "jpg", "store", "tmp", false)
  }

  lemma StartNames79(size: Int32)
    ensures StartNames(Conf79(size)) == Some(Names("7_9.temp", "7_9.jpg"))
    ensures Join("store", "7_9.jpg") == Final79 && Join("tmp", "7_9.temp") == Temp79
  {
    Photo79Names();
  }

  /** The download of photo 7/9 after `start` opened the temp file, resumed at `resume`. */
  function Opened(files: map<string, nat>, resume: Int32): Snapshot {
    Fresh(files).(state := Downloading, downloadedBytes := resume, nextDownloadOffset := resume,
                  chunkSize := 32768, maxRequests := 4, cacheFileTemp := Some(Temp79),
                  cacheFileFinal := Some(Final79), outputOpen := true, queue := [BeginTransfer])
  }

  /** Photo 7/9 reported as finished by `start` over `files`, with no request and no temp file. */
  function ReportedAtOnce(files: map<string, nat>): Snapshot {
    Fresh(files).(state := Finished, chunkSize := 32768, maxRequests := 4,
                  cacheFileFinal := Some(Final79), events := [DidFinishLoadingFile(Some(Final79))])
  }

  lemma StartOnFinalFile()
    ensures StartEffect(Fresh(map[Final79 := 5000]), Conf79(5000), true, true) == ReportedAtOnce(map[Final79 := 5000])
  {
    StartNames79(5000);
  }

  lemma StartOverWrongFinal()
    ensures StartEffect(Fresh(map[Final79 := 123]), Conf79(40000), true, true) == Opened(map[Temp79 := 0], 0)
  {
    StartNames79(40000);
    assert map[Final79 := 123] - {Final79} == map[];
  }

  lemma StartOverUndeletableFinal()
    ensures StartEffect(Fresh(map[Final79 := 123]), Conf79(40000), false, true) == ReportedAtOnce(map[Final79 := 123])
  {
    StartNames79(40000);
  }

  lemma FirstRequests()
    ensures RunTask(Opened(map[Temp79 := 0], 0), Conf79(40000), false)
      == Opened(map[Temp79 := 0], 0).(queue := [], requestInfos := Dummies(2), nextDownloadOffset := 65536)
  {
    SmallFileExample();
  }

  lemma StartOnCompleteTemp()
    ensures StartEffect(Fresh(map[Temp79 := 65536]), Conf79(65536), true, true) == Opened(map[Temp79 := 65536], 65536)
  {
    StartNames79(65536);
    assert Div(Wrap32(65536), 32768) == 2;
    assert ResumeOffset(65536, 32768) == 65536;
  }

  /** The snapshot of the complete-temp run after `tries` failed renames, while retries remain. */
  function Retrying(tries: nat): Snapshot {
    Opened(map[Temp79 := 65536], 65536).(outputOpen := false, renameRetryCount := tries,
                                         renameAttempts := tries, queue := [RetryFinish])
  }

  lemma FirstRenameFails()
    ensures RunTask(Opened(map[Temp79 := 65536], 65536), Conf79(65536), false) == Retrying(1)
  {
  }

  lemma LaterRenamesFail()
    ensures RunTask(Retrying(1), Conf79(65536), false) == Retrying(2)
    ensures RunTask(Retrying(2), Conf79(65536), false)
      == Retrying(2).(state := Finished, renameRetryCount := 3, renameAttempts := 3,
                      cacheFileFinal := Some(Temp79), queue := [], events := [DidFinishLoadingFile(Some(Temp79))])
  {
  }

  lemma NamelessStart()
    ensures var c := Config(None, 0, 1000, "jpg", "", "", false);
      var s := StartEffect(Fresh(map[]), c, true, true);
      s == Fresh(map[]).(state := Downloading, chunkSize := 32768, maxRequests := 4, queue := [ReportFailure]) &&
      var s1 := RunTask(s.(queue := [ReportFailure, RunCancel]), c, false);
      s1 == s.(queue := [RunCancel], events := [DidFailedLoadingFile(0)]) &&
      RunTask(s1, c, false)
        == s.(state := Failed, queue := [], events := [DidFailedLoadingFile(0), DidFailedLoadingFile(1)])
  {
  }

  /**
   * A photo without a location: `start` fails to name it and posts a failure report but leaves
   * the state at Downloading, so a later `cancel` fails it again. The delegate hears two failures.
   */
  method FailedStartThenCancel() returns (log: seq<Event>, state: State)
    ensures log == [DidFailedLoadingFile(0), DidFailedLoadingFile(1)]
    ensures state == Failed
  {
    var op := new FileLoadOperation.FromPhoto(None, None, 1000, map[]);
    op.Start(true, true);
    NamelessStart();
    op.Cancel();
    op.RunNextTask(false);
    op.RunNextTask(false);
    log, state := op.events, op.state;
  }

  /**
   * The final file is already on disk with the expected length: `start` reports it at once,
   * issues no request and opens no temp file.
   */
  method ExistingFinalFile() returns (log: seq<Event>, requests: nat, fileOpen: bool)
    ensures log == [DidFinishLoadingFile(Some(Final79))]
    ensures requests == 0 && !fileOpen
  {
    var op := new FileLoadOperation.FromPhoto(Some(Photo79), None, 5000, map[Final79 := 5000]);
    op.SetPaths("store", "tmp");
    assert op.Snap() == Fresh(map[Final79 := 5000]) && op.Conf() == Conf79(5000);
    op.Start(true, true);
    StartOnFinalFile();
    log, requests, fileOpen := op.events, |op.requestInfos|, op.outputOpen;
  }

  /**
   * A final file of the wrong length that `delete` fails to remove: `start` reports it as the
   * downloaded file, with its 123 bytes where 40000 were expected.
   */
  method UndeletableFinalFile() returns (log: seq<Event>, reportedLength: nat)
    ensures log == [DidFinishLoadingFile(Some(Final79))]
    ensures reportedLength == 123
  {
    var op := new FileLoadOperation.FromPhoto(Some(Photo79), None, 40000, map[Final79 := 123]);
    op.SetPaths("store", "tmp");
    assert op.Snap() == Fresh(map[Final79 := 123]) && op.Conf() == Conf79(40000);
    op.Start(false, true);
    StartOverUndeletableFinal();
    log, reportedLength := op.events, op.disk[Final79];
  }

  /**
   * A final file of the wrong length is deleted and the download starts over: a 40000-byte
   * photo gets two requests of 32 KiB, the cursor ends at 65536 and nothing is reported yet.
   */
  method SmallFile() returns (log: seq<Event>, requests: nat, offset: int, finalKept: bool)
    ensures log == [] && requests == 2 && offset == 65536 && !finalKept
  {
    var op := new FileLoadOperation.FromPhoto(Some(Photo79), None, 40000, map[Final79 := 123]);
    op.SetPaths("store", "tmp");
    assert op.Snap() == Fresh(map[Final79 := 123]) && op.Conf() == Conf79(40000);
    op.Start(true, true);
    StartOverWrongFinal();
    op.RunNextTask(false);
    FirstRequests();
    log, requests, offset, finalKept := op.events, |op.requestInfos|, op.nextDownloadOffset, Final79 in op.disk;
  }

  /**
   * A complete temp file whose rename keeps failing: after the third failure the temp file is
   * reported as the downloaded file, and the retry counter has reached 3.
   */
  method RenameGiveUp() returns (log: seq<Event>, retries: nat)
    ensures log == [DidFinishLoadingFile(Some(Temp79))]
    ensures retries == 3
  {
    var op := new FileLoadOperation.FromPhoto(Some(Photo79), None, 65536, map[Temp79 := 65536]);
    op.SetPaths("store", "tmp");
    assert op.Snap() == Fresh(map[Temp79 := 65536]) && op.Conf() == Conf79(65536);
    op.Start(true, true);
    StartOnCompleteTemp();
    op.RunNextTask(false);
    FirstRenameFails();
    op.RunNextTask(false);
    LaterRenamesFail();
    op.RunNextTask(false);
    log, retries := op.events, op.renameRetryCount;
  }
}
