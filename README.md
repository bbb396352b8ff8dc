# FileLoadOperation and checkUserName, modelled in Dafny

This project models two pieces of a messaging client.

The first is `FileLoadOperation`, the object that downloads one media file or document. It has four states: Idle, Downloading, Failed and Finished. Its parts are modelled as follows:

- **Constructors.** They take a photo location or a document and fix the extension.
- **`start`.** It picks the chunk policy from the total size. It derives the temp and final file names from the location and rejects zero or sentinel identifiers. It deletes a final file of the wrong length and reports a final file that is still on disk. Otherwise it resumes from the temp file at the last whole chunk, opens the file and posts the continuation.
- **The continuation.** It runs `startDownloadRequest`. That method records a bounded number of placeholder requests and advances the offset cursor by one chunk each.
- **`onFinishLoadingFile`.** It renames the temp file to the final file. `renameTo` is attempted at most three times (the first attempt and two retries); after the third failure the temp file is reported as the downloaded file.
- **`cancel`.** It fails a live operation with code 1 and does nothing once the operation is terminal.

The file system is a map from path to length. The stage queue is a sequence of posted runnables (`Task`), run in order by `RunNextTask`. The delegate is a log of the calls made on it (`Event`).

Every field the Java methods update is a field of the Dafny class `FileLoad.FileLoadOperation`. Each method is specified by a transition function on a snapshot of those fields: `StartEffect`, `RunTask`, `FinishEffect`, `CancelEffect` and `ScheduleEffect`. The object invariant `Inv` is proved to be kept by every transition. The pure parts of the code are proved separately:

- name derivation and extension resolution (`FileNames`);
- the chunk policy, resume offset and request scheduler (`Chunking`);
- Java's 32-bit arithmetic (`JavaInt`).

`Scenarios` drives whole runs through the class's methods and states what the delegate hears.

The second piece is the validation part of the account screen's `checkUserName(name, alert)`. It decides which names are accepted, which message a rejected name gets, and whether that message goes to a dialog or to the inline label. The `for` scan with early returns is the method `UserName.CheckUserName`. The rules are stated as `ValidUserName` and the result function `CheckVerdict`.

## Behaviour worth knowing

- **`start`'s error paths leave the state Downloading.** A missing or rejected location and a temp file that cannot be opened only clean up and post a failure report with code 0 (FileLoadOperation.java:157-194, 222-231); none of them sets Failed. A later `cancel` therefore fails the operation a second time, with code 1 (lines 259-264). `Scenarios.FailedStartThenCancel` shows a run in which the delegate hears two failures.
- **`renameTo` is called at most three times.** The counter is incremented before the `< 3` test (lines 309-310), so the third failure gives up. `FileLoad.RenameAttemptsBounded` proves the bound.
- **A final file that cannot be deleted is reported.** When `delete` of a wrong-length final file fails (line 200), `exists()` at line 203 is still true and `start` reports that file as finished. `Scenarios.UndeletableFinalFile` shows a 123-byte file reported where 40000 bytes were expected.
- **No chunk is fetched, completed or clamped to the remaining bytes.** `startDownloadRequest` only records placeholder requests and moves the cursor (lines 344-352).
- **A photo and a document can share a temp file name.** Photo (2, 5) and document 5 in datacenter 2 both get `2_5.temp` (lines 170 and 183; `FileNames.PhotoAndDocumentTempNamesMayCoincide`).
- **`start` tests the fields of the location, not its kind.** A location with a zero volume or local id is named like a document (line 169).
- **A null document.** The constructor's exception handler fails the operation at once and posts a failure report (lines 122-131). In Java `ext` stays null then; the model uses `""`. The value is never read, because `start` does nothing once the state is Failed.

## Two layers in `FileLoad`

Each method of `FileLoad.FileLoadOperation` has a transition function beside it that says the same thing on a snapshot of the fields: `StartSteps` and `StartEffect`, `Begin` and `Started`, `FailStart` and `StartFailed`, `PlaceFilesSteps` and `PlaceFiles`, `OpenTempSteps` and `OpenTemp`, `OnFinishLoadingFile` and `FinishEffect`, `RenameTemp` and `RenameEffect`, `Run` and `TaskEffect`, `StartDownloadRequest` and `ScheduleEffect`. The methods are the code as it runs on the object's fields; the functions are what the invariant, the `start` lemmas and the scenarios reason about, because lemmas cannot call methods. Each method's `ensures` is the proof that the two agree. `start` is split into several small methods because a proof about one long method writing many fields is too costly for the verifier.

## Model

| member | source | states |
|---|---|---|
| JavaInt.Wrap32 | MessengerProj/src/main/java/com/b44t/messenger/FileLoadOperation.java:348 | `nextDownloadOffset += chunk` on a Java `int`: the result is in the 32-bit range and congruent to the input modulo 2^32 |
| JavaInt.Div | MessengerProj/src/main/java/com/b44t/messenger/FileLoadOperation.java:207 | Java's `/` by a positive divisor rounds toward zero: the remainder `a - q * b` lies in [0, b) for a non-negative dividend and in (-b, 0] for a negative one, which fixes q |
| JavaInt.WrapKeepsMultiple | MessengerProj/src/main/java/com/b44t/messenger/FileLoadOperation.java:348 | wrapping a multiple of either chunk size to 32 bits gives a multiple of that chunk size |
| FileNames.DigitChar | MessengerProj/src/main/java/com/b44t/messenger/FileLoadOperation.java:170 | a digit below 10 becomes the character that reads back as that digit |
| FileNames.NatToDecimal | MessengerProj/src/main/java/com/b44t/messenger/FileLoadOperation.java:170 | the decimal text of a natural number is non-empty, made of digits only, and starts with `0` only for zero |
| FileNames.IntToDecimal | MessengerProj/src/main/java/com/b44t/messenger/FileLoadOperation.java:170 | `Integer.toString` / `Long.toString`: non-empty, made of digits and the minus sign, starting with `-` exactly for negative values and with `0` exactly for zero (no leading zeros) |
| FileNames.NatDecimalRoundTrip | MessengerProj/src/main/java/com/b44t/messenger/FileLoadOperation.java:170 | reading back the decimal text of n gives n |
| FileNames.IntDecimalRoundTrip | MessengerProj/src/main/java/com/b44t/messenger/FileLoadOperation.java:170 | reading back the signed decimal text of n gives n, negative values included |
| FileNames.DecimalInjective | MessengerProj/src/main/java/com/b44t/messenger/FileLoadOperation.java:170 | two integers with the same decimal text are equal |
| FileNames.IdPair | MessengerProj/src/main/java/com/b44t/messenger/FileLoadOperation.java:170-171 | the identifier pair `a_b` that starts every file name contains an underscore |
| FileNames.ResolveNames | MessengerProj/src/main/java/com/b44t/messenger/FileLoadOperation.java:167-195 | photo branch (volume and local id nonzero): `v_l.temp` and `v_l.ext`, rejected iff the datacenter is 0 or MIN_VALUE or the volume is MIN_VALUE; document branch: `dc_id.temp` and `dc_id` + ext, rejected iff the datacenter or the id is 0; every temp name ends in `.temp` |
| FileNames.PhotoNamesShareStem | MessengerProj/src/main/java/com/b44t/messenger/FileLoadOperation.java:170-171 | a photo's final name is its temp name with `temp` replaced by the extension |
| FileNames.DocumentNamesShareStem | MessengerProj/src/main/java/com/b44t/messenger/FileLoadOperation.java:183-184 | a document's final name is its identifier pair followed directly by ext, with no dot added |
| FileNames.FirstUnderscoreAfter | MessengerProj/src/main/java/com/b44t/messenger/FileLoadOperation.java:170 | in `x_rest` with no underscore in x, the first underscore is at position \|x\| |
| FileNames.IdPairInjective | MessengerProj/src/main/java/com/b44t/messenger/FileLoadOperation.java:170 | different identifier pairs give different names, whatever suffix follows |
| FileNames.PhotoTempNamesDistinct | MessengerProj/src/main/java/com/b44t/messenger/FileLoadOperation.java:170 | two photo locations share a temp file only if they have the same volume and local id |
| FileNames.DocumentTempNamesDistinct | MessengerProj/src/main/java/com/b44t/messenger/FileLoadOperation.java:183 | two document locations share a temp file only if they have the same datacenter and id |
| FileNames.PhotoAndDocumentTempNamesMayCoincide | MessengerProj/src/main/java/com/b44t/messenger/FileLoadOperation.java:169-184 | photo (2, 5) and document 5 in datacenter 2 get the same temp name |
| FileNames.PhotoExtension | MessengerProj/src/main/java/com/b44t/messenger/FileLoadOperation.java:86 | the given extension, or `jpg` when it is null |
| FileNames.LastIndexOf | MessengerProj/src/main/java/com/b44t/messenger/FileLoadOperation.java:100 | `lastIndexOf`: the index of the last occurrence of c, or none iff c does not occur |
| FileNames.MimeExtension | MessengerProj/src/main/java/com/b44t/messenger/FileLoadOperation.java:105-120 | `.mp4` iff the MIME type is exactly `video/mp4`, `.ogg` iff it is exactly `audio/ogg`, otherwise `""` |
| FileNames.DocumentExtensionFromName | MessengerProj/src/main/java/com/b44t/messenger/FileLoadOperation.java:98-104 | a name whose last dot is followed by at least one character gives the suffix from that dot, whatever the MIME type |
| FileNames.DocumentExtensionFallback | MessengerProj/src/main/java/com/b44t/messenger/FileLoadOperation.java:100-121 | a null name, a name without a dot, or a name ending in its only dot gives the MIME extension |
| FileNames.DocumentExtension | MessengerProj/src/main/java/com/b44t/messenger/FileLoadOperation.java:98-121 | the document constructor's extension: the suffix from the last dot of the file name, or the MIME extension when that suffix is missing or a bare dot; it is always empty or a dot followed by at least one character |
| Chunking.ChunkPolicy | MessengerProj/src/main/java/com/b44t/messenger/FileLoadOperation.java:152-153 | 128 KiB chunks and 2 requests iff the total is at least 1 MiB, otherwise 32 KiB and 4; at most 256 KiB in flight |
| Chunking.ResumeOffset | MessengerProj/src/main/java/com/b44t/messenger/FileLoadOperation.java:206-207 | the resume offset (the length cast to `int`, divided and multiplied back) is a multiple of the chunk size |
| Chunking.ResumeRoundsDown | MessengerProj/src/main/java/com/b44t/messenger/FileLoadOperation.java:206-207 | for a temp file below 2 GiB the resume offset is at most its length and less than one chunk below it |
| Chunking.ResumeExample | MessengerProj/src/main/java/com/b44t/messenger/FileLoadOperation.java:206-207 | a 50000-byte temp file with 32 KiB chunks resumes at 32768 |
| Chunking.IssueLoop | MessengerProj/src/main/java/com/b44t/messenger/FileLoadOperation.java:344-352 | the `for` loop adds at most `count` requests |
| Chunking.Schedule | MessengerProj/src/main/java/com/b44t/messenger/FileLoadOperation.java:335-353 | nothing is added unless downloading, below the total (when known) and below the request bound; afterwards pending plus added requests stay within the bound; with an unknown total at most one is added |
| Chunking.IssueLoopAligned | MessengerProj/src/main/java/com/b44t/messenger/FileLoadOperation.java:344-352 | the loop keeps the offset a multiple of the chunk size, 32-bit wrap-around included |
| Chunking.StepKeepsAlignment | MessengerProj/src/main/java/com/b44t/messenger/FileLoadOperation.java:348 | one `+= chunk` keeps an aligned offset aligned, wrap-around included |
| Chunking.IssueLoopAdvance | MessengerProj/src/main/java/com/b44t/messenger/FileLoadOperation.java:344-352 | without overflow, each added request moves the offset by exactly one chunk |
| Chunking.ScheduleAligned | MessengerProj/src/main/java/com/b44t/messenger/FileLoadOperation.java:335-353 | one scheduling run keeps the cursor chunk-aligned |
| Chunking.ScheduleFillsOrFinishes | MessengerProj/src/main/java/com/b44t/messenger/FileLoadOperation.java:335-353 | with a known total and room below the bound, the run fills the bound or passes the total |
| Chunking.SmallFileExample | MessengerProj/src/main/java/com/b44t/messenger/FileLoadOperation.java:152-153 | a 40000-byte file gets two 32 KiB requests and the cursor stops at 65536, and a second run adds nothing |
| Chunking.BigFileExample | MessengerProj/src/main/java/com/b44t/messenger/FileLoadOperation.java:152-153 | a 2000000-byte file gets 128 KiB chunks with bound 2, and its first run two requests ending at 262144 |
| FileLoad.Cleaned | MessengerProj/src/main/java/com/b44t/messenger/FileLoadOperation.java:269-295 | `cleanup` on the snapshot: the handle is closed and the delayed requests are dropped |
| FileLoad.ScheduleEffect | MessengerProj/src/main/java/com/b44t/messenger/FileLoadOperation.java:335-353 | `startDownloadRequest` on the snapshot: the requests `Schedule` adds are appended and the cursor moves where it stops; its properties are `Chunking.Schedule`'s and `SchedulePreservesInv` |
| FileLoad.FinishEffect | MessengerProj/src/main/java/com/b44t/messenger/FileLoadOperation.java:297-331 | `onFinishLoadingFile` on the snapshot: nothing unless Downloading; otherwise Finished and cleaned up, then the rename or, without a temp file, the report; proved about in `FinishOnlyWhenDownloading`, `FinishPreservesInv` and `ThirdRenameFailureReportsTempFile` |
| FileLoad.Reported | MessengerProj/src/main/java/com/b44t/messenger/FileLoadOperation.java:330 | the delegate is told the operation finished, with the current final file |
| FileLoad.RenameEffect | MessengerProj/src/main/java/com/b44t/messenger/FileLoadOperation.java:303-330 | the rename attempt on the snapshot: success moves the file and reports it; failure counts, then posts a retry below three failures or reports the temp file |
| FileLoad.CancelEffect | MessengerProj/src/main/java/com/b44t/messenger/FileLoadOperation.java:258-265 | the cancel runnable on the snapshot; proved about in `CancelAfterTerminalIsNoOp` and `CancelFailsLiveOperation` |
| FileLoad.StartNames | MessengerProj/src/main/java/com/b44t/messenger/FileLoadOperation.java:157-195 | the names `start` derives, or none for a null or rejected location |
| FileLoad.Started | MessengerProj/src/main/java/com/b44t/messenger/FileLoadOperation.java:152-156 | the opening of `start`: the chunk policy, fresh request lists, state Downloading |
| FileLoad.StartFailed | MessengerProj/src/main/java/com/b44t/messenger/FileLoadOperation.java:158-165 | an error path of `start`: cleanup and a posted failure report, with the state left alone |
| FileLoad.PlaceFiles | MessengerProj/src/main/java/com/b44t/messenger/FileLoadOperation.java:197-253 | `start` once the names are known: the final-file check, the delete (when it succeeds), and then the immediate finish or the temp file |
| FileLoad.OpenTemp | MessengerProj/src/main/java/com/b44t/messenger/FileLoadOperation.java:204-245 | the resume from the temp file and the open, with the continuation or a failure report posted |
| FileLoad.ResumeFrom | MessengerProj/src/main/java/com/b44t/messenger/FileLoadOperation.java:204-208 | the temp file is chosen, and when it exists both cursors move to its length rounded down to a chunk |
| FileLoad.StartEffect | MessengerProj/src/main/java/com/b44t/messenger/FileLoadOperation.java:148-253 | `start` on the snapshot; proved about in `StartChoosesPolicy`, `StartFailsWithoutNames`, `StartFinishesOnExistingFile`, `StartBeginsDownload` and `StartPreservesInv` |
| FileLoad.TaskEffect | MessengerProj/src/main/java/com/b44t/messenger/FileLoadOperation.java:126-321 | the body of each posted runnable: failure report, continuation, cancel and finalize retry |
| FileLoad.RunTask | MessengerProj/src/main/java/com/b44t/messenger/FileLoadOperation.java:126-321 | the stage queue runs its first runnable; proved about in `RunTaskPreservesInv` |
| FileLoad.Fresh | MessengerProj/src/main/java/com/b44t/messenger/FileLoadOperation.java:78-133 | the state both constructors leave: Idle, both cursors and all counters at 0, no requests, no handles, nothing queued or reported, over the given files |
| FileLoad.ConstructedInv | MessengerProj/src/main/java/com/b44t/messenger/FileLoadOperation.java:78-133 | a freshly constructed operation, and one whose document constructor failed, satisfy the invariant |
| FileLoad.Join | MessengerProj/src/main/java/com/b44t/messenger/FileLoadOperation.java:197-204 | `new File(dir, name)` as a path string: the directory, a `/`, then the name; the final and temp paths are built with it |
| FileLoad.Moved | MessengerProj/src/main/java/com/b44t/messenger/FileLoadOperation.java:304 | a successful `renameTo` puts the temp file's length at the final path and removes the temp path |
| FileLoad.MovedLeavesOthers | MessengerProj/src/main/java/com/b44t/messenger/FileLoadOperation.java:304 | a rename touches no other file |
| FileLoad.SchedulePreservesInv | MessengerProj/src/main/java/com/b44t/messenger/FileLoadOperation.java:335-353 | `startDownloadRequest` keeps the object invariant: policy fixed, requests within the bound, cursors aligned |
| FileLoad.FinishPreservesInv | MessengerProj/src/main/java/com/b44t/messenger/FileLoadOperation.java:297-331 | `onFinishLoadingFile` keeps the invariant, including at most one success report and the retry-count bounds |
| FileLoad.CancelPreservesInv | MessengerProj/src/main/java/com/b44t/messenger/FileLoadOperation.java:255-267 | cancel keeps the invariant |
| FileLoad.StartPreservesInv | MessengerProj/src/main/java/com/b44t/messenger/FileLoadOperation.java:148-253 | start keeps the invariant on every path |
| FileLoad.OpenTempPreservesInv | MessengerProj/src/main/java/com/b44t/messenger/FileLoadOperation.java:204-245 | resuming from and opening the temp file keeps the invariant |
| FileLoad.PopPreservesInv | MessengerProj/src/main/java/com/b44t/messenger/FileLoadOperation.java:232-245 | taking a runnable other than a failure report off the stage queue keeps the invariant |
| FileLoad.ReportPreservesInv | MessengerProj/src/main/java/com/b44t/messenger/FileLoadOperation.java:159-164 | running a posted failure report keeps the invariant |
| FileLoad.RunTaskPreservesInv | MessengerProj/src/main/java/com/b44t/messenger/FileLoadOperation.java:232-267 | running any posted runnable keeps the invariant |
| FileLoad.EventsAreCounted | MessengerProj/src/main/java/com/b44t/messenger/FileLoadOperation.java:126-321 | a log of success, code-0 and code-1 calls has as many entries as the three counts together |
| FileLoad.NotificationBounds | MessengerProj/src/main/java/com/b44t/messenger/FileLoadOperation.java:255-331 | in any reachable state: at most two delegate calls; success at most once, and then as the only call; each failure code at most once; Finished iff success was reported; a Failed operation has told the delegate or has its failure report queued |
| FileLoad.RenameAttemptsBounded | MessengerProj/src/main/java/com/b44t/messenger/FileLoadOperation.java:304-324 | `renameTo` is called at most three times, and three failures leave the operation Finished |
| FileLoad.ThirdRenameFailureReportsTempFile | MessengerProj/src/main/java/com/b44t/messenger/FileLoadOperation.java:303-330 | two failed renames revert to Downloading with a retry posted; the third makes the temp file final and reports it as a success |
| FileLoad.CancelAfterTerminalIsNoOp | MessengerProj/src/main/java/com/b44t/messenger/FileLoadOperation.java:259-261 | a posted cancel on a Finished or Failed operation changes nothing and calls no delegate method |
| FileLoad.CancelFailsLiveOperation | MessengerProj/src/main/java/com/b44t/messenger/FileLoadOperation.java:262-264 | a posted cancel on a live operation sets Failed, closes the handle, drops delayed requests and reports code 1 |
| FileLoad.FinishOnlyWhenDownloading | MessengerProj/src/main/java/com/b44t/messenger/FileLoadOperation.java:298-304 | finalize is a no-op unless Downloading; a successful rename moves the temp file to the final path and reports the final file |
| FileLoad.StartChoosesPolicy | MessengerProj/src/main/java/com/b44t/messenger/FileLoadOperation.java:148-156 | start does nothing unless Idle; from Idle it sets the chunk policy of the total and leaves Idle |
| FileLoad.StartFailsWithoutNames | MessengerProj/src/main/java/com/b44t/messenger/FileLoadOperation.java:157-195 | the names are missing iff the location is null or rejected, and then start only posts a failure report (code 0), leaving the state Downloading and the disk as it was |
| FileLoad.StartFinishesOnExistingFile | MessengerProj/src/main/java/com/b44t/messenger/FileLoadOperation.java:197-252 | a final file that exists with the right length, with an unknown total, or that `delete` fails to remove is reported at once, with no request and no temp file |
| FileLoad.StartBeginsDownload | MessengerProj/src/main/java/com/b44t/messenger/FileLoadOperation.java:197-245 | otherwise the final file is gone (a wrong-length one deleted), the temp file is chosen, both cursors resume at its rounded-down length, and the continuation (or, when opening fails, a failure report) is posted |
| FileLoad.FileLoadOperation.FromPhoto | MessengerProj/src/main/java/com/b44t/messenger/FileLoadOperation.java:78-87 | an Idle operation whose location, datacenter, size and extension are those of the photo (no location for other kinds); the invariant holds |
| FileLoad.FileLoadOperation.FromDocument | MessengerProj/src/main/java/com/b44t/messenger/FileLoadOperation.java:89-133 | an Idle operation with the document's id, datacenter, size and resolved extension; a null document leaves it Failed with a failure report posted |
| FileLoad.FileLoadOperation.SetForceRequest | MessengerProj/src/main/java/com/b44t/messenger/FileLoadOperation.java:135-137 | sets the flag and nothing else |
| FileLoad.FileLoadOperation.IsForceRequest | MessengerProj/src/main/java/com/b44t/messenger/FileLoadOperation.java:139-141 | returns the flag |
| FileLoad.FileLoadOperation.SetPaths | MessengerProj/src/main/java/com/b44t/messenger/FileLoadOperation.java:143-146 | sets both directories and nothing else; the invariant is kept |
| FileLoad.FileLoadOperation.Start | MessengerProj/src/main/java/com/b44t/messenger/FileLoadOperation.java:148-253 | the new state is `StartEffect` of the old one, given the outcomes of `delete` and of opening the temp file; the invariant is kept |
| FileLoad.FileLoadOperation.StartSteps | MessengerProj/src/main/java/com/b44t/messenger/FileLoadOperation.java:148-195 | the statements of start, with the new state `StartEffect` of the old one |
| FileLoad.FileLoadOperation.Begin | MessengerProj/src/main/java/com/b44t/messenger/FileLoadOperation.java:152-156 | the chunk policy is set, both request lists are emptied and the state becomes Downloading |
| FileLoad.FileLoadOperation.FailStart | MessengerProj/src/main/java/com/b44t/messenger/FileLoadOperation.java:158-165 | cleanup, then a failure report is posted; the state is unchanged |
| FileLoad.FileLoadOperation.PlaceFilesSteps | MessengerProj/src/main/java/com/b44t/messenger/FileLoadOperation.java:197-253 | the final-file checks and the temp-file or immediate-finish branch, as `PlaceFiles` |
| FileLoad.FileLoadOperation.OpenTempSteps | MessengerProj/src/main/java/com/b44t/messenger/FileLoadOperation.java:204-245 | the temp file is chosen, the cursors resume from it, and it is opened with the continuation posted, or a failure is posted |
| FileLoad.FileLoadOperation.Cancel | MessengerProj/src/main/java/com/b44t/messenger/FileLoadOperation.java:255-267 | cancel only posts its runnable; the invariant is kept |
| FileLoad.FileLoadOperation.RunNextTask | MessengerProj/src/main/java/com/b44t/messenger/FileLoadOperation.java:232-245 | runs the first posted runnable, as `RunTask`; the invariant is kept |
| FileLoad.FileLoadOperation.Run | MessengerProj/src/main/java/com/b44t/messenger/FileLoadOperation.java:232-245 | the bodies of the four posted runnables (failure report, continuation, cancel, finalize retry), as `TaskEffect` |
| FileLoad.FileLoadOperation.Cleanup | MessengerProj/src/main/java/com/b44t/messenger/FileLoadOperation.java:269-295 | the handle is closed and the delayed requests are cleared, nothing else |
| FileLoad.FileLoadOperation.OnFinishLoadingFile | MessengerProj/src/main/java/com/b44t/messenger/FileLoadOperation.java:297-331 | finalize, as `FinishEffect` |
| FileLoad.FileLoadOperation.RenameTemp | MessengerProj/src/main/java/com/b44t/messenger/FileLoadOperation.java:303-330 | the rename attempt and what follows it, as `RenameEffect` |
| FileLoad.FileLoadOperation.StartDownloadRequest | MessengerProj/src/main/java/com/b44t/messenger/FileLoadOperation.java:335-353 | the guard and the `for` loop, with placeholder requests appended and the cursor moved as `ScheduleEffect` says |
| Scenarios.Photo79Names | MessengerProj/src/main/java/com/b44t/messenger/FileLoadOperation.java:169-171 | photo 7/9 is named `7_9.temp` and `7_9.jpg` |
| Scenarios.StartOnFinalFile | MessengerProj/src/main/java/com/b44t/messenger/FileLoadOperation.java:197-252 | start on a complete final file finishes at once |
| Scenarios.StartOverWrongFinal | MessengerProj/src/main/java/com/b44t/messenger/FileLoadOperation.java:197-232 | start on a wrong-length final file deletes it and opens an empty temp file |
| Scenarios.StartOverUndeletableFinal | MessengerProj/src/main/java/com/b44t/messenger/FileLoadOperation.java:197-252 | start on a wrong-length final file that cannot be deleted reports it at once |
| Scenarios.UndeletableFinalFile | MessengerProj/src/main/java/com/b44t/messenger/FileLoadOperation.java:197-252 | through the object's methods: the undeletable 123-byte final file is reported as the downloaded file |
| Scenarios.FirstRequests | MessengerProj/src/main/java/com/b44t/messenger/FileLoadOperation.java:232-353 | the continuation for a 40000-byte photo records two requests and moves the cursor to 65536 |
| Scenarios.StartOnCompleteTemp | MessengerProj/src/main/java/com/b44t/messenger/FileLoadOperation.java:204-232 | a complete temp file resumes both cursors at its full length |
| Scenarios.FirstRenameFails | MessengerProj/src/main/java/com/b44t/messenger/FileLoadOperation.java:235-322 | the continuation on a complete temp file finalizes; a refused rename posts a retry |
| Scenarios.LaterRenamesFail | MessengerProj/src/main/java/com/b44t/messenger/FileLoadOperation.java:303-330 | the second refusal posts another retry; the third reports the temp file |
| Scenarios.NamelessStart | MessengerProj/src/main/java/com/b44t/messenger/FileLoadOperation.java:157-267 | start without a location posts a failure report and stays Downloading; cancel then fails the operation with code 1 |
| Scenarios.FailedStartThenCancel | MessengerProj/src/main/java/com/b44t/messenger/FileLoadOperation.java:157-267 | through the object's methods: the delegate hears code 0, then code 1, and the state is Failed |
| Scenarios.ExistingFinalFile | MessengerProj/src/main/java/com/b44t/messenger/FileLoadOperation.java:197-252 | through the object's methods: one success report for the final file, no request, no open handle |
| Scenarios.SmallFile | MessengerProj/src/main/java/com/b44t/messenger/FileLoadOperation.java:152-353 | through the object's methods: the wrong-length final file is gone, two requests, the cursor at 65536, nothing reported |
| Scenarios.RenameGiveUp | MessengerProj/src/main/java/com/b44t/messenger/FileLoadOperation.java:303-330 | through the object's methods: three refused renames end in one success report naming the temp file, with the retry counter at 3 |
| UserName.ValidUserName | TMessagesProj/src/main/java/org/telegram/ui/MrAccountSettingsActivity.java:277-321 | the rules a name must meet, all at once: length 5 to 32, no leading or trailing `_`, no leading digit, every character in `[0-9a-zA-Z_]`; related to the validator by `AcceptedIff` |
| UserName.Scan | TMessagesProj/src/main/java/org/telegram/ui/MrAccountSettingsActivity.java:282-302 | the `for` loop over the characters from an index on: the leading-digit message at index 0, else the invalid message at the first disallowed character; characterised by `ScanPassesIff` and `ScanRejects` |
| UserName.CheckVerdict | TMessagesProj/src/main/java/org/telegram/ui/MrAccountSettingsActivity.java:258-321 | the validator's verdict in the source's order of checks: null name in alert mode, empty name in alert mode, leading or trailing `_`, the scan, then the length bounds; what `CheckUserName` computes |
| UserName.CheckUserName | TMessagesProj/src/main/java/org/telegram/ui/MrAccountSettingsActivity.java:258-321 | the early checks and the `for` scan with early returns give exactly `CheckVerdict` |
| UserName.ScanPassesIff | TMessagesProj/src/main/java/org/telegram/ui/MrAccountSettingsActivity.java:282-302 | the scan passes iff there is no leading digit and every remaining character is in `[0-9a-zA-Z_]` |
| UserName.ScanRejects | TMessagesProj/src/main/java/org/telegram/ui/MrAccountSettingsActivity.java:282-302 | the scan reports the leading-digit message iff the name starts with a digit, and the invalid message iff it does not and some character is disallowed |
| UserName.AcceptedIff | TMessagesProj/src/main/java/org/telegram/ui/MrAccountSettingsActivity.java:258-321 | a name is accepted iff it meets every rule (length 5 to 32, allowed characters, no leading digit, no leading or trailing `_`), or it is empty in alert mode |
| UserName.NullNameRule | TMessagesProj/src/main/java/org/telegram/ui/MrAccountSettingsActivity.java:264-312 | a null name is dereferenced in alert mode and rejected as too short otherwise |
| UserName.UnderscoreRule | TMessagesProj/src/main/java/org/telegram/ui/MrAccountSettingsActivity.java:277-281 | a leading or trailing `_` is rejected before the scan, always in the label, even in alert mode |
| UserName.LeadingDigitRule | TMessagesProj/src/main/java/org/telegram/ui/MrAccountSettingsActivity.java:284-292 | a leading digit gives the start-number message, whatever follows |
| UserName.DisallowedCharRule | TMessagesProj/src/main/java/org/telegram/ui/MrAccountSettingsActivity.java:293-301 | any disallowed character gives the invalid message before the length is looked at |
| UserName.LengthRule | TMessagesProj/src/main/java/org/telegram/ui/MrAccountSettingsActivity.java:304-321 | a name passing the character rules is too short below 5 and too long above 32 |
| UserName.Examples | TMessagesProj/src/main/java/org/telegram/ui/MrAccountSettingsActivity.java:258-321 | concrete verdicts for seven names |

## Left out

- File I/O: `RandomAccessFile`, `seek`, `exists`, `length`, `delete` and `renameTo` act on a map from path to length. Whether `delete` and opening the temp file succeed are boolean parameters of `Start`; whether `renameTo` succeeds is one of `RunNextTask`.
- Null `storePath`/`tempPath`: a path is a string and `new File(dir, name)` is `dir/name`. Java's `new File(null, name)` gives the bare name instead.
- The `fiv` handle closed by `cleanup`: nothing in `FileLoadOperation` opens it; its only assignment is `fiv = null` in `cleanup` (line 287).
- Threading: `Utilities.stageQueue`, the 200 ms delay and the `volatile` state. Posted runnables run one at a time, in posting order, when `RunNextTask` is called.
- The delegate's `didChangedLoadProgress` and `setDelegate`: the delegate is the event log.
- The `catch` blocks around `onFinishLoadingFile` (lines 236-240, 247-251 and 315-319) report code 0 when it throws, which includes the delegate's own `didFinishLoadingFile` throwing. The file operations are modelled as total and the delegate as a log, so nothing throws here and the `RetryFinish` runnable has no failure path.
- The TLRPC classes: a photo location is `FileLocation` (or `None` for any other kind) and a document is `Document`. `FileLoader.getDocumentFileName` is the document's `fileName` field; that class is not part of this model.
- Debug logging under `BuildVars.DEBUG_VERSION`.
- The username screen's widgets and callbacks: visibility, text, colours, `checkRunnable`, `lastNameAvailable` and the request cancellation. Alert dialogs are the `inDialog` flag of the verdict.
- The part of `checkUserName` after line 321: the current-username shortcut, the 300 ms delayed availability request to the server and config persistence. These depend on the account and the network; an accepted name is the verdict `Accepted`.
