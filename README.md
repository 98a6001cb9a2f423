# Audio/video sync bridge: a Dafny model

This project models the part of the sync application that sits around the external audio analyzer:

- **The Rust host** (src-tauri/src/lib.rs):
  - `run_bridge` reads the bridge process's standard output line by line. It forwards each message to the window and accumulates the final list of `SyncResult`s.
  - `export_csv` turns a result list into CSV text.
  - The directory listings behind the `pick_video_files` / `pick_audio_files` commands.
- **The Python bridge** (python/bridge.py):
  - `main` reads a JSON request and dispatches on its mode.
  - `run_movie` / `run_series` check their inputs, run one job per file or file pair on a thread pool, and write progress, result and done lines in the order the jobs complete.
- **The join between them** (`Wire`): what serde makes of the lines the bridge writes. It shows that, for a batch whose delays are all finite, the final list the host returns loses every elapsed time that the same run streamed.

Modules:

| module | file | models |
|---|---|---|
| `Wrappers` | wrappers.dfy | `Option` / `Result` |
| `Text` | text.dfy | Rust `trim`, Python `strip`, decimal rendering, splitting text into lines and joining it back |
| `HostTypes` | host_types.dfy | `FileItem`, `PickResponse`, `SyncResult`, `BridgeMessage`; `u64` as a bounded `nat` |
| `BridgeConsumer` | bridge_consumer.dfy | the `run_bridge` loop |
| `CsvExport` | csv_export.dfy | the body of `export_csv` |
| `Listing` | listing.dfy | `list_movie_videos`, `list_folder_files`, `pick_video_files`, `pick_audio_files` |
| `PyBridge` | py_bridge.dfy | `normalize_result`, `list_movie_videos`, `run_movie`, `run_series`, `main` |
| `Wire` | wire.dfy | the serde field mapping and the end-to-end lemmas |

The source's loops are methods with `while`/`for` loops. Each method's `ensures` ties its result to a specification function, and the properties are lemmas about that function:

- `RunBridge` and `Consume` (the line loop of `run_bridge`)
- `ExportCsv` and `CsvText` (the row loop of `export_csv`)
- `Listing.ListMovieVideos` and `Videos`, `ListFolderFiles` and `Regular` (the directory loops)
- `RunCollector` and `Collect` (the `as_completed` loop)

The straight-line code that mutates state step by step is written the same way, as a method proved equal to a function: `RunMovie` and `MovieRun`, `RunSeries` and `SeriesRun`, and `BridgeMain` and `Process`. The expression-only code is written as functions:

- the `pick_audio_files` retag (`RetagAudio`);
- `normalize_result` (`NormalizeResult`);
- the glob comprehension of the Python `list_movie_videos`, which is the recursive `GlobEach`.

Everything the code cannot see is a parameter:

- **Host:**
  - JSON decoding: `Decoder`, with the error text;
  - the cancel flag, as the value seen when each line is read;
  - the exit status of the child;
  - `f64::to_string`, as `Render`.
- **Bridge:**
  - `glob.glob`;
  - `find_matching_files`, as `Matcher`, which returns the matched pairs or the exception it raises;
  - whether `float()` rejects the request's segment duration, as the request's `segmentError`;
  - the analyzer's outcome for each job, as `Analyzer`;
  - the order in which `as_completed` yields the futures, as a `Schedule` that returns a permutation of 0..n-1.

Three points about how the code behaves:

- Results arrive in completion order, not submission order: `KeptIsPermutationOfItems`.
- A job that raises aborts the whole batch. There is no per-item fault isolation: nothing after it is read, no `done` is written and the process exits 1 (`CollectShape`, `MainExitZero`).
- Cancellation returns `Err("Canceled")`, not a partial list: `CancelStopsRun`.

## Model

| member | source | states |
|---|---|---|
| BridgeConsumer.RunBridge | src-tauri/src/lib.rs:513-585 | The loop returns and emits exactly what the fold `Consume` gives for the observed lines, starting from an empty list. |
| BridgeConsumer.HandleOneLine | src-tauri/src/lib.rs:521-577 | One uncanceled line updates the list and appends the events as `HandleLine` describes. |
| BridgeConsumer.LineEffects | src-tauri/src/lib.rs:521-576 | A line that is blank after trimming does nothing. An undecodable line only logs "Invalid bridge message: " plus the error. A `Result` appends exactly one `SyncResult` with all six fields copied (`elapsed_ms` becomes `elapsedMs`) and forwards it. A `Done` replaces the list with its own and forwards it. Progress, file and log messages only forward. |
| BridgeConsumer.CancelStopsRun | src-tauri/src/lib.rs:515-520 | The first line read while the flag is set ends the run with `Err("Canceled")`, even a blank line. The result is the same whatever lines follow and whatever the exit status. The last event is "Sync canceled by user.". |
| BridgeConsumer.RunOutcome | src-tauri/src/lib.rs:567-585 | An uncanceled run that exits successfully returns `Ok(Expected(..))`: the last `Done` list followed by every `Result` after it, or every `Result` when no `Done` came. An unsuccessful exit gives `Err("Sync process failed")`. A failed `wait` gives its error. |
| BridgeConsumer.ConsumeIsReplay | src-tauri/src/lib.rs:513-585 | The fold's outcome is the exit-status decision applied to the replay of the decoded messages. |
| BridgeConsumer.ReplayIsExpected | src-tauri/src/lib.rs:567-573 | Replaying messages from an empty list gives the last `Done` list plus the later `Result`s, and is independent of the fold. |
| BridgeConsumer.ReplayWithoutDone | src-tauri/src/lib.rs:567 | With no `Done`, replaying appends the `Result`s in order to the starting list. |
| BridgeConsumer.ReplayFromDone | src-tauri/src/lib.rs:570-573 | Everything before the last `Done` is forgotten. |
| BridgeConsumer.NeutralLineRemovable | src-tauri/src/lib.rs:521-550 | Deleting a line that is blank, undecodable, or a progress, file or log message never changes the run's outcome. |
| BridgeConsumer.StreamedResults | src-tauri/src/lib.rs:559-568 | The payloads of the "sync-result" events are exactly the `Result` messages, in stream order. |
| BridgeConsumer.StreamedIsFinalWithoutDone | src-tauri/src/lib.rs:559-585 | Without a `Done`, a clean run returns exactly the list it streamed. |
| BridgeConsumer.EndsWithDone | src-tauri/src/lib.rs:570-585 | When the last line is a `Done`, a clean run returns that list, whatever came before it. |
| BridgeConsumer.ExpectedEndingInDone | src-tauri/src/lib.rs:570-573 | A trailing `Done` decides the expected list. |
| BridgeConsumer.MessagesAppend | src-tauri/src/lib.rs:515-525 | The decoded messages of two concatenated streams are the concatenation of each stream's messages. |
| BridgeConsumer.LastDone | src-tauri/src/lib.rs:570-573 | Finds the position of the last `Done`. No `Done` comes after it, and when it returns None there is no `Done` at all. |
| Text.TrimEmptyIffBlank | src-tauri/src/lib.rs:521-524 | `trim` returns the empty string exactly when every character is White_Space. Otherwise the trimmed line starts and ends with a non-space character. |
| Text.TrimStartDropsLeadingWhitespace | src-tauri/src/lib.rs:521 | `trim_start` removes exactly the leading whitespace run. |
| Text.TrimEndDropsTrailingWhitespace | src-tauri/src/lib.rs:521 | `trim_end` removes exactly the trailing whitespace run. |
| CsvExport.ExportCsv | src-tauri/src/lib.rs:238-247 | The `push_str` loop builds `CsvText`: the header line, then one line per result in input order, each ending in a newline. |
| CsvExport.CsvLines | src-tauri/src/lib.rs:238-247 | While no field contains a newline, reading the text back line by line gives the header followed by the results' rows. That is one more line than there are results, and line i+1 is the row of result i. |
| CsvExport.RowLineOnOneLine | src-tauri/src/lib.rs:244-247 | A row has no newline when its fields have none. |
| CsvExport.HeaderOnOneLine | src-tauri/src/lib.rs:238 | The header is a single line. |
| CsvExport.MissingValuesAreEmpty | src-tauri/src/lib.rs:240-246 | A result with no delays, no elapsed time and no error gives the quoted video and audio fields, three empty fields and an empty quoted error. |
| CsvExport.ElapsedFieldReadsBack | src-tauri/src/lib.rs:242 | A known elapsed time is written as decimal digits and reads back as the same number. |
| Text.NatToStringRoundTrip | src-tauri/src/lib.rs:242 | Decimal rendering reads back to the same number. |
| Text.SplitJoinLines | src-tauri/src/lib.rs:238-247 | Splitting newline-terminated lines undoes joining them, provided no line contains a newline. |
| Listing.ListMovieVideos | src-tauri/src/lib.rs:254-278 | The loop yields `Videos` of the listing: the regular files whose lower-cased extension is mp4, mkv, webm, avi or mov, in listing order, tagged "video". An unreadable folder yields nothing. |
| Listing.ListFolderFiles | src-tauri/src/lib.rs:280-299 | The loop yields every regular file, in listing order, tagged "video". An unreadable folder yields nothing. |
| Listing.VideosAreFilteredFolderFiles | src-tauri/src/lib.rs:254-299 | The movie listing is the folder listing narrowed to video extensions, with the same items in the same order. |
| Listing.VideosMembership | src-tauri/src/lib.rs:258-274 | An item is listed if and only if it comes from a regular file of the listing whose name has a video extension. |
| Listing.VideosAreTaggedVideos | src-tauri/src/lib.rs:269-274 | Every movie item is tagged "video" and has a video extension. |
| Listing.RegularIsTagged | src-tauri/src/lib.rs:290-295 | Every folder item carries the requested tag. |
| Listing.RetagAudioOnlyChangesTag | src-tauri/src/lib.rs:203-209 | The retag sets the tag to "audio" and keeps name, path and size. |
| Listing.RetaggedFolderIsAudioListing | src-tauri/src/lib.rs:203-209 | Retagging the folder listing gives the listing built with the "audio" tag. |
| Listing.PickVideoFiles | src-tauri/src/lib.rs:131-161 | A folder comes back exactly when the mode is "movie" or "series" and a folder was picked, and it is the picked one. Without a folder there are no files. With one, "movie" lists the folder's videos (`Videos`) and "series" lists every regular file (`Regular`). Every file is tagged "video". |
| Listing.PickAudioFiles | src-tauri/src/lib.rs:163-215 | Every file is tagged "audio". In "movie" mode there is one item exactly when a file was picked, carrying its name, path and size, with the parent as the folder. With no file picked there is no folder. In every other mode the picked folder comes back with its regular files, or nothing when none was picked. |
| Listing.LastDot | src-tauri/src/lib.rs:264 | Finds the last dot of the name, if there is one. |
| Listing.ExtensionAfterLastDot | src-tauri/src/lib.rs:264 | A non-empty stem, a dot and a dot-free suffix give that suffix as the extension. |
| Listing.NoExtension | src-tauri/src/lib.rs:264 | A name with no dot, or whose only dot comes first, has no extension. |
| Listing.UpperCaseExtensionIsVideo | src-tauri/src/lib.rs:264-265 | The test ignores case: any name ending in ".MP4" after a non-empty stem is a video. |
| Listing.KelvinSignExtensionIsVideo | src-tauri/src/lib.rs:264-265 | The Kelvin sign lower-cases to 'k', so "show.M\u{212A}V" is a video. |
| Listing.DotFileIsNotVideo | src-tauri/src/lib.rs:264-265 | ".mp4" and "mp4" are not videos. |
| PyBridge.NormalizeResultFields | python/bridge.py:39-47 | The record's file fields are the basenames of the two paths, with no '/'. Delays and error pass through unchanged, and the elapsed time is attached. |
| PyBridge.BasenameIsLastComponent | python/bridge.py:42-43 | The basename contains no '/' and is the text after the last '/'. |
| PyBridge.ListMovieVideos | python/bridge.py:50-52 | A non-empty explicit list is returned unchanged. |
| PyBridge.GlobbedVideos | python/bridge.py:53-54 | Without an explicit list, a path is listed if and only if one of the five extension patterns matches it in the folder. |
| PyBridge.GlobEachSources | python/bridge.py:54 | The comprehension yields exactly the union of the patterns' matches. |
| PyBridge.ExplicitFilesWin | python/bridge.py:50-52 | With a non-empty explicit list, the movie jobs are that list, in order, each paired with the audio file. |
| PyBridge.RunCollector | python/bridge.py:95-109 | The loop's events, records and crash are those of `Collect` over the completion order. |
| PyBridge.CollectShape | python/bridge.py:95-109 | Let p be the number of futures that finish before the first one that raises. The loop writes p progress events, numbered 1..p, each with the basename of its own job and followed at once by that job's result event. It keeps those p records in completion order. It crashes exactly when p is less than the number of futures, and the crash carries that future's error. |
| PyBridge.CrashIsFinal | python/bridge.py:97 | Once a future raises, later futures change nothing. |
| PyBridge.KeptIsStreamed | python/bridge.py:100-109 | The kept records are exactly the result events' payloads, in the same order. |
| PyBridge.KeptIsPermutationOfItems | python/bridge.py:94-100 | Without a crash, every job finished. The kept list is the jobs' records taken in completion order, so it is a permutation of the records in submission order, one per job. |
| PyBridge.PermutedPreservesMultiset | python/bridge.py:95 | Reindexing by two orders with the same multiset of indices gives the same multiset of elements. |
| PyBridge.CleanCollect | python/bridge.py:95-100 | A loop that did not crash read every future's result, in order. |
| PyBridge.CollectWritesNoDone | python/bridge.py:95-109 | The collector writes no `done`. |
| PyBridge.BatchIsWellFormed | python/bridge.py:79-111 | After the setup logs and the collector, the batch ends in a single `done` carrying exactly the streamed records when nothing raised. When something raised, it writes no `done`. |
| PyBridge.RunMovie | python/bridge.py:57-111 | The method returns `MovieRun`: the guards, the two logs and the batch. |
| PyBridge.MovieRunShape | python/bridge.py:61-80 | Every run is well formed. A segment duration that `float()` rejects raises before any line is written. Otherwise, with no audio file, with neither a folder nor an explicit list, or with no videos found, the run is a single empty `done` and does no work. Otherwise it first logs the count and the audio file's basename. |
| PyBridge.RunSeries | python/bridge.py:114-168 | The method returns `SeriesRun`: the guards, the logs and the batch. |
| PyBridge.SeriesRunShape | python/bridge.py:118-137 | Every run is well formed. A segment duration that `float()` rejects, or a `find_matching_files` that raises, ends the run before any line is written. Otherwise a missing folder gives a single empty `done`. No matched pair logs "No matching file pairs found." and then an empty `done`. Otherwise the run starts with three logs, or four when the match pattern is non-empty. |
| PyBridge.BridgeMain | python/bridge.py:171-190 | `main` returns the exit that `Process` describes. |
| PyBridge.MainRejects | python/bridge.py:172-190 | A blank payload, a JSON error or an unknown mode writes nothing to stdout and exits 1, with the exact message on stderr. |
| PyBridge.MainSetupRaises | python/bridge.py:61-125 | When a known mode's setup raises, from the segment duration's `float()` or from `find_matching_files`, `main` writes nothing to stdout and exits 1 with the exception's text. |
| PyBridge.MainExitZero | python/bridge.py:171-190 | The exit status is 0 exactly when a known mode ran with nothing raising, neither in its setup nor in a job. The last line is then a `done` carrying exactly the records streamed before it. |
| PyBridge.FinishedPrefix | python/bridge.py:95-97 | Counts the futures that finish before the first raise. Every future before that point finished, and the one at that point raised. |
| Wire.RejectedResultIgnored | src-tauri/src/lib.rs:525-576 | A `result` line that serde rejects does not decode. That is a line whose elapsed time is negative or 2^64 or more, or whose delay `json.dumps` wrote as `NaN` or `Infinity`. The host logs "Invalid bridge message: " with the error and keeps its list. The run ends exactly as it would without that line. |
| Wire.NonFiniteDoneIgnored | src-tauri/src/lib.rs:525-576 | A `done` line whose list holds a `NaN` or infinite delay does not decode. The host logs it as invalid and keeps the list it had built, and the run ends exactly as it would without that line. |
| Wire.StreamedSyncResults | src-tauri/src/lib.rs:551-569 | For a stream of non-`done` lines that all decode, the host streams the Python records' `SyncResult`s with their elapsed times, and sees no `Done`. |
| Wire.HostSeesRun | src-tauri/src/lib.rs:570-585 | A clean Python run ending in a decoded `done` makes the host return that `done` list. |
| Wire.StreamedOfCleanRun | src-tauri/src/lib.rs:559-568 | What the host streams for a clean run is the `SyncResult` of every record the bridge streamed. |
| Wire.AsWrittenDropsElapsed | python/bridge.py:99-111 | As written, a clean run returns the `done` records with every `elapsedMs` None, while its "sync-result" events carried the elapsed times. |
| Wire.CorrectedKeepsStreamed | src-tauri/src/lib.rs:39-46 | With the key corrected, a clean run returns exactly the list it streamed, elapsed times included. |
| Wire.ElapsedLostExample | python/bridge.py:99-111 | One job that took 1500 ms is streamed with `Some(1500)`, and the returned list has `None`. |

## Left out

- The native dialogs (`pick_folder_async`, `pick_file_async`, `save_file_async`) are not modelled. Their answers are inputs (`folder`, `file`). The "Export canceled" error and the `fs::write` of the CSV text are left out with them.
- Finding the bridge, spawning the child and talking to it are not modelled: path probing, `Command::spawn`, writing the request to stdin, `child.kill`, `spawn_blocking`. The JSON request sent on stdin is not modelled either.
- The stderr reader thread (src-tauri/src/lib.rs:506-511) is concurrent I/O and is not modelled.
- serde and `json.loads` / `json.dumps` are foreign libraries, so they are parameters. `Wire.Faithful` is the one assumption about them: each written line decodes to the message the field mapping gives.
- The I/O errors that `reader.lines().flatten()` and `entries.flatten()` skip are not modelled. The model sees only the lines and entries that were read.
- The stream's line splitting by `BufReader::lines` is not modelled. The observations are already lines.
- `fs::read_dir`, `fs::metadata`, `Path::is_file` and `file_name` are inputs: each `DirEntry` carries its name, path, regular-file flag and size. A symlink counts as whatever `is_file` reported.
- Listing.Lower: only ASCII letters and the Kelvin sign are lower-cased. Those are the only characters whose lower case can help make an extension in the list, so the filter's result is exact, but `Lower` itself differs from Rust's `to_lowercase` on other characters.
- Floating point is not modelled. Delays are opaque 64-bit patterns, `f64::to_string` is the `Render` parameter, and the value of `segment_duration` is left out: once converted it only reaches the analyzer. Whether the `float()` conversion raises is modelled, because it runs before the guards (python/bridge.py:61, python/bridge.py:118).
- `time.time()` is not modelled. Each job's elapsed time is part of its outcome, as an unbounded integer. It may be negative, because the wall clock can step back between the two readings.
- `series_logic.find_matching_files` and `process_pair` are not part of this model. They are the `Matcher` and `Analyzer` parameters.
- The workers' own `file_start`, `file_progress` and `file_end` lines, `_emit_lock`, and how worker lines interleave with the main thread's are not modelled. Only the main thread's events are. The host side of those messages is still covered by `BridgeConsumer`.
- `ThreadPoolExecutor` and `as_completed` are the `Schedule` parameter: any permutation of the submitted jobs.
- The `AtomicBool` cancel flag is the value observed at each line.
- `os.path` is modelled for POSIX paths only.
- Request values that are not strings or lists of strings are not modelled. Neither is a payload that is valid JSON but not an object, where `request.get` would raise.
- An uncaught exception's traceback is represented by the exception's text.
- PyBridge.ListMovieVideos requires a folder when the explicit list is empty. Every caller checks this first (python/bridge.py:67-69). Called without one, the source would fail inside `os.path.join`.
- The Tauri `run()` builder, `probe_media`, `open_output_folder` and `start_sync`'s reset of the cancel flag are outside this core.

## Findings

| source | as written | input that shows it | evidently intended | confidence | as-written member | corrected member |
|---|---|---|---|---|---|---|
| python/bridge.py:99,111 against src-tauri/src/lib.rs:39-46 | Each record in the `done` list stores its time under "elapsed_ms". `SyncResult` reads "elapsedMs", which is then missing and becomes None, so for a batch whose delays are all finite, the list `run_bridge` returns has no elapsed times. The "sync-result" events of the same run had them, because the `Result` variant reads "elapsed_ms". In a batch with a `NaN` or infinite delay, that record's result line and the `done` line are both rejected, and the host returns the other streamed results with their elapsed times (`Wire.RejectedResultIgnored`, `Wire.NonFiniteDoneIgnored`). | one movie job that finishes in 1500 ms | the final list keeps every streamed elapsed time | not executed | Wire.DecodeAsWritten, Wire.AsWrittenDropsElapsed, Wire.ElapsedLostExample | Wire.DecodeCorrected, Wire.CorrectedKeepsStreamed |
