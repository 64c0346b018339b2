# YT-Downloader in Dafny

A model of the bookkeeping and decision logic of YT-Downloader, a Qt desktop
front end for yt-dlp. It covers:

- the download record and its JSON form;
- the capped download history kept by `QueueManager`;
- the background loop that drains the download queue;
- the yt-dlp glue: the format list, the forced download options, the progress hook and the worker signals;
- the self-update check against the latest GitHub release and its version comparison;
- the main window's format selection, yt-dlp options, format list, duration label and thumbnail pick;
- the history and queue windows: filters, rows, summary labels, context menus and handlers;
- the update notifier's one-hour throttle and skipped-version gate, and the update window's buttons;
- the loading button with its spinner.

Each source file is one module:

| module | source file |
|---|---|
| `Downloads` | queue_manager.py |
| `QueueProcessing` | queue_worker.py |
| `YtDl` | ytdl_worker.py |
| `Releases` | github_release_manager.py |
| `MainWindowLogic` | ui_main_window.py |
| `History` | history_dialog.py |
| `QueueView` | queue_dialog.py |
| `Updates` | update_dialog.py |
| `Spinner` | loading_widget.py |

Four helper modules sit underneath:

- `Wrappers`: Option and Result.
- `PyValues`: JSON-like Python values, `dict.get` and truthiness.
- `PyText`: `int()`, `str.split`, `strip`, `lower`, `title`, slicing and `%02d`.
- `IsoDateTime`: a naive `datetime` with `isoformat` and `fromisoformat`.

Objects whose fields the source updates in place are classes with those
fields: `QueueManager`, `QueueWorker`, `YtDlWorker`, `InfoWorker`,
`GitHubReleaseManager`, `UpdateCheckerThread`, `MainWindow`, `HistoryDialog`,
`QueueDialog`, `UpdateNotifier`, `UpdateDialog` and `LoadingButton`. Qt
signals are appended to an event log field. Each method is proved against a
function of its inputs and old state, and the properties are lemmas about
those functions.

Points where the code behaves in ways its names do not suggest, which the
model follows:

- **No active queue.** queue_manager.py keeps only a history list and defines
  no queue. Yet queue_worker.py:41-74 calls `get_next_pending`,
  `update_item_status` and `move_to_history`. queue_dialog.py:98-250 also
  calls `get_queue`, `remove_from_queue` and `_save_queue`. Those calls are
  modelled as recorded events, and what they return is an input.
- **Retry targets the history.** `retry_failed_download` appends the new
  PENDING record to the history, not to a queue.
- **Retry does not check the status.** The method itself accepts any item.
  Only the windows check for FAILED.
- **"Clear completed" keeps only FAILED entries.** It also drops PENDING
  retries, not only completed and cancelled entries.
- **Unset timestamps are written as null.** `asdict` writes every field, so
  an unset timestamp is stored as null rather than left out.
- **Only the history is persisted.** There is no second file for a queue.

## Model

| member | source | states |
|---|---|---|
| Downloads.StatusFromValue | queue_manager.py:12-17 | `DownloadStatus(v)` gives back the member whose value is `v`; any other string is a ValueError (None) |
| Downloads.StatusRoundTrip | queue_manager.py:12-17 | every status decodes from its stored tag to itself |
| Downloads.ToDict | queue_manager.py:38-46 | `to_dict` has exactly the dataclass's fields as keys; the status is stored as its tag and set timestamps in ISO form |
| Downloads.OptTimeRoundTrip | queue_manager.py:42-45 | an optional timestamp stored by `to_dict` is read back by `from_dict`'s truthiness test and `fromisoformat`; a null stays unset |
| Downloads.LifecycleFieldsStored | queue_manager.py:40-45 | the status, `added_at`, `started_at` and `completed_at` entries of the record |
| Downloads.ConvertRoundTrip | queue_manager.py:50-56 | the conversions at the head of `from_dict` recover the status and the three timestamps from a stored record |
| Downloads.RequestFieldsStored | queue_manager.py:38-39 | url, title, uploader and output path are stored unchanged |
| Downloads.MediaFieldsStored | queue_manager.py:38-39 | duration, thumbnail URL, selected format and options are stored unchanged |
| Downloads.ResultFieldsStored | queue_manager.py:38-39 | the error message is stored unchanged |
| Downloads.SizeFieldsStored | queue_manager.py:38-39 | file size and download speed are stored unchanged |
| Downloads.ConstructRoundTrip | queue_manager.py:57 | `cls(**data)` on a stored record rebuilds the item, with no unknown or missing keyword |
| Downloads.RecordRoundTrip | queue_manager.py:38-57 | `from_dict(to_dict(item))` reproduces every field of every item |
| Downloads.DecodeAll | queue_manager.py:81 | the list comprehension succeeds exactly when every record decodes, and then has one item per record, in order |
| Downloads.Records | queue_manager.py:91 | one stored record per history entry |
| Downloads.DecodeRecords | queue_manager.py:81-91 | decoding the saved records gives back the history |
| Downloads.SaveLoadRoundTrip | queue_manager.py:74-93 | saving a history to a writable file and loading it again gives the same history |
| Downloads.Capped | queue_manager.py:97-100 | the capped history is the last `min(n, 100)` entries, oldest dropped first |
| Downloads.AppendKeepsNewest | queue_manager.py:97-100 | after an append the item is last, the length is at most 100, and the survivors are the newest of the old entries |
| Downloads.FailedOnly | queue_manager.py:106 | the kept entries are exactly the FAILED ones, in their original order |
| Downloads.FailedOnlyIdempotent | queue_manager.py:106 | clearing completed entries twice is the same as clearing once |
| Downloads.RetryOf | queue_manager.py:124-135 | the retry record copies the request fields, is PENDING, is added now, and has every result field unset |
| Downloads.RetryDependsOnRequestOnly | queue_manager.py:124-135 | two items with the same request give the same retry record at the same moment |
| Downloads.QueueManager.constructor | queue_manager.py:61-83 | the history is what the file holds; a missing, unreadable or undecodable file gives an empty history |
| Downloads.QueueManager.SaveHistory | queue_manager.py:87-93 | the file afterwards holds the history's records, or its old content when it cannot be written |
| Downloads.QueueManager.AddToHistory | queue_manager.py:95-102 | the new history is the capped append with the item last, and it is saved |
| Downloads.QueueManager.ClearCompletedHistory | queue_manager.py:104-107 | only the FAILED entries stay, in order, and the result is saved |
| Downloads.QueueManager.ClearAllHistory | queue_manager.py:109-112 | the history is empty and saved empty |
| Downloads.QueueManager.GetHistory | queue_manager.py:114-116 | returns the history and changes nothing |
| Downloads.QueueManager.GetFailedDownloads | queue_manager.py:118-120 | exactly the FAILED entries, in history order |
| Downloads.QueueManager.RetryFailedDownload | queue_manager.py:122-137 | returns the retry record, appends it with the cap, and saves |
| QueueProcessing.HookEvents | queue_worker.py:26-35 | the hook emits progress only with a current item and status "downloading", for that item, with the parsed percent |
| QueueProcessing.DownloadProgress | queue_worker.py:26-35 | the hook calls of one download emit at most one progress signal each, all for that item |
| QueueProcessing.CountSkipsProgress | queue_worker.py:26-35 | progress signals do not change a count of other events |
| QueueProcessing.ItemCount | queue_worker.py:41-77 | how many events of one kind a processed item produces |
| QueueProcessing.ItemEventCounts | queue_worker.py:41-77 | each item gives one fetch, one start, one move to history, one completion and no `queue_finished` |
| QueueProcessing.ItemOrder | queue_worker.py:41-77 | fetch, DOWNLOADING, `item_started` and the download come first; then progress for that item; then COMPLETED or FAILED with the message, the move, and the completion signal with its flag and text |
| QueueProcessing.LoopCounts | queue_worker.py:39-80 | every fetched item is started, moved and reported once; one extra fetch happens exactly when the manager ran dry |
| QueueProcessing.FinishedOnceAndLast | queue_worker.py:37-82 | `queue_finished` is emitted exactly once, as the last event, on every path |
| QueueProcessing.StopAfterCurrentItem | queue_worker.py:22-80 | a stop during item `j` lets it finish, and nothing is fetched after it |
| QueueProcessing.StoppedRunsNothing | queue_worker.py:37-82 | with the flag already set, `run` only emits `queue_finished` |
| QueueProcessing.QueueWorker.constructor | queue_worker.py:16-20 | the stop flag is clear, there is no current item and no event |
| QueueProcessing.QueueWorker.Stop | queue_worker.py:22-24 | sets the flag and nothing else |
| QueueProcessing.QueueWorker.Hook | queue_worker.py:26-35 | appends the hook's progress signal, if any |
| QueueProcessing.QueueWorker.RunHooks | queue_worker.py:26-35 | appends the progress of a whole download |
| QueueProcessing.QueueWorker.Complete | queue_worker.py:66-75 | appends the final status, the move and the completion signal of the path taken |
| QueueProcessing.QueueWorker.ProcessItem | queue_worker.py:45-77 | one item's events after the fetch; the current item is cleared afterwards |
| QueueProcessing.QueueWorker.FetchAndProcess | queue_worker.py:41-80 | one pass of the loop body: a fetch, and the item's events when there is one |
| QueueProcessing.QueueWorker.Run | queue_worker.py:37-82 | the whole log of `run` and the final stop flag |
| YtDl.Resolution | ytdl_worker.py:29 | the source's resolution when truthy, else the width, "x" and the height, each rendered, with "?" for a missing key |
| YtDl.ResolutionMissingSizes | ytdl_worker.py:29 | a format with no width or height gets "?" on that side; with neither it gets "?x?" |
| YtDl.ResolutionFallback | ytdl_worker.py:29 | the fallback text splits at "x" into the width and the height |
| YtDl.FormatRecord | ytdl_worker.py:24-37 | each record has exactly the copied keys plus `resolution` |
| YtDl.FormatList | ytdl_worker.py:20-39 | one record per format, in order; a non-list raises, and so does a non-dict entry |
| YtDl.NoFormatsNoRecords | ytdl_worker.py:21 | a missing, None or empty `formats` gives an empty list |
| YtDl.ListFormats | ytdl_worker.py:20-39 | the loop gives the same list as the mapping |
| YtDl.WithDownloadOverrides | ytdl_worker.py:63-69 | the stored options, with the four forced keys overriding |
| YtDl.OverridesIdempotent | ytdl_worker.py:63-69 | overlaying twice is the same as overlaying once |
| YtDl.PercentReadsWholePart | ytdl_worker.py:55 | "45.3%" reads as 45 |
| YtDl.HookReport | ytdl_worker.py:52-60 | a report only for "downloading", with the parsed percent; speed and ETA default to "?" |
| YtDl.HookEvents | ytdl_worker.py:52-60 | at most one progress signal per hook call, exactly when the status is "downloading" |
| YtDl.ProgressEvents | ytdl_worker.py:52-60 | the hook calls of a download emit only progress signals |
| YtDl.Completion | ytdl_worker.py:70-76 | success gives `done(True, ...)` alone; failure gives `error(msg)` and then `done(False, ...)` |
| YtDl.CompletionEndsWithOneDone | ytdl_worker.py:70-76 | exactly one `done`, last, whose flag is the outcome |
| YtDl.YtDlWorker.constructor | ytdl_worker.py:47-50 | the worker keeps its URL and its own copy of the options |
| YtDl.YtDlWorker.Hook | ytdl_worker.py:52-60 | appends the hook's signal |
| YtDl.YtDlWorker.RunHooks | ytdl_worker.py:52-60 | appends the download's progress |
| YtDl.YtDlWorker.Run | ytdl_worker.py:62-76 | the download with the overlaid options, then its progress, then the completion signals |
| YtDl.ProbeUrlMetadata | ytdl_worker.py:12-17 | any extraction error becomes None |
| YtDl.InfoSignal | ytdl_worker.py:87-94 | non-empty info is emitted; anything else gives the "Failed to extract video info" error |
| YtDl.InfoIffExtracted | ytdl_worker.py:87-94 | the info is reported exactly when extraction returned a non-empty dictionary |
| YtDl.InfoWorker.constructor | ytdl_worker.py:83-85 | the worker keeps its URL and has no event yet |
| YtDl.InfoWorker.Run | ytdl_worker.py:87-94 | appends that one signal |
| Releases.Parsed | github_release_manager.py:65-66 | `int(x)` for each dotted piece |
| Releases.AllParsed | github_release_manager.py:65-66 | the component list exists exactly when every piece parses |
| Releases.Padded | github_release_manager.py:69-70 | the list is extended with zeros to the given length |
| Releases.Lex | github_release_manager.py:72-78 | the result is 1, -1 or 0 |
| Releases.VersionCompare | github_release_manager.py:62-80 | the result is 1, -1 or 0, and 0 when either version does not parse |
| Releases.CompareComponents | github_release_manager.py:72-78 | the loop with early returns computes the lexicographic comparison |
| Releases.CompareVersions | github_release_manager.py:62-80 | `_compare_versions` as a method equals the comparison function |
| Releases.LexZeroIffEqual | github_release_manager.py:72-78 | equal-length lists compare 0 exactly when they are equal |
| Releases.LexDecidedAt | github_release_manager.py:72-78 | the first differing component decides the result |
| Releases.LexAntisymmetric | github_release_manager.py:72-78 | swapping the lists negates the result |
| Releases.LexTransitive | github_release_manager.py:72-78 | greater-than is transitive |
| Releases.LexAppendZero | github_release_manager.py:68-70 | one more zero on both sides changes nothing |
| Releases.CompareTrailingZero | github_release_manager.py:68-78 | a trailing zero component does not change a comparison |
| Releases.AllParsedAppend | github_release_manager.py:65-66 | one more integer piece adds one more component |
| Releases.SplitAppendZero | github_release_manager.py:65 | `(v + ".0").split(".")` is `v.split(".")` plus "0" |
| Releases.VersionPartsAppendZero | github_release_manager.py:65 | `v + ".0"` parses to the components of `v` plus 0 |
| Releases.TrailingZeroComponent | github_release_manager.py:62-80 | "1.0.0" compares as "1.0", against any version |
| Releases.VersionReflexive | github_release_manager.py:62-80 | every version compares equal to itself |
| Releases.VersionAntisymmetric | github_release_manager.py:62-80 | swapping the versions negates the result |
| Releases.FirstInstallerChosen | github_release_manager.py:46-51 | the loop stops at the first asset with an .exe or .zip name, after skipping only assets without one |
| Releases.NoInstallerIffAllSkipped | github_release_manager.py:46-54 | nothing is found exactly when every asset is skipped |
| Releases.LatestVersion | github_release_manager.py:38 | the tag with its leading 'v's stripped, when the tag is a string |
| Releases.Offer | github_release_manager.py:45-54 | an update exactly when an installer asset is found, with its URL; a failing asset leaves the release recorded and raises |
| Releases.CheckVersion | github_release_manager.py:40-56 | an update exactly when the version is non-empty, newer than the current one and the release lists an installer, with the outcome of the asset scan; otherwise nothing is recorded |
| Releases.CheckRelease | github_release_manager.py:37-56 | an update carries the stripped tag, newer than the current version, and the release itself |
| Releases.Check | github_release_manager.py:28-60 | no update unless the reply is 200 with a JSON object, and an update carries that object |
| Releases.EmptyTagNoUpdate | github_release_manager.py:38-42 | a tag that is empty once stripped ("", "v", "vv") gives no update |
| Releases.LStripOnly | github_release_manager.py:38 | stripping a string made only of 'v' leaves nothing |
| Releases.NoAssetNoUpdate | github_release_manager.py:45-54 | a newer release without an installer asset gives no update and records nothing |
| Releases.GitHubReleaseManager.constructor | github_release_manager.py:23-26 | no release and no download URL recorded |
| Releases.GitHubReleaseManager.ScanForInstaller | github_release_manager.py:46-54 | the asset loop over a list has the outcome, fields and signals of `Offer` |
| Releases.GitHubReleaseManager.ScanAssetValue | github_release_manager.py:45-54 | the same over whatever `assets` holds |
| Releases.GitHubReleaseManager.CheckParsedRelease | github_release_manager.py:37-56 | `check_for_updates` after the reply parsed |
| Releases.GitHubReleaseManager.CheckNewer | github_release_manager.py:40-56 | the rest of `check_for_updates` after the tag is stripped |
| Releases.GitHubReleaseManager.CheckForUpdates | github_release_manager.py:28-60 | the return value, the two fields and the `update_available` signal are those of the decision `Check` |
| Releases.ExtractedIffZipUrl | github_release_manager.py:95-110 | the file is `update.zip`, and is extracted, exactly when the URL ends in ".zip"; otherwise it is `update.exe` |
| Releases.CheckerEvents | github_release_manager.py:170-179 | `check_completed(True)` first; `update_found` with the raw tag and URL second, exactly when there is an update |
| Releases.UpdateCheckerThread.constructor | github_release_manager.py:166-168 | the thread keeps its manager and has emitted nothing |
| Releases.UpdateCheckerThread.Run | github_release_manager.py:170-182 | after one check: the manager's two fields, its `update_available` log extended by what the check announced, and the thread's `check_completed`/`update_found` signals |
| MainWindowLogic.FormatSelection | ui_main_window.py:335-353 | None for index -1 or empty data; a video-only format gets "+bestaudio/best" appended |
| MainWindowLogic.MergedSelectionNamesFormat | ui_main_window.py:346-351 | a video-only format is asked for as `<id>+bestaudio/best` |
| MainWindowLogic.PlainSelectionIsFormatId | ui_main_window.py:352-353 | any other non-empty format is asked for by its id as it stands |
| MainWindowLogic.DataAt | ui_main_window.py:340 | `itemData` comes from an entry row inside the combo |
| MainWindowLogic.IsAudio | ui_main_window.py:318-319 | no format is both a video and an audio quality |
| MainWindowLogic.SortedBy | ui_main_window.py:322-330 | the sort succeeds exactly when the keys compare; the result is a permutation sorted by the key, descending |
| MainWindowLogic.Entries | ui_main_window.py:322-332 | one row per format, in order, carrying the format |
| MainWindowLogic.LayoutIndexing | ui_main_window.py:321-332 | video rows first, the separator at `len(video)` only when both groups have rows, audio rows after it |
| MainWindowLogic.IntendedRowsOrdered | ui_main_window.py:314-333 | intended layout: every video format tallest first, then every audio format by bitrate |
| MainWindowLogic.NumericKeysLayOutAsIntended | ui_main_window.py:314-333 | when every key is a number, the code lays out the intended rows and raises nothing |
| MainWindowLogic.NoneHeightRaises | ui_main_window.py:322 | two video formats, one with `height: None`, leave the combo empty with a TypeError |
| MainWindowLogic.NoneBitrateRaises | ui_main_window.py:330 | an audio format with `abr: None` among two or more keeps the video rows and raises TypeError |
| MainWindowLogic.Seconds | ui_main_window.py:297 | `int(duration)`: ints as they are, floats truncated, strings only when they parse |
| MainWindowLogic.DurationText | ui_main_window.py:294-299 | "--:--" for None; otherwise it succeeds exactly when `int()` does |
| MainWindowLogic.DurationReadsBack | ui_main_window.py:297-298 | the label splits at ':' into minutes and seconds that rebuild the duration |
| MainWindowLogic.ClockReadsBack | ui_main_window.py:298 | `%02d:%02d` splits and parses back to both numbers |
| MainWindowLogic.WidestUrl | ui_main_window.py:544 | the sort succeeds exactly when every width is a number |
| MainWindowLogic.ThumbnailUrl | ui_main_window.py:541-545 | None without info or without thumbnails |
| MainWindowLogic.ThumbnailIsLastWidest | ui_main_window.py:541-545 | the URL is that of a widest thumbnail, the last of equal widths |
| MainWindowLogic.PathJoin | ui_main_window.py:363 | an absolute second part replaces the first |
| MainWindowLogic.OutputTemplateNestsUnderBase | ui_main_window.py:362-363 | every download goes to `<base>/<title>/<title>.<ext>` |
| MainWindowLogic.SponsorList | ui_main_window.py:389 | the seven SponsorBlock categories, in order |
| MainWindowLogic.BaseOpts | ui_main_window.py:365-376 | the dictionary literal has exactly its ten keys |
| MainWindowLogic.YdlOpts | ui_main_window.py:355-401 | options exist exactly when the concurrency setting parses as an integer |
| MainWindowLogic.YdlOptsKeys | ui_main_window.py:365-399 | the keys: the literal's, both SponsorBlock keys when it is on, `ffmpeg_location` when set |
| MainWindowLogic.YdlOptsFormat | ui_main_window.py:356-360 | the selection when truthy, else "bestvideo+bestaudio/best" |
| MainWindowLogic.YdlOptsSubtitles | ui_main_window.py:372-373 | subtitles are written exactly when some are selected; the languages are the selection or ["en"] |
| MainWindowLogic.YdlOptsAudio | ui_main_window.py:379-385 | the mp3 extraction step is there exactly when the current quality is audio only |
| MainWindowLogic.YdlOptsSponsorBlock | ui_main_window.py:387-391 | with SponsorBlock on, the same seven categories are marked and removed |
| MainWindowLogic.YdlOptsFfmpeg | ui_main_window.py:396-399 | the ffmpeg location is passed on as it is |
| MainWindowLogic.DefaultConcurrency | ui_main_window.py:159 | with the default settings, four fragments are fetched at once |
| MainWindowLogic.YdlOptsConcurrency | ui_main_window.py:368 | the parsed concurrency is passed on as it is |
| MainWindowLogic.MainWindow.constructor | ui_main_window.py:39-173 | the initial state fields; the output directory is ~/Downloads; the idle UI state |
| MainWindowLogic.MainWindow.SetEnabledStates | ui_main_window.py:226-231 | URL, Search and Settings are enabled exactly when not analyzing; Download and Add-to-Queue exactly when there is info and no analysis; the combo exactly when there is info |
| MainWindowLogic.MainWindow.UpdateUiState | ui_main_window.py:224-246 | the enable rules, the Search button's loading state, and the progress bar's range, value and format in each branch |
| MainWindowLogic.MainWindow.OnFormatSelected | ui_main_window.py:335-353 | `selected_format` becomes the selection for the current combo row |
| MainWindowLogic.MainWindow.AddRows | ui_main_window.py:322-332 | `addItem` appends the rows, and the first row of an empty combo becomes current |
| MainWindowLogic.MainWindow.PopulateFormats | ui_main_window.py:314-333 | the combo and the exception are those of the layout function |
| MainWindowLogic.MainWindow.BuildYdlOpts | ui_main_window.py:355-401 | the options are those of `YdlOpts` for the window's state |
| History.StatusTitles | history_dialog.py:150 | `.title()` of each status tag is its capitalised word |
| History.StatusFilterSelects | history_dialog.py:127-128 | a status filter passes an item exactly when the item has that status |
| History.InProgressOnlyUnderAll | history_dialog.py:124-128 | pending and downloading entries pass only the "All" filter |
| History.SearchByTitle | history_dialog.py:122-134 | an entry's lowered title finds it; a query longer than title and channel finds nothing |
| History.Visible | history_dialog.py:124-136 | the shown rows are exactly the entries passing both filters, each as often as in the history, in history order |
| History.NoFilterShowsAll | history_dialog.py:121-136 | "All" with an empty search shows the whole history |
| History.FindAfterDigits | history_dialog.py:174 | the first 'm' of a duration cell follows the minutes |
| History.DurationCellReadsBack | history_dialog.py:171-176 | a positive duration's "Mm Ss" cell reads back as that duration |
| History.Cells | history_dialog.py:140-199 | one row per shown entry |
| History.ActionRules | history_dialog.py:188-245 | Re-download always; Retry exactly for FAILED entries; copy and open always; Show Error exactly for a non-empty message |
| History.StatusCountsPartition | history_dialog.py:202-207 | the five status counts add up to the total |
| History.FailedCountIsRetryCount | history_dialog.py:202-207 | the failed count is the number of entries "Retry all failed" retries |
| History.RetryTargetIsShownRow | history_dialog.py:190-255 | indexing the shown rows, a retry happens exactly for a row showing a Retry button, on that row's entry |
| History.UnfilteredRowsAgree | history_dialog.py:249-262 | with no filter, rows index the history correctly |
| History.FilteredRowIndexesWholeHistory | history_dialog.py:190-262 | with a filter, the Retry button does nothing and Re-download picks a different entry |
| History.Retries | history_dialog.py:289-290 | one retry record per failed entry |
| History.RetriedAllAppends | history_dialog.py:289-290 | below the cap, retry-all appends the retry records in order |
| History.RetryAllKeepsFailures | history_dialog.py:289-290 | retry-all adds no failure and loses none |
| History.HistoryDialog.constructor | history_dialog.py:32-43 | filter "All", empty search, and the table drawn from the whole history |
| History.HistoryDialog.FilterItems | history_dialog.py:124-136 | the filter loop gives the shown rows |
| History.HistoryDialog.DrawRows | history_dialog.py:140-199 | the row loop gives the cells |
| History.HistoryDialog.RefreshTable | history_dialog.py:116-208 | the table and the label are redrawn from the current history |
| History.HistoryDialog.SetStatusFilter | history_dialog.py:112-114 | changing the filter redraws |
| History.HistoryDialog.SetSearchText | history_dialog.py:112-114 | typing redraws |
| History.HistoryDialog.RedownloadItemByItem | history_dialog.py:264-267 | emits the request and closes |
| History.HistoryDialog.RedownloadItem | history_dialog.py:257-262 | as written: the row indexes the whole history |
| History.HistoryDialog.RetryItemByItem | history_dialog.py:269-273 | a FAILED entry is retried and the table redrawn; otherwise nothing |
| History.HistoryDialog.RetryItem | history_dialog.py:249-255 | as written: the row indexes the whole history |
| History.HistoryDialog.RetryShownItem | history_dialog.py:249-255 | corrected: the row indexes the shown rows |
| History.HistoryDialog.RetryEach | history_dialog.py:289-290 | each item retried in turn, saved after each |
| History.HistoryDialog.RetryAllFailed | history_dialog.py:275-291 | only informs with no failure; once confirmed, retries every failure in order and redraws |
| History.HistoryDialog.ClearCompleted | history_dialog.py:293-303 | once confirmed, only FAILED entries stay |
| History.HistoryDialog.ClearAll | history_dialog.py:305-315 | once confirmed, the history is empty |
| QueueView.Cells | queue_dialog.py:101-152 | one row per queued entry |
| QueueView.ActionsExclusive | queue_dialog.py:142-193 | at most one button: Remove exactly for PENDING, Retry exactly for FAILED; the menu follows the buttons |
| QueueView.ProgressOnlyWhileDownloading | queue_dialog.py:120-149 | a progress bar exactly while downloading, and then no button |
| QueueView.CancelledOnlyInTotal | queue_dialog.py:155-160 | the four shown counts fall short of the total by the cancelled entries |
| QueueView.CompletedOnly | queue_dialog.py:248-249 | exactly the completed entries, each as often as in the queue, in queue order |
| QueueView.MoveCalls | queue_dialog.py:250 | one move per entry, in order |
| QueueView.ClearMovesOnlyCompleted | queue_dialog.py:247-250 | an entry is moved exactly when it is queued and completed |
| QueueView.QueueDialog.constructor | queue_dialog.py:30-94 | Start enabled, Pause disabled, table drawn |
| QueueView.QueueDialog.DrawRows | queue_dialog.py:101-152 | the row loop gives the cells |
| QueueView.QueueDialog.RefreshTable | queue_dialog.py:96-161 | the table and label are redrawn from the queue |
| QueueView.QueueDialog.StartQueue | queue_dialog.py:226-230 | Start disabled, Pause enabled |
| QueueView.QueueDialog.PauseQueue | queue_dialog.py:232-235 | Start enabled, Pause disabled |
| QueueView.QueueDialog.RemoveItem | queue_dialog.py:197-203 | the removal is asked for; after an IndexError the table is not redrawn |
| QueueView.QueueDialog.RemoveItemByItem | queue_dialog.py:205-210 | a queued entry is removed, the queue saved and the table redrawn; otherwise nothing |
| QueueView.QueueDialog.RetryItemByItem | queue_dialog.py:220-224 | a FAILED entry is retried through the history store; otherwise nothing |
| QueueView.QueueDialog.RetryItem | queue_dialog.py:212-218 | rows out of range and entries that have not failed are ignored |
| QueueView.QueueDialog.RetryFailed | queue_dialog.py:253-269 | only informs with no failure; once confirmed, retries every failure in order and redraws |
| QueueView.QueueDialog.MoveCompleted | queue_dialog.py:247-250 | the loop moves the completed entries, in order |
| QueueView.QueueDialog.ClearCompleted | queue_dialog.py:237-251 | once confirmed, the completed entries are moved and the table redrawn |
| Updates.AcceptedAfterLast | update_dialog.py:231-235 | every accepted check is at least an hour after the previous one |
| Updates.AcceptedAnHourApart | update_dialog.py:225-235 | accepted checks are an hour apart, and the first call ever is accepted |
| Updates.AsWrittenNeverStartsChecker | update_dialog.py:8-238 | as written: no checker ever starts; each accepted call records the time and raises NameError |
| Updates.IntendedStartsEachAccepted | update_dialog.py:235-243 | corrected: one checker per accepted call, and the same recorded times |
| Updates.SkipThenSkipped | update_dialog.py:187-272 | after skipping a version, exactly that version counts as skipped |
| Updates.SaveKeepsOtherKeys | update_dialog.py:194-203 | saving keeps every other key of the config |
| Updates.SkippedNeverOpens | update_dialog.py:245-254 | a skipped version never opens the dialog |
| Updates.UpdateNotifier.constructor | update_dialog.py:221-225 | no check has been made yet |
| Updates.UpdateNotifier.CheckForUpdates | update_dialog.py:227-238 | as written: the throttle, then the time recorded and a NameError |
| Updates.UpdateNotifier.CheckForUpdatesIntended | update_dialog.py:227-243 | corrected: the throttle, then the time recorded and a checker started |
| Updates.UpdateNotifier.OnUpdateFound | update_dialog.py:245-254 | a dialog opens exactly when the version is not skipped, `show_dialog` is set and there is a parent |
| Updates.UpdateDialog.constructor | update_dialog.py:13-19 | all three buttons enabled, no progress shown |
| Updates.UpdateDialog.StartUpdate | update_dialog.py:100-117 | the three buttons disabled, progress shown from 0, the start logged |
| Updates.UpdateDialog.OnDownloadFinished | update_dialog.py:119-149 | the log and error of each outcome; all three buttons enabled again whatever happened |
| Updates.UpdateDialog.RemindLater | update_dialog.py:177-179 | the dialog is accepted |
| Updates.UpdateDialog.SkipVersion | update_dialog.py:181-206 | the version is saved as skipped and the dialog accepted |
| Spinner.Rotated | loading_widget.py:99 | the angle stays in [0, 360) and nothing else changes |
| Spinner.WithText | loading_widget.py:176-180 | the text is always stored, and shown only when not loading |
| Spinner.WithLoading | loading_widget.py:154-174 | loading disables and spins with the old label still shown and the stored text emptied; stopping shows the stored text, resets the angle and enables |
| Spinner.TicksAngle | loading_widget.py:97-99 | after n ticks the angle is the start plus 15n, modulo 360 |
| Spinner.FullTurn | loading_widget.py:97-99 | 24 ticks are one full turn |
| Spinner.LoadingCycleLosesLabel | loading_widget.py:154-180 | as written: after a loading cycle the button shows "" |
| Spinner.TextSetWhileLoadingIsShown | loading_widget.py:176-180 | a text set while loading is shown afterwards |
| Spinner.WithLoadingIntended | loading_widget.py:154-174 | corrected: the label is blanked while loading and the stored text kept |
| Spinner.LoadingCycleRestoresLabel | loading_widget.py:154-174 | corrected: a loading cycle restores the label |
| Spinner.CentredOffset | loading_widget.py:182-189 | the spinner is centred to within a pixel |
| Spinner.LoadingButton.constructor | loading_widget.py:17-37 | shows the text, not loading, angle 0, spinner hidden, enabled |
| Spinner.LoadingButton.Rotate | loading_widget.py:97-99 | `rotate` |
| Spinner.LoadingButton.SetText | loading_widget.py:176-180 | `setText` |
| Spinner.LoadingButton.SetLoading | loading_widget.py:154-174 | `setLoading` as written |
| Spinner.LoadingButton.ResizeEvent | loading_widget.py:182-189 | the spinner is moved to the centred offsets |
| IsoDateTime.IsoRoundTrip | queue_manager.py:41-52 | `fromisoformat(isoformat(d)) == d` |
| IsoDateTime.MinuteStampIsIsoPrefix | history_dialog.py:160-165 | the "%Y-%m-%d %H:%M" cell is the ISO form up to the minutes, with a space for the 'T' |
| PyText.Truncate | history_dialog.py:142 | titles over the limit keep the first n characters plus "..."; shorter titles are unchanged |
| PyText.TitleIdempotent | history_dialog.py:127 | `.title()` applied twice is the same as once |

## Left out

- I/O is abstracted, not modelled:
  - the history file and the update config are abstract states (missing, unparsable or JSON);
  - a `writable` flag stands for write errors the source swallows;
  - JSON text, encoding and `indent` are not modelled.
- Threads and signals are modelled as a sequential log:
  - the hook calls during a download, and whether `stop()` arrives during one, are script inputs;
  - concurrency between the UI and the worker is not modelled.
- Clocks are parameters. All items retried by one retry-all share one `now`; the source calls `datetime.now()` for each item. Log timestamps and `strftime("%H:%M:%S")` are left out.
- History.MenuActions and QueueView.MenuActions give the menu of a clicked entry. The source builds a menu only when the clicked cell carries the entry, and only the title cell in column 0 does (history_dialog.py:143, queue_dialog.py:104). A right-click on any other cell shows no menu. Which cell was clicked is not modelled.
- Qt rendering is left out: colours, layout, SVG loading and rotation transforms, the refresh timer, clipboard and folder opening (`copy_url`, `open_output_folder`). A message-box answer is a boolean input.
- `export_history` (CSV export) is not modelled; it is file I/O.
- `restart_application`, `apply_update`, the byte download of `download_update` and zip extraction are subprocess and filesystem plumbing. Only their outcome enters the model, as a flag or as the file name.
- `UpdateDownloaderThread` is not modelled; its outcome is the input of `UpdateDialog.OnDownloadFinished`.
- The queue calls that queue_manager.py never defines are not modelled: `get_next_pending`, `update_item_status`, `move_to_history`, `get_queue`, `remove_from_queue` and `_save_queue`. Their results are inputs, and the calls are logged. As written, each of these calls raises AttributeError. So the queue worker fails at its first `get_next_pending` (queue_worker.py:41), and a queue window cannot even be built, because its `refresh_table` calls `get_queue` (queue_dialog.py:98). The model describes the behaviour the calls were meant to have, given what they return.
- `float()` parsing is modelled only for optional digits, '.', optional digits and an optional sign. Text with an exponent reads as unparsable, so it becomes 0 in the model, while the source parses it (`int(float("1e2"))` is 100). "inf" and "nan" end at 0 in both: the source maps the exception of `int()` on them to 0.
- Floats in `int(duration)` are modelled for non-negative values; negative float durations are not modelled.
- `lower()` and `title()` are ASCII-only: there is no Unicode case mapping.
- `os.path.join` is modelled with POSIX separators; `os.path.expanduser` is the `home` parameter.
- yt-dlp option keys are an enumeration. The extra keys a user's custom overrides could add are not modelled, since the source leaves that hook empty.
- `PyText.ParseInt`: `int()` on text accepts optional spaces, a sign and decimal digits. Underscores and non-ASCII digits are not modelled.
- Downloads.DecodeAll: decoding is typed, but the dataclass constructor stores any value without a check. So a record that holds a non-integer duration (such as 212.5), a non-string text field, a non-dictionary `options` value, or a falsy non-null timestamp (such as "") fails here as `WrongType`, while the source loads it.
- Downloads.QueueManager.constructor: for the same reason, one such record makes the model start with an empty history, while the source loads all the items.
- IsoDateTime.FromIsoFormat accepts only the two shapes `isoformat` writes: 19 characters, or 26 with microseconds. Python's `fromisoformat` (queue_manager.py:52-56) also accepts date-only, space-separated and UTC-offset forms. A history file holding one of those loads as an empty history in the model, while the source loads the items. Files this program writes itself always use the two modelled shapes.
- PyValues.Render renders None, booleans, integers and strings as Python does. It does not reproduce Python's float formatting, and floats and containers render as a fixed placeholder text. So where yt-dlp reports a float width or height, YtDl.Resolution and YtDl.FormatRecord do not give the source's text (such as "1920.0x1080.0"). The same holds for a float `format_note` or `ext` in the combo text of MainWindowLogic.Entries, and a float `format_id` in MainWindowLogic.FormatSelection.
- MainWindowLogic.WidestUrl: only numeric widths (and missing ones, read as 0) are sortable here. When the widths are all strings, the model gives TypeError, while `sorted` at ui_main_window.py:544 orders them as strings without error.
- MainWindowLogic.SortedBy: sort keys that are strings or other comparable non-numbers are treated as raising TypeError. The source would compare two strings without error.
- MainWindowLogic.MainWindow.AddRows: assumes Qt makes the first row current when it is added to an empty combo.
- History.DurationCellReadsBack: only positive durations are stated. A negative duration is rendered, but its cell does not read back the same way.
- The remaining Qt forms, the build and release scripts, the installer, ffmpeg discovery, the style sheet and `main.py` are not part of this model.

## Findings

| source | as written | input that shows it | evidently intended | confidence | as-written member | corrected member |
|---|---|---|---|---|---|---|
| loading_widget.py:156-164 | `setLoading(True)` calls `setText("")` after setting `is_loading`, so the stored text becomes "" while the old label stays visible; `setLoading(False)` then shows "" | `LoadingButton("Search")`, `setLoading(True)`, `setLoading(False)`: the button is blank | the label is hidden while loading and restored afterwards | not executed | Spinner.LoadingCycleLosesLabel | Spinner.LoadingCycleRestoresLabel |
| ui_main_window.py:322 | `sorted(..., key=lambda x: x.get("height", 0))` compares `None` with an int when a format has `"height": None`, and raises TypeError; the combo is left empty | two video formats, one with `height: None` and one with `height: 720` | a missing or None height sorts as 0 | not executed | MainWindowLogic.NoneHeightRaises | MainWindowLogic.IntendedRowsOrdered |
| history_dialog.py:190-262 | row buttons pass the row of the filtered table, but `retry_item` and `redownload_item` index the unfiltered history | history [completed "a", failed "b"], status filter "Failed", Retry clicked on row 0: nothing is retried, and Re-download on row 0 picks "a" | the row indexes the shown rows | not executed | History.FilteredRowIndexesWholeHistory | History.RetryTargetIsShownRow |
| update_dialog.py:8-238 | `UpdateCheckerThread` is never imported, so every accepted `check_for_updates` records the time and then raises NameError; no check ever runs | the first `check_for_updates()` call | an update checker is started for every accepted call | not executed | Updates.AsWrittenNeverStartsChecker | Updates.IntendedStartsEachAccepted |
