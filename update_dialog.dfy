/** The update notifier and the update window (update_dialog.py): the
    one-hour throttle of `check_for_updates`, the skipped-version gate and
    the config file it reads and merges, and the button states of the
    window while an update downloads. Clocks are integer microseconds given
    as inputs; the config file is an abstract file state; the download, the
    installer, the restart and message boxes are not modelled beyond the
    outcome they report. */
module Updates {
  import opened Wrappers
  import opened PyValues

  /** `timedelta(hours=1)` in microseconds. */
  const HourMicros: int := 3_600_000_000

  /** The key `save_skipped_version` writes. */
  const SkippedKey: string := "skipped_version"

  /** Whether `check_for_updates` goes ahead: always the first time
      (`last_check_time` is None), then once an hour has passed since the
      last check that went ahead. */
  predicate Accepts(last: Option<int>, now: int) {
    last.None? || !(now - last.value < HourMicros)
  }

  /** The call times among `times` that go ahead, starting from `last`. */
  function AcceptedTimes(last: Option<int>, times: seq<int>): seq<int>
    decreases |times|
  {
    if times == [] then []
    else if Accepts(last, times[0]) then [times[0]] + AcceptedTimes(Some(times[0]), times[1..])
    else AcceptedTimes(last, times[1..])
  }

  /** Every call that goes ahead after a check at `last` is at least an
      hour later. */
  lemma {:induction false} AcceptedAfterLast(last: int, times: seq<int>)
    ensures forall i :: 0 <= i < |AcceptedTimes(Some(last), times)| ==>
      AcceptedTimes(Some(last), times)[i] - last >= HourMicros
    decreases |times|
  {
    if times != [] {
      if Accepts(Some(last), times[0]) {
        AcceptedAfterLast(times[0], times[1..]);
      } else {
        AcceptedAfterLast(last, times[1..]);
      }
    }
  }

  /** The checks that go ahead are an hour apart or more, and the first
      call of all goes ahead. */
  lemma {:induction false} AcceptedAnHourApart(last: Option<int>, times: seq<int>)
    ensures var a := AcceptedTimes(last, times);
      forall i :: 0 <= i < |a| - 1 ==> a[i + 1] - a[i] >= HourMicros
    ensures last.None? && times != [] ==> AcceptedTimes(last, times) != [] && AcceptedTimes(last, times)[0] == times[0]
    decreases |times|
  {
    if times != [] {
      if Accepts(last, times[0]) {
        AcceptedAnHourApart(Some(times[0]), times[1..]);
        AcceptedAfterLast(times[0], times[1..]);
      } else {
        assert AcceptedTimes(last, times) == AcceptedTimes(last, times[1..]);
        AcceptedAnHourApart(last, times[1..]);
      }
    }
  }

  /** What the notifier has done so far: the last accepted check, how many
      checker threads it started, and how many calls raised. */
  datatype Tally = Tally(last: Option<int>, started: nat, raised: nat)

  /** `check_for_updates` as written: `last_check_time` is set, then
      `UpdateCheckerThread`, which the module never imports, raises
      NameError, so no checker starts. */
  function StepAsWritten(t: Tally, now: int): Tally {
    if Accepts(t.last, now) then Tally(Some(now), t.started, t.raised + 1) else t
  }

  /** `check_for_updates` as evidently intended: the checker starts. */
  function StepIntended(t: Tally, now: int): Tally {
    if Accepts(t.last, now) then Tally(Some(now), t.started + 1, t.raised) else t
  }

  function RunAsWritten(t: Tally, times: seq<int>): Tally
    decreases |times|
  {
    if times == [] then t else RunAsWritten(StepAsWritten(t, times[0]), times[1..])
  }

  function RunIntended(t: Tally, times: seq<int>): Tally
    decreases |times|
  {
    if times == [] then t else RunIntended(StepIntended(t, times[0]), times[1..])
  }

  /** The time a run of calls leaves recorded: that of the last call that
      went ahead, or the one before the run if none did. */
  function LastRecorded(last: Option<int>, times: seq<int>): Option<int> {
    var a := AcceptedTimes(last, times);
    if a == [] then last else Some(a[|a| - 1])
  }

  /** As written, no sequence of calls ever starts a checker: each call
      that passes the throttle raises NameError instead, so no update is
      ever found and the update window never opens. */
  lemma {:induction false} AsWrittenNeverStartsChecker(t: Tally, times: seq<int>)
    ensures RunAsWritten(t, times).started == t.started
    ensures RunAsWritten(t, times).raised == t.raised + |AcceptedTimes(t.last, times)|
    ensures RunAsWritten(t, times).last == LastRecorded(t.last, times)
    decreases |times|
  {
    if times != [] {
      AsWrittenNeverStartsChecker(StepAsWritten(t, times[0]), times[1..]);
    }
  }

  /** As intended, one checker starts per call that passes the throttle,
      hence at most one an hour, and nothing raises. */
  lemma {:induction false} IntendedStartsEachAccepted(t: Tally, times: seq<int>)
    ensures RunIntended(t, times).started == t.started + |AcceptedTimes(t.last, times)|
    ensures RunIntended(t, times).raised == t.raised
    ensures RunIntended(t, times).last == LastRecorded(t.last, times)
    decreases |times|
  {
    if times != [] {
      IntendedStartsEachAccepted(StepIntended(t, times[0]), times[1..]);
    }
  }

  /** The config file as the notifier finds it. */
  datatype ConfigFile = Missing | Unparsable | Json(content: Value)

  /** `is_version_skipped(version)`: a missing or unreadable file, or content
      that is not an object (`get` raises), gives False. */
  function IsVersionSkipped(config: ConfigFile, version: string): bool {
    config.Json? && config.content.Dict? && Get(config.content.entries, SkippedKey) == Str(version)
  }

  /** `save_skipped_version()`: the file's object with `skipped_version`
      set and every other key kept; a new object when there is no file.
      An unreadable file, content that is not an object, or a file that
      cannot be written leaves the file as it was; no error escapes. */
  function SavedConfig(config: ConfigFile, version: string, writable: bool): ConfigFile {
    if !writable then config
    else match config
      case Missing => Json(Dict(map[SkippedKey := Str(version)]))
      case Unparsable => config
      case Json(v) => if v.Dict? then Json(Dict(v.entries[SkippedKey := Str(version)])) else config
  }

  /** Skipping a version makes exactly that version skipped, whenever the
      file could be read and written. */
  lemma SkipThenSkipped(config: ConfigFile, version: string, other: string)
    requires config.Missing? || (config.Json? && config.content.Dict?)
    ensures IsVersionSkipped(SavedConfig(config, version, true), other) <==> other == version
  {
  }

  /** Saving touches only the `skipped_version` key. */
  lemma SaveKeepsOtherKeys(config: ConfigFile, version: string, writable: bool, key: string)
    requires config.Json? && config.content.Dict? && key != SkippedKey && key in config.content.entries
    ensures var saved := SavedConfig(config, version, writable);
      saved.Json? && saved.content.Dict? && key in saved.content.entries
      && saved.content.entries[key] == config.content.entries[key]
  {
  }

  /** `on_update_found`: the window opens unless the version was skipped,
      and only when dialogs were asked for and there is a parent. */
  function DialogOpens(config: ConfigFile, version: string, showDialog: bool, hasParent: bool): bool {
    !IsVersionSkipped(config, version) && showDialog && hasParent
  }

  /** Once "Skip This Version" has been saved, that version's update never
      opens the window again. */
  lemma SkippedNeverOpens(config: ConfigFile, version: string, showDialog: bool, hasParent: bool)
    requires config.Missing? || (config.Json? && config.content.Dict?)
    ensures !DialogOpens(SavedConfig(config, version, true), version, showDialog, hasParent)
  {
    SkipThenSkipped(config, version, version);
  }

  class UpdateNotifier {
    const hasParent: bool
    var lastCheckTime: Option<int>
    /** The `show_dialog` flag of each checker thread started. */
    var checkers: seq<bool>
    var nameErrors: nat
    /** The (version, download URL) of each update window opened. */
    var dialogs: seq<(string, string)>

    function Counters(): Tally
      reads this
    {
      Tally(lastCheckTime, |checkers|, nameErrors)
    }

    /** `UpdateNotifier(parent)`: no check has been made yet. */
    constructor (hasParent: bool)
      ensures this.hasParent == hasParent && lastCheckTime.None?
      ensures checkers == [] && nameErrors == 0 && dialogs == []
    {
      this.hasParent := hasParent;
      lastCheckTime := None;
      checkers := [];
      nameErrors := 0;
      dialogs := [];
    }

    /** `check_for_updates(show_dialog)` as written. */
    method CheckForUpdates(now: int, showDialog: bool)
      modifies this`lastCheckTime, this`nameErrors
      ensures Counters() == StepAsWritten(old(Counters()), now)
      ensures !Accepts(old(lastCheckTime), now) ==> unchanged(this)
    {
      if lastCheckTime.Some? && now - lastCheckTime.value < HourMicros {
        return;
      }
      lastCheckTime := Some(now);
      nameErrors := nameErrors + 1;
    }

    /** `check_for_updates(show_dialog)` with the checker thread imported:
        the time is recorded before the checker starts. */
    method CheckForUpdatesIntended(now: int, showDialog: bool)
      modifies this`lastCheckTime, this`checkers
      ensures Counters() == StepIntended(old(Counters()), now)
      ensures checkers == old(checkers) + (if Accepts(old(lastCheckTime), now) then [showDialog] else [])
    {
      if lastCheckTime.Some? && now - lastCheckTime.value < HourMicros {
        return;
      }
      lastCheckTime := Some(now);
      checkers := checkers + [showDialog];
    }

    /** `on_update_found(version, download_url, show_dialog)` */
    method OnUpdateFound(version: string, downloadUrl: string, showDialog: bool, config: ConfigFile)
      modifies this`dialogs
      ensures dialogs == old(dialogs) + (if DialogOpens(config, version, showDialog, hasParent)
                                         then [(version, downloadUrl)] else [])
    {
      if IsVersionSkipped(config, version) {
        return;
      }
      if showDialog && hasParent {
        dialogs := dialogs + [(version, downloadUrl)];
      }
    }
  }

  /** The lines `log` appends to the status box, without their clock
      prefix. */
  datatype LogLine =
    | StartingDownload
    | DownloadCompleted
    | ApplyingUpdate
    | UpdateApplied
    | ApplyFailed
    | DownloadFailed(message: string)

  const ApplyFailedError: string := "Failed to apply update. Please try again or download manually."

  function DownloadFailedError(message: string): string {
    "Download failed: " + message
  }

  class UpdateDialog {
    const version: string
    const downloadUrl: string
    var updateEnabled: bool
    var laterEnabled: bool
    var skipEnabled: bool
    var progressVisible: bool
    var statusVisible: bool
    var progressValue: int
    var log: seq<LogLine>
    /** The messages of the error boxes shown, in order. */
    var errors: seq<string>
    var restartRequested: bool
    var accepted: bool

    /** The three buttons are enabled or disabled together. */
    predicate ButtonsTogether()
      reads this
    {
      updateEnabled == laterEnabled == skipEnabled
    }

    /** `UpdateDialog(parent, version, download_url)` */
    constructor (version: string, downloadUrl: string)
      ensures this.version == version && this.downloadUrl == downloadUrl
      ensures updateEnabled && laterEnabled && skipEnabled && ButtonsTogether()
      ensures !progressVisible && !statusVisible && log == [] && errors == []
      ensures !restartRequested && !accepted
    {
      this.version := version;
      this.downloadUrl := downloadUrl;
      updateEnabled := true;
      laterEnabled := true;
      skipEnabled := true;
      progressVisible := false;
      statusVisible := false;
      progressValue := 0;
      log := [];
      errors := [];
      restartRequested := false;
      accepted := false;
    }

    /** `start_update`: all three buttons off, progress shown from 0. */
    method StartUpdate()
      modifies this`updateEnabled, this`laterEnabled, this`skipEnabled, this`progressVisible,
        this`statusVisible, this`progressValue, this`log
      ensures !updateEnabled && !laterEnabled && !skipEnabled && ButtonsTogether()
      ensures progressVisible && statusVisible && progressValue == 0
      ensures log == old(log) + [StartingDownload]
    {
      updateEnabled := false;
      laterEnabled := false;
      skipEnabled := false;
      progressVisible := true;
      statusVisible := true;
      progressValue := 0;
      log := log + [StartingDownload];
    }

    /** `on_download_finished(success, message)`; `applied` is what
        `apply_update` returns. Whatever the outcome, the three buttons end
        enabled. */
    method OnDownloadFinished(success: bool, message: string, applied: bool)
      modifies this`updateEnabled, this`laterEnabled, this`skipEnabled, this`log, this`errors,
        this`restartRequested
      ensures updateEnabled && laterEnabled && skipEnabled && ButtonsTogether()
      ensures success && applied ==>
        log == old(log) + [DownloadCompleted, ApplyingUpdate, UpdateApplied]
        && errors == old(errors) && restartRequested
      ensures success && !applied ==>
        log == old(log) + [DownloadCompleted, ApplyingUpdate, ApplyFailed]
        && errors == old(errors) + [ApplyFailedError] && restartRequested == old(restartRequested)
      ensures !success ==>
        log == old(log) + [DownloadFailed(message)]
        && errors == old(errors) + [DownloadFailedError(message)] && restartRequested == old(restartRequested)
    {
      if success {
        log := log + [DownloadCompleted, ApplyingUpdate];
        if applied {
          log := log + [UpdateApplied];
          restartRequested := true;
        } else {
          log := log + [ApplyFailed];
          errors := errors + [ApplyFailedError];
        }
      } else {
        log := log + [DownloadFailed(message)];
        errors := errors + [DownloadFailedError(message)];
      }
      updateEnabled := true;
      laterEnabled := true;
      skipEnabled := true;
    }

    /** `remind_later` */
    method RemindLater()
      modifies this`accepted
      ensures accepted
    {
      accepted := true;
    }

    /** `skip_version`: the version saved as skipped, then the window
        closes. */
    method SkipVersion(config: ConfigFile, writable: bool) returns (saved: ConfigFile)
      modifies this`accepted
      ensures saved == SavedConfig(config, version, writable) && accepted
    {
      saved := SavedConfig(config, version, writable);
      accepted := true;
    }
  }
}
