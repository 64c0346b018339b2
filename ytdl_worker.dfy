/** The yt-dlp glue (ytdl_worker.py): the format-list mapping, the option
    overlay every download applies, the progress-hook report, and the
    signals the single-download and metadata workers emit. yt-dlp itself is
    an oracle: a download either returns or raises with a message, and an
    extraction either returns a dictionary (or None) or raises. */
module YtDl {
  import opened Wrappers
  import opened PyText
  import opened PyValues

  /** The keys `list_formats` copies from each yt-dlp format. */
  const CopiedKeys: set<string> := {
    "format_id", "ext", "width", "height", "fps", "vcodec", "acodec", "abr",
    "filesize", "filesize_approx", "format_note"}

  /** `f.get("resolution") or f"{f.get('width','?')}x{f.get('height','?')}"` */
  function Resolution(f: Dict): (r: Value)
    ensures Truthy(Get(f, "resolution")) ==> r == f["resolution"]
    ensures !Truthy(Get(f, "resolution")) ==> r.Str? && Contains(r.s, "x")
    ensures !Truthy(Get(f, "resolution")) ==>
      r == Str(Render(GetOr(f, "width", Str("?"))) + "x" + Render(GetOr(f, "height", Str("?"))))
  {
    if Truthy(Get(f, "resolution")) then f["resolution"]
    else
      var w := Render(GetOr(f, "width", Str("?")));
      var s := w + "x" + Render(GetOr(f, "height", Str("?")));
      assert StartsWith(s[|w|..], "x");
      Str(s)
  }

  /** The fallback resolution reads back as the width and the height. */
  lemma ResolutionFallback(f: Dict, w: nat, h: nat)
    requires !Truthy(Get(f, "resolution"))
    requires "width" in f && f["width"] == Int(w)
    requires "height" in f && f["height"] == Int(h)
    ensures Resolution(f) == Str(NatToDecimal(w) + "x" + NatToDecimal(h))
    ensures Split(Resolution(f).s, 'x') == [NatToDecimal(w), NatToDecimal(h)]
  {
    var a := NatToDecimal(w);
    var b := NatToDecimal(h);
    NoLetterInDigits(a);
    NoLetterInDigits(b);
    SplitAround(a, b, 'x');
  }

  /** A missing width or height shows as "?" on its side of the 'x'. */
  lemma ResolutionMissingSizes(f: Dict)
    requires !Truthy(Get(f, "resolution"))
    ensures "width" !in f && "height" !in f ==> Resolution(f) == Str("?x?")
    ensures "width" !in f ==> Resolution(f).s[..2] == "?x"
    ensures "height" !in f ==> Resolution(f).s[|Resolution(f).s| - 2..] == "x?"
  {
    var w := Render(GetOr(f, "width", Str("?")));
    var h := Render(GetOr(f, "height", Str("?")));
    assert Resolution(f).s == w + "x" + h;
  }

  lemma NoLetterInDigits(s: string)
    requires AllDigits(s)
    ensures 'x' !in s
  {
    forall i | 0 <= i < |s| ensures s[i] != 'x' {
      assert IsDigit(s[i]);
    }
  }

  /** The record `list_formats` builds from one yt-dlp format. */
  function FormatRecord(f: Dict): (r: Dict)
    ensures r.Keys == CopiedKeys + {"resolution"}
    ensures forall k :: k in CopiedKeys ==> r[k] == Get(f, k)
    ensures r["resolution"] == Resolution(f)
  {
    (map k | k in CopiedKeys :: Get(f, k))["resolution" := Resolution(f)]
  }

  /** Why `list_formats` raises: a truthy `formats` value that is not a
      list, or an entry that is not a dictionary (`f.get` fails). */
  datatype FormatsError = NotAList | NotADict

  /** `info.get("formats", []) or []` */
  function FormatsValue(info: Dict): Value {
    var v := GetOr(info, "formats", List([]));
    if Truthy(v) then v else List([])
  }

  /** What `list_formats(info)` returns or raises. */
  function FormatList(info: Dict): (r: Result<seq<Dict>, FormatsError>)
    ensures r.Ok? ==> FormatsValue(info).List? && |r.value| == |FormatsValue(info).items|
    ensures r.Ok? ==> forall i :: 0 <= i < |r.value| ==>
      FormatsValue(info).items[i].Dict? && r.value[i] == FormatRecord(FormatsValue(info).items[i].entries)
    ensures r == Err(NotADict) <==> FormatsValue(info).List? && exists i :: 0 <= i < |FormatsValue(info).items| && !FormatsValue(info).items[i].Dict?
    ensures r == Err(NotAList) <==> !FormatsValue(info).List?
  {
    var v := FormatsValue(info);
    if !v.List? then Err(NotAList)
    else if exists i :: 0 <= i < |v.items| && !v.items[i].Dict? then Err(NotADict)
    else Ok(seq(|v.items|, i requires 0 <= i < |v.items| => FormatRecord(v.items[i].entries)))
  }

  /** A missing or empty `formats` gives an empty list. */
  lemma NoFormatsNoRecords(info: Dict)
    requires !Truthy(Get(info, "formats"))
    ensures FormatList(info) == Ok([])
  {
  }

  /** `list_formats(info)`: the loop appending one record per format. */
  method ListFormats(info: Dict) returns (r: Result<seq<Dict>, FormatsError>)
    ensures r == FormatList(info)
  {
    var v := FormatsValue(info);
    if !v.List? {
      return Err(NotAList);
    }
    var result: seq<Dict> := [];
    var i := 0;
    while i < |v.items|
      invariant 0 <= i <= |v.items|
      invariant forall j :: 0 <= j < i ==> v.items[j].Dict?
      invariant |result| == i
      invariant forall j :: 0 <= j < i ==> result[j] == FormatRecord(v.items[j].entries)
    {
      if !v.items[i].Dict? {
        return Err(NotADict);
      }
      result := result + [FormatRecord(v.items[i].entries)];
      i := i + 1;
    }
    assert result == seq(|v.items|, j requires 0 <= j < |v.items| => FormatRecord(v.items[j].entries));
    r := Ok(result);
  }

  /** The keys the workers force on every download's options. */
  const OverrideKeys: set<string> := {"progress_hooks", "quiet", "noprogress", "ignoreerrors"}

  /** `{**opts, "progress_hooks": [hook], "quiet": True, "noprogress": True,
      "ignoreerrors": False}`: the overlay keys win, every other option is
      passed through. */
  function WithDownloadOverrides(opts: Dict): (r: Dict)
    ensures r.Keys == opts.Keys + OverrideKeys
    ensures forall k :: k in opts && k !in OverrideKeys ==> r[k] == opts[k]
    ensures r["progress_hooks"] == List([ProgressHook]) && r["quiet"] == Bool(true)
    ensures r["noprogress"] == Bool(true) && r["ignoreerrors"] == Bool(false)
  {
    opts + map["progress_hooks" := List([ProgressHook]), "quiet" := Bool(true),
               "noprogress" := Bool(true), "ignoreerrors" := Bool(false)]
  }

  /** Overlaying twice is overlaying once. */
  lemma OverridesIdempotent(opts: Dict)
    ensures WithDownloadOverrides(WithDownloadOverrides(opts)) == WithDownloadOverrides(opts)
  {
  }

  /** The percent text a status without one is read as. */
  const DefaultPercent: string := "0%"

  /** `int(float(status.get("_percent_str", "0%").strip().strip("%")))`,
      with 0 when that raises (a value that is not text, or text that is
      not a number). */
  function Percent(status: Dict): int {
    var v := GetOr(status, "_percent_str", Str(DefaultPercent));
    if v.Str? then IntOfFloatText(StripChar(Strip(v.s), '%')).GetOr(0) else 0
  }

  /** yt-dlp's "45.3%" reads as 45. */
  lemma PercentReadsWholePart(status: Dict, n: nat, fraction: string)
    requires AllDigits(fraction)
    requires "_percent_str" in status && status["_percent_str"] == Str(NatToDecimal(n) + "." + fraction + "%")
    ensures Percent(status) == n
  {
    var w := NatToDecimal(n);
    var t := w + "." + fraction;
    DecimalTextHasNoSpace(w, fraction);
    assert t[0] == w[0] && IsDigit(w[0]);
    assert t[|t| - 1] != '%' by {
      if fraction != [] { assert t[|t| - 1] == fraction[|fraction| - 1] && IsDigit(fraction[|fraction| - 1]); }
    }
    StripTrailingChar(t, '%');
    assert t + "%" == t + ['%'];
    IntOfFloatTextDropsFraction(n, fraction);
  }

  /** The (percent, speed, eta) a hook reports for one status dictionary:
      only "downloading" updates report, speed and eta default to "?". */
  datatype Report = Report(percent: int, speed: Value, eta: Value)

  function HookReport(status: Dict): (r: Option<Report>)
    ensures r.Some? <==> Get(status, "status") == Str("downloading")
    ensures r.Some? ==> r.value.percent == Percent(status)
    ensures r.Some? && "_speed_str" !in status ==> r.value.speed == Str("?")
    ensures r.Some? && "_eta_str" !in status ==> r.value.eta == Str("?")
  {
    if Get(status, "status") == Str("downloading") then
      Some(Report(Percent(status), GetOr(status, "_speed_str", Str("?")), GetOr(status, "_eta_str", Str("?"))))
    else None
  }

  /** What a download call does: return, or raise with `str(exc)`. */
  datatype Outcome = Succeeded | Raised(message: string)

  /** The signals a worker emits, in emission order, together with the
      call it makes into yt-dlp. */
  datatype WorkerEvent =
    | DownloadCalled(url: string, options: Dict)
    | Progress(percent: int, speed: Value, eta: Value)
    | Error(message: string)
    | Done(success: bool, message: string)
    | Info(info: Dict)

  /** The signal one hook call emits, if any. */
  function HookEvents(status: Dict): (r: seq<WorkerEvent>)
    ensures |r| <= 1
    ensures r != [] <==> Get(status, "status") == Str("downloading")
  {
    match HookReport(status)
    case Some(p) => [Progress(p.percent, p.speed, p.eta)]
    case None => []
  }

  /** The signals of the download's hook calls, in order. */
  function ProgressEvents(hooks: seq<Dict>): (r: seq<WorkerEvent>)
    ensures |r| <= |hooks|
    ensures forall i :: 0 <= i < |r| ==> r[i].Progress?
  {
    if hooks == [] then [] else HookEvents(hooks[0]) + ProgressEvents(hooks[1..])
  }

  lemma ProgressStep(hooks: seq<Dict>, i: nat)
    requires i < |hooks|
    ensures ProgressEvents(hooks[i..]) == HookEvents(hooks[i]) + ProgressEvents(hooks[i + 1..])
  {
    assert hooks[i..][0] == hooks[i] && hooks[i..][1..] == hooks[i + 1..];
  }

  /** What `run` emits after the download call: `done(True, ...)` alone, or
      `error(str(exc))` then `done(False, ...)`. */
  function Completion(outcome: Outcome): (r: seq<WorkerEvent>)
    ensures outcome.Succeeded? ==> r == [Done(true, "Download complete.")]
    ensures outcome.Raised? ==> r == [Error(outcome.message), Done(false, "Download failed.")]
  {
    match outcome
    case Succeeded => [Done(true, "Download complete.")]
    case Raised(msg) => [Error(msg), Done(false, "Download failed.")]
  }

  /** Exactly one `done` signal, last, whose flag says whether the download
      returned; an `error` comes only with a failure. */
  lemma CompletionEndsWithOneDone(outcome: Outcome)
    ensures var r := Completion(outcome);
      && r[|r| - 1].Done? && r[|r| - 1].success == outcome.Succeeded?
      && (forall i :: 0 <= i < |r| - 1 ==> !r[i].Done?)
      && ((exists i :: 0 <= i < |r| && r[i].Error?) <==> outcome.Raised?)
  {
    var r := Completion(outcome);
    if outcome.Raised? {
      assert r[0].Error?;
    }
  }

  /** The single-download worker. `ydlOpts` is its own copy of the options
      it was given. */
  class YtDlWorker {
    const url: string
    var ydlOpts: Dict
    var events: seq<WorkerEvent>

    constructor (url: string, ydlOpts: Dict)
      ensures this.url == url && this.ydlOpts == ydlOpts && events == []
    {
      this.url := url;
      this.ydlOpts := ydlOpts;
      events := [];
    }

    /** `_hook(status)` */
    method Hook(status: Dict)
      modifies this`events
      ensures events == old(events) + HookEvents(status)
    {
      var report := HookReport(status);
      if report.Some? {
        events := events + [Progress(report.value.percent, report.value.speed, report.value.eta)];
      }
    }

    /** yt-dlp calling the hook once per status dictionary. */
    method RunHooks(hooks: seq<Dict>)
      modifies this`events
      ensures events == old(events) + ProgressEvents(hooks)
    {
      var i := 0;
      while i < |hooks|
        invariant 0 <= i <= |hooks|
        invariant events + ProgressEvents(hooks[i..]) == old(events) + ProgressEvents(hooks)
      {
        ProgressStep(hooks, i);
        ghost var before := events;
        Hook(hooks[i]);
        assert events + ProgressEvents(hooks[i + 1..]) == before + ProgressEvents(hooks[i..]);
        i := i + 1;
      }
    }

    /** `run()`: the download with the overlaid options; yt-dlp calls the
      hook once per entry of `hooks` and then returns or raises. */
    method Run(hooks: seq<Dict>, outcome: Outcome)
      modifies this`events
      ensures events == old(events) + [DownloadCalled(url, WithDownloadOverrides(ydlOpts))]
                        + ProgressEvents(hooks) + Completion(outcome)
    {
      events := events + [DownloadCalled(url, WithDownloadOverrides(ydlOpts))];
      RunHooks(hooks);
      events := events + Completion(outcome);
    }
  }

  /** What `ydl.extract_info` does: return the info (or None), or raise. */
  datatype Extraction = ExtractRaised | Extracted(info: Option<Dict>)

  /** `probe_url_metadata`: any exception becomes None. */
  function ProbeUrlMetadata(e: Extraction): (r: Option<Dict>)
    ensures e.ExtractRaised? ==> r.None?
    ensures e.Extracted? ==> r == e.info
  {
    match e
    case ExtractRaised => None
    case Extracted(info) => info
  }

  /** The one signal `InfoWorker.run` emits. */
  function InfoSignal(e: Extraction): (r: WorkerEvent)
    ensures r.Info? ==> r.info != map[] && ProbeUrlMetadata(e) == Some(r.info)
    ensures r.Error? ==> r.message == "Failed to extract video info"
    ensures r.Info? || r.Error?
  {
    var info := ProbeUrlMetadata(e).GetOr(map[]);
    if info == map[] then Error("Failed to extract video info") else Info(info)
  }

  /** The metadata worker reports the info exactly when extraction returned
      a non-empty dictionary. */
  lemma InfoIffExtracted(e: Extraction)
    ensures InfoSignal(e).Info? <==> e.Extracted? && e.info.Some? && e.info.value != map[]
  {
  }

  class InfoWorker {
    const url: string
    var events: seq<WorkerEvent>

    constructor (url: string)
      ensures this.url == url && events == []
    {
      this.url := url;
      events := [];
    }

    /** `run()` */
    method Run(e: Extraction)
      modifies this`events
      ensures events == old(events) + [InfoSignal(e)]
    {
      var info := ProbeUrlMetadata(e).GetOr(map[]);
      if info == map[] {
        events := events + [Error("Failed to extract video info")];
      } else {
        events := events + [Info(info)];
      }
    }
  }
}
