/** The decision logic of the main window (ui_main_window.py): the format id
    a quality choice selects, the yt-dlp options a download is started with,
    the layout of the quality combo box, the duration text, the thumbnail
    pick and which controls are enabled in which state. Widgets are reduced
    to the state these methods read and write. */
module MainWindowLogic {
  import opened Wrappers
  import opened PyText
  import opened PyValues
  import opened SeqUtil
  import Spinner

  /* ---------------- Quality selection (`_on_format_selected`) ---------------- */

  /** What a video-only selection has appended so yt-dlp merges in audio. */
  const MergeSuffix: string := "+bestaudio/best"

  /** The format asked for when nothing is selected. */
  const DefaultFormat: string := "bestvideo+bestaudio/best"

  /** A format with video but without audio. A missing codec is not "none". */
  predicate NeedsAudio(f: Dict) {
    Get(f, "vcodec") != Str("none") && Get(f, "acodec") == Str("none")
  }

  /** `selected_format` after `_on_format_selected(index)`, where `data` is
      the item's user data (None for a separator or a missing item). */
  function FormatSelection(index: int, data: Option<Dict>): (r: Value)
    ensures index == -1 || data.None? || data.value == map[] ==> r == Null
    ensures index != -1 && data.Some? && NeedsAudio(data.value) ==> r.Str? && EndsWith(r.s, MergeSuffix)
  {
    if index == -1 || data.None? || data.value == map[] then Null
    else if NeedsAudio(data.value) then Str(Render(Get(data.value, "format_id")) + MergeSuffix)
    else Get(data.value, "format_id")
  }

  /** A video-only format is asked for as itself with the best audio merged
      in: cutting the suffix off gives the format id back. */
  lemma MergedSelectionNamesFormat(index: int, f: Dict, id: string)
    requires index != -1 && NeedsAudio(f) && Get(f, "format_id") == Str(id)
    ensures var r := FormatSelection(index, Some(f));
      r.Str? && r.s[..|r.s| - |MergeSuffix|] == id && r.s[|r.s| - |MergeSuffix|..] == MergeSuffix
  {
    assert f != map[];
    var r := FormatSelection(index, Some(f));
    assert r.s == id + MergeSuffix;
  }

  /** Any other non-empty format is asked for by its id as it stands. */
  lemma PlainSelectionIsFormatId(index: int, f: Dict)
    requires index != -1 && f != map[] && !NeedsAudio(f)
    ensures FormatSelection(index, Some(f)) == Get(f, "format_id")
  {
  }

  /* ---------------- Combo box rows (`_populate_formats`) ---------------- */

  datatype ComboEntry = Entry(text: string, data: Dict) | Separator

  /** `itemData(index)`: None for a separator and for an index out of range. */
  function DataAt(combo: seq<ComboEntry>, index: int): (r: Option<Dict>)
    ensures r.Some? ==> 0 <= index < |combo| && combo[index].Entry? && combo[index].data == r.value
  {
    if 0 <= index < |combo| && combo[index].Entry? then Some(combo[index].data) else None
  }

  /** Listed among the video qualities. */
  predicate IsVideo(f: Dict) {
    Get(f, "vcodec") != Str("none")
  }

  /** Listed among the audio qualities; never also a video quality. */
  predicate IsAudio(f: Dict)
    ensures IsAudio(f) ==> !IsVideo(f)
  {
    Get(f, "acodec") != Str("none") && Get(f, "vcodec") == Str("none")
  }

  const Height: string := "height"
  const Bitrate: string := "abr"
  const AudioPrefix: string := "Audio Only - "

  /** The key `x.get(field, 0)` as a number, None when it is not one. */
  function SortKey(f: Dict, field: string): Option<real> {
    NumericKey(GetOr(f, field, Int(0)))
  }

  /** The key with anything that is not a number read as 0. */
  function KeyOrZero(field: string): Dict -> real {
    f => SortKey(f, field).GetOr(0.0)
  }

  /** Python compares keys only between two or more elements; there a key
      that is not a number (None in particular) raises TypeError. */
  predicate Sortable(fs: seq<Dict>, field: string) {
    |fs| <= 1 || forall i :: 0 <= i < |fs| ==> SortKey(fs[i], field).Some?
  }

  /** `sorted(fs, key=lambda x: x.get(field, 0), reverse=True)` as written. */
  function SortedBy(fs: seq<Dict>, field: string): (r: Result<seq<Dict>, PyError>)
    ensures r.Ok? <==> Sortable(fs, field)
    ensures r.Ok? ==> SortedDesc(r.value, KeyOrZero(field)) && multiset(r.value) == multiset(fs)
  {
    if Sortable(fs, field) then
      SortDescSorted(fs, KeyOrZero(field));
      Ok(SortDesc(fs, KeyOrZero(field)))
    else Err(TypeError)
  }

  /** The row text, `f"{prefix}{f.get('format_note', '')} ({f.get('ext')})"`. */
  function RowText(f: Dict, prefix: string): string {
    prefix + Render(GetOr(f, "format_note", Str(""))) + " (" + Render(Get(f, "ext")) + ")"
  }

  /** One row per format, in order, carrying the format as its data. */
  function Entries(fs: seq<Dict>, prefix: string): (r: seq<ComboEntry>)
    ensures |r| == |fs|
    ensures forall i :: 0 <= i < |fs| ==> r[i] == Entry(RowText(fs[i], prefix), fs[i])
  {
    seq(|fs|, i requires 0 <= i < |fs| => Entry(RowText(fs[i], prefix), fs[i]))
  }

  /** The separator goes between the two groups when both have rows. */
  function Divider(video: seq<Dict>, audio: seq<Dict>): seq<ComboEntry> {
    if video != [] && audio != [] then [Separator] else []
  }

  /** Video rows, the separator, then audio rows. */
  function Layout(videoRows: seq<Dict>, audioRows: seq<Dict>): seq<ComboEntry> {
    Entries(videoRows, "") + Divider(videoRows, audioRows) + Entries(audioRows, AudioPrefix)
  }

  /** Where each row of a layout sits: video rows first, the separator at
      index `len(video)` exactly when both groups are non-empty, audio rows
      after it. */
  lemma LayoutIndexing(videoRows: seq<Dict>, audioRows: seq<Dict>)
    ensures var r := Layout(videoRows, audioRows);
      var gap := |Divider(videoRows, audioRows)|;
      && |r| == |videoRows| + gap + |audioRows|
      && (Separator in r <==> videoRows != [] && audioRows != [])
      && (gap == 1 ==> r[|videoRows|] == Separator)
      && (forall i :: 0 <= i < |videoRows| ==> r[i] == Entry(RowText(videoRows[i], ""), videoRows[i]))
      && (forall j :: 0 <= j < |audioRows| ==>
            r[|videoRows| + gap + j] == Entry(RowText(audioRows[j], AudioPrefix), audioRows[j]))
  {
    var r := Layout(videoRows, audioRows);
    var v := Entries(videoRows, "");
    var a := Entries(audioRows, AudioPrefix);
    var d := Divider(videoRows, audioRows);
    assert r == v + d + a;
    if videoRows != [] && audioRows != [] {
      assert r[|v|] == Separator;
    } else {
      forall k | 0 <= k < |r|
        ensures r[k] != Separator
      {
        if k < |v| {
          assert r[k] == v[k];
        } else {
          assert r[k] == a[k - |v|];
        }
      }
    }
  }

  /** The combo after `_populate_formats`, and the exception it raised. A
      sort that raises leaves the rows added before it in place. */
  datatype Populated = Populated(combo: seq<ComboEntry>, raised: Option<PyError>)

  /** `_populate_formats(formats)` as written. */
  function FormatsLayout(formats: seq<Dict>): Populated {
    var video := Filter(formats, IsVideo);
    var audio := Filter(formats, IsAudio);
    match SortedBy(video, Height)
    case Err(e) => Populated([], Some(e))
    case Ok(videoRows) =>
      var head := Entries(videoRows, "") + Divider(video, audio);
      match SortedBy(audio, Bitrate)
      case Err(e) => Populated(head, Some(e))
      case Ok(audioRows) => Populated(head + Entries(audioRows, AudioPrefix), None)
  }

  /** `_populate_formats` as evidently intended: a missing or None height or
      bitrate sorts as 0 instead of raising. */
  function FormatsLayoutIntended(formats: seq<Dict>): seq<ComboEntry> {
    Layout(SortDesc(Filter(formats, IsVideo), KeyOrZero(Height)),
           SortDesc(Filter(formats, IsAudio), KeyOrZero(Bitrate)))
  }

  /** The intended rows: every video format, tallest first, then every
      audio-only format, highest bitrate first; equal keys keep the order
      yt-dlp listed them in. */
  lemma IntendedRowsOrdered(formats: seq<Dict>)
    ensures var video := Filter(formats, IsVideo);
      var audio := Filter(formats, IsAudio);
      var videoRows := SortDesc(video, KeyOrZero(Height));
      var audioRows := SortDesc(audio, KeyOrZero(Bitrate));
      && FormatsLayoutIntended(formats) == Layout(videoRows, audioRows)
      && SortedDesc(videoRows, KeyOrZero(Height)) && multiset(videoRows) == multiset(video)
      && SortedDesc(audioRows, KeyOrZero(Bitrate)) && multiset(audioRows) == multiset(audio)
      && (forall f :: f in videoRows <==> f in formats && IsVideo(f))
      && (forall f :: f in audioRows <==> f in formats && IsAudio(f))
  {
    var video := Filter(formats, IsVideo);
    var audio := Filter(formats, IsAudio);
    var videoRows := SortDesc(video, KeyOrZero(Height));
    var audioRows := SortDesc(audio, KeyOrZero(Bitrate));
    SortDescSorted(video, KeyOrZero(Height));
    SortDescSorted(audio, KeyOrZero(Bitrate));
    forall f
      ensures f in videoRows <==> f in formats && IsVideo(f)
      ensures f in audioRows <==> f in formats && IsAudio(f)
    {
      FilterMembership(formats, IsVideo, f);
      FilterMembership(formats, IsAudio, f);
      assert f in videoRows <==> f in multiset(videoRows);
      assert f in audioRows <==> f in multiset(audioRows);
    }
  }

  /** When every key is a number the code as written lays out exactly the
      intended rows. */
  lemma NumericKeysLayOutAsIntended(formats: seq<Dict>)
    requires Sortable(Filter(formats, IsVideo), Height) && Sortable(Filter(formats, IsAudio), Bitrate)
    ensures FormatsLayout(formats) == Populated(FormatsLayoutIntended(formats), None)
  {
    var video := Filter(formats, IsVideo);
    var audio := Filter(formats, IsAudio);
    var videoRows := SortDesc(video, KeyOrZero(Height));
    var audioRows := SortDesc(audio, KeyOrZero(Bitrate));
    assert |videoRows| == |multiset(videoRows)| == |video|;
    assert |audioRows| == |multiset(audioRows)| == |audio|;
    assert Divider(video, audio) == Divider(videoRows, audioRows);
  }

  /** As written, two video formats one of which has `"height": None` (the
      record `list_formats` builds always has the key, so the default 0
      never applies) make the sort raise TypeError, and the combo stays
      empty. */
  lemma NoneHeightRaises(formats: seq<Dict>, i: nat)
    requires var video := Filter(formats, IsVideo);
      |video| >= 2 && i < |video| && Height in video[i] && video[i][Height] == Null
    ensures FormatsLayout(formats) == Populated([], Some(TypeError))
  {
    var video := Filter(formats, IsVideo);
    assert SortKey(video[i], Height).None?;
  }

  /** An audio format with `"abr": None` among two or more makes the second
      sort raise after the video rows are in. */
  lemma NoneBitrateRaises(formats: seq<Dict>, j: nat)
    requires Sortable(Filter(formats, IsVideo), Height)
    requires var audio := Filter(formats, IsAudio);
      |audio| >= 2 && j < |audio| && Bitrate in audio[j] && audio[j][Bitrate] == Null
    ensures var video := Filter(formats, IsVideo);
      FormatsLayout(formats) == Populated(
        Entries(SortDesc(video, KeyOrZero(Height)), "") + Divider(video, Filter(formats, IsAudio)),
        Some(TypeError))
  {
    var audio := Filter(formats, IsAudio);
    assert SortKey(audio[j], Bitrate).None?;
  }

  /* ---------------- Duration text (`_populate_metadata`) ---------------- */

  /** `int(duration)`: floats truncate toward zero, strings must be decimal
      integers, containers raise TypeError. */
  function Seconds(duration: Value): (r: Result<int, PyError>)
    requires !duration.Null?
    ensures duration.Int? ==> r == Ok(duration.i)
    ensures duration.Real? && duration.r >= 0.0 ==> r == Ok(duration.r.Floor)
    ensures duration.Str? ==> (r.Ok? <==> ParseInt(duration.s).Some?)
  {
    match duration
    case Int(i) => Ok(i)
    case Bool(b) => Ok(if b then 1 else 0)
    case Real(x) => Ok(if x >= 0.0 then x.Floor else -((-x).Floor))
    case Str(s) => if ParseInt(s).Some? then Ok(ParseInt(s).value) else Err(ValueError)
    case _ => Err(TypeError)
  }

  /** The duration label: `"MM:SS"` from `divmod(int(d), 60)`, each part
      padded to two digits, or `"--:--"` without a duration. */
  function DurationText(duration: Value): (r: Result<string, PyError>)
    ensures duration.Null? ==> r == Ok("--:--")
    ensures !duration.Null? ==> (r.Ok? <==> Seconds(duration).Ok?)
  {
    if duration.Null? then Ok("--:--")
    else
      var secs :- Seconds(duration);
      Ok(ClockText(secs))
  }

  /** `f"{mins:02d}:{secs:02d}"` with `mins, secs = divmod(seconds, 60)`;
      Python's `divmod` by a positive number is Dafny's `/` and `%`. */
  function ClockText(seconds: int): string {
    TwoDigits(seconds / 60) + ":" + TwoDigits(seconds % 60)
  }

  /** The label reads back as minutes and seconds that make up the
      duration: two parts around the colon, the seconds below 60. */
  lemma DurationReadsBack(d: nat)
    ensures DurationText(Int(d)) == Ok(ClockText(d))
    ensures var parts := Split(ClockText(d), ':');
      && |parts| == 2 && ParseInt(parts[0]).Some? && ParseInt(parts[1]).Some?
      && 60 * ParseInt(parts[0]).value + ParseInt(parts[1]).value == d
      && 0 <= ParseInt(parts[1]).value < 60
  {
    ClockReadsBack(d / 60, d % 60);
  }

  lemma ClockReadsBack(m: nat, s: nat)
    ensures Split(TwoDigits(m) + ":" + TwoDigits(s), ':') == [TwoDigits(m), TwoDigits(s)]
    ensures ParseInt(TwoDigits(m)) == Some(m) && ParseInt(TwoDigits(s)) == Some(s)
  {
    TwoDigitsRoundTrip(m);
    TwoDigitsRoundTrip(s);
    NoColonInDigits(TwoDigits(m));
    NoColonInDigits(TwoDigits(s));
    SplitAround(TwoDigits(m), TwoDigits(s), ':');
  }

  lemma NoColonInDigits(t: string)
    requires AllDigits(t)
    ensures ':' !in t
  {
    forall k | 0 <= k < |t|
      ensures t[k] != ':'
    {
      assert IsDigit(t[k]);
    }
  }

  /* ---------------- Thumbnail (`_get_thumbnail_url`) ---------------- */

  /** A thumbnail's `t.get("width", 0)` as a number; 0 when it is not one. */
  function WidthOf(t: Value): real {
    if t.Dict? then SortKey(t.entries, "width").GetOr(0.0) else 0.0
  }

  /** Every thumbnail is a dict, and with two or more every width is a number. */
  predicate ThumbnailsSortable(ts: seq<Value>) {
    (forall i :: 0 <= i < |ts| ==> ts[i].Dict?)
    && (|ts| <= 1 || forall i :: 0 <= i < |ts| ==> SortKey(ts[i].entries, "width").Some?)
  }

  /** `sorted(thumbs, key=lambda t: t.get("width", 0))[-1].get("url")`:
      AttributeError when an entry is not a dict (every key is computed
      before any comparison), TypeError when widths cannot be compared. */
  function WidestUrl(ts: seq<Value>): (r: Result<Value, PyError>)
    requires ts != []
    ensures r.Ok? <==> ThumbnailsSortable(ts)
  {
    if exists i :: 0 <= i < |ts| && !ts[i].Dict? then Err(AttributeError)
    else if !ThumbnailsSortable(ts) then Err(TypeError)
    else
      var sorted := SortAsc(ts, WidthOf);
      assert sorted[|ts| - 1] in multiset(ts);
      Ok(Get(sorted[|ts| - 1].entries, "url"))
  }

  /** `_get_thumbnail_url()` over `last_info`: None without info or without
      thumbnails; a truthy `thumbnails` that is a string or a dict iterates
      to strings (AttributeError), any other non-list raises TypeError. */
  function ThumbnailUrl(lastInfo: Option<Dict>): (r: Result<Value, PyError>)
    ensures lastInfo.None? || lastInfo.value == map[] ==> r == Ok(Null)
    ensures lastInfo.Some? && !Truthy(Get(lastInfo.value, "thumbnails")) ==> r == Ok(Null)
  {
    if lastInfo.None? || lastInfo.value == map[] then Ok(Null)
    else
      var thumbs := Get(lastInfo.value, "thumbnails");
      if !Truthy(thumbs) then Ok(Null)
      else if thumbs.List? then WidestUrl(thumbs.items)
      else if thumbs.Str? || thumbs.Dict? then Err(AttributeError)
      else Err(TypeError)
  }

  /** The URL picked is that of a widest thumbnail, the last of the widest
      ones in the order the extractor listed them. */
  lemma ThumbnailIsLastWidest(lastInfo: Dict, ts: seq<Value>)
    requires lastInfo != map[] && Get(lastInfo, "thumbnails") == List(ts) && ts != []
    requires ThumbnailsSortable(ts)
    ensures exists i :: (0 <= i < |ts|
      && ThumbnailUrl(Some(lastInfo)) == Ok(Get(ts[i].entries, "url"))
      && (forall j :: 0 <= j < |ts| ==> WidthOf(ts[j]) <= WidthOf(ts[i]))
      && (forall j :: i < j < |ts| ==> WidthOf(ts[j]) < WidthOf(ts[i])))
  {
    var i := LastOfSortAsc(ts, WidthOf);
    assert WidestUrl(ts) == Ok(Get(ts[i].entries, "url"));
    assert ThumbnailUrl(Some(lastInfo)) == Ok(Get(ts[i].entries, "url"));
  }

  /* ---------------- yt-dlp options (`_build_ydl_opts`) ---------------- */

  /** The window state `_build_ydl_opts` reads. `home` stands for
      `os.path.expanduser("~")`; `currentData` is the combo's current
      item's data. */
  datatype OptionState = OptionState(
    selectedFormat: Value,
    outputDir: Option<string>,
    home: string,
    settingsOverrides: map<string, string>,
    selectedSubtitles: seq<string>,
    saveThumbnail: bool,
    embedSubs: bool,
    saveDescription: bool,
    sponsorblock: bool,
    ffmpegLocation: Option<string>,
    currentData: Option<Dict>)

  /** `os.path.join(a, b)` with POSIX separators. */
  function PathJoin(a: string, b: string): (r: string)
    ensures StartsWith(b, "/") ==> r == b
  {
    if StartsWith(b, "/") then b
    else if a == [] || EndsWith(a, "/") then a + b
    else a + "/" + b
  }

  const TitleDir: string := "%(title)s"
  const TitleFile: string := "%(title)s.%(ext)s"

  /** `self.output_dir or self._downloads_dir()` */
  function BaseDir(outputDir: Option<string>, home: string): string {
    if outputDir.Some? && outputDir.value != [] then outputDir.value else PathJoin(home, "Downloads")
  }

  /** `<base>/%(title)s/%(title)s.%(ext)s` */
  function OutputTemplate(base: string): string {
    PathJoin(PathJoin(base, TitleDir), TitleFile)
  }

  /** Every download goes to a directory of its own, named after the title,
      under the base directory. */
  lemma OutputTemplateNestsUnderBase(base: string)
    requires base != [] && !EndsWith(base, "/")
    ensures Split(OutputTemplate(base), '/') == Split(base, '/') + [TitleDir, TitleFile]
  {
    assert !StartsWith(TitleDir, "/") && !StartsWith(TitleFile, "/");
    assert !EndsWith(base + "/" + TitleDir, "/");
    assert OutputTemplate(base) == base + ['/'] + (TitleDir + ['/'] + TitleFile);
    SplitAppend(base, TitleDir + ['/'] + TitleFile, '/');
    assert '/' !in TitleDir && '/' !in TitleFile;
    SplitAround(TitleDir, TitleFile, '/');
  }

  /** `self.settings_overrides.get("concurrent", "4")` */
  function ConcurrentText(settings: map<string, string>): string {
    if "concurrent" in settings then settings["concurrent"] else "4"
  }

  /** The format option: the selection when it is truthy, else the default. */
  function FormatOption(selected: Value): Value {
    if Truthy(selected) then selected else Str(DefaultFormat)
  }

  /** `self.selected_subtitles or ["en"]` */
  function SubtitleLangs(selected: seq<string>): Value {
    var langs := if selected == [] then ["en"] else selected;
    List(seq(|langs|, i requires 0 <= i < |langs| => Str(langs[i])))
  }

  /** The current quality is audio only: truthy data whose vcodec is "none". */
  predicate AudioOnly(currentData: Option<Dict>) {
    currentData.Some? && currentData.value != map[] && Get(currentData.value, "vcodec") == Str("none")
  }

  const AudioPostprocessor: Value := Value.Dict(map[
    "key" := Str("FFmpegExtractAudio"),
    "preferredcodec" := Str("mp3"),
    "preferredquality" := Str("0")])

  const SponsorCategories: seq<string> :=
    ["sponsor", "selfpromo", "interaction", "intro", "outro", "preview", "music_offtopic"]

  function SponsorList(): (r: Value)
    ensures r.List? && |r.items| == |SponsorCategories|
    ensures forall i :: 0 <= i < |SponsorCategories| ==> r.items[i] == Str(SponsorCategories[i])
  {
    List(seq(|SponsorCategories|, i requires 0 <= i < |SponsorCategories| => Str(SponsorCategories[i])))
  }

  predicate FfmpegSet(location: Option<string>) {
    location.Some? && location.value != []
  }

  /** The keys `_build_ydl_opts` sets, one constructor per key. */
  datatype OptionKey =
    | Format | OutTmpl | NoPlaylist | ConcurrentFragments | Postprocessors
    | WriteThumbnail | WriteSubtitles | SubtitlesLangs | EmbedSubtitles | WriteDescription
    | SponsorblockMark | SponsorblockRemove | FfmpegLocation

  /** The key as yt-dlp reads it. */
  function OptionName(k: OptionKey): string {
    match k
    case Format => "format"
    case OutTmpl => "outtmpl"
    case NoPlaylist => "noplaylist"
    case ConcurrentFragments => "concurrent_fragment_downloads"
    case Postprocessors => "postprocessors"
    case WriteThumbnail => "writethumbnail"
    case WriteSubtitles => "writesubtitles"
    case SubtitlesLangs => "subtitleslangs"
    case EmbedSubtitles => "embedsubtitles"
    case WriteDescription => "writedescription"
    case SponsorblockMark => "sponsorblock_mark"
    case SponsorblockRemove => "sponsorblock_remove"
    case FfmpegLocation => "ffmpeg_location"
  }

  /** The option dictionary, keyed by `OptionKey`. */
  type YdlOptions = map<OptionKey, Value>

  /** The keys of the dictionary literal. */
  const BaseKeys: set<OptionKey> := {
    Format, OutTmpl, NoPlaylist, ConcurrentFragments, Postprocessors,
    WriteThumbnail, WriteSubtitles, SubtitlesLangs, EmbedSubtitles, WriteDescription}

  /** The dictionary literal, with `concurrent` already converted. */
  function BaseOpts(o: OptionState, concurrent: int): (d: YdlOptions)
    ensures d.Keys == BaseKeys
  {
    map[
      Format := FormatOption(o.selectedFormat),
      OutTmpl := Value.Dict(map["default" := Str(OutputTemplate(BaseDir(o.outputDir, o.home)))]),
      NoPlaylist := Bool(true),
      ConcurrentFragments := Int(concurrent),
      Postprocessors := List([]),
      WriteThumbnail := Bool(o.saveThumbnail),
      WriteSubtitles := Bool(o.selectedSubtitles != []),
      SubtitlesLangs := SubtitleLangs(o.selectedSubtitles),
      EmbedSubtitles := Bool(o.embedSubs),
      WriteDescription := Bool(o.saveDescription)]
  }

  /** The conditional additions, in the order the code makes them. */
  function Additions(o: OptionState, base: YdlOptions): YdlOptions {
    var withAudio := if AudioOnly(o.currentData) then base[Postprocessors := List([AudioPostprocessor])] else base;
    var withSponsor :=
      if o.sponsorblock then withAudio[SponsorblockMark := SponsorList()][SponsorblockRemove := SponsorList()]
      else withAudio;
    if FfmpegSet(o.ffmpegLocation) then withSponsor[FfmpegLocation := Str(o.ffmpegLocation.value)]
    else withSponsor
  }

  /** `_build_ydl_opts()`: None where `int()` of the concurrency setting
      raises ValueError. */
  function YdlOpts(o: OptionState): (r: Option<YdlOptions>)
    ensures r.Some? <==> ParseInt(ConcurrentText(o.settingsOverrides)).Some?
  {
    match ParseInt(ConcurrentText(o.settingsOverrides))
    case None => None
    case Some(n) => Some(OptsWith(o, n))
  }

  /** The options once the concurrency setting has been read as `concurrent`. */
  function OptsWith(o: OptionState, concurrent: int): YdlOptions {
    Additions(o, BaseOpts(o, concurrent))
  }

  /** The keys present: the literal's, both sponsorblock keys exactly when
      the option is on, `ffmpeg_location` exactly when a location is set. */
  lemma YdlOptsKeys(o: OptionState, n: int)
    ensures OptsWith(o, n).Keys == BaseKeys
      + (if o.sponsorblock then {SponsorblockMark, SponsorblockRemove} else {})
      + (if FfmpegSet(o.ffmpegLocation) then {FfmpegLocation} else {})
  {
  }

  /** The format is the selection when there is one, else the default
      best-video-plus-best-audio. */
  lemma YdlOptsFormat(o: OptionState, n: int)
    ensures OptsWith(o, n)[Format] == (if Truthy(o.selectedFormat) then o.selectedFormat else Str(DefaultFormat))
  {
  }

  /** Subtitles are written exactly when some are selected; the languages
      are the selection, or English when there is none. */
  lemma YdlOptsSubtitles(o: OptionState, n: int)
    ensures OptsWith(o, n)[WriteSubtitles] == Bool(o.selectedSubtitles != [])
    ensures var langs := OptsWith(o, n)[SubtitlesLangs];
      && langs.List?
      && (o.selectedSubtitles == [] ==> langs.items == [Str("en")])
      && (o.selectedSubtitles != [] ==>
            && |langs.items| == |o.selectedSubtitles|
            && forall i :: 0 <= i < |o.selectedSubtitles| ==> langs.items[i] == Str(o.selectedSubtitles[i]))
  {
  }

  /** The mp3 extraction step is there exactly when the current quality is
      audio only. */
  lemma YdlOptsAudio(o: OptionState, n: int)
    ensures OptsWith(o, n)[Postprocessors] == List(if AudioOnly(o.currentData) then [AudioPostprocessor] else [])
  {
  }

  /** With SponsorBlock on, the same seven categories are both marked and
      removed. */
  lemma YdlOptsSponsorBlock(o: OptionState, n: int)
    requires o.sponsorblock
    ensures OptsWith(o, n)[SponsorblockMark] == OptsWith(o, n)[SponsorblockRemove] == SponsorList()
  {
  }

  /** The ffmpeg location is passed on as it is. */
  lemma YdlOptsFfmpeg(o: OptionState, n: int)
    requires FfmpegSet(o.ffmpegLocation)
    ensures OptsWith(o, n)[FfmpegLocation] == Str(o.ffmpegLocation.value)
  {
  }

  /** With the settings as the window starts, four fragments are fetched at
      once. */
  lemma DefaultConcurrency(o: OptionState)
    requires o.settingsOverrides == map["concurrent" := "4"] || "concurrent" !in o.settingsOverrides
    ensures YdlOpts(o) == Some(OptsWith(o, 4))
  {
    assert ConcurrentText(o.settingsOverrides) == "4";
    ParseIntRoundTrip(4);
    assert NatToDecimal(4) == "4";
  }

  /** The concurrency read from the settings is passed on as it is. */
  lemma YdlOptsConcurrency(o: OptionState, n: int)
    ensures OptsWith(o, n)[ConcurrentFragments] == Int(n)
  {
  }

  /* ---------------- The window ---------------- */

  class MainWindow {
    /** The Search button. */
    const analyzeBtn: Spinner.LoadingButton
    var urlEnabled: bool
    var downloadEnabled: bool
    var addToQueueEnabled: bool
    var settingsEnabled: bool
    var comboEnabled: bool
    /** The progress bar's range is `(0, progressMax)`; 0 makes it a busy
        indicator. */
    var progressMax: int
    var progressValue: int
    var progressFormat: string

    var combo: seq<ComboEntry>
    var currentIndex: int
    var selectedFormat: Value
    var outputDir: Option<string>
    const home: string
    var settingsOverrides: map<string, string>
    var selectedSubtitles: seq<string>
    var optionEmbedSubs: bool
    var optionSponsorblock: bool
    var optionSaveThumbnail: bool
    var optionSaveDescription: bool
    var ffmpegLocation: Option<string>
    var lastInfo: Option<Dict>

    /** The window as `__init__` leaves it: the state fields, the output
        directory set to the Downloads folder, then `_update_ui_state` in its
        idle form. `ffmpeg` is what `_detect_ffmpeg()` found. */
    constructor (home: string, ffmpeg: Option<string>)
      ensures fresh(analyzeBtn) && analyzeBtn.State() == Spinner.ButtonState("Search", "Search", false, 0, false, false, true)
      ensures this.home == home && ffmpegLocation == ffmpeg
      ensures combo == [] && currentIndex == -1 && selectedFormat == Null && lastInfo == None
      ensures outputDir == Some(PathJoin(home, "Downloads"))
      ensures settingsOverrides == map["concurrent" := "4"] && selectedSubtitles == []
      ensures !optionEmbedSubs && !optionSponsorblock && !optionSaveThumbnail && !optionSaveDescription
      ensures urlEnabled && settingsEnabled && !downloadEnabled && !addToQueueEnabled && !comboEnabled
      ensures progressMax == 100 && progressValue == 0 && progressFormat == ""
    {
      analyzeBtn := new Spinner.LoadingButton("Search");
      urlEnabled, downloadEnabled, addToQueueEnabled, settingsEnabled, comboEnabled := true, true, true, true, true;
      progressMax, progressValue, progressFormat := 100, 0, "";
      combo, currentIndex, selectedFormat := [], -1, Null;
      outputDir := None;
      this.home := home;
      settingsOverrides := map["concurrent" := "4"];
      selectedSubtitles := [];
      optionEmbedSubs, optionSponsorblock, optionSaveThumbnail, optionSaveDescription := false, false, false, false;
      ffmpegLocation := ffmpeg;
      lastInfo := None;
      new;
      outputDir := Some(PathJoin(home, "Downloads"));
      UpdateUiState(false, true, false);
    }

    /** `format_combo.currentData()` */
    function CurrentData(): Option<Dict>
      reads this
    {
      DataAt(combo, currentIndex)
    }

    function Options(): OptionState
      reads this
    {
      OptionState(selectedFormat, outputDir, home, settingsOverrides, selectedSubtitles,
                  optionSaveThumbnail, optionEmbedSubs, optionSaveDescription, optionSponsorblock,
                  ffmpegLocation, CurrentData())
    }

    /** The `setEnabled` calls at the top of `_update_ui_state`. */
    method SetEnabledStates(isAnalyzing: bool, hasInfo: bool)
      modifies this`urlEnabled, this`downloadEnabled, this`addToQueueEnabled, this`settingsEnabled,
        this`comboEnabled, analyzeBtn`enabled
      ensures urlEnabled == settingsEnabled == analyzeBtn.enabled == !isAnalyzing
      ensures downloadEnabled == addToQueueEnabled == (hasInfo && !isAnalyzing)
      ensures comboEnabled == hasInfo
    {
      urlEnabled := !isAnalyzing;
      analyzeBtn.SetEnabled(!isAnalyzing);
      downloadEnabled := hasInfo && !isAnalyzing;
      addToQueueEnabled := hasInfo && !isAnalyzing;
      settingsEnabled := !isAnalyzing;
      comboEnabled := hasInfo;
    }

    /** `_update_ui_state(is_analyzing, is_idle, has_info)`: the Search
        button ends up enabled exactly when not analyzing, whichever branch
        `setLoading` is called in. */
    method UpdateUiState(isAnalyzing: bool, isIdle: bool, hasInfo: bool)
      modifies this`urlEnabled, this`downloadEnabled, this`addToQueueEnabled, this`settingsEnabled,
        this`comboEnabled, this`progressMax, this`progressValue, this`progressFormat, analyzeBtn
      ensures urlEnabled == settingsEnabled == !isAnalyzing
      ensures downloadEnabled == addToQueueEnabled == (hasInfo && !isAnalyzing)
      ensures comboEnabled == hasInfo
      ensures analyzeBtn.enabled == !isAnalyzing
      ensures analyzeBtn.State() ==
        (if isAnalyzing then Spinner.WithLoading(old(analyzeBtn.State()).(enabled := false), true)
         else if isIdle || hasInfo then Spinner.WithLoading(old(analyzeBtn.State()).(enabled := true), false)
         else old(analyzeBtn.State()).(enabled := true))
      ensures isAnalyzing ==> progressMax == 0 && progressFormat == "Analyzing..." && progressValue == old(progressValue)
      ensures !isAnalyzing && (isIdle || hasInfo) ==> progressMax == 100 && progressValue == 0 && progressFormat == ""
      ensures !isAnalyzing && !isIdle && !hasInfo ==>
        progressMax == old(progressMax) && progressValue == old(progressValue) && progressFormat == old(progressFormat)
    {
      SetEnabledStates(isAnalyzing, hasInfo);
      if isAnalyzing {
        analyzeBtn.SetLoading(true);
        progressMax := 0;
        progressFormat := "Analyzing...";
      } else if isIdle || hasInfo {
        analyzeBtn.SetLoading(false);
        progressMax := 100;
        progressValue := 0;
        progressFormat := "";
      }
    }

    /** `_on_format_selected(index)` */
    method OnFormatSelected(index: int)
      modifies this`selectedFormat
      ensures selectedFormat == FormatSelection(index, DataAt(combo, index))
    {
      var data := DataAt(combo, index);
      if index == -1 || data.None? || data.value == map[] {
        selectedFormat := Null;
        return;
      }
      var formatId := Get(data.value, "format_id");
      if Get(data.value, "vcodec") != Str("none") && Get(data.value, "acodec") == Str("none") {
        selectedFormat := Str(Render(formatId) + MergeSuffix);
      } else {
        selectedFormat := formatId;
      }
    }

    /** After the combo was cleared and refilled, Qt made its first row
        current (and reported it), or none when there are no rows. */
    predicate FirstRowSelected()
      reads this
    {
      if combo == [] then currentIndex == -1 && selectedFormat == Null
      else currentIndex == 0 && selectedFormat == FormatSelection(0, DataAt(combo, 0))
    }

    /** `addItem` for each format: the first row added to an empty combo
        becomes current, which reports it to `_on_format_selected`. */
    method AddRows(fs: seq<Dict>, prefix: string)
      requires FirstRowSelected()
      modifies this`combo, this`currentIndex, this`selectedFormat
      ensures combo == old(combo) + Entries(fs, prefix)
      ensures FirstRowSelected()
    {
      ghost var start := combo;
      for i := 0 to |fs|
        invariant combo == start + Entries(fs[..i], prefix)
        invariant FirstRowSelected()
      {
        var before := combo;
        combo := combo + [Entry(RowText(fs[i], prefix), fs[i])];
        assert Entries(fs[..i + 1], prefix) == Entries(fs[..i], prefix) + [Entry(RowText(fs[i], prefix), fs[i])];
        if before == [] {
          currentIndex := 0;
          OnFormatSelected(0);
        } else {
          assert combo[0] == before[0];
        }
      }
      assert fs[..|fs|] == fs;
    }

    /** `_populate_formats(formats)`: clear, video rows tallest first, the
        separator, audio rows by bitrate; a sort that raises ends it early. */
    method PopulateFormats(formats: seq<Dict>) returns (raised: Option<PyError>)
      modifies this`combo, this`currentIndex, this`selectedFormat
      ensures Populated(combo, raised) == FormatsLayout(formats)
      ensures FirstRowSelected()
    {
      combo := [];
      currentIndex := -1;
      OnFormatSelected(-1);
      var video := Filter(formats, IsVideo);
      var audio := Filter(formats, IsAudio);
      var videoRows := SortedBy(video, Height);
      if videoRows.Err? {
        return Some(videoRows.error);
      }
      AddRows(videoRows.value, "");
      assert combo == Entries(videoRows.value, "");
      if video != [] && audio != [] {
        combo := combo + [Separator];
        assert combo[0] == Entries(videoRows.value, "")[0];
      }
      ghost var head := Entries(videoRows.value, "") + Divider(video, audio);
      assert combo == head;
      var audioRows := SortedBy(audio, Bitrate);
      if audioRows.Err? {
        return Some(audioRows.error);
      }
      AddRows(audioRows.value, AudioPrefix);
      assert combo == head + Entries(audioRows.value, AudioPrefix);
      return None;
    }

    /** `_build_ydl_opts()`: the literal, then the in-place additions. */
    method BuildYdlOpts() returns (r: Option<YdlOptions>)
      ensures r == YdlOpts(Options())
    {
      var concurrent := ParseInt(ConcurrentText(settingsOverrides));
      if concurrent.None? {
        return None;
      }
      var opts := BaseOpts(Options(), concurrent.value);
      var selected := CurrentData();
      if selected.Some? && selected.value != map[] && Get(selected.value, "vcodec") == Str("none") {
        opts := opts[Postprocessors := List([AudioPostprocessor])];
      }
      if optionSponsorblock {
        opts := opts[SponsorblockMark := SponsorList()];
        opts := opts[SponsorblockRemove := SponsorList()];
      }
      if ffmpegLocation.Some? && ffmpegLocation.value != [] {
        opts := opts[FfmpegLocation := Str(ffmpegLocation.value)];
      }
      return Some(opts);
    }
  }
}
