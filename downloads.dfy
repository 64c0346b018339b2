/** The download record and the history store (queue_manager.py): the
    status enum, `DownloadItem` with its `to_dict`/`from_dict` pair, and
    `QueueManager`, which keeps the last hundred downloads in a list it
    rewrites in place and saves to a JSON file after every change. */
module Downloads {
  import opened Wrappers
  import opened PyValues
  import opened IsoDateTime
  import SeqUtil

  datatype DownloadStatus = Pending | Downloading | Completed | Failed | Cancelled

  /** `status.value`, the tag the history file stores. */
  function StatusValue(s: DownloadStatus): string {
    match s
    case Pending => "pending"
    case Downloading => "downloading"
    case Completed => "completed"
    case Failed => "failed"
    case Cancelled => "cancelled"
  }

  /** `DownloadStatus(v)`: the member whose value is `v`, ValueError (None)
      for any other text. */
  function StatusFromValue(v: string): (r: Option<DownloadStatus>)
    ensures r.Some? ==> StatusValue(r.value) == v
  {
    if v == "pending" then Some(Pending)
    else if v == "downloading" then Some(Downloading)
    else if v == "completed" then Some(Completed)
    else if v == "failed" then Some(Failed)
    else if v == "cancelled" then Some(Cancelled)
    else None
  }

  lemma StatusRoundTrip(s: DownloadStatus)
    ensures StatusFromValue(StatusValue(s)) == Some(s)
  {
  }

  /** One requested download. `options` is the yt-dlp option bag. */
  datatype DownloadItem = DownloadItem(
    url: string,
    title: string,
    uploader: string,
    duration: Option<int>,
    thumbnailUrl: Option<string>,
    selectedFormat: Option<string>,
    outputPath: string,
    options: Dict,
    status: DownloadStatus,
    addedAt: Timestamp,
    startedAt: Option<Timestamp>,
    completedAt: Option<Timestamp>,
    errorMessage: Option<string>,
    fileSize: Option<int>,
    downloadSpeed: Option<string>)

  /** The dataclass's fields, i.e. the keys of `to_dict` and the keywords
      `cls(**data)` accepts. */
  const FieldNames: set<string> := {
    "url", "title", "uploader", "duration", "thumbnail_url", "selected_format",
    "output_path", "options", "status", "added_at", "started_at", "completed_at",
    "error_message", "file_size", "download_speed"}

  /** The fields without a default value. */
  const RequiredFields: set<string> := {
    "url", "title", "uploader", "duration", "thumbnail_url", "selected_format",
    "output_path", "options", "status", "added_at"}

  function OptStr(o: Option<string>): Value {
    if o.Some? then Str(o.value) else Null
  }

  function OptInt(o: Option<int>): Value {
    if o.Some? then Int(o.value) else Null
  }

  function OptTime(o: Option<Timestamp>): Value {
    if o.Some? then Str(IsoFormat(o.value)) else Null
  }

  /** The value `to_dict` stores under the field name `k`: the status as
      its string tag, set timestamps as ISO text, unset ones as None. */
  function FieldValue(item: DownloadItem, k: string): Value {
    if k == "url" then Str(item.url)
    else if k == "title" then Str(item.title)
    else if k == "uploader" then Str(item.uploader)
    else if k == "duration" then OptInt(item.duration)
    else if k == "thumbnail_url" then OptStr(item.thumbnailUrl)
    else if k == "selected_format" then OptStr(item.selectedFormat)
    else if k == "output_path" then Str(item.outputPath)
    else if k == "options" then Dict(item.options)
    else if k == "status" then Str(StatusValue(item.status))
    else if k == "added_at" then Str(IsoFormat(item.addedAt))
    else if k == "started_at" then OptTime(item.startedAt)
    else if k == "completed_at" then OptTime(item.completedAt)
    else if k == "error_message" then OptStr(item.errorMessage)
    else if k == "file_size" then OptInt(item.fileSize)
    else OptStr(item.downloadSpeed)
  }

  /** `item.to_dict()`: one entry per field, under the field's name. */
  function ToDict(item: DownloadItem): (d: Dict)
    ensures d.Keys == FieldNames
    ensures forall k :: k in d ==> d[k] == FieldValue(item, k)
  {
    map k | k in FieldNames :: FieldValue(item, k)
  }

  /** Why `from_dict` rejects a record. `WrongType` is where this typed model
      refuses a value the dataclass would have stored without checking. */
  datatype DecodeError =
    | MissingKey(key: string)
    | UnknownKeys(keys: set<string>)
    | MissingKeys(keys: set<string>)
    | BadStatus(status: Value)
    | BadTimestamp(key: string)
    | WrongType(key: string)

  function StrField(d: Dict, key: string): Result<string, DecodeError> {
    if key !in d then Err(MissingKey(key))
    else if d[key].Str? then Ok(d[key].s)
    else Err(WrongType(key))
  }

  function OptStrField(d: Dict, key: string): Result<Option<string>, DecodeError> {
    match Get(d, key)
    case Null => Ok(None)
    case Str(s) => Ok(Some(s))
    case _ => Err(WrongType(key))
  }

  function OptIntField(d: Dict, key: string): Result<Option<int>, DecodeError> {
    match Get(d, key)
    case Null => Ok(None)
    case Int(i) => Ok(Some(i))
    case _ => Err(WrongType(key))
  }

  function DictField(d: Dict, key: string): Result<Dict, DecodeError> {
    if key !in d then Err(MissingKey(key))
    else if d[key].Dict? then Ok(d[key].entries)
    else Err(WrongType(key))
  }

  /** `if data.get(key): data[key] = datetime.fromisoformat(data[key])`:
      a truthy value must be ISO text; a falsy one is kept as it is, which
      only None fits. */
  function OptTimeField(d: Dict, key: string): Result<Option<Timestamp>, DecodeError> {
    var v := Get(d, key);
    if Truthy(v) then
      if v.Str? && FromIsoFormat(v.s).Some? then Ok(Some(FromIsoFormat(v.s).value))
      else Err(BadTimestamp(key))
    else if v.Null? then Ok(None)
    else Err(WrongType(key))
  }

  /** The lifecycle fields `from_dict` converts before calling the
      constructor. */
  datatype Converted = Converted(
    status: DownloadStatus, addedAt: Timestamp,
    startedAt: Option<Timestamp>, completedAt: Option<Timestamp>)

  /** The conversions at the head of `from_dict`, in their order: the status
      tag through the enum (KeyError or ValueError), `added_at` through
      `fromisoformat`, then the optional timestamps. */
  function Convert(d: Dict): Result<Converted, DecodeError> {
    if "status" !in d then Err(MissingKey("status"))
    else if !d["status"].Str? || StatusFromValue(d["status"].s).None? then Err(BadStatus(d["status"]))
    else if "added_at" !in d then Err(MissingKey("added_at"))
    else if !d["added_at"].Str? || FromIsoFormat(d["added_at"].s).None? then Err(BadTimestamp("added_at"))
    else
      var startedAt :- OptTimeField(d, "started_at");
      var completedAt :- OptTimeField(d, "completed_at");
      Ok(Converted(StatusFromValue(d["status"].s).value, FromIsoFormat(d["added_at"].s).value,
                   startedAt, completedAt))
  }

  /** `cls(**data)` once the keyword set is right: every other field taken
      as it is stored. */
  function Construct(d: Dict, c: Converted): Result<DownloadItem, DecodeError> {
    var url :- StrField(d, "url");
    var title :- StrField(d, "title");
    var uploader :- StrField(d, "uploader");
    var duration :- OptIntField(d, "duration");
    var thumbnailUrl :- OptStrField(d, "thumbnail_url");
    var selectedFormat :- OptStrField(d, "selected_format");
    var outputPath :- StrField(d, "output_path");
    var options :- DictField(d, "options");
    var errorMessage :- OptStrField(d, "error_message");
    var fileSize :- OptIntField(d, "file_size");
    var downloadSpeed :- OptStrField(d, "download_speed");
    Ok(DownloadItem(url, title, uploader, duration, thumbnailUrl, selectedFormat,
                    outputPath, options, c.status, c.addedAt, c.startedAt, c.completedAt,
                    errorMessage, fileSize, downloadSpeed))
  }

  /** `DownloadItem.from_dict(data)`: the conversions, then the dataclass
      constructor, which rejects unknown keywords and missing required ones. */
  function FromDict(d: Dict): Result<DownloadItem, DecodeError> {
    var c :- Convert(d);
    if !(d.Keys <= FieldNames) then Err(UnknownKeys(d.Keys - FieldNames))
    else if !(RequiredFields <= d.Keys) then Err(MissingKeys(RequiredFields - d.Keys))
    else Construct(d, c)
  }

  lemma OptTimeRoundTrip(d: Dict, key: string, t: Option<Timestamp>)
    requires key in d && d[key] == OptTime(t)
    ensures OptTimeField(d, key) == Ok(t)
  {
    if t.Some? {
      IsoRoundTrip(t.value);
    }
  }

  lemma LifecycleFieldsStored(item: DownloadItem)
    ensures var d := ToDict(item);
      && "status" in d && d["status"] == Str(StatusValue(item.status))
      && "added_at" in d && d["added_at"] == Str(IsoFormat(item.addedAt))
      && "started_at" in d && d["started_at"] == OptTime(item.startedAt)
      && "completed_at" in d && d["completed_at"] == OptTime(item.completedAt)
  {
    StatusStored(item);
    AddedAtStored(item);
    StartedAtStored(item);
    CompletedAtStored(item);
  }

  lemma StatusStored(item: DownloadItem)
    ensures var d := ToDict(item); "status" in d && d["status"] == Str(StatusValue(item.status))
  {
  }

  lemma AddedAtStored(item: DownloadItem)
    ensures var d := ToDict(item); "added_at" in d && d["added_at"] == Str(IsoFormat(item.addedAt))
  {
    AddedAtValue(item);
  }

  lemma AddedAtValue(item: DownloadItem)
    ensures "added_at" in FieldNames && FieldValue(item, "added_at") == Str(IsoFormat(item.addedAt))
  {
  }

  lemma StartedAtStored(item: DownloadItem)
    ensures var d := ToDict(item); "started_at" in d && d["started_at"] == OptTime(item.startedAt)
  {
  }

  lemma CompletedAtStored(item: DownloadItem)
    ensures var d := ToDict(item); "completed_at" in d && d["completed_at"] == OptTime(item.completedAt)
  {
  }

  /** The conversions recover the lifecycle fields from any record that
      holds them in their stored form. */
  lemma ConvertFrom(d: Dict, c: Converted)
    requires "status" in d && d["status"] == Str(StatusValue(c.status))
    requires "added_at" in d && d["added_at"] == Str(IsoFormat(c.addedAt))
    requires OptTimeField(d, "started_at") == Ok(c.startedAt)
    requires OptTimeField(d, "completed_at") == Ok(c.completedAt)
    ensures Convert(d) == Ok(c)
  {
    StatusRoundTrip(c.status);
    IsoRoundTrip(c.addedAt);
  }

  lemma ConvertRoundTrip(item: DownloadItem)
    ensures Convert(ToDict(item)) == Ok(Converted(item.status, item.addedAt, item.startedAt, item.completedAt))
  {
    var d := ToDict(item);
    LifecycleFieldsStored(item);
    OptTimeRoundTrip(d, "started_at", item.startedAt);
    OptTimeRoundTrip(d, "completed_at", item.completedAt);
    ConvertFrom(d, Converted(item.status, item.addedAt, item.startedAt, item.completedAt));
  }

  lemma RequestFieldsStored(item: DownloadItem)
    ensures var d := ToDict(item);
      && "url" in d && d["url"] == Str(item.url) && "title" in d && d["title"] == Str(item.title)
      && "uploader" in d && d["uploader"] == Str(item.uploader)
      && "output_path" in d && d["output_path"] == Str(item.outputPath)
  {
  }

  lemma MediaFieldsStored(item: DownloadItem)
    ensures var d := ToDict(item);
      && "duration" in d && d["duration"] == OptInt(item.duration)
      && "thumbnail_url" in d && d["thumbnail_url"] == OptStr(item.thumbnailUrl)
      && "selected_format" in d && d["selected_format"] == OptStr(item.selectedFormat)
      && "options" in d && d["options"] == Value.Dict(item.options)
  {
  }

  lemma ResultFieldsStored(item: DownloadItem)
    ensures var d := ToDict(item);
      && "error_message" in d && d["error_message"] == OptStr(item.errorMessage)
  {
  }

  lemma SizeFieldsStored(item: DownloadItem)
    ensures var d := ToDict(item);
      && "file_size" in d && d["file_size"] == OptInt(item.fileSize)
      && "download_speed" in d && d["download_speed"] == OptStr(item.downloadSpeed)
  {
  }

  /** The dataclass constructor rebuilds `item` from any record holding its
      field values under their names. */
  lemma ConstructFrom(d: Dict, item: DownloadItem)
    requires && "url" in d && d["url"] == Str(item.url) && "title" in d && d["title"] == Str(item.title)
      && "uploader" in d && d["uploader"] == Str(item.uploader)
      && "output_path" in d && d["output_path"] == Str(item.outputPath)
    requires && "duration" in d && d["duration"] == OptInt(item.duration)
      && "thumbnail_url" in d && d["thumbnail_url"] == OptStr(item.thumbnailUrl)
      && "selected_format" in d && d["selected_format"] == OptStr(item.selectedFormat)
      && "options" in d && d["options"] == Value.Dict(item.options)
    requires "error_message" in d && d["error_message"] == OptStr(item.errorMessage)
    requires && "file_size" in d && d["file_size"] == OptInt(item.fileSize)
      && "download_speed" in d && d["download_speed"] == OptStr(item.downloadSpeed)
    ensures Construct(d, Converted(item.status, item.addedAt, item.startedAt, item.completedAt)) == Ok(item)
  {
  }

  lemma ConstructRoundTrip(item: DownloadItem)
    ensures Construct(ToDict(item), Converted(item.status, item.addedAt, item.startedAt, item.completedAt)) == Ok(item)
  {
    RequestFieldsStored(item);
    MediaFieldsStored(item);
    ResultFieldsStored(item);
    SizeFieldsStored(item);
    ConstructFrom(ToDict(item), item);
  }

  /** `from_dict(to_dict(item))` reproduces every field, unset timestamps
      included. */
  lemma RecordRoundTrip(item: DownloadItem)
    ensures FromDict(ToDict(item)) == Ok(item)
  {
    ConvertRoundTrip(item);
    assert RequiredFields <= FieldNames;
    ConstructRoundTrip(item);
  }

  /** What `json.dump` can write: everything but the progress-hook callable. */
  predicate Serializable(v: Value) {
    match v
    case ProgressHook => false
    case List(xs) => forall i :: 0 <= i < |xs| ==> Serializable(xs[i])
    case Dict(m) => forall k :: k in m ==> Serializable(m[k])
    case _ => true
  }

  predicate ItemSerializable(item: DownloadItem) {
    Serializable(Dict(item.options))
  }

  /** The history file as the store last left it. The file holds JSON; the
      model keeps the decoded value. */
  datatype HistoryFile = Absent | Unparsable | Json(content: Value)

  /** `DownloadItem.from_dict(r)` for one stored record, None when it raises
      (a record that is not a dictionary fails on its first lookup). */
  function DecodeRecord(v: Value): Option<DownloadItem> {
    if !v.Dict? then None
    else match FromDict(v.entries)
      case Ok(item) => Some(item)
      case Err(_) => None
  }

  /** `[DownloadItem.from_dict(r) for r in records]`: None as soon as any
      record raises. */
  function DecodeAll(records: seq<Value>): (r: Option<seq<DownloadItem>>)
    ensures r.Some? <==> forall i :: 0 <= i < |records| ==> DecodeRecord(records[i]).Some?
    ensures r.Some? ==> |r.value| == |records|
    ensures r.Some? ==> forall i :: 0 <= i < |records| ==> Some(r.value[i]) == DecodeRecord(records[i])
  {
    if forall i :: 0 <= i < |records| ==> DecodeRecord(records[i]).Some? then
      Some(seq(|records|, i requires 0 <= i < |records| => DecodeRecord(records[i]).value))
    else None
  }

  /** `_load_data`: a missing, unreadable or undecodable file leaves the
      history empty. */
  function LoadHistory(file: HistoryFile): seq<DownloadItem> {
    match file
    case Json(List(records)) => DecodeAll(records).GetOr([])
    case _ => []
  }

  /** `[item.to_dict() for item in self.history]` */
  function Records(h: seq<DownloadItem>): (r: seq<Value>)
    ensures |r| == |h|
  {
    seq(|h|, i requires 0 <= i < |h| => Value.Dict(ToDict(h[i])))
  }

  /** `_save_history`: a file that cannot be opened keeps its old content;
      a value `json.dump` cannot write leaves a truncated, unparsable file;
      otherwise the file holds one record per entry. No error escapes. */
  function Saved(old_file: HistoryFile, h: seq<DownloadItem>, writable: bool): HistoryFile {
    if !writable then old_file
    else if forall i :: 0 <= i < |h| ==> ItemSerializable(h[i]) then Json(List(Records(h)))
    else Unparsable
  }

  lemma DecodeRecords(h: seq<DownloadItem>)
    ensures DecodeAll(Records(h)) == Some(h)
  {
    var r := Records(h);
    forall i | 0 <= i < |h|
      ensures DecodeRecord(r[i]) == Some(h[i])
    {
      RecordRoundTrip(h[i]);
    }
    assert DecodeAll(r).value == h;
  }

  /** Saving and loading again gives the same history. */
  lemma SaveLoadRoundTrip(old_file: HistoryFile, h: seq<DownloadItem>)
    requires forall i :: 0 <= i < |h| ==> ItemSerializable(h[i])
    ensures LoadHistory(Saved(old_file, h, true)) == h
  {
    DecodeRecords(h);
  }

  const MaxHistory: nat := 100

  /** `history[-100:]` when the list is longer than a hundred entries. */
  function Capped(h: seq<DownloadItem>): (r: seq<DownloadItem>)
    ensures |r| == if |h| > MaxHistory then MaxHistory else |h|
    ensures r == h[|h| - |r|..]
  {
    if |h| > MaxHistory then h[|h| - MaxHistory..] else h
  }

  /** Appending keeps the newest entries: the new item is last, the length
      grows by one up to the cap, and what goes is the oldest entry. */
  lemma AppendKeepsNewest(h: seq<DownloadItem>, item: DownloadItem)
    requires |h| <= MaxHistory
    ensures var r := Capped(h + [item]);
      && r[|r| - 1] == item
      && (|h| < MaxHistory ==> r == h + [item])
      && (|h| == MaxHistory ==> r == h[1..] + [item])
  {
  }

  predicate IsFailed(item: DownloadItem) {
    item.status == Failed
  }

  /** `[item for item in history if item.status == DownloadStatus.FAILED]` */
  function FailedOnly(h: seq<DownloadItem>): (r: seq<DownloadItem>)
    ensures forall x :: x in r <==> x in h && x.status == Failed
    ensures SeqUtil.IsSubsequence(r, h)
  {
    forall x ensures x in SeqUtil.Filter(h, IsFailed) <==> x in h && IsFailed(x) {
      SeqUtil.FilterMembership(h, IsFailed, x);
    }
    SeqUtil.FilterIsSubsequence(h, IsFailed);
    SeqUtil.Filter(h, IsFailed)
  }

  /** Only FAILED entries survive "clear completed", so a second clear
      removes nothing. */
  lemma FailedOnlyIdempotent(h: seq<DownloadItem>)
    ensures FailedOnly(FailedOnly(h)) == FailedOnly(h)
  {
    SeqUtil.FilterIdempotent(h, IsFailed);
  }

  /** The request part of an item: what a retry carries over. */
  predicate SameRequest(a: DownloadItem, b: DownloadItem) {
    && a.url == b.url && a.title == b.title && a.uploader == b.uploader
    && a.duration == b.duration && a.thumbnailUrl == b.thumbnailUrl
    && a.selectedFormat == b.selectedFormat && a.outputPath == b.outputPath
    && a.options == b.options
  }

  /** The record `retry_failed_download` builds: the request copied, a
      fresh PENDING lifecycle stamped `now`. */
  function RetryOf(item: DownloadItem, now: Timestamp): (r: DownloadItem)
    ensures SameRequest(r, item)
    ensures r.status == Pending && r.addedAt == now
    ensures r.startedAt.None? && r.completedAt.None? && r.errorMessage.None?
    ensures r.fileSize.None? && r.downloadSpeed.None?
  {
    DownloadItem(item.url, item.title, item.uploader, item.duration, item.thumbnailUrl,
                 item.selectedFormat, item.outputPath, item.options, Pending, now,
                 None, None, None, None, None)
  }

  /** Retrying a retry at the same moment gives the same record: the result
      depends on the request and the clock only. */
  lemma RetryDependsOnRequestOnly(a: DownloadItem, b: DownloadItem, now: Timestamp)
    requires SameRequest(a, b)
    ensures RetryOf(a, now) == RetryOf(b, now)
  {
  }

  class QueueManager {
    var history: seq<DownloadItem>
    var historyFile: HistoryFile

    /** `QueueManager()` reading the history file as it finds it. */
    constructor (file: HistoryFile)
      ensures history == LoadHistory(file) && historyFile == file
    {
      history := LoadHistory(file);
      historyFile := file;
    }

    method SaveHistory(writable: bool)
      modifies this`historyFile
      ensures historyFile == Saved(old(historyFile), history, writable)
    {
      if writable {
        if forall i :: 0 <= i < |history| ==> ItemSerializable(history[i]) {
          historyFile := Json(List(Records(history)));
        } else {
          historyFile := Unparsable;
        }
      }
    }

    /** `add_to_history`: append, keep the last hundred, save. */
    method AddToHistory(item: DownloadItem, writable: bool)
      modifies this
      ensures history == Capped(old(history) + [item])
      ensures history[|history| - 1] == item
      ensures historyFile == Saved(old(historyFile), history, writable)
    {
      history := history + [item];
      if |history| > MaxHistory {
        history := history[|history| - MaxHistory..];
      }
      SaveHistory(writable);
    }

    /** `clear_completed_history`: only FAILED entries stay, in order. */
    method ClearCompletedHistory(writable: bool)
      modifies this
      ensures history == FailedOnly(old(history))
      ensures historyFile == Saved(old(historyFile), history, writable)
    {
      history := FailedOnly(history);
      SaveHistory(writable);
    }

    /** `clear_all_history` */
    method ClearAllHistory(writable: bool)
      modifies this
      ensures history == []
      ensures historyFile == Saved(old(historyFile), [], writable)
    {
      history := [];
      SaveHistory(writable);
    }

    /** `get_history`: a copy of the list; the caller cannot reach the
      store's own list through it. */
    method GetHistory() returns (r: seq<DownloadItem>)
      ensures r == history
    {
      r := history;
    }

    /** `get_failed_downloads` */
    function GetFailedDownloads(): (r: seq<DownloadItem>)
      reads this
      ensures forall x :: x in r <==> x in history && x.status == Failed
      ensures SeqUtil.IsSubsequence(r, history)
    {
      FailedOnly(history)
    }

    /** `retry_failed_download`: a new PENDING record for the same request,
      appended like any other entry. It does not check that `item` failed;
      the dialogs do. */
    method RetryFailedDownload(item: DownloadItem, now: Timestamp, writable: bool)
      returns (r: DownloadItem)
      modifies this
      ensures r == RetryOf(item, now)
      ensures history == Capped(old(history) + [r])
      ensures historyFile == Saved(old(historyFile), history, writable)
    {
      r := RetryOf(item, now);
      AddToHistory(r, writable);
    }
  }
}
