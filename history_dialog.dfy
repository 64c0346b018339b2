/** The download history window (history_dialog.py): the status and search
    filters of `refresh_table`, the cells and buttons of each row, the
    summary label, the context-menu rules, and the handlers that retry,
    re-download or clear entries through the history store. Qt widgets,
    colours, message boxes and the CSV export are not modelled; a
    confirmation box is a boolean input and the clock is a parameter. */
module History {
  import opened Wrappers
  import opened PyText
  import opened IsoDateTime
  import opened SeqUtil
  import opened Downloads

  /** The entries of the status filter; "All" is current when the window
      opens. */
  const StatusFilters: seq<string> := ["All", "Completed", "Failed", "Cancelled"]

  /** Title cells keep this many characters before the "...". */
  const TitleWidth: nat := 60

  /** `item.status.value.title()`: the status column, and what a status
      filter entry is compared with. */
  function StatusTitle(s: DownloadStatus): string {
    Title(StatusValue(s))
  }

  lemma StatusTitles()
    ensures StatusTitle(Pending) == "Pending" && StatusTitle(Downloading) == "Downloading"
    ensures StatusTitle(Completed) == "Completed" && StatusTitle(Failed) == "Failed"
    ensures StatusTitle(Cancelled) == "Cancelled"
  {
    TitleWord("pending");
    TitleWord("downloading");
    TitleWord("completed");
    TitleWord("failed");
    TitleWord("cancelled");
  }

  /** The status test of `refresh_table`. */
  predicate PassesStatus(filter: string, item: DownloadItem) {
    filter == "All" || StatusTitle(item.status) == filter
  }

  /** Choosing a status's own title shows exactly the entries with that
      status. */
  lemma StatusFilterSelects(s: DownloadStatus, item: DownloadItem)
    ensures PassesStatus(StatusTitle(s), item) <==> item.status == s
  {
    StatusTitles();
  }

  /** No entry of the combo other than "All" shows a pending or downloading
      entry. */
  lemma InProgressOnlyUnderAll(filter: string, item: DownloadItem)
    requires filter in StatusFilters && filter != "All"
    requires item.status == Pending || item.status == Downloading
    ensures !PassesStatus(filter, item)
  {
    StatusTitles();
  }

  /** The search test; `query` is the search text already lower-cased. */
  predicate PassesSearch(query: string, item: DownloadItem) {
    query == [] || Contains(Lower(item.title), query) || Contains(Lower(item.uploader), query)
  }

  /** Searching for a title, in any letter case, finds its entry; a query
      longer than both the title and the uploader hides it. */
  lemma SearchByTitle(item: DownloadItem, query: string)
    ensures PassesSearch(Lower(item.title), item)
    ensures query != [] && |query| > |item.title| && |query| > |item.uploader| ==> !PassesSearch(query, item)
  {
    var t := Lower(item.title);
    assert t[0..] == t;
    assert StartsWith(t[0..], t);
  }

  /** The test one history entry must pass to be shown. */
  function Keep(filter: string, query: string): DownloadItem -> bool {
    (item: DownloadItem) => PassesStatus(filter, item) && PassesSearch(query, item)
  }

  /** `filtered_items`: the entries the table shows, in history order. */
  function Visible(h: seq<DownloadItem>, filter: string, query: string): (r: seq<DownloadItem>)
    ensures forall x :: x in r <==> x in h && PassesStatus(filter, x) && PassesSearch(query, x)
    ensures IsSubsequence(r, h)
    ensures forall x :: multiset(r)[x] == if PassesStatus(filter, x) && PassesSearch(query, x) then multiset(h)[x] else 0
  {
    forall x ensures x in Filter(h, Keep(filter, query)) <==> x in h && Keep(filter, query)(x) {
      FilterMembership(h, Keep(filter, query), x);
    }
    forall x ensures multiset(Filter(h, Keep(filter, query)))[x] == if Keep(filter, query)(x) then multiset(h)[x] else 0 {
      FilterMultiplicity(h, Keep(filter, query), x);
    }
    FilterIsSubsequence(h, Keep(filter, query));
    Filter(h, Keep(filter, query))
  }

  /** With "All" and an empty search every entry is shown, in its place. */
  lemma {:induction false} NoFilterShowsAll(h: seq<DownloadItem>)
    ensures Visible(h, "All", "") == h
  {
    FilterAll(h, Keep("All", ""));
  }

  /** `f"{mins}m {secs}s"` from `duration // 60` and `duration % 60`, or
      "-" for a missing or zero duration. Python's operators floor, which
      for the divisor 60 is what Dafny's do. */
  function DurationCell(duration: Option<int>): string {
    if duration.None? || duration.value == 0 then "-"
    else IntToDecimal(duration.value / 60) + "m " + IntToDecimal(duration.value % 60) + "s"
  }

  /** Reads a duration cell back: the minutes before the first "m", the
      seconds between the following space and the closing "s". */
  function ReadDurationCell(cell: string): Option<int> {
    match Find(cell, 'm')
    case None => None
    case Some(k) =>
      if k + 3 <= |cell| && cell[k + 1] == ' ' && cell[|cell| - 1] == 's' then
        ReadMinutesSeconds(cell[..k], cell[k + 2..|cell| - 1])
      else None
  }

  function ReadMinutesSeconds(mins: string, secs: string): Option<int> {
    match (ParseInt(mins), ParseInt(secs))
    case (Some(m), Some(s)) => Some(60 * m + s)
    case _ => None
  }

  /** The first "m" after a run of digits is the one right after it. */
  lemma {:induction false} FindAfterDigits(a: string, rest: string)
    requires AllDigits(a) && rest != [] && rest[0] == 'm'
    ensures Find(a + rest, 'm') == Some(|a|)
  {
    if a != [] {
      assert (a + rest)[1..] == a[1..] + rest;
      FindAfterDigits(a[1..], rest);
    }
  }

  /** A cell "<a>m <b>s" with a run of digits `a` is read as `a` minutes
      and `b` seconds. */
  /** A cell "<a>m <b>s" with a run of digits `a` reads as `a` minutes and
      `b` seconds. */
  lemma CellReadsParts(a: string, b: string)
    requires AllDigits(a)
    ensures ReadDurationCell(a + ("m " + b + "s")) == ReadMinutesSeconds(a, b)
  {
    CellSlices(a, b);
    ReadCellAt(a + ("m " + b + "s"), a, b);
  }

  /** Where the parts of "<a>m <b>s" sit, for a run of digits `a`. */
  lemma CellSlices(a: string, b: string)
    requires AllDigits(a)
    ensures var cell := a + ("m " + b + "s");
      && Find(cell, 'm') == Some(|a|)
      && |cell| == |a| + |b| + 3 && cell[|a| + 1] == ' ' && cell[|cell| - 1] == 's'
      && cell[..|a|] == a && cell[|a| + 2..|cell| - 1] == b
  {
    FindAfterDigits(a, "m " + b + "s");
    var cell := a + ("m " + b + "s");
    assert cell[..|a|] == a;
    assert cell[|a| + 2..|cell| - 1] == b;
  }

  lemma ReadCellAt(cell: string, a: string, b: string)
    requires Find(cell, 'm') == Some(|a|)
    requires |cell| == |a| + |b| + 3 && cell[|a| + 1] == ' ' && cell[|cell| - 1] == 's'
    requires cell[..|a|] == a && cell[|a| + 2..|cell| - 1] == b
    ensures ReadDurationCell(cell) == ReadMinutesSeconds(a, b)
  {
  }

  lemma ReadParsedParts(a: string, b: string, mins: int, secs: int)
    requires ParseInt(a) == Some(mins) && ParseInt(b) == Some(secs)
    ensures ReadMinutesSeconds(a, b) == Some(60 * mins + secs)
  {
  }

  /** A positive duration can be read back from its cell. */
  lemma {:induction false} DurationCellReadsBack(d: int)
    requires d > 0
    ensures ReadDurationCell(DurationCell(Some(d))) == Some(d)
  {
    MinutesSecondsRebuild(d);
    DurationOfParts(d, d / 60, d % 60);
  }

  lemma DurationOfParts(d: int, mins: nat, secs: nat)
    requires d > 0 && secs < 60 && d == 60 * mins + secs
    ensures ReadDurationCell(DurationCell(Some(d))) == Some(d)
  {
    DurationCellParts(d, mins, secs);
    MinutesSecondsCell(mins, secs);
  }

  /** The cell written for `mins` minutes and `secs` seconds reads back as
      their total. */
  lemma MinutesSecondsCell(mins: nat, secs: nat)
    ensures ReadDurationCell(NatToDecimal(mins) + ("m " + NatToDecimal(secs) + "s")) == Some(60 * mins + secs)
  {
    CellReadsParts(NatToDecimal(mins), NatToDecimal(secs));
    ParseIntRoundTrip(mins);
    ParseIntRoundTrip(secs);
    ReadParsedParts(NatToDecimal(mins), NatToDecimal(secs), mins, secs);
  }

  lemma DurationCellParts(d: int, mins: nat, secs: nat)
    requires d > 0 && secs < 60 && d == 60 * mins + secs
    ensures DurationCell(Some(d)) == NatToDecimal(mins) + ("m " + NatToDecimal(secs) + "s")
  {
    assert d / 60 == mins && d % 60 == secs;
  }

  lemma MinutesSecondsRebuild(d: int)
    ensures 60 * (d / 60) + d % 60 == d && 0 <= d % 60 < 60
  {
  }

  /** `selected_format or "Auto"` */
  function FormatCell(f: Option<string>): string {
    if f.Some? && f.value != [] then f.value else "Auto"
  }

  /** The completion column: "-" until the entry has completed. */
  function CompletedCell(t: Option<Timestamp>): string {
    if t.Some? then MinuteStamp(t.value) else "-"
  }

  datatype RowButton = RedownloadButton | RetryButton

  /** The text of one table row and the buttons in its last column. */
  datatype Row = Row(
    title: string, channel: string, status: string, added: string,
    completed: string, duration: string, format: string, buttons: seq<RowButton>)

  /** Re-download for every entry, Retry for failed ones. */
  function RowButtons(item: DownloadItem): seq<RowButton> {
    [RedownloadButton] + (if item.status == Failed then [RetryButton] else [])
  }

  function RowOf(item: DownloadItem): Row {
    Row(Truncate(item.title, TitleWidth), item.uploader, StatusTitle(item.status),
        MinuteStamp(item.addedAt), CompletedCell(item.completedAt),
        DurationCell(item.duration), FormatCell(item.selectedFormat), RowButtons(item))
  }

  function Cells(items: seq<DownloadItem>): (r: seq<Row>)
    ensures |r| == |items|
    ensures forall i :: 0 <= i < |items| ==> r[i] == RowOf(items[i])
  {
    SeqUtil.Map(items, RowOf)
  }

  /** Drawing one more entry adds its row at the bottom. */
  lemma CellsSnoc(items: seq<DownloadItem>, n: nat)
    requires n < |items|
    ensures Cells(items[..n + 1]) == Cells(items[..n]) + [RowOf(items[n])]
  {
    SeqUtil.MapSnoc(items, n, RowOf);
  }

  datatype MenuAction =
    | RedownloadAction
    | RetryAction
    | CopyUrl(url: string)
    | OpenOutputFolder(path: string)
    | ShowError(message: string)

  /** The context menu of an entry's row, in its order. */
  function MenuActions(item: DownloadItem): seq<MenuAction> {
    [RedownloadAction] + (if item.status == Failed then [RetryAction] else [])
    + [CopyUrl(item.url), OpenOutputFolder(item.outputPath)]
    + (if item.errorMessage.Some? && item.errorMessage.value != [] then [ShowError(item.errorMessage.value)] else [])
  }

  /** Re-download is always offered, Retry exactly for failed entries, in
      the row and in the menu alike, and "Show Error" exactly when there is
      a non-empty message, which is the one it shows. */
  lemma ActionRules(item: DownloadItem)
    ensures RedownloadButton in RowButtons(item) && RedownloadAction in MenuActions(item)
    ensures RetryButton in RowButtons(item) <==> item.status == Failed
    ensures RetryAction in MenuActions(item) <==> item.status == Failed
    ensures CopyUrl(item.url) in MenuActions(item) && OpenOutputFolder(item.outputPath) in MenuActions(item)
    ensures item.errorMessage.Some? && item.errorMessage.value != [] ==>
      ShowError(item.errorMessage.value) in MenuActions(item)
    ensures forall a :: a in MenuActions(item) && a.ShowError? ==> item.errorMessage == Some(a.message) && a.message != []
  {
  }

  function HasStatus(s: DownloadStatus): DownloadItem -> bool {
    (item: DownloadItem) => item.status == s
  }

  /** The summary label, counted over the whole history. */
  function StatusText(h: seq<DownloadItem>): string {
    "History: " + NatToDecimal(|h|) + " items (Completed: " + NatToDecimal(Count(h, HasStatus(Completed)))
    + ", Failed: " + NatToDecimal(Count(h, HasStatus(Failed)))
    + ", Cancelled: " + NatToDecimal(Count(h, HasStatus(Cancelled))) + ")"
  }

  /** Each entry has exactly one status, so the five status counts add up
      to the total; the label leaves pending and downloading entries to
      the total alone. */
  lemma {:induction false} StatusCountsPartition(h: seq<DownloadItem>)
    ensures Count(h, HasStatus(Pending)) + Count(h, HasStatus(Downloading)) + Count(h, HasStatus(Completed))
      + Count(h, HasStatus(Failed)) + Count(h, HasStatus(Cancelled)) == |h|
  {
    if h != [] {
      StatusCountsPartition(h[1..]);
      assert h == [h[0]] + h[1..];
      CountCons(h[0], h[1..], HasStatus(Pending));
      CountCons(h[0], h[1..], HasStatus(Downloading));
      CountCons(h[0], h[1..], HasStatus(Completed));
      CountCons(h[0], h[1..], HasStatus(Failed));
      CountCons(h[0], h[1..], HasStatus(Cancelled));
    }
  }

  /** The label's failed count is the number of entries "Retry All Failed"
      retries. */
  lemma FailedCountIsRetryCount(h: seq<DownloadItem>)
    ensures Count(h, HasStatus(Failed)) == |FailedOnly(h)|
  {
    FilterSameTest(h, HasStatus(Failed), IsFailed);
  }

  /** The entry at `row` of `items`, if there is one. */
  function RowTarget(items: seq<DownloadItem>, row: int): Option<DownloadItem> {
    if 0 <= row < |items| then Some(items[row]) else None
  }

  /** The entry the Retry handler retries: the one at `row`, if it failed. */
  function RetryTarget(items: seq<DownloadItem>, row: int): Option<DownloadItem> {
    if 0 <= row < |items| && items[row].status == Failed then Some(items[row]) else None
  }

  /** Looked up in the rows the table shows, the Retry target is exactly the
      entry whose row carries a Retry button. */
  lemma RetryTargetIsShownRow(shown: seq<DownloadItem>, row: int)
    ensures RetryTarget(shown, row).Some? <==> 0 <= row < |shown| && RetryButton in Cells(shown)[row].buttons
    ensures RetryTarget(shown, row).Some? ==> RetryTarget(shown, row) == RowTarget(shown, row)
  {
    if 0 <= row < |shown| {
      ActionRules(shown[row]);
    }
  }

  /** With no filter the table's rows are the history's entries, so looking
      a row up in the whole history finds the entry it shows. */
  lemma UnfilteredRowsAgree(h: seq<DownloadItem>, row: int)
    ensures RetryTarget(h, row) == RetryTarget(Visible(h, "All", ""), row)
    ensures RowTarget(h, row) == RowTarget(Visible(h, "All", ""), row)
  {
    NoFilterShowsAll(h);
  }

  const SampleTime: Timestamp := DateTime(2024, 1, 1, 0, 0, 0, 0)

  function Sample(title: string, status: DownloadStatus): DownloadItem {
    DownloadItem("https://example.org/" + title, title, "uploader", None, None, None,
                 "downloads", map[], status, SampleTime, None, None, None, None, None)
  }

  /** Under the "Failed" filter the first row shows the failed entry with a
      Retry button, but `retry_item(0)` looks at the first entry of the
      whole history, a completed one: nothing is retried, and
      `redownload_item(0)` re-downloads the completed entry instead. */
  lemma FilteredRowIndexesWholeHistory()
    ensures var h := [Sample("a", Completed), Sample("b", Failed)];
      var shown := Visible(h, "Failed", "");
      && shown == [h[1]]
      && RetryButton in Cells(shown)[0].buttons
      && RetryTarget(h, 0) == None
      && RowTarget(h, 0) == Some(h[0]) && h[0] != shown[0]
      && RetryTarget(shown, 0) == Some(h[1])
  {
    var h := [Sample("a", Completed), Sample("b", Failed)];
    StatusTitles();
    var keep := Keep("Failed", "");
    assert !keep(h[0]) && keep(h[1]);
    assert h[1..] == [h[1]];
    assert Filter([h[1]], keep) == [h[1]] + Filter([h[1]][1..], keep);
    assert Filter(h, keep) == [h[1]];
    assert Cells([h[1]])[0] == RowOf(h[1]);
  }

  /** The history after the retry of `target`, if any, stamped `now`. */
  function AfterRetry(h: seq<DownloadItem>, target: Option<DownloadItem>, now: Timestamp): seq<DownloadItem> {
    if target.Some? then Capped(h + [RetryOf(target.value, now)]) else h
  }

  /** The history after retrying each of `items` in turn. */
  function RetriedAll(h: seq<DownloadItem>, items: seq<DownloadItem>, now: Timestamp): seq<DownloadItem>
    decreases |items|
  {
    if items == [] then h
    else Capped(RetriedAll(h, items[..|items| - 1], now) + [RetryOf(items[|items| - 1], now)])
  }

  /** One new record per retried entry, in order. */
  function Retries(items: seq<DownloadItem>, now: Timestamp): (r: seq<DownloadItem>)
    ensures |r| == |items|
    ensures forall i :: 0 <= i < |r| ==> r[i] == RetryOf(items[i], now)
  {
    seq(|items|, i requires 0 <= i < |items| => RetryOf(items[i], now))
  }

  /** While the cap is not reached, retrying appends one PENDING copy of
      each entry, in order, and drops nothing. */
  lemma {:induction false} RetriedAllAppends(h: seq<DownloadItem>, items: seq<DownloadItem>, now: Timestamp)
    requires |h| + |items| <= MaxHistory
    ensures RetriedAll(h, items, now) == h + Retries(items, now)
  {
    if items != [] {
      var p := items[..|items| - 1];
      RetriedAllAppends(h, p, now);
      var x := h + Retries(p, now) + [RetryOf(items[|items| - 1], now)];
      assert Capped(x) == x;
      assert Retries(items, now) == Retries(p, now) + [RetryOf(items[|items| - 1], now)];
    }
  }

  /** Retrying every failure leaves the failures in place, so a second
      "Retry All Failed" offers the same entries again. */
  lemma RetryAllKeepsFailures(h: seq<DownloadItem>, now: Timestamp)
    requires |h| + |FailedOnly(h)| <= MaxHistory
    ensures FailedOnly(RetriedAll(h, FailedOnly(h), now)) == FailedOnly(h)
  {
    var r := Retries(FailedOnly(h), now);
    RetriedAllAppends(h, FailedOnly(h), now);
    FilterAppend(h, r, IsFailed);
    FilterNone(r, IsFailed);
  }

  class HistoryDialog {
    const manager: QueueManager
    var statusFilter: string
    var searchText: string
    /** The entries behind the table's rows, in row order. */
    var rows: seq<DownloadItem>
    var cells: seq<Row>
    var statusLabel: string
    /** The entries `redownload_requested` was emitted with. */
    var redownloadRequests: seq<DownloadItem>
    var closed: bool

    /** The table and the label as `refresh_table` draws them from the
        history and the two filters. */
    predicate Drawn()
      reads this, manager
    {
      && rows == Visible(manager.history, statusFilter, Lower(searchText))
      && cells == Cells(rows)
      && statusLabel == StatusText(manager.history)
    }

    /** `HistoryDialog(queue_manager)`: filters at "All" and empty, and the
        table drawn once, showing the whole history. */
    constructor (manager: QueueManager)
      ensures this.manager == manager && statusFilter == "All" && searchText == ""
      ensures Drawn() && rows == manager.history
      ensures redownloadRequests == [] && !closed
    {
      var items := manager.GetHistory();
      var shown := FilterItems(items, "All", Lower(""));
      var table := DrawRows(shown);
      NoFilterShowsAll(items);
      this.manager := manager;
      statusFilter := "All";
      searchText := "";
      rows := shown;
      cells := table;
      statusLabel := StatusText(items);
      redownloadRequests := [];
      closed := false;
    }

    /** The filtering loop of `refresh_table`. */
    static method FilterItems(items: seq<DownloadItem>, filter: string, query: string)
      returns (filtered: seq<DownloadItem>)
      ensures filtered == Visible(items, filter, query)
    {
      filtered := [];
      for i := 0 to |items|
        invariant filtered == Filter(items[..i], Keep(filter, query))
      {
        FilterAppend(items[..i], [items[i]], Keep(filter, query));
        assert items[..i + 1] == items[..i] + [items[i]];
        if PassesStatus(filter, items[i]) && PassesSearch(query, items[i]) {
          filtered := filtered + [items[i]];
        }
      }
      assert items[..|items|] == items;
    }

    /** The row-by-row loop of `refresh_table` that fills the cells. */
    static method DrawRows(filtered: seq<DownloadItem>) returns (table: seq<Row>)
      ensures table == Cells(filtered)
    {
      table := [];
      for row := 0 to |filtered|
        invariant table == Cells(filtered[..row])
      {
        CellsSnoc(filtered, row);
        table := table + [RowOf(filtered[row])];
      }
      assert filtered[..|filtered|] == filtered;
    }

    /** `refresh_table` */
    method RefreshTable()
      modifies this`rows, this`cells, this`statusLabel
      ensures Drawn()
    {
      var items := manager.GetHistory();
      rows := FilterItems(items, statusFilter, Lower(searchText));
      cells := DrawRows(rows);
      statusLabel := StatusText(items);
    }

    /** Picking an entry of the status combo. */
    method SetStatusFilter(filter: string)
      requires filter in StatusFilters
      modifies this`statusFilter, this`rows, this`cells, this`statusLabel
      ensures statusFilter == filter && Drawn()
    {
      statusFilter := filter;
      RefreshTable();
    }

    /** Typing in the search box. */
    method SetSearchText(text: string)
      modifies this`searchText, this`rows, this`cells, this`statusLabel
      ensures searchText == text && Drawn()
    {
      searchText := text;
      RefreshTable();
    }

    /** `redownload_item_by_item`: emit the request, close the window. */
    method RedownloadItemByItem(item: DownloadItem)
      modifies this`redownloadRequests, this`closed
      ensures redownloadRequests == old(redownloadRequests) + [item] && closed
    {
      redownloadRequests := redownloadRequests + [item];
      closed := true;
    }

    /** `redownload_item(row)` as written: the row is looked up in the
        whole history. */
    method RedownloadItem(row: int)
      modifies this`redownloadRequests, this`closed
      ensures var t := RowTarget(manager.history, row);
        && redownloadRequests == old(redownloadRequests) + (if t.Some? then [t.value] else [])
        && closed == (old(closed) || t.Some?)
    {
      var items := manager.GetHistory();
      if 0 <= row < |items| {
        RedownloadItemByItem(items[row]);
      }
    }

    /** `retry_item_by_item`: a failed entry is retried and the table
        redrawn; any other entry is ignored. */
    method RetryItemByItem(item: DownloadItem, now: Timestamp, writable: bool)
      modifies this`rows, this`cells, this`statusLabel, manager
      ensures item.status == Failed ==>
        && manager.history == Capped(old(manager.history) + [RetryOf(item, now)])
        && manager.historyFile == Saved(old(manager.historyFile), manager.history, writable)
        && Drawn()
      ensures item.status != Failed ==> unchanged(this, manager)
    {
      if item.status == Failed {
        var retried := manager.RetryFailedDownload(item, now, writable);
        RefreshTable();
      }
    }

    /** `retry_item(row)` as written: the row is looked up in the whole
        history, though it counts rows of the filtered table. */
    method RetryItem(row: int, now: Timestamp, writable: bool)
      modifies this`rows, this`cells, this`statusLabel, manager
      ensures manager.history == AfterRetry(old(manager.history), RetryTarget(old(manager.history), row), now)
      ensures RetryTarget(old(manager.history), row).Some? ==>
        manager.historyFile == Saved(old(manager.historyFile), manager.history, writable) && Drawn()
      ensures RetryTarget(old(manager.history), row).None? ==> unchanged(this, manager)
    {
      var items := manager.GetHistory();
      if 0 <= row < |items| {
        var item := items[row];
        if item.status == Failed {
          RetryItemByItem(item, now, writable);
        }
      }
    }

    /** The Retry button as evidently intended: the row is looked up among
        the rows the table shows, so the entry retried is the one whose row
        carries the button (`RetryTargetIsShownRow`). */
    method RetryShownItem(row: int, now: Timestamp, writable: bool)
      modifies this`rows, this`cells, this`statusLabel, manager
      ensures manager.history == AfterRetry(old(manager.history), RetryTarget(old(rows), row), now)
      ensures RetryTarget(old(rows), row).Some? ==>
        manager.historyFile == Saved(old(manager.historyFile), manager.history, writable) && Drawn()
      ensures RetryTarget(old(rows), row).None? ==> unchanged(this, manager)
    {
      if 0 <= row < |rows| {
        var item := rows[row];
        if item.status == Failed {
          RetryItemByItem(item, now, writable);
        }
      }
    }

    /** The loop of `retry_all_failed`: each of `items` retried in turn. */
    static method RetryEach(manager: QueueManager, items: seq<DownloadItem>, now: Timestamp, writable: bool)
      modifies manager
      ensures manager.history == RetriedAll(old(manager.history), items, now)
      ensures items != [] ==> manager.historyFile == Saved(old(manager.historyFile), manager.history, writable)
      ensures items == [] ==> manager.historyFile == old(manager.historyFile)
    {
      for i := 0 to |items|
        invariant manager.history == RetriedAll(old(manager.history), items[..i], now)
        invariant i > 0 ==> manager.historyFile == Saved(old(manager.historyFile), manager.history, writable)
        invariant i == 0 ==> manager.historyFile == old(manager.historyFile)
      {
        assert items[..i + 1][..i] == items[..i];
        var retried := manager.RetryFailedDownload(items[i], now, writable);
      }
      assert items[..|items|] == items;
    }

    /** `retry_all_failed`: with no failed entry the window only informs
        (`noneToRetry`); otherwise, once confirmed, every failed entry is
        retried in history order and the table redrawn. */
    method RetryAllFailed(confirm: bool, now: Timestamp, writable: bool) returns (noneToRetry: bool)
      modifies this`rows, this`cells, this`statusLabel, manager
      ensures noneToRetry <==> FailedOnly(old(manager.history)) == []
      ensures !noneToRetry && confirm ==>
        && manager.history == RetriedAll(old(manager.history), FailedOnly(old(manager.history)), now)
        && manager.historyFile == Saved(old(manager.historyFile), manager.history, writable)
        && Drawn()
      ensures noneToRetry || !confirm ==> unchanged(this, manager)
    {
      var failed := manager.GetFailedDownloads();
      noneToRetry := failed == [];
      if !noneToRetry && confirm {
        RetryEach(manager, failed, now, writable);
        RefreshTable();
      }
    }

    /** `clear_completed`: once confirmed, only failed entries stay. */
    method ClearCompleted(confirm: bool, writable: bool)
      modifies this`rows, this`cells, this`statusLabel, manager
      ensures confirm ==>
        && manager.history == FailedOnly(old(manager.history))
        && manager.historyFile == Saved(old(manager.historyFile), manager.history, writable)
        && Drawn()
      ensures !confirm ==> unchanged(this, manager)
    {
      if confirm {
        manager.ClearCompletedHistory(writable);
        RefreshTable();
      }
    }

    /** `clear_all`: once confirmed, the history is emptied. */
    method ClearAll(confirm: bool, writable: bool)
      modifies this`rows, this`cells, this`statusLabel, manager
      ensures confirm ==>
        && manager.history == []
        && manager.historyFile == Saved(old(manager.historyFile), [], writable)
        && Drawn() && rows == [] && cells == []
      ensures !confirm ==> unchanged(this, manager)
    {
      if confirm {
        manager.ClearAllHistory(writable);
        RefreshTable();
      }
    }
  }
}
