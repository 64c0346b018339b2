/** The download queue window (queue_dialog.py): the rows and summary label
    of `refresh_table`, the row buttons and context menu, and the handlers
    that remove, retry, clear and start or pause.

    The queue calls the window makes (`get_queue`, `remove_from_queue`,
    `move_to_history`, the `queue` list and `_save_queue`) are not defined
    in queue_manager.py. What `get_queue` returns is therefore an input of
    each handler, whether `remove_from_queue` raises IndexError is an
    input too, and the calls themselves go into a log in the order they are
    made. `retry_failed_download` is the history store's own. */
module QueueView {
  import opened Wrappers
  import opened PyText
  import opened IsoDateTime
  import opened SeqUtil
  import opened Downloads
  import History

  /** Title cells keep this many characters before the "...". */
  const TitleWidth: nat := 50

  /** A call into the undefined queue part of the manager. */
  datatype QueueCall =
    | RemoveFromQueue(row: int)
    | RemoveQueued(item: DownloadItem)
    | SaveQueue
    | MoveToHistory(item: DownloadItem)

  /** The progress column: a bar, always at 0, for the entry being
      downloaded, an empty cell for the others. */
  datatype ProgressCell = Bar(value: int) | Blank

  datatype QueueButton = RemoveButton | RetryButton

  datatype QueueRow = QueueRow(
    title: string, channel: string, status: string, progress: ProgressCell,
    added: string, format: string, buttons: seq<QueueButton>)

  /** Remove for a pending entry, Retry for a failed one, nothing else. */
  function QueueButtons(item: DownloadItem): seq<QueueButton> {
    if item.status == Pending then [RemoveButton]
    else if item.status == Failed then [RetryButton]
    else []
  }

  function RowOf(item: DownloadItem): QueueRow {
    QueueRow(Truncate(item.title, TitleWidth), item.uploader, History.StatusTitle(item.status),
             if item.status == Downloading then Bar(0) else Blank,
             MinuteStamp(item.addedAt), History.FormatCell(item.selectedFormat), QueueButtons(item))
  }

  function Cells(items: seq<DownloadItem>): (r: seq<QueueRow>)
    ensures |r| == |items|
    ensures forall i :: 0 <= i < |items| ==> r[i] == RowOf(items[i])
  {
    SeqUtil.Map(items, RowOf)
  }

  /** Drawing one more entry adds its row at the bottom. */
  lemma CellsSnoc(items: seq<DownloadItem>, n: nat)
    requires n < |items|
    ensures Cells(items[..n + 1]) == Cells(items[..n]) + [RowOf(items[n])]
  {
    SeqUtil.MapSnoc(items, n, RowOf);
  }

  datatype MenuAction =
    | RemoveFromQueueAction
    | RetryDownloadAction
    | CopyUrl(url: string)
    | OpenOutputFolder(path: string)

  /** The context menu of an entry's row, in its order. */
  function MenuActions(item: DownloadItem): seq<MenuAction> {
    (if item.status == Pending then [RemoveFromQueueAction]
     else if item.status == Failed then [RetryDownloadAction]
     else [])
    + [CopyUrl(item.url), OpenOutputFolder(item.outputPath)]
  }

  /** Remove and Retry never appear together: Remove exactly for pending
      entries, Retry exactly for failed ones, and the menu offers the same
      choice as the row. */
  lemma ActionsExclusive(item: DownloadItem)
    ensures |QueueButtons(item)| <= 1
    ensures RemoveButton in QueueButtons(item) <==> item.status == Pending
    ensures RetryButton in QueueButtons(item) <==> item.status == Failed
    ensures RemoveFromQueueAction in MenuActions(item) <==> RemoveButton in QueueButtons(item)
    ensures RetryDownloadAction in MenuActions(item) <==> RetryButton in QueueButtons(item)
    ensures CopyUrl(item.url) in MenuActions(item) && OpenOutputFolder(item.outputPath) in MenuActions(item)
  {
  }

  /** A progress bar appears exactly in the row of the entry being
      downloaded, and that row has no button. */
  lemma ProgressOnlyWhileDownloading(item: DownloadItem)
    ensures RowOf(item).progress.Bar? <==> item.status == Downloading
    ensures item.status == Downloading ==> RowOf(item).buttons == []
  {
  }

  /** The summary label: four status counts and the total. */
  function StatusText(items: seq<DownloadItem>): string {
    "Queue: " + NatToDecimal(|items|) + " items (Pending: " + NatToDecimal(Count(items, History.HasStatus(Pending)))
    + ", Downloading: " + NatToDecimal(Count(items, History.HasStatus(Downloading)))
    + ", Completed: " + NatToDecimal(Count(items, History.HasStatus(Completed)))
    + ", Failed: " + NatToDecimal(Count(items, History.HasStatus(Failed))) + ")"
  }

  /** The four counts the label names fall short of its total by exactly
      the cancelled entries, which only the total includes. */
  lemma CancelledOnlyInTotal(items: seq<DownloadItem>)
    ensures Count(items, History.HasStatus(Pending)) + Count(items, History.HasStatus(Downloading))
      + Count(items, History.HasStatus(Completed)) + Count(items, History.HasStatus(Failed))
      == |items| - Count(items, History.HasStatus(Cancelled))
  {
    History.StatusCountsPartition(items);
  }

  /** The entries "Clear Completed" moves to the history. */
  function CompletedOnly(items: seq<DownloadItem>): (r: seq<DownloadItem>)
    ensures forall x :: x in r <==> x in items && x.status == Completed
    ensures IsSubsequence(r, items)
    ensures forall x :: multiset(r)[x] == if x.status == Completed then multiset(items)[x] else 0
  {
    forall x ensures x in Filter(items, History.HasStatus(Completed)) <==> x in items && x.status == Completed {
      FilterMembership(items, History.HasStatus(Completed), x);
    }
    forall x ensures multiset(Filter(items, History.HasStatus(Completed)))[x]
      == if History.HasStatus(Completed)(x) then multiset(items)[x] else 0 {
      FilterMultiplicity(items, History.HasStatus(Completed), x);
    }
    FilterIsSubsequence(items, History.HasStatus(Completed));
    Filter(items, History.HasStatus(Completed))
  }

  function MoveCalls(items: seq<DownloadItem>): (r: seq<QueueCall>)
    ensures |r| == |items|
    ensures forall i :: 0 <= i < |r| ==> r[i] == MoveToHistory(items[i])
  {
    seq(|items|, i requires 0 <= i < |items| => MoveToHistory(items[i]))
  }

  /** Only completed entries are moved: pending, downloading, failed and
      cancelled ones stay in the queue, and each completed one is moved. */
  lemma ClearMovesOnlyCompleted(items: seq<DownloadItem>, x: DownloadItem)
    ensures MoveToHistory(x) in MoveCalls(CompletedOnly(items)) <==> x in items && x.status == Completed
  {
    var moved := CompletedOnly(items);
    if x in moved {
      var i :| 0 <= i < |moved| && moved[i] == x;
      assert MoveCalls(moved)[i] == MoveToHistory(x);
    }
  }

  class QueueDialog {
    const manager: QueueManager
    /** The entries behind the table's rows, in row order. */
    var rows: seq<DownloadItem>
    var cells: seq<QueueRow>
    var statusLabel: string
    var startEnabled: bool
    var pauseEnabled: bool
    /** The calls into the queue part of the manager, in order. */
    var calls: seq<QueueCall>

    /** The table and the label as `refresh_table` draws them from what
        `get_queue` returned. */
    predicate Drawn(queue: seq<DownloadItem>)
      reads this
    {
      rows == queue && cells == Cells(queue) && statusLabel == StatusText(queue)
    }

    /** Start and Pause are never enabled together, nor disabled together. */
    predicate Valid()
      reads this
    {
      startEnabled != pauseEnabled
    }

    /** `QueueDialog(queue_manager)`: Pause starts disabled, and the table is
        drawn once. */
    constructor (manager: QueueManager, queue: seq<DownloadItem>)
      ensures this.manager == manager && Valid()
      ensures startEnabled && !pauseEnabled
      ensures Drawn(queue) && calls == []
    {
      var table := DrawRows(queue);
      this.manager := manager;
      rows := queue;
      cells := table;
      statusLabel := StatusText(queue);
      startEnabled := true;
      pauseEnabled := false;
      calls := [];
    }

    /** The row-by-row loop of `refresh_table`. */
    static method DrawRows(items: seq<DownloadItem>) returns (table: seq<QueueRow>)
      ensures table == Cells(items)
    {
      table := [];
      for row := 0 to |items|
        invariant table == Cells(items[..row])
      {
        CellsSnoc(items, row);
        table := table + [RowOf(items[row])];
      }
      assert items[..|items|] == items;
    }

    /** `refresh_table`, given what `get_queue` returns. */
    method RefreshTable(queue: seq<DownloadItem>)
      modifies this`rows, this`cells, this`statusLabel
      ensures Drawn(queue)
    {
      rows := queue;
      cells := DrawRows(queue);
      statusLabel := StatusText(queue);
    }

    /** `start_queue` */
    method StartQueue()
      modifies this`startEnabled, this`pauseEnabled
      ensures !startEnabled && pauseEnabled && Valid()
    {
      startEnabled := false;
      pauseEnabled := true;
    }

    /** `pause_queue` */
    method PauseQueue()
      modifies this`startEnabled, this`pauseEnabled
      ensures startEnabled && !pauseEnabled && Valid()
    {
      startEnabled := true;
      pauseEnabled := false;
    }

    /** `remove_item(row)`: the removal is asked for; when it raises
        IndexError the error is swallowed and the table is not redrawn,
        otherwise the table is redrawn from `after`. */
    method RemoveItem(row: int, raisesIndexError: bool, after: seq<DownloadItem>)
      modifies this`rows, this`cells, this`statusLabel, this`calls
      ensures calls == old(calls) + [RemoveFromQueue(row)]
      ensures !raisesIndexError ==> Drawn(after)
      ensures raisesIndexError ==> rows == old(rows) && cells == old(cells) && statusLabel == old(statusLabel)
    {
      calls := calls + [RemoveFromQueue(row)];
      if !raisesIndexError {
        RefreshTable(after);
      }
    }

    /** `remove_item_by_item`: only an entry still in the queue is removed,
        then the queue saved and the table redrawn. */
    method RemoveItemByItem(item: DownloadItem, queue: seq<DownloadItem>, after: seq<DownloadItem>)
      modifies this`rows, this`cells, this`statusLabel, this`calls
      ensures item in queue ==> calls == old(calls) + [RemoveQueued(item), SaveQueue] && Drawn(after)
      ensures item !in queue ==> unchanged(this)
    {
      if item in queue {
        calls := calls + [RemoveQueued(item), SaveQueue];
        RefreshTable(after);
      }
    }

    /** `retry_item_by_item`: a failed entry is retried through the history
        store and the table redrawn; any other entry is ignored. */
    method RetryItemByItem(item: DownloadItem, queue: seq<DownloadItem>, now: Timestamp, writable: bool)
      modifies this`rows, this`cells, this`statusLabel, manager
      ensures item.status == Failed ==>
        && manager.history == Capped(old(manager.history) + [RetryOf(item, now)])
        && manager.historyFile == Saved(old(manager.historyFile), manager.history, writable)
        && Drawn(queue)
      ensures item.status != Failed ==> unchanged(this, manager)
    {
      if item.status == Failed {
        var retried := manager.RetryFailedDownload(item, now, writable);
        RefreshTable(queue);
      }
    }

    /** `retry_item(row)`: rows out of range and entries that have not
        failed are ignored. */
    method RetryItem(row: int, queue: seq<DownloadItem>, now: Timestamp, writable: bool)
      modifies this`rows, this`cells, this`statusLabel, manager
      ensures manager.history == History.AfterRetry(old(manager.history), History.RetryTarget(queue, row), now)
      ensures History.RetryTarget(queue, row).Some? ==>
        manager.historyFile == Saved(old(manager.historyFile), manager.history, writable) && Drawn(queue)
      ensures History.RetryTarget(queue, row).None? ==> unchanged(this, manager)
    {
      if 0 <= row < |queue| {
        var item := queue[row];
        if item.status == Failed {
          RetryItemByItem(item, queue, now, writable);
        }
      }
    }

    /** `retry_failed`: the failed entries of the history store; with none
        the window only informs (`noneToRetry`), otherwise, once confirmed,
        each is retried in turn and the queue table redrawn. */
    method RetryFailed(confirm: bool, queue: seq<DownloadItem>, now: Timestamp, writable: bool)
      returns (noneToRetry: bool)
      modifies this`rows, this`cells, this`statusLabel, manager
      ensures noneToRetry <==> FailedOnly(old(manager.history)) == []
      ensures !noneToRetry && confirm ==>
        && manager.history == History.RetriedAll(old(manager.history), FailedOnly(old(manager.history)), now)
        && manager.historyFile == Saved(old(manager.historyFile), manager.history, writable)
        && Drawn(queue)
      ensures noneToRetry || !confirm ==> unchanged(this, manager)
    {
      var failed := manager.GetFailedDownloads();
      noneToRetry := failed == [];
      if !noneToRetry && confirm {
        History.HistoryDialog.RetryEach(manager, failed, now, writable);
        RefreshTable(queue);
      }
    }

    /** The loop of `clear_completed`: every completed entry, in queue
        order, is moved to the history. */
    method MoveCompleted(queue: seq<DownloadItem>)
      modifies this`calls
      ensures calls == old(calls) + MoveCalls(CompletedOnly(queue))
    {
      for i := 0 to |queue|
        invariant calls == old(calls) + MoveCalls(Filter(queue[..i], History.HasStatus(Completed)))
      {
        FilterAppend(queue[..i], [queue[i]], History.HasStatus(Completed));
        assert queue[..i + 1] == queue[..i] + [queue[i]];
        if queue[i].status == Completed {
          assert MoveCalls(Filter(queue[..i + 1], History.HasStatus(Completed)))
            == MoveCalls(Filter(queue[..i], History.HasStatus(Completed))) + [MoveToHistory(queue[i])];
          calls := calls + [MoveToHistory(queue[i])];
        }
      }
      assert queue[..|queue|] == queue;
    }

    /** `clear_completed`: once confirmed, the completed entries of the
        queue are moved to the history and the table redrawn from
        `after`. */
    method ClearCompleted(confirm: bool, queue: seq<DownloadItem>, after: seq<DownloadItem>)
      modifies this`rows, this`cells, this`statusLabel, this`calls
      ensures confirm ==> calls == old(calls) + MoveCalls(CompletedOnly(queue)) && Drawn(after)
      ensures !confirm ==> unchanged(this)
    {
      if confirm {
        MoveCompleted(queue);
        RefreshTable(after);
      }
    }
  }
}
