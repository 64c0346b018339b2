/** The queue-drain loop (queue_worker.py). The worker asks its manager for
    the next pending item, marks it DOWNLOADING, downloads it through yt-dlp
    with the forced options, marks it COMPLETED or FAILED, moves it to the
    history and reports it, until the manager has nothing left or `stop()`
    has been called.

    The manager calls the loop makes (`get_next_pending`,
    `update_item_status`, `move_to_history`) are not defined anywhere in
    queue_manager.py, so the manager is a script: what each fetch returns,
    and for that item the hook calls yt-dlp makes, how the download ends and
    whether `stop()` arrives while it runs. Every manager call and every
    signal goes into one event log, in order. */
module QueueProcessing {
  import opened Wrappers
  import opened PyValues
  import opened Downloads
  import YtDl
  import SeqUtil

  /** One pass of the loop as the environment plays it. `next` is what
      `get_next_pending` returns; the other fields matter only when it
      returns an item. */
  datatype Step = Step(
    next: Option<DownloadItem>,
    hooks: seq<Dict>,
    outcome: YtDl.Outcome,
    stopRequested: bool)

  datatype Event =
    | GetNextPending
    | UpdateItemStatus(item: DownloadItem, status: DownloadStatus, error: Option<string>)
    | ItemStarted(item: DownloadItem)
    | DownloadCalled(url: string, options: Dict)
    | Progress(item: DownloadItem, percent: int, speed: Value, eta: Value)
    | MoveToHistory(item: DownloadItem)
    | ItemCompleted(item: DownloadItem, success: bool, message: string)
    | QueueFinished

  const SuccessMessage: string := "Download completed successfully"

  function FailureMessage(error: string): string {
    "Download failed: " + error
  }

  /** `_hook(status)`: a progress signal for the current item, only while
      there is one and only for "downloading" updates. */
  function HookEvents(current: Option<DownloadItem>, status: Dict): (r: seq<Event>)
    ensures current.None? ==> r == []
    ensures r != [] <==> current.Some? && Get(status, "status") == Str("downloading")
    ensures r != [] ==> r == [Progress(current.value, YtDl.Percent(status),
                                       GetOr(status, "_speed_str", Str("?")), GetOr(status, "_eta_str", Str("?")))]
  {
    if current.None? then []
    else match YtDl.HookReport(status)
      case Some(p) => [Progress(current.value, p.percent, p.speed, p.eta)]
      case None => []
  }

  /** The progress signals of one download's hook calls. */
  function DownloadProgress(item: DownloadItem, hooks: seq<Dict>): (r: seq<Event>)
    ensures |r| <= |hooks|
    ensures forall i :: 0 <= i < |r| ==> r[i].Progress? && r[i].item == item
  {
    if hooks == [] then [] else HookEvents(Some(item), hooks[0]) + DownloadProgress(item, hooks[1..])
  }

  lemma ProgressStep(item: DownloadItem, hooks: seq<Dict>, i: nat)
    requires i < |hooks|
    ensures DownloadProgress(item, hooks[i..]) == HookEvents(Some(item), hooks[i]) + DownloadProgress(item, hooks[i + 1..])
  {
    assert hooks[i..][0] == hooks[i] && hooks[i..][1..] == hooks[i + 1..];
  }

  /** The three calls after the download: the final status, the move to
      history, the completion signal. */
  function Finish(item: DownloadItem, outcome: YtDl.Outcome): seq<Event> {
    match outcome
    case Succeeded =>
      [UpdateItemStatus(item, Completed, None), MoveToHistory(item), ItemCompleted(item, true, SuccessMessage)]
    case Raised(error) =>
      [UpdateItemStatus(item, Failed, Some(error)), MoveToHistory(item), ItemCompleted(item, false, FailureMessage(error))]
  }

  /** Everything one processed item produces, from its fetch on. */
  function ItemEvents(item: DownloadItem, step: Step): seq<Event> {
    ItemHead(item) + DownloadProgress(item, step.hooks) + Finish(item, step.outcome)
  }

  /** The log of the `while` loop, started with the stop flag `stopped`. */
  function LoopEvents(script: seq<Step>, stopped: bool): seq<Event>
    decreases |script|
  {
    if stopped then []
    else if script == [] || script[0].next.None? then [GetNextPending]
    else ItemEvents(script[0].next.value, script[0]) + LoopEvents(script[1..], script[0].stopRequested)
  }

  /** The log of `run()`: the loop, then `queue_finished`. */
  function RunEvents(script: seq<Step>, stopped: bool): seq<Event> {
    LoopEvents(script, stopped) + [QueueFinished]
  }

  /** How many items the loop fetches and processes. */
  function Processed(script: seq<Step>, stopped: bool): nat
    decreases |script|
  {
    if stopped || script == [] || script[0].next.None? then 0
    else 1 + Processed(script[1..], script[0].stopRequested)
  }

  /** Whether the loop ends because of the stop flag rather than because
      the manager had nothing left. */
  predicate EndsByStop(script: seq<Step>, stopped: bool)
    decreases |script|
  {
    stopped || (script != [] && script[0].next.Some? && EndsByStop(script[1..], script[0].stopRequested))
  }

  predicate IsFinished(e: Event) { e.QueueFinished? }
  predicate IsFetch(e: Event) { e.GetNextPending? }
  predicate IsMove(e: Event) { e.MoveToHistory? }
  predicate IsStart(e: Event) { e.ItemStarted? }
  predicate IsCompletion(e: Event) { e.ItemCompleted? }

  /** The four events before the download's progress. */
  function ItemHead(item: DownloadItem): seq<Event> {
    [GetNextPending, UpdateItemStatus(item, Downloading, None), ItemStarted(item),
     DownloadCalled(item.url, YtDl.WithDownloadOverrides(item.options))]
  }

  function Tally(keep: Event -> bool, e: Event): nat {
    if keep(e) then 1 else 0
  }

  lemma CountFour(a: Event, b: Event, c: Event, d: Event, keep: Event -> bool)
    ensures SeqUtil.Count([a, b, c, d], keep) == Tally(keep, a) + Tally(keep, b) + Tally(keep, c) + Tally(keep, d)
  {
    assert [a, b, c, d] == [a] + ([b] + ([c] + [d]));
    SeqUtil.CountCons(a, [b] + ([c] + [d]), keep);
    SeqUtil.CountCons(b, [c] + [d], keep);
    SeqUtil.CountCons(c, [d], keep);
    SeqUtil.CountCons(d, [], keep);
  }

  lemma CountThree(a: Event, b: Event, c: Event, keep: Event -> bool)
    ensures SeqUtil.Count([a, b, c], keep) == Tally(keep, a) + Tally(keep, b) + Tally(keep, c)
  {
    assert [a, b, c] == [a] + ([b] + [c]);
    SeqUtil.CountCons(a, [b] + [c], keep);
    SeqUtil.CountCons(b, [c], keep);
    SeqUtil.CountCons(c, [], keep);
  }

  /** Progress signals do not change a count that ignores them. */
  lemma CountSkipsProgress(item: DownloadItem, step: Step, keep: Event -> bool)
    requires forall e: Event :: keep(e) ==> !e.Progress?
    ensures SeqUtil.Count(ItemEvents(item, step), keep)
         == SeqUtil.Count(ItemHead(item), keep) + SeqUtil.Count(Finish(item, step.outcome), keep)
  {
    var middle := DownloadProgress(item, step.hooks);
    assert ItemEvents(item, step) == ItemHead(item) + middle + Finish(item, step.outcome);
    SeqUtil.FilterNone(middle, keep);
    SeqUtil.CountAppend(ItemHead(item) + middle, Finish(item, step.outcome), keep);
    SeqUtil.CountAppend(ItemHead(item), middle, keep);
  }

  /** The count of one kind of event in an item's log. */
  lemma ItemCount(item: DownloadItem, step: Step, keep: Event -> bool)
    requires forall e: Event :: keep(e) ==> !e.Progress?
    ensures var h := ItemHead(item); var f := Finish(item, step.outcome);
      SeqUtil.Count(ItemEvents(item, step), keep)
      == Tally(keep, h[0]) + Tally(keep, h[1]) + Tally(keep, h[2]) + Tally(keep, h[3])
       + Tally(keep, f[0]) + Tally(keep, f[1]) + Tally(keep, f[2])
  {
    CountSkipsProgress(item, step, keep);
    var h := ItemHead(item);
    CountFour(h[0], h[1], h[2], h[3], keep);
    var f := Finish(item, step.outcome);
    assert f == [f[0], f[1], f[2]];
    CountThree(f[0], f[1], f[2], keep);
  }

  /** One item's events hold one fetch, one start, one move to history and
      one completion signal, and no `queue_finished`. */
  lemma ItemEventCounts(item: DownloadItem, step: Step)
    ensures var r := ItemEvents(item, step);
      && SeqUtil.Count(r, IsFetch) == 1 && SeqUtil.Count(r, IsStart) == 1
      && SeqUtil.Count(r, IsMove) == 1 && SeqUtil.Count(r, IsCompletion) == 1
      && SeqUtil.Count(r, IsFinished) == 0
  {
    ItemCount(item, step, IsFetch);
    ItemCount(item, step, IsStart);
    ItemCount(item, step, IsMove);
    ItemCount(item, step, IsCompletion);
    ItemCount(item, step, IsFinished);
  }

  /** Every fetched item is started, moved to history and reported exactly
      once; the loop fetches once more only when the manager ran dry. */
  lemma {:induction false} LoopCounts(script: seq<Step>, stopped: bool)
    ensures var r := LoopEvents(script, stopped);
      && SeqUtil.Count(r, IsStart) == Processed(script, stopped)
      && SeqUtil.Count(r, IsMove) == Processed(script, stopped)
      && SeqUtil.Count(r, IsCompletion) == Processed(script, stopped)
      && SeqUtil.Count(r, IsFetch) == Processed(script, stopped) + (if EndsByStop(script, stopped) then 0 else 1)
      && SeqUtil.Count(r, IsFinished) == 0
    decreases |script|
  {
    if !stopped && script != [] && script[0].next.Some? {
      var a := ItemEvents(script[0].next.value, script[0]);
      var b := LoopEvents(script[1..], script[0].stopRequested);
      ItemEventCounts(script[0].next.value, script[0]);
      LoopCounts(script[1..], script[0].stopRequested);
      SeqUtil.CountAppend(a, b, IsStart);
      SeqUtil.CountAppend(a, b, IsMove);
      SeqUtil.CountAppend(a, b, IsCompletion);
      SeqUtil.CountAppend(a, b, IsFetch);
      SeqUtil.CountAppend(a, b, IsFinished);
    }
  }

  /** `queue_finished` is emitted exactly once, as the last event, on every
      path out of the loop. */
  lemma FinishedOnceAndLast(script: seq<Step>, stopped: bool)
    ensures var r := RunEvents(script, stopped);
      && r[|r| - 1] == QueueFinished
      && SeqUtil.Count(r, IsFinished) == 1
  {
    LoopCounts(script, stopped);
    SeqUtil.CountAppend(LoopEvents(script, stopped), [QueueFinished], IsFinished);
  }

  /** A stop requested while item `j` downloads lets that item finish and
      fetches nothing after it. */
  lemma {:induction false} StopAfterCurrentItem(script: seq<Step>, j: nat)
    requires j < |script| && script[j].stopRequested
    requires forall i :: 0 <= i <= j ==> script[i].next.Some?
    requires forall i :: 0 <= i < j ==> !script[i].stopRequested
    ensures Processed(script, false) == j + 1
    ensures EndsByStop(script, false)
    decreases j
  {
    if j > 0 {
      StopAfterCurrentItem(script[1..], j - 1);
    }
  }

  /** Once the flag is set before the loop starts, nothing is fetched. */
  lemma StoppedRunsNothing(script: seq<Step>)
    ensures RunEvents(script, true) == [QueueFinished]
  {
  }

  /** The events of one item, in the order the source issues them: fetch,
      DOWNLOADING, `item_started` and the download call; progress for that
      item only; then status, move and completion, with the flag and the
      message of the path the download took. */
  lemma ItemOrder(item: DownloadItem, step: Step)
    ensures var r := ItemEvents(item, step);
      && r[..4] == [GetNextPending, UpdateItemStatus(item, Downloading, None), ItemStarted(item),
                    DownloadCalled(item.url, YtDl.WithDownloadOverrides(item.options))]
      && (forall i :: 4 <= i < |r| - 3 ==> r[i].Progress? && r[i].item == item)
      && r[|r| - 2] == MoveToHistory(item)
      && (step.outcome.Succeeded? <==> r[|r| - 3] == UpdateItemStatus(item, Completed, None))
      && (step.outcome.Succeeded? <==> r[|r| - 1] == ItemCompleted(item, true, SuccessMessage))
      && (step.outcome.Raised? ==>
            r[|r| - 3] == UpdateItemStatus(item, Failed, Some(step.outcome.message))
            && r[|r| - 1] == ItemCompleted(item, false, FailureMessage(step.outcome.message)))
  {
    var r := ItemEvents(item, step);
    var middle := DownloadProgress(item, step.hooks);
    assert |r| == 4 + |middle| + 3;
    forall i | 4 <= i < |r| - 3 ensures r[i].Progress? && r[i].item == item {
      assert r[i] == middle[i - 4];
    }
  }

  /** The loop log after one processed item, with the log so far in front. */
  lemma LoopStep(log: seq<Event>, rest: seq<Step>)
    requires rest != [] && rest[0].next.Some?
    ensures log + ItemEvents(rest[0].next.value, rest[0]) + LoopEvents(rest[1..], rest[0].stopRequested)
         == log + LoopEvents(rest, false)
  {
  }

  lemma ItemEventsAfterFetch(item: DownloadItem, step: Step)
    ensures ItemEvents(item, step)[1..] == ItemHead(item)[1..] + DownloadProgress(item, step.hooks) + Finish(item, step.outcome)
  {
  }

  /** An item's log is the fetch followed by the rest of it. */
  lemma FetchThenRest(log: seq<Event>, item: DownloadItem, step: Step)
    ensures log + [GetNextPending] + ItemEvents(item, step)[1..] == log + ItemEvents(item, step)
  {
    assert ItemEvents(item, step)[0] == GetNextPending;
    assert [GetNextPending] + ItemEvents(item, step)[1..] == ItemEvents(item, step);
  }

  class QueueWorker {
    var shouldStop: bool
    var currentItem: Option<DownloadItem>
    var events: seq<Event>

    constructor ()
      ensures !shouldStop && currentItem.None? && events == []
    {
      shouldStop := false;
      currentItem := None;
      events := [];
    }

    /** `stop()`: only sets the flag. */
    method Stop()
      modifies this`shouldStop
      ensures shouldStop
    {
      shouldStop := true;
    }

    /** `_hook(status)` */
    method Hook(status: Dict)
      modifies this`events
      ensures events == old(events) + HookEvents(currentItem, status)
    {
      if currentItem.Some? {
        var report := YtDl.HookReport(status);
        if report.Some? {
          events := events + [Progress(currentItem.value, report.value.percent, report.value.speed, report.value.eta)];
        }
      }
    }

    /** yt-dlp calling the hook during the current item's download. */
    method RunHooks(hooks: seq<Dict>)
      requires currentItem.Some?
      modifies this`events
      ensures events == old(events) + DownloadProgress(currentItem.value, hooks)
    {
      var i := 0;
      while i < |hooks|
        invariant 0 <= i <= |hooks|
        invariant events + DownloadProgress(currentItem.value, hooks[i..]) == old(events) + DownloadProgress(currentItem.value, hooks)
      {
        ProgressStep(currentItem.value, hooks, i);
        ghost var before := events;
        Hook(hooks[i]);
        assert events + DownloadProgress(currentItem.value, hooks[i + 1..])
            == before + DownloadProgress(currentItem.value, hooks[i..]);
        i := i + 1;
      }
    }

    /** The `try` block's tail or its `except` branch, after the download
      returned or raised. */
    method Complete(item: DownloadItem, outcome: YtDl.Outcome)
      modifies this`events
      ensures events == old(events) + Finish(item, outcome)
    {
      match outcome {
        case Succeeded =>
          events := events + [UpdateItemStatus(item, Completed, None)];
          events := events + [MoveToHistory(item)];
          events := events + [ItemCompleted(item, true, SuccessMessage)];
        case Raised(error) =>
          events := events + [UpdateItemStatus(item, Failed, Some(error))];
          events := events + [MoveToHistory(item)];
          events := events + [ItemCompleted(item, false, FailureMessage(error))];
      }
    }

    /** One pass of the loop body after the fetch returned `item`. */
    method ProcessItem(item: DownloadItem, step: Step)
      modifies this
      ensures events == old(events) + ItemEvents(item, step)[1..]
      ensures shouldStop == (old(shouldStop) || step.stopRequested)
      ensures currentItem.None?
    {
      currentItem := Some(item);
      events := events + [UpdateItemStatus(item, Downloading, None)];
      events := events + [ItemStarted(item)];
      var options := YtDl.WithDownloadOverrides(item.options);
      events := events + [DownloadCalled(item.url, options)];
      assert events == old(events) + ItemHead(item)[1..];
      ghost var beforeHooks := events;
      RunHooks(step.hooks);
      ghost var afterHooks := events;
      assert afterHooks == old(events) + ItemHead(item)[1..] + DownloadProgress(item, step.hooks);
      if step.stopRequested {
        Stop();
      }
      Complete(item, step.outcome);
      currentItem := None;
      ItemEventsAfterFetch(item, step);
      SeqUtil.AppendThree(old(events), ItemHead(item)[1..], DownloadProgress(item, step.hooks), Finish(item, step.outcome));
    }

    /** One pass of the `while` body: fetch the next pending item and, if
        there is one, process it. `more` tells whether an item came back. */
    method FetchAndProcess(rest: seq<Step>) returns (more: bool)
      modifies this
      ensures more <==> rest != [] && rest[0].next.Some?
      ensures more ==> events == old(events) + ItemEvents(rest[0].next.value, rest[0])
      ensures more ==> shouldStop == (old(shouldStop) || rest[0].stopRequested) && currentItem.None?
      ensures !more ==> events == old(events) + [GetNextPending]
      ensures !more ==> shouldStop == old(shouldStop) && currentItem == old(currentItem)
    {
      events := events + [GetNextPending];
      var next := if rest != [] then rest[0].next else None;
      if next.None? {
        return false;
      }
      ProcessItem(next.value, rest[0]);
      FetchThenRest(old(events), next.value, rest[0]);
      return true;
    }

    /** `run()` */
    method Run(script: seq<Step>)
      modifies this
      ensures events == old(events) + RunEvents(script, old(shouldStop))
      ensures shouldStop == EndsByStop(script, old(shouldStop))
      ensures Processed(script, old(shouldStop)) == 0 ==> currentItem == old(currentItem)
      ensures Processed(script, old(shouldStop)) > 0 ==> currentItem.None?
    {
      var rest := script;
      while !shouldStop
        invariant |rest| <= |script|
        invariant events + LoopEvents(rest, shouldStop) == old(events) + LoopEvents(script, old(shouldStop))
        invariant EndsByStop(rest, shouldStop) == EndsByStop(script, old(shouldStop))
        invariant Processed(script, old(shouldStop)) == |script| - |rest| + Processed(rest, shouldStop)
        invariant |rest| == |script| ==> currentItem == old(currentItem) && shouldStop == old(shouldStop)
        invariant |rest| < |script| ==> currentItem.None?
        decreases |rest|
      {
        ghost var before := events;
        var more := FetchAndProcess(rest);
        if !more {
          assert events == old(events) + LoopEvents(script, old(shouldStop));
          break;
        }
        LoopStep(before, rest);
        rest := rest[1..];
      }
      assert events == old(events) + LoopEvents(script, old(shouldStop));
      events := events + [QueueFinished];
    }
  }
}
