/** Backward paging while the capped log drops its oldest events between fetches
    (src/server/copilot-aggregator/aggregator.ts): each fetched log is a window of one history. */
module CappedPaging {
  import opened Optional
  import opened EventLog

  /** The part of the history that a log holds, as indices. */
  datatype Window = Window(low: nat, high: nat)

  ghost predicate Bounded(history: seq<StoredEvent>, windows: seq<Window>) {
    forall k :: 0 <= k < |windows| ==> windows[k].low <= windows[k].high <= |history|
  }

  /** Both ends of the windows only move forward. */
  ghost predicate Sliding(history: seq<StoredEvent>, windows: seq<Window>) {
    && Bounded(history, windows)
    && (forall k :: 0 <= k < |windows| - 1 ==>
         windows[k].low <= windows[k + 1].low && windows[k].high <= windows[k + 1].high)
  }

  /** The log as it stands at each fetch. */
  function LogsOf(history: seq<StoredEvent>, windows: seq<Window>): seq<seq<StoredEvent>>
    requires Bounded(history, windows)
  {
    if windows == [] then [] else [history[windows[0].low..windows[0].high]] + LogsOf(history, windows[1..])
  }

  /** The pages are the unbroken stretch of history from `from` up to `end`, and `from` does not lie above the oldest
      event still held at the last fetch. */
  ghost predicate Covers(pages: seq<Page>, history: seq<StoredEvent>, windows: seq<Window>, from: nat, end: nat) {
    && 0 < |pages| <= |windows| && !pages[|pages| - 1].hasMore
    && windows[0].low <= from <= end <= |history|
    && from <= windows[|pages| - 1].low
    && Chronological(pages) == history[from..end]
  }

  lemma RestSlides(history: seq<StoredEvent>, windows: seq<Window>)
    requires Sliding(history, windows) && |windows| >= 2
    ensures Sliding(history, windows[1..])
    ensures windows[0].low <= windows[1].low <= windows[1].high <= |history| && windows[0].high <= windows[1].high
  {
    var rest := windows[1..];
    assert forall k :: 0 <= k < |rest| ==> rest[k] == windows[k + 1];
  }

  lemma LogsUnfold(history: seq<StoredEvent>, windows: seq<Window>)
    requires Bounded(history, windows) && windows != []
    ensures Bounded(history, windows[1..]) && windows[0].low <= windows[0].high <= |history|
    ensures var logs := LogsOf(history, windows);
            && logs != [] && logs[0] == history[windows[0].low..windows[0].high]
            && logs[1..] == LogsOf(history, windows[1..])
  {
  }

  lemma {:induction false} StrictlyOlder(clock: Clock, history: seq<StoredEvent>, i: nat, j: nat)
    requires StrictlyInOrder(clock, history) && i < j < |history|
    ensures Older(clock, history[i].timestamp, history[j].timestamp)
  {
    if i < j - 1 {
      StrictlyOlder(clock, history, i, j - 1);
      assert Older(clock, history[j - 1].timestamp, history[j].timestamp);
    }
  }

  /** In a window, the events strictly older than event `e` of the history are those before it. */
  lemma OlderInWindow(clock: Clock, history: seq<StoredEvent>, w: Window, e: nat)
    requires StrictlyInOrder(clock, history) && w.low <= w.high <= |history| && e < |history|
    ensures var log := history[w.low..w.high];
            forall j :: 0 <= j < |log| ==> (Older(clock, log[j].timestamp, history[e].timestamp) <==> w.low + j < e)
  {
    var log := history[w.low..w.high];
    forall j | 0 <= j < |log|
      ensures Older(clock, log[j].timestamp, history[e].timestamp) <==> w.low + j < e
    {
      if w.low + j < e {
        StrictlyOlder(clock, history, w.low + j, e);
      } else {
        NotOlderFrom(clock, history, e, w.low + j);
      }
    }
  }

  /** Asking a window for what precedes event `e` of the history. */
  lemma WindowCursor(clock: Clock, history: seq<StoredEvent>, w: Window, e: nat)
    requires StrictlyInOrder(clock, history) && w.low <= w.high <= |history| && e < |history| && e <= w.high
    ensures var cursor := Some(history[e].timestamp);
            EndIndex(clock, history[w.low..w.high], cursor) == if e <= w.low then 0 else e - w.low
  {
    assert clock(history[e].timestamp).Some? && clock("") == None;
    OlderInWindow(clock, history, w, e);
    var log, t := history[w.low..w.high], history[e].timestamp;
    var n := CursorEnd(clock, log, t);
    assert n > 0 ==> Older(clock, log[n - 1].timestamp, t);
    assert n < |log| ==> !Older(clock, log[n].timestamp, t);
  }

  lemma LastPage(clock: Clock, logs: seq<seq<StoredEvent>>, history: seq<StoredEvent>, windows: seq<Window>,
                 cursor: Option<string>, limit: int, n: nat)
    requires logs != [] && windows != [] && windows[0].low + n <= windows[0].high <= |history|
    requires logs[0] == history[windows[0].low..windows[0].high] && EndIndex(clock, logs[0], cursor) == n <= Cap(limit)
    ensures Covers(Walk(clock, logs, cursor, limit), history, windows, windows[0].low, windows[0].low + n)
  {
    OnlyPage(clock, logs, cursor, limit, n);
    assert logs[0][..n] == history[windows[0].low..windows[0].low + n];
  }

  lemma SliceInside<T>(all: seq<T>, low: nat, high: nat, s: nat, n: nat)
    requires s < n && low + n <= high <= |all|
    ensures all[low..high][s..n] == all[low + s..low + n] && all[low..high][s] == all[low + s]
  {
    var log := all[low..high];
    forall i | 0 <= i < n - s
      ensures log[s..n][i] == all[low + s..low + n][i]
    {
      assert log[s + i] == all[low + s + i];
    }
  }

  /** The first fetch of the walk, with more to come; the page ends at `n` in the log, and is `history[start..end]`. */
  lemma FirstPage(clock: Clock, logs: seq<seq<StoredEvent>>, history: seq<StoredEvent>, w: Window,
                  cursor: Option<string>, limit: int, n: nat, start: nat, end: nat)
    requires logs != [] && end == w.low + n <= w.high <= |history| && logs[0] == history[w.low..w.high]
    requires start + Cap(limit) == end && start > w.low && EndIndex(clock, logs[0], cursor) == n
    ensures Walk(clock, logs, cursor, limit) ==
            [Page(history[start..end], true, Some(history[start].timestamp))] +
            Walk(clock, logs[1..], Some(history[start].timestamp), limit)
  {
    var s := n - Cap(limit);
    SliceAbsolute(logs[0], history, w, s, n, start, end);
    WalkStep(clock, logs, cursor, limit, n);
  }

  lemma SliceAbsolute(
    log: seq<StoredEvent>, history: seq<StoredEvent>, w: Window, s: nat, n: nat, start: nat, end: nat)
    requires w.low <= w.high <= |history| && log == history[w.low..w.high]
    requires s < n && start == w.low + s && end == w.low + n && end <= w.high
    ensures log[s..n] == history[start..end] && log[s] == history[start]
  {
    SliceInside(history, w.low, w.high, s, n);
  }

  /** Where, in a later window, the page below event `start` ends: nowhere above it, even if `start` itself is gone. */
  function Below(start: nat, w: Window): nat {
    if start <= w.low then 0 else start - w.low
  }

  function Lower(a: nat, b: nat): nat { if a <= b then a else b }

  /** One page on top of what the later fetches deliver. */
  lemma CoversMore(
    page: Page, later: seq<Page>, history: seq<StoredEvent>, windows: seq<Window>, from: nat, start: nat, end: nat)
    requires |windows| >= 2 && windows[0].low <= windows[1].low && windows[0].low <= start <= end <= |history|
    requires page.events == history[start..end]
    requires Covers(later, history, windows[1..], from, windows[1].low + Below(start, windows[1]))
    ensures Covers([page] + later, history, windows, Lower(from, start), end)
  {
    ChronologicalStep(page, later);
    assert windows[1..][|later| - 1] == windows[|later|];
    assert ([page] + later)[|later|] == later[|later| - 1];
    JoinStretches(history, from, windows[1].low + Below(start, windows[1]), start, end);
  }

  lemma JoinStretches(history: seq<StoredEvent>, from: nat, next: nat, start: nat, end: nat)
    requires from <= next <= |history| && start <= end <= |history| && start <= next &&
             (start < next ==> start < from == next)
    ensures history[from..next] + history[start..end] == history[Lower(from, start)..end]
  {
  }

  lemma NextFetch(clock: Clock, history: seq<StoredEvent>, w: Window, v: Window, s: nat, cap: nat)
    requires StrictlyInOrder(clock, history) && cap >= 1
    requires w.low + s < w.high <= v.high <= |history| && w.low <= v.low <= v.high
    ensures var m := Below(w.low + s, v);
            && EndIndex(clock, history[v.low..v.high], Some(history[w.low + s].timestamp)) == m
            && v.low + m <= v.high && PageCount(m, cap) <= PageCount(s, cap)
  {
    WindowCursor(clock, history, v, w.low + s);
    PageCountMonotone(Below(w.low + s, v), s, cap);
  }

  /** The cursor ends at index `n` of the first log, and there are fetches enough for all below it. */
  ghost predicate Ready(
    clock: Clock, history: seq<StoredEvent>, windows: seq<Window>, cursor: Option<string>, cap: nat, n: nat)
    requires cap >= 1
  {
    && windows != [] && Sliding(history, windows)
    && windows[0].low + n <= windows[0].high <= |history| && |windows| >= PageCount(n, cap)
    && EndIndex(clock, history[windows[0].low..windows[0].high], cursor) == n
  }

  lemma NextReady(
    clock: Clock, history: seq<StoredEvent>, windows: seq<Window>, cursor: Option<string>, cap: nat, n: nat, start: nat)
    requires StrictlyInOrder(clock, history) && 1 <= cap < n && Ready(clock, history, windows, cursor, cap, n)
    requires start == windows[0].low + n - cap
    ensures |windows| >= 2 && windows[0].low <= windows[1].low
    ensures Ready(clock, history, windows[1..], Some(history[start].timestamp), cap, Below(start, windows[1]))
  {
    RestSlides(history, windows);
    NextFetch(clock, history, windows[0], windows[1], n - cap, cap);
  }

  /** The walk is its first page and the walk of the later fetches. */
  lemma WalkUnfolds(
    clock: Clock, history: seq<StoredEvent>, windows: seq<Window>, cursor: Option<string>, limit: int, n: nat,
    start: nat, end: nat, oldest: Option<string>, later: seq<Page>)
    requires Ready(clock, history, windows, cursor, Cap(limit), n) && Bounded(history, windows[1..])
    requires end == windows[0].low + n && start + Cap(limit) == end && start > windows[0].low
    requires oldest == Some(history[start].timestamp) &&
             later == Walk(clock, LogsOf(history, windows[1..]), oldest, limit)
    ensures Walk(clock, LogsOf(history, windows), cursor, limit) == [Page(history[start..end], true, oldest)] + later
  {
    LogsUnfold(history, windows);
    FirstPage(clock, LogsOf(history, windows), history, windows[0], cursor, limit, n, start, end);
  }

  /** What the later fetches deliver, with the first page on top. */
  lemma WalkMore(
    clock: Clock, history: seq<StoredEvent>, windows: seq<Window>, cursor: Option<string>, limit: int, n: nat,
    start: nat, end: nat, oldest: Option<string>, from: nat)
    requires Ready(clock, history, windows, cursor, Cap(limit), n) && Bounded(history, windows[1..]) && |windows| >= 2
    requires end == windows[0].low + n && start + Cap(limit) == end && start > windows[0].low
    requires windows[0].low <= windows[1].low && oldest == Some(history[start].timestamp)
    requires Covers(Walk(clock, LogsOf(history, windows[1..]), oldest, limit), history, windows[1..], from,
                    windows[1].low + Below(start, windows[1]))
    ensures Covers(Walk(clock, LogsOf(history, windows), cursor, limit), history, windows, Lower(from, start), end)
  {
    var later := Walk(clock, LogsOf(history, windows[1..]), oldest, limit);
    WalkUnfolds(clock, history, windows, cursor, limit, n, start, end, oldest, later);
    CoversMore(Page(history[start..end], true, oldest), later, history, windows, from, start, end);
  }

  lemma OnePageWalk(
    clock: Clock, history: seq<StoredEvent>, windows: seq<Window>, cursor: Option<string>, limit: int, n: nat, end: nat)
    requires Ready(clock, history, windows, cursor, Cap(limit), n) && end == windows[0].low + n && n <= Cap(limit)
    ensures Covers(Walk(clock, LogsOf(history, windows), cursor, limit), history, windows, windows[0].low, end)
  {
    LogsUnfold(history, windows);
    LastPage(clock, LogsOf(history, windows), history, windows, cursor, limit, n);
  }

  /** From a cursor that ends at index `n` of the first log. */
  lemma {:induction false} CappedWalk(
    clock: Clock, history: seq<StoredEvent>, windows: seq<Window>, cursor: Option<string>, limit: int, n: nat, end: nat)
    returns (from: nat)
    requires StrictlyInOrder(clock, history) && Ready(clock, history, windows, cursor, Cap(limit), n)
    requires end == windows[0].low + n
    ensures Covers(Walk(clock, LogsOf(history, windows), cursor, limit), history, windows, from, end)
    decreases |windows|
  {
    if n <= Cap(limit) {
      from := windows[0].low;
      OnePageWalk(clock, history, windows, cursor, limit, n, end);
    } else {
      var start := end - Cap(limit);
      var oldest := Some(history[start].timestamp);
      NextReady(clock, history, windows, cursor, Cap(limit), n, start);
      var next := Below(start, windows[1]);
      var later := CappedWalk(clock, history, windows[1..], oldest, limit, next, windows[1].low + next);
      WalkMore(clock, history, windows, cursor, limit, n, start, end, oldest, later);
      from := Lower(later, start);
    }
  }

  /** With strictly increasing timestamps, and however many events are appended and however many of the oldest dropped
      between fetches, paging back delivers an unbroken stretch of the history that ends with the newest event of the
      first fetch and holds at least every such event still in the log at the last fetch: what is missing was dropped
      meanwhile. */
  lemma CappedPagingHasNoGaps(
    clock: Clock, history: seq<StoredEvent>, windows: seq<Window>, limit: int, n: nat, end: nat)
    requires StrictlyInOrder(clock, history) && windows != [] && Sliding(history, windows)
    requires end == windows[0].high && n + windows[0].low == end && |windows| >= PageCount(n, Cap(limit))
    ensures exists from: nat :: Covers(Walk(clock, LogsOf(history, windows), None, limit), history, windows, from, end)
  {
    var from := CappedWalk(clock, history, windows, None, limit, n, end);
  }

  // ---- when nothing is missing ----

  lemma {:induction false} LowsRise(history: seq<StoredEvent>, windows: seq<Window>, k: nat)
    requires Sliding(history, windows) && k < |windows|
    ensures windows[0].low <= windows[k].low
  {
    if k > 0 { LowsRise(history, windows, k - 1); }
  }

  /** Everything from where the first window begins up to `end`. */
  ghost predicate Complete(pages: seq<Page>, history: seq<StoredEvent>, low: nat, end: nat) {
    low <= end <= |history| && Chronological(pages) == history[low..end]
  }

  /** The pages on top of a stretch that starts above `low` cannot be complete. */
  lemma CompleteOnTop(
    page: Page, later: seq<Page>, history: seq<StoredEvent>, low: nat, start: nat, end: nat, from: nat, next: nat)
    requires low <= start <= end <= |history| && page.events == history[start..end]
    requires from <= next <= |history| && Chronological(later) == history[from..next]
    requires next - from <= start - low
    ensures Complete([page] + later, history, low, end) <==> history[from..next] == history[low..start]
  {
    ChronologicalStep(page, later);
    assert history[low..end] == history[low..start] + history[start..end];
    if history[from..next] + history[start..end] == history[low..start] + history[start..end] {
      assert next - from == start - low;
      assert (history[from..next] + history[start..end])[..start - low] == history[from..next];
      assert (history[low..start] + history[start..end])[..start - low] == history[low..start];
    }
  }

  lemma ShorterDiffers(history: seq<StoredEvent>, from: nat, next: nat, low: nat, start: nat)
    requires from <= next <= |history| && low <= start <= |history| && next - from < start - low
    ensures history[from..next] != history[low..start]
  {
    assert |history[from..next]| < |history[low..start]|;
  }

  /** When nothing was dropped by the second fetch, completeness is decided by what follows. */
  lemma CompleteIfLater(
    page: Page, later: seq<Page>, history: seq<StoredEvent>, low: nat, start: nat, end: nat, from: nat)
    requires low <= from <= start <= end <= |history| && page.events == history[start..end]
    requires Chronological(later) == history[from..start]
    ensures Complete([page] + later, history, low, end) <==> Complete(later, history, low, start)
  {
    CompleteOnTop(page, later, history, low, start, end, from, start);
  }

  /** When something was, the later fetches deliver too little. */
  lemma IncompleteAfterDrop(
    page: Page, later: seq<Page>, history: seq<StoredEvent>, low: nat, start: nat, end: nat, from: nat, next: nat)
    requires low <= start <= end <= |history| && page.events == history[start..end]
    requires from <= next <= |history| && next - from < start - low && Chronological(later) == history[from..next]
    ensures !Complete([page] + later, history, low, end)
  {
    CompleteOnTop(page, later, history, low, start, end, from, next);
    ShorterDiffers(history, from, next, low, start);
  }

  /** The fetch that asks for the oldest page, when nothing is dropped. */
  function LastFetch(n: nat, cap: nat): (k: nat)
    requires cap >= 1
    ensures k * cap <= n && n <= (k + 1) * cap
  {
    PageCount(n, cap) - 1
  }

  lemma LastFetchUnfold(n: nat, cap: nat, s: nat)
    requires cap >= 1 && n > cap && s + cap == n
    ensures LastFetch(n, cap) == 1 + LastFetch(s, cap)
  {
  }

  lemma ExactBase(
    clock: Clock, history: seq<StoredEvent>, windows: seq<Window>, cursor: Option<string>, limit: int, n: nat, end: nat)
    requires Ready(clock, history, windows, cursor, Cap(limit), n) && end == windows[0].low + n && n <= Cap(limit)
    ensures Complete(Walk(clock, LogsOf(history, windows), cursor, limit), history, windows[0].low, end)
  {
    OnePageWalk(clock, history, windows, cursor, limit, n, end);
  }

  /** A drop before the second fetch is still one at the last. */
  lemma DropStays(history: seq<StoredEvent>, windows: seq<Window>, k: nat)
    requires Sliding(history, windows) && 1 <= k < |windows| && windows[0].low < windows[1].low
    ensures windows[k].low != windows[0].low
  {
    RestSlides(history, windows);
    LowsRise(history, windows[1..], k - 1);
    assert windows[1..][k - 1] == windows[k] && windows[1..][0] == windows[1];
  }

  /** Nothing dropped by the second fetch: the later fetches decide. */
  lemma ExactKept(
    clock: Clock, history: seq<StoredEvent>, windows: seq<Window>, cursor: Option<string>, limit: int, n: nat,
    start: nat, end: nat, oldest: Option<string>, later: seq<Page>, from: nat)
    requires Ready(clock, history, windows, cursor, Cap(limit), n) && Bounded(history, windows[1..]) && |windows| >= 2
    requires end == windows[0].low + n && start + Cap(limit) == end && start > windows[0].low
    requires oldest == Some(history[start].timestamp) &&
             later == Walk(clock, LogsOf(history, windows[1..]), oldest, limit)
    requires windows[1].low == windows[0].low <= from <= start && Chronological(later) == history[from..start]
    ensures Complete(Walk(clock, LogsOf(history, windows), cursor, limit), history, windows[0].low, end) <==>
            Complete(later, history, windows[1].low, start)
  {
    WalkUnfolds(clock, history, windows, cursor, limit, n, start, end, oldest, later);
    CompleteIfLater(Page(history[start..end], true, oldest), later, history, windows[0].low, start, end, from);
  }

  /** Something dropped by the second fetch: the walk is incomplete. */
  lemma ExactDropped(
    clock: Clock, history: seq<StoredEvent>, windows: seq<Window>, cursor: Option<string>, limit: int, n: nat,
    start: nat, end: nat, oldest: Option<string>, later: seq<Page>, from: nat, next: nat)
    requires Ready(clock, history, windows, cursor, Cap(limit), n) && Bounded(history, windows[1..])
    requires end == windows[0].low + n && start + Cap(limit) == end && start > windows[0].low
    requires oldest == Some(history[start].timestamp) &&
             later == Walk(clock, LogsOf(history, windows[1..]), oldest, limit)
    requires from <= next <= |history| && next - from < start - windows[0].low
    requires Chronological(later) == history[from..next]
    ensures !Complete(Walk(clock, LogsOf(history, windows), cursor, limit), history, windows[0].low, end)
  {
    WalkUnfolds(clock, history, windows, cursor, limit, n, start, end, oldest, later);
    IncompleteAfterDrop(Page(history[start..end], true, oldest), later, history, windows[0].low, start, end, from,
      next);
  }

  lemma KeptStep(
    clock: Clock, history: seq<StoredEvent>, windows: seq<Window>, cursor: Option<string>, limit: int, n: nat,
    start: nat, end: nat, oldest: Option<string>, next: nat)
    requires StrictlyInOrder(clock, history) && Ready(clock, history, windows, cursor, Cap(limit), n)
    requires end == windows[0].low + n && start + Cap(limit) == end && start > windows[0].low
    requires |windows| >= 2 && oldest == Some(history[start].timestamp) && next == Below(start, windows[1])
    requires Ready(clock, history, windows[1..], oldest, Cap(limit), next)
    requires windows[1].low == windows[0].low
    ensures Complete(Walk(clock, LogsOf(history, windows), cursor, limit), history, windows[0].low, end) <==>
            Complete(Walk(clock, LogsOf(history, windows[1..]), oldest, limit), history, windows[1].low, start)
  {
    var from := CappedWalk(clock, history, windows[1..], oldest, limit, next, start);
    var later := Walk(clock, LogsOf(history, windows[1..]), oldest, limit);
    ExactKept(clock, history, windows, cursor, limit, n, start, end, oldest, later, from);
  }

  lemma DroppedStep(
    clock: Clock, history: seq<StoredEvent>, windows: seq<Window>, cursor: Option<string>, limit: int, n: nat,
    start: nat, end: nat, oldest: Option<string>, next: nat)
    requires StrictlyInOrder(clock, history) && Ready(clock, history, windows, cursor, Cap(limit), n)
    requires end == windows[0].low + n && start + Cap(limit) == end && start > windows[0].low
    requires |windows| >= 2 && oldest == Some(history[start].timestamp) && next == Below(start, windows[1])
    requires Ready(clock, history, windows[1..], oldest, Cap(limit), next)
    requires windows[0].low < windows[1].low
    ensures !Complete(Walk(clock, LogsOf(history, windows), cursor, limit), history, windows[0].low, end)
  {
    var from := CappedWalk(clock, history, windows[1..], oldest, limit, next, windows[1].low + next);
    var later := Walk(clock, LogsOf(history, windows[1..]), oldest, limit);
    ExactDropped(clock, history, windows, cursor, limit, n, start, end, oldest, later, from, windows[1].low + next);
  }

  /** The walk is complete if and only if the fetch for the oldest page still finds the oldest event. */
  lemma {:induction false} CappedExact(
    clock: Clock, history: seq<StoredEvent>, windows: seq<Window>, cursor: Option<string>, limit: int, n: nat,
    end: nat, k: nat)
    requires StrictlyInOrder(clock, history) && Ready(clock, history, windows, cursor, Cap(limit), n)
    requires end == windows[0].low + n && k == LastFetch(n, Cap(limit))
    ensures Complete(Walk(clock, LogsOf(history, windows), cursor, limit), history, windows[0].low, end) <==>
            windows[k].low == windows[0].low
    decreases |windows|
  {
    if n <= Cap(limit) {
      ExactBase(clock, history, windows, cursor, limit, n, end);
    } else {
      var start := end - Cap(limit);
      var oldest := Some(history[start].timestamp);
      NextReady(clock, history, windows, cursor, Cap(limit), n, start);
      LastFetchUnfold(n, Cap(limit), n - Cap(limit));
      var next := Below(start, windows[1]);
      if windows[1].low == windows[0].low {
        KeptStep(clock, history, windows, cursor, limit, n, start, end, oldest, next);
        CappedExact(clock, history, windows[1..], oldest, limit, next, start, k - 1);
      } else {
        DroppedStep(clock, history, windows, cursor, limit, n, start, end, oldest, next);
        DropStays(history, windows, k);
      }
    }
  }

  /** With strictly increasing timestamps, paging back from the newest event delivers the whole log of the first fetch
      if and only if the log has dropped nothing by the time its oldest page is asked for. */
  lemma CappedPagingIsCompleteExactly(
    clock: Clock, history: seq<StoredEvent>, windows: seq<Window>, limit: int, n: nat, end: nat)
    requires StrictlyInOrder(clock, history) && windows != [] && Sliding(history, windows)
    requires end == windows[0].high && n + windows[0].low == end && |windows| >= PageCount(n, Cap(limit))
    ensures Complete(Walk(clock, LogsOf(history, windows), None, limit), history, windows[0].low, end) <==>
            windows[LastFetch(n, Cap(limit))].low == windows[0].low
  {
    CappedExact(clock, history, windows, None, limit, n, end, LastFetch(n, Cap(limit)));
  }
}
