/** Paging through the history of a session that is still running: events are stored, buffered, flushed and dropped from
    the capped log between the fetches (src/server/copilot-aggregator/aggregator.ts, event-persistence.ts). */
module RunningHistory {
  import opened Optional
  import opened EventLog
  import opened Persistence
  import opened LogAndDisk
  import opened CappedPaging

  /** A process over files left by an earlier one, and what it does. */
  datatype Session = Session(
    codec: Codec, files: map<string, string>, actions: seq<Action>, threshold: int, sid: string)

  ghost predicate Proper(s: Session) {
    GoodCodec(s.codec) && Persistence.WellFormed(Disk(s.files, map[])) && OnlyWriter(s.actions, s.sid)
  }

  /** Everything ever recorded for the session, after the first `t` actions. */
  function HistoryAt(s: Session, t: nat): seq<StoredEvent>
    requires t <= |s.actions|
  {
    Contents(s.codec, Disk(s.files, map[]), s.sid) + StoredIn(s.actions[..t], s.sid)
  }

  /** The in-memory log after the first `t` actions. */
  function LogAt(s: Session, t: nat): seq<StoredEvent>
    requires t <= |s.actions|
  {
    LogOf(After(s.codec, Restarted(s.files), s.actions[..t], s.threshold), s.sid)
  }

  function WindowAt(s: Session, t: nat): Window
    requires t <= |s.actions|
  {
    var high, size := |HistoryAt(s, t)|, |LogAt(s, t)|;
    Window(if size <= high then high - size else 0, high)
  }

  lemma PrefixIsProper(s: Session, t: nat)
    requires Proper(s) && t <= |s.actions|
    ensures OnlyWriter(s.actions[..t], s.sid)
  {
    assert forall i :: 0 <= i < t ==> s.actions[..t][i] == s.actions[i];
  }

  lemma HistoryGrows(s: Session, t: nat)
    requires t < |s.actions|
    ensures s.actions[..t + 1][..t] == s.actions[..t] && s.actions[..t + 1][t] == s.actions[t]
    ensures var a := s.actions[t];
            HistoryAt(s, t + 1) == if a.Store? && a.sid == s.sid then HistoryAt(s, t) + [a.e] else HistoryAt(s, t)
  {
    assert s.actions[..t + 1][..t] == s.actions[..t];
  }

  lemma PrefixTransitive<T>(a: seq<T>, b: seq<T>, c: seq<T>)
    requires a <= b && b <= c
    ensures a <= c
  {
  }

  lemma HistoryStep(s: Session, t: nat)
    requires t < |s.actions|
    ensures HistoryAt(s, t) <= HistoryAt(s, t + 1)
  {
    HistoryGrows(s, t);
  }

  lemma {:induction false} HistoryIsPrefix(s: Session, t: nat, u: nat)
    requires t <= u <= |s.actions|
    ensures HistoryAt(s, t) <= HistoryAt(s, u)
    decreases u
  {
    if t < u {
      HistoryIsPrefix(s, t, u - 1);
      HistoryStep(s, u - 1);
      PrefixTransitive(HistoryAt(s, t), HistoryAt(s, u - 1), HistoryAt(s, u));
    }
  }

  /** At any time the log is a window of the history, ending with the newest event. */
  lemma LogIsWindow(s: Session, t: nat, u: nat)
    requires Proper(s) && t <= u <= |s.actions|
    ensures var w, history := WindowAt(s, t), HistoryAt(s, u);
            w.low <= w.high <= |history| && LogAt(s, t) == history[w.low..w.high]
  {
    PrefixIsProper(s, t);
    MemoryAndDisk(s.codec, s.files, s.actions[..t], s.threshold, s.sid);
    HistoryIsPrefix(s, t, u);
    var w, now, all := WindowAt(s, t), HistoryAt(s, t), HistoryAt(s, u);
    assert LogAt(s, t) == now[w.low..];
    assert now == all[..w.high];
  }

  /** Once the session has been read, a log grows by at most the event stored. */
  lemma NextLogSize(c: Codec, m: Memory, a: Action, threshold: int, sid: string)
    requires sid in m.hydrated
    ensures |LogOf(Next(c, m, a, threshold), sid)| <= |LogOf(m, sid)| + if a.Store? && a.sid == sid then 1 else 0
  {
  }

  lemma ReadIsHydrated(s: Session, t: nat)
    requires Proper(s) && t <= |s.actions| && WasRead(s.actions[..t], s.sid)
    ensures s.sid in After(s.codec, Restarted(s.files), s.actions[..t], s.threshold).hydrated
  {
    PrefixIsProper(s, t);
    MemoryAndDisk(s.codec, s.files, s.actions[..t], s.threshold, s.sid);
  }

  lemma AfterGrows(s: Session, t: nat)
    requires t < |s.actions|
    ensures After(s.codec, Restarted(s.files), s.actions[..t + 1], s.threshold) ==
            Next(s.codec, After(s.codec, Restarted(s.files), s.actions[..t], s.threshold), s.actions[t], s.threshold)
  {
    assert s.actions[..t + 1][..t] == s.actions[..t];
  }

  lemma LogGrowsByOne(s: Session, t: nat)
    requires Proper(s) && t < |s.actions| && WasRead(s.actions[..t], s.sid)
    ensures var a := s.actions[t];
            |LogAt(s, t + 1)| <= |LogAt(s, t)| + if a.Store? && a.sid == s.sid then 1 else 0
  {
    ReadIsHydrated(s, t);
    AfterGrows(s, t);
    var m := After(s.codec, Restarted(s.files), s.actions[..t], s.threshold);
    NextLogSize(s.codec, m, s.actions[t], s.threshold, s.sid);
  }

  lemma ReadStays(s: Session, t: nat, u: nat)
    requires t <= u <= |s.actions| && WasRead(s.actions[..t], s.sid)
    ensures WasRead(s.actions[..u], s.sid)
  {
    var i :| 0 <= i < t && s.actions[..t][i] == Read(s.sid);
    assert s.actions[..u][i] == Read(s.sid);
  }

  predicate NotBehind(v: Window, w: Window) {
    v.low <= w.low && v.high <= w.high
  }

  lemma NotBehindTransitive(u: Window, v: Window, w: Window)
    requires NotBehind(u, v) && NotBehind(v, w)
    ensures NotBehind(u, w)
  {
  }

  lemma WindowMovesForward(s: Session, t: nat, u: nat)
    requires Proper(s) && t + 1 == u <= |s.actions| && WasRead(s.actions[..t], s.sid)
    ensures NotBehind(WindowAt(s, t), WindowAt(s, u))
  {
    LogGrowsByOne(s, t);
    HistorySize(s, t);
  }

  lemma HistorySize(s: Session, t: nat)
    requires t < |s.actions|
    ensures var a := s.actions[t];
            |HistoryAt(s, t + 1)| == |HistoryAt(s, t)| + if a.Store? && a.sid == s.sid then 1 else 0
  {
    HistoryGrows(s, t);
  }

  lemma {:induction false} WindowsMoveForward(s: Session, t: nat, u: nat)
    requires Proper(s) && t <= u <= |s.actions| && WasRead(s.actions[..t], s.sid)
    ensures NotBehind(WindowAt(s, t), WindowAt(s, u))
    decreases u
  {
    if t < u {
      var before := u - 1;
      WindowsMoveForward(s, t, before);
      ReadStays(s, t, before);
      WindowMovesForward(s, before, u);
      NotBehindTransitive(WindowAt(s, t), WindowAt(s, before), WindowAt(s, u));
    }
  }

  /** The fetches of a client, each after so many actions, the first of them after the session was read. */
  ghost predicate FetchTimes(s: Session, times: seq<nat>) {
    && (forall k :: 0 <= k < |times| ==> times[k] <= |s.actions| && WasRead(s.actions[..times[k]], s.sid))
    && (forall k :: 0 <= k < |times| - 1 ==> times[k] <= times[k + 1])
  }

  function WindowsAt(s: Session, times: seq<nat>): (windows: seq<Window>)
    requires forall k :: 0 <= k < |times| ==> times[k] <= |s.actions|
    ensures |windows| == |times| && forall k :: 0 <= k < |times| ==> windows[k] == WindowAt(s, times[k])
  {
    if times == [] then [] else [WindowAt(s, times[0])] + WindowsAt(s, times[1..])
  }

  function LogsAt(s: Session, times: seq<nat>): seq<seq<StoredEvent>>
    requires forall k :: 0 <= k < |times| ==> times[k] <= |s.actions|
  {
    if times == [] then [] else [LogAt(s, times[0])] + LogsAt(s, times[1..])
  }

  lemma WindowsSlide(s: Session, times: seq<nat>)
    requires Proper(s) && FetchTimes(s, times)
    ensures Sliding(HistoryAt(s, |s.actions|), WindowsAt(s, times))
  {
    var windows, history := WindowsAt(s, times), HistoryAt(s, |s.actions|);
    forall k | 0 <= k < |windows|
      ensures windows[k].low <= windows[k].high <= |history|
    {
      LogIsWindow(s, times[k], |s.actions|);
    }
    forall k | 0 <= k < |windows| - 1
      ensures windows[k].low <= windows[k + 1].low && windows[k].high <= windows[k + 1].high
    {
      WindowsMoveForward(s, times[k], times[k + 1]);
    }
  }

  lemma {:induction false} LogsAreWindows(s: Session, times: seq<nat>)
    requires Proper(s) && forall k :: 0 <= k < |times| ==> times[k] <= |s.actions|
    requires Bounded(HistoryAt(s, |s.actions|), WindowsAt(s, times))
    ensures LogsAt(s, times) == LogsOf(HistoryAt(s, |s.actions|), WindowsAt(s, times))
  {
    if times != [] {
      LogsUnfold(HistoryAt(s, |s.actions|), WindowsAt(s, times));
      LogIsWindow(s, times[0], |s.actions|);
      LogsAreWindows(s, times[1..]);
    }
  }

  /** The logs that the fetches find are windows of one history that only move forward. */
  lemma FetchesAreWindows(s: Session, times: seq<nat>)
    requires Proper(s) && FetchTimes(s, times) && times != []
    ensures var windows := WindowsAt(s, times);
            && Sliding(HistoryAt(s, |s.actions|), windows)
            && LogsAt(s, times) == LogsOf(HistoryAt(s, |s.actions|), windows)
            && windows[0].low + |LogAt(s, times[0])| == windows[0].high == |HistoryAt(s, times[0])|
  {
    WindowsSlide(s, times);
    LogsAreWindows(s, times);
    LogIsWindow(s, times[0], times[0]);
  }

  /** While a session keeps running, a client that pages back through the logs it finds receives an unbroken, ordered
      stretch of what was ever recorded, ending with the newest event of the first fetch, with nothing missing that the
      log still holds at the last fetch. Events may be stored, flushed and dropped by the cap between the fetches. */
  lemma PagingARunningSession(clock: Clock, s: Session, times: seq<nat>, limit: int)
    requires Proper(s) && FetchTimes(s, times) && times != []
    requires StrictlyInOrder(clock, HistoryAt(s, |s.actions|))
    requires |times| >= PageCount(|LogAt(s, times[0])|, Cap(limit))
    ensures exists from: nat ::
              Covers(Walk(clock, LogsAt(s, times), None, limit), HistoryAt(s, |s.actions|), WindowsAt(s, times), from,
                     |HistoryAt(s, times[0])|)
  {
    FetchesAreWindows(s, times);
    var history, windows := HistoryAt(s, |s.actions|), WindowsAt(s, times);
    CappedPagingHasNoGaps(clock, history, windows, limit, |LogAt(s, times[0])|, |HistoryAt(s, times[0])|);
  }

  // ---- the history after a restart ----

  /** The session is read for the first time by the action before the first fetch. */
  ghost predicate FirstRead(s: Session, t: nat) {
    0 < t <= |s.actions| && s.actions[t - 1] == Read(s.sid) && !WasRead(s.actions[..t - 1], s.sid)
  }

  lemma FirstReadLog(s: Session, t: nat)
    requires Proper(s) && FirstRead(s, t)
    ensures LogAt(s, t) == HistoryAt(s, t) && WasRead(s.actions[..t], s.sid)
  {
    PrefixIsProper(s, t - 1);
    FirstReadServesHistory(s.codec, s.files, s.actions[..t - 1], s.threshold, s.sid);
    assert s.actions[..t] == s.actions[..t - 1] + [Read(s.sid)];
    HistoryGrows(s, t - 1);
    assert s.actions[..t][t - 1] == Read(s.sid);
  }

  /** The log after one more action of a session that was read. */
  lemma NextLog(s: Session, t: nat)
    requires Proper(s) && t < |s.actions| && WasRead(s.actions[..t], s.sid)
    ensures var a := s.actions[t];
            LogAt(s, t + 1) == if a.Store? && a.sid == s.sid then Capped(LogAt(s, t) + [a.e]) else LogAt(s, t)
  {
    ReadIsHydrated(s, t);
    AfterGrows(s, t);
  }

  lemma LogFitsHistory(s: Session, t: nat)
    requires Proper(s) && t <= |s.actions|
    ensures |LogAt(s, t)| <= |HistoryAt(s, t)|
  {
    LogIsWindow(s, t, t);
  }

  /** Nothing is missing from the log, by size. */
  ghost predicate IsWhole(s: Session, t: nat)
    requires t <= |s.actions|
  {
    |LogAt(s, t)| == |HistoryAt(s, t)|
  }

  /** All of it fits, or nothing was stored since `t0`. */
  ghost predicate NothingDropped(s: Session, t0: nat, t: nat)
    requires t0 <= |s.actions| && t <= |s.actions|
  {
    |HistoryAt(s, t)| <= MAX_EVENTS_PER_SESSION || |HistoryAt(s, t)| == |HistoryAt(s, t0)|
  }

  lemma WholeStep(s: Session, t0: nat, before: nat, t: nat)
    requires Proper(s) && t0 <= before && before + 1 == t <= |s.actions| && WasRead(s.actions[..before], s.sid)
    requires IsWhole(s, before) <==> NothingDropped(s, t0, before)
    ensures IsWhole(s, t) <==> NothingDropped(s, t0, t)
  {
    NextLog(s, before);
    HistorySize(s, before);
    LogFitsHistory(s, before);
    HistoryIsPrefix(s, t0, before);
  }

  lemma {:induction false} WholeExactly(s: Session, t0: nat, t: nat)
    requires Proper(s) && FirstRead(s, t0) && t0 <= t <= |s.actions|
    ensures IsWhole(s, t) <==> NothingDropped(s, t0, t)
    decreases t
  {
    FirstReadLog(s, t0);
    if t0 < t {
      var before := t - 1;
      WholeExactly(s, t0, before);
      ReadStays(s, t0, before);
      WholeStep(s, t0, before, t);
    }
  }

  lemma WholeIsWindowFromStart(s: Session, t: nat)
    requires Proper(s) && t <= |s.actions|
    ensures WindowAt(s, t).low == 0 <==> IsWhole(s, t)
  {
    LogFitsHistory(s, t);
  }

  lemma {:induction false} TimesRise(s: Session, times: seq<nat>, k: nat)
    requires FetchTimes(s, times) && k < |times|
    ensures times[0] <= times[k]
  {
    if k > 0 { TimesRise(s, times, k - 1); }
  }

  /** Windows begin where the history does exactly while nothing was dropped. */
  lemma LowExactly(s: Session, t0: nat, t: nat)
    requires Proper(s) && FirstRead(s, t0) && t0 <= t <= |s.actions|
    ensures WindowAt(s, t0).low == 0
    ensures WindowAt(s, t).low == 0 <==> NothingDropped(s, t0, t)
  {
    WholeExactly(s, t0, t);
    WholeIsWindowFromStart(s, t);
    FirstReadLog(s, t0);
    WholeIsWindowFromStart(s, t0);
  }

  lemma CompleteIsWholeHistory(s: Session, t: nat, pages: seq<Page>)
    requires t <= |s.actions|
    ensures Complete(pages, HistoryAt(s, |s.actions|), 0, |HistoryAt(s, t)|) <==>
            Chronological(pages) == HistoryAt(s, t)
  {
    HistoryIsPrefix(s, t, |s.actions|);
  }

  /** After a restart, a client whose first fetch is the first read pages back through everything ever recorded up to
      then, in order and each event once, if and only if, when the oldest page is asked for, either the whole history
      still fits the log or nothing was stored since the first fetch. */
  lemma HistorySurvivesRestartExactly(clock: Clock, s: Session, times: seq<nat>, limit: int)
    requires Proper(s) && FetchTimes(s, times) && times != [] && FirstRead(s, times[0])
    requires StrictlyInOrder(clock, HistoryAt(s, |s.actions|))
    requires |times| >= PageCount(|HistoryAt(s, times[0])|, Cap(limit))
    ensures Chronological(Walk(clock, LogsAt(s, times), None, limit)) == HistoryAt(s, times[0]) <==>
            NothingDropped(s, times[0], times[LastFetch(|HistoryAt(s, times[0])|, Cap(limit))])
  {
    var n := |HistoryAt(s, times[0])|;
    var k := LastFetch(n, Cap(limit));
    TimesRise(s, times, k);
    LowExactly(s, times[0], times[k]);
    FetchesAreWindows(s, times);
    FirstReadLog(s, times[0]);
    CappedPagingIsCompleteExactly(clock, HistoryAt(s, |s.actions|), WindowsAt(s, times), limit, n, n);
    CompleteIsWholeHistory(s, times[0], Walk(clock, LogsAt(s, times), None, limit));
  }
}
