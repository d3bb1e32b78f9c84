/** A session whose history is not served completely: its log is full, and one more event is stored while a client pages
    back through it (src/server/copilot-aggregator/aggregator.ts). */
module HistoryLoss {
  import opened Optional
  import opened EventLog
  import opened Persistence
  import opened LogAndDisk
  import opened CappedPaging
  import opened RunningHistory
  import LineCodec

  function Unary(n: nat): (s: string)
    ensures |s| == n
  {
    if n == 0 then "" else "i" + Unary(n - 1)
  }

  /** The n-th event of the session; timestamps are read by their length. */
  function Tick(n: nat): StoredEvent {
    StoredEvent("tick", Unary(n + 1))
  }

  function Length(timestamp: string): Option<int> {
    if timestamp == "" then None else Some(|timestamp|)
  }

  function Ticks(n: nat): (events: seq<StoredEvent>)
    ensures |events| == n && forall i :: 0 <= i < n ==> events[i] == Tick(i)
  {
    if n == 0 then [] else Ticks(n - 1) + [Tick(n - 1)]
  }

  function Stores(n: nat): (actions: seq<Action>)
    ensures |actions| == n && forall i :: 0 <= i < n ==> actions[i] == Store("s", Tick(i))
  {
    if n == 0 then [] else Stores(n - 1) + [Store("s", Tick(n - 1))]
  }

  /** As many events as the log holds are stored, the session is read, and one more is stored. */
  function Busy(): Session {
    Session(LineCodec.LINES, map[],
            Stores(MAX_EVENTS_PER_SESSION) + [Read("s"), Store("s", Tick(MAX_EVENTS_PER_SESSION))], 1, "s")
  }

  lemma {:induction false} StoredTicks(n: nat)
    ensures StoredIn(Stores(n), "s") == Ticks(n)
  {
    if n > 0 {
      StoredTicks(n - 1);
      StoredInSnoc(Stores(n - 1), Store("s", Tick(n - 1)), "s");
    }
  }

  lemma TicksInOrder(n: nat)
    ensures StrictlyInOrder(Length, Ticks(n))
  {
    forall i, j | 0 <= i < j < n
      ensures NotAfter(Length, Ticks(n)[i], Ticks(n)[j])
    {
      assert |Ticks(n)[i].timestamp| == i + 1 && |Ticks(n)[j].timestamp| == j + 1;
    }
  }

  lemma StoredInSnoc(actions: seq<Action>, a: Action, sid: string)
    ensures StoredIn(actions + [a], sid) ==
            if a.Store? && a.sid == sid then StoredIn(actions, sid) + [a.e] else StoredIn(actions, sid)
  {
    assert (actions + [a])[..|actions|] == actions;
  }

  lemma BusyActions()
    ensures var n, s := MAX_EVENTS_PER_SESSION, Busy();
            && |s.actions| == n + 2 && s.actions[n] == Read("s")
            && s.actions[..n] == Stores(n) && s.actions[..n + 1] == Stores(n) + [Read("s")]
            && s.actions[..n + 2] == s.actions == Stores(n) + [Read("s")] + [Store("s", Tick(n))]
  {
  }

  lemma StoredInBusy(n: nat)
    ensures StoredIn(Stores(n) + [Read("s")], "s") == Ticks(n)
    ensures StoredIn(Stores(n) + [Read("s")] + [Store("s", Tick(n))], "s") == Ticks(n + 1)
  {
    StoredTicks(n);
    StoredInSnoc(Stores(n), Read("s"), "s");
    StoredInSnoc(Stores(n) + [Read("s")], Store("s", Tick(n)), "s");
  }

  /** Nothing is on disk at the start. */
  lemma HistoryIsStored(t: nat)
    requires t <= |Busy().actions|
    ensures HistoryAt(Busy(), t) == StoredIn(Busy().actions[..t], "s")
  {
    EmptyContents(LineCodec.LINES, "s");
    var stored := StoredIn(Busy().actions[..t], "s");
    assert [] + stored == stored;
  }

  lemma BusyHistory()
    ensures var n, s := MAX_EVENTS_PER_SESSION, Busy();
            |s.actions| == n + 2 && HistoryAt(s, n + 1) == Ticks(n) && HistoryAt(s, n + 2) == Ticks(n + 1)
  {
    var n := MAX_EVENTS_PER_SESSION;
    BusyActions();
    StoredInBusy(n);
    HistoryIsStored(n + 1);
    HistoryIsStored(n + 2);
  }

  lemma BusyIsProper()
    ensures Proper(Busy()) && FirstRead(Busy(), MAX_EVENTS_PER_SESSION + 1)
  {
    BusyActions();
    LineCodec.LinesIsGoodCodec();
    EmptyContents(LineCodec.LINES, "s");
  }

  /** The first fetch finds the full log, all later ones come after one more event. */
  function Fetches(k: nat): (times: seq<nat>)
    ensures |times| == k + 1 && times[0] == MAX_EVENTS_PER_SESSION + 1
    ensures forall i :: 1 <= i <= k ==> times[i] == MAX_EVENTS_PER_SESSION + 2
  {
    if k == 0 then [MAX_EVENTS_PER_SESSION + 1] else Fetches(k - 1) + [MAX_EVENTS_PER_SESSION + 2]
  }

  lemma FetchesAreTimes(k: nat)
    ensures FetchTimes(Busy(), Fetches(k))
  {
    var n, s := MAX_EVENTS_PER_SESSION, Busy();
    BusyActions();
    assert s.actions[..n + 1][n] == Read("s") && s.actions[..n + 2][n] == Read("s");
  }

  lemma PagesAtMost(n: nat, cap: nat)
    requires 1 <= cap < n
    ensures 2 <= PageCount(n, cap) <= n
  {
    var p := PageCount(n, cap);
    assert (p - 1) * cap >= p - 1;
  }

  /** A client that pages back with any limit misses events of the log it first found. */
  lemma HistoryCanLoseEvents(limit: int)
    ensures var n, s := MAX_EVENTS_PER_SESSION, Busy();
            && |s.actions| == n + 2 && FetchTimes(s, Fetches(n))
            && Chronological(Walk(Length, LogsAt(s, Fetches(n)), None, limit)) != HistoryAt(s, n + 1)
  {
    var n, s, times := MAX_EVENTS_PER_SESSION, Busy(), Fetches(MAX_EVENTS_PER_SESSION);
    BusyHistory();
    BusyIsProper();
    FetchesAreTimes(n);
    TicksInOrder(n + 1);
    PagesAtMost(n, Cap(limit));
    HistorySurvivesRestartExactly(Length, s, times, limit);
    var k := LastFetch(n, Cap(limit));
    assert 1 <= k <= n && times[k] == n + 2;
  }
}
