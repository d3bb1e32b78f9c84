/** The aggregator's in-memory event logs against the JSONL store: capping, hydration after a restart, and reading
    the history back page by page (src/server/copilot-aggregator/aggregator.ts).  Hydration is one step. */
module LogAndDisk {
  import opened Optional
  import opened Sequences
  import opened EventLog
  import opened Persistence

  const MAX_EVENTS_PER_SESSION: nat := 10_000

  /** Logs in memory, which sessions were hydrated, and the store. */
  datatype Memory = Memory(logs: map<string, seq<StoredEvent>>, hydrated: set<string>, disk: Disk)

  datatype Action = Store(sid: string, e: StoredEvent) | Read(sid: string) | Timer(sid: string)

  /** The newest events that fit. */
  function Capped(log: seq<StoredEvent>): (r: seq<StoredEvent>)
    ensures |r| <= MAX_EVENTS_PER_SESSION
  {
    if |log| > MAX_EVENTS_PER_SESSION then log[|log| - MAX_EVENTS_PER_SESSION..] else log
  }

  function LogOf(m: Memory, sid: string): seq<StoredEvent> {
    if sid in m.logs then m.logs[sid] else []
  }

  function Hydrate(c: Codec, m: Memory, sid: string): Memory {
    if sid in m.hydrated then m
    else
      var events := Loaded(c, m.disk, sid);
      Memory(if events == [] then m.logs else m.logs[sid := events], m.hydrated + {sid}, DoFlush(m.disk, sid))
  }

  function Next(c: Codec, m: Memory, a: Action, threshold: int): Memory {
    match a
    case Store(sid, e) =>
      m.(logs := m.logs[sid := Capped(LogOf(m, sid) + [e])], disk := DoAppend(c, m.disk, sid, e, threshold))
    case Read(sid) => Hydrate(c, m, sid)
    case Timer(sid) => m.(disk := DoFlush(m.disk, sid))
  }

  function After(c: Codec, m: Memory, actions: seq<Action>, threshold: int): Memory {
    if actions == [] then m
    else Next(c, After(c, m, actions[..|actions| - 1], threshold), actions[|actions| - 1], threshold)
  }

  /** A fresh process over whatever an earlier one left on disk. */
  function Restarted(files: map<string, string>): Memory {
    Memory(map[], {}, Disk(files, map[]))
  }

  /** The events stored for a session in this process, in arrival order. */
  function StoredIn(actions: seq<Action>, sid: string): seq<StoredEvent> {
    if actions == [] then []
    else
      var last, before := actions[|actions| - 1], StoredIn(actions[..|actions| - 1], sid);
      if last.Store? && last.sid == sid then before + [last.e] else before
  }

  predicate WasRead(actions: seq<Action>, sid: string) {
    exists i :: 0 <= i < |actions| && actions[i] == Read(sid)
  }

  ghost predicate OnlyWriter(actions: seq<Action>, sid: string) {
    forall i :: 0 <= i < |actions| ==> actions[i].sid == sid || FileName(actions[i].sid) != FileName(sid)
  }

  ghost predicate IsSuffixOf(log: seq<StoredEvent>, all: seq<StoredEvent>) {
    |log| <= |all| && log == all[|all| - |log|..]
  }

  /** `log` is the newest 10000 events of `all`, or all of them when there are no more. */
  ghost predicate IsNewestOf(log: seq<StoredEvent>, all: seq<StoredEvent>) {
    log == if |all| <= 10_000 then all else all[|all| - 10_000..]
  }

  lemma CappedAppend(log: seq<StoredEvent>, e: StoredEvent)
    ensures Capped(Capped(log) + [e]) == Capped(log + [e])
  {
    if |log| > MAX_EVENTS_PER_SESSION {
      SuffixConcat(log, [e], |log| - MAX_EVENTS_PER_SESSION);
      SuffixOfSuffix(log + [e], |log| - MAX_EVENTS_PER_SESSION, 1);
    }
  }

  lemma SuffixOfSuffix<T>(s: seq<T>, a: nat, b: nat)
    requires a + b <= |s|
    ensures s[a..][b..] == s[a + b..]
  {
  }

  lemma {:induction false} UnreadLogIsCapped(
    c: Codec, files: map<string, string>, actions: seq<Action>, threshold: int, sid: string)
    requires !WasRead(actions, sid)
    ensures var m := After(c, Restarted(files), actions, threshold);
            LogOf(m, sid) == Capped(StoredIn(actions, sid)) && sid !in m.hydrated
  {
    if actions != [] {
      var before, last := actions[..|actions| - 1], actions[|actions| - 1];
      assert forall i :: 0 <= i < |before| ==> before[i] == actions[i];
      UnreadLogIsCapped(c, files, before, threshold, sid);
      if last.Store? && last.sid == sid { CappedAppend(StoredIn(before, sid), last.e); }
    }
  }

  /** Until it is first read, a session's log is exactly the last 10000 events stored, in arrival order. */
  lemma UnreadLogIsLastStored(
    c: Codec, files: map<string, string>, actions: seq<Action>, threshold: int, sid: string)
    requires !WasRead(actions, sid)
    ensures var m := After(c, Restarted(files), actions, threshold);
            IsNewestOf(LogOf(m, sid), StoredIn(actions, sid)) && sid !in m.hydrated
  {
    UnreadLogIsCapped(c, files, actions, threshold, sid);
  }

  /** The store's view of an action. */
  lemma NextContents(c: Codec, m: Memory, a: Action, threshold: int, sid: string)
    requires GoodCodec(c) && WellFormed(m.disk) && (a.sid == sid || FileName(a.sid) != FileName(sid))
    ensures WellFormed(Next(c, m, a, threshold).disk)
    ensures Contents(c, Next(c, m, a, threshold).disk, sid) ==
            if a.Store? && a.sid == sid then Contents(c, m.disk, sid) + [a.e] else Contents(c, m.disk, sid)
  {
    var op := if a.Store? then Append(a.sid, a.e) else Flush(a.sid);
    StepKeepsWellFormed(c, m.disk, op, threshold);
    StepContents(c, m.disk, op, threshold, sid);
  }

  /** Once read, the log is everything the file and buffer hold, or the newest part of it that fits. */
  ghost predicate FollowsDisk(c: Codec, m: Memory, sid: string) {
    var all := Contents(c, m.disk, sid);
    LogOf(m, sid) == all || LogOf(m, sid) == Capped(all)
  }

  lemma ReadFollowsDisk(c: Codec, m: Memory, sid: string)
    requires GoodCodec(c) && WellFormed(m.disk) && sid !in m.hydrated &&
             IsSuffixOf(LogOf(m, sid), Contents(c, m.disk, sid))
    ensures LogOf(Hydrate(c, m, sid), sid) == Contents(c, Hydrate(c, m, sid).disk, sid)
  {
    FlushLoadsContents(c, m.disk, sid);
    FlushKeepsContents(c, m.disk, sid, sid);
  }

  /** What memory, disk and history have to do with each other after any run. */
  lemma {:induction false} MemoryAndDisk(
    c: Codec, files: map<string, string>, actions: seq<Action>, threshold: int, sid: string)
    requires GoodCodec(c) && WellFormed(Disk(files, map[])) && OnlyWriter(actions, sid)
    ensures var m, start := After(c, Restarted(files), actions, threshold), Contents(c, Disk(files, map[]), sid);
            && WellFormed(m.disk)
            && Contents(c, m.disk, sid) == start + StoredIn(actions, sid)
            && (sid in m.hydrated <==> WasRead(actions, sid))
            && (sid in m.hydrated ==> FollowsDisk(c, m, sid))
            && IsSuffixOf(LogOf(m, sid), Contents(c, m.disk, sid))
  {
    var m, start := After(c, Restarted(files), actions, threshold), Contents(c, Disk(files, map[]), sid);
    if actions == [] {
      assert start + [] == start;
    } else {
      var before, last := actions[..|actions| - 1], actions[|actions| - 1];
      assert forall i :: 0 <= i < |before| ==> before[i] == actions[i];
      MemoryAndDisk(c, files, before, threshold, sid);
      WasReadGrows(actions, sid);
      MemoryAndDiskStep(c, After(c, Restarted(files), before, threshold), last, threshold, sid, start,
        StoredIn(before, sid));
    }
  }

  lemma WasReadGrows(actions: seq<Action>, sid: string)
    requires actions != []
    ensures WasRead(actions, sid) <==> WasRead(actions[..|actions| - 1], sid) || actions[|actions| - 1] == Read(sid)
  {
    var before := actions[..|actions| - 1];
    if WasRead(before, sid) {
      var i :| 0 <= i < |before| && before[i] == Read(sid);
      assert actions[i] == Read(sid);
    }
    if WasRead(actions, sid) {
      var i :| 0 <= i < |actions| && actions[i] == Read(sid);
      if i < |before| { assert before[i] == Read(sid); }
    }
  }

  lemma MemoryAndDiskStep(
    c: Codec, m: Memory, a: Action, threshold: int, sid: string, start: seq<StoredEvent>, stored: seq<StoredEvent>)
    requires GoodCodec(c) && WellFormed(m.disk) && (a.sid == sid || FileName(a.sid) != FileName(sid))
    requires Contents(c, m.disk, sid) == start + stored
    requires sid in m.hydrated ==> FollowsDisk(c, m, sid)
    requires IsSuffixOf(LogOf(m, sid), Contents(c, m.disk, sid))
    ensures var next := Next(c, m, a, threshold);
            && WellFormed(next.disk)
            && Contents(c, next.disk, sid) == start + (if a.Store? && a.sid == sid then stored + [a.e] else stored)
            && (sid in next.hydrated <==> sid in m.hydrated || a == Read(sid))
            && (sid in next.hydrated ==> FollowsDisk(c, next, sid))
            && IsSuffixOf(LogOf(next, sid), Contents(c, next.disk, sid))
  {
    NextContents(c, m, a, threshold, sid);
    if a.Store? && a.sid == sid {
      ConcatAssociates(start, stored, [a.e]);
      StoreKeepsFollowing(LogOf(m, sid), Contents(c, m.disk, sid), a.e);
    } else {
      OtherActionsFollow(c, m, a, threshold, sid);
    }
  }

  lemma OtherActionsFollow(c: Codec, m: Memory, a: Action, threshold: int, sid: string)
    requires GoodCodec(c) && WellFormed(m.disk) && !(a.Store? && a.sid == sid)
    requires IsSuffixOf(LogOf(m, sid), Contents(c, m.disk, sid))
    ensures var next := Next(c, m, a, threshold);
            && (sid in next.hydrated <==> sid in m.hydrated || a == Read(sid))
            && (a == Read(sid) && sid !in m.hydrated ==> LogOf(next, sid) == Contents(c, next.disk, sid))
            && (a != Read(sid) || sid in m.hydrated ==> LogOf(next, sid) == LogOf(m, sid))
  {
    if a == Read(sid) && sid !in m.hydrated { ReadFollowsDisk(c, m, sid); }
  }

  lemma StoreKeepsFollowing(log: seq<StoredEvent>, all: seq<StoredEvent>, e: StoredEvent)
    requires IsSuffixOf(log, all)
    ensures IsSuffixOf(Capped(log + [e]), all + [e])
    ensures log == all || log == Capped(all) ==> Capped(log + [e]) == Capped(all + [e])
  {
    CappedAppend(all, e);
    SuffixConcat(all, [e], |all| - |log|);
    if |log| + 1 > MAX_EVENTS_PER_SESSION {
      SuffixOfSuffix(all + [e], |all| - |log|, |log| + 1 - MAX_EVENTS_PER_SESSION);
    }
  }

  /** The in-memory log is always a suffix of what the file and the buffer hold, which is what was on disk at the start
      followed by everything stored since.  After the first read it is all of that, or its newest 10000 events. */
  lemma MemoryLogFollowsDisk(c: Codec, files: map<string, string>, actions: seq<Action>, threshold: int, sid: string)
    requires GoodCodec(c) && WellFormed(Disk(files, map[])) && OnlyWriter(actions, sid)
    ensures var m := After(c, Restarted(files), actions, threshold);
            var all := Contents(c, Disk(files, map[]), sid) + StoredIn(actions, sid);
            && Contents(c, m.disk, sid) == all
            && IsSuffixOf(LogOf(m, sid), all)
            && (WasRead(actions, sid) ==> LogOf(m, sid) == all || IsNewestOf(LogOf(m, sid), all))
  {
    MemoryAndDisk(c, files, actions, threshold, sid);
  }

  /** After a restart the first read makes the log everything ever recorded for the session, even beyond the cap. */
  lemma FirstReadServesHistory(c: Codec, files: map<string, string>, actions: seq<Action>, threshold: int, sid: string)
    requires GoodCodec(c) && WellFormed(Disk(files, map[])) && OnlyWriter(actions, sid) && !WasRead(actions, sid)
    ensures LogOf(After(c, Restarted(files), actions + [Read(sid)], threshold), sid) ==
            Contents(c, Disk(files, map[]), sid) + StoredIn(actions, sid)
  {
    var all := actions + [Read(sid)];
    assert all[..|all| - 1] == actions;
    MemoryAndDisk(c, files, actions, threshold, sid);
    var m := After(c, Restarted(files), actions, threshold);
    ReadFollowsDisk(c, m, sid);
    FlushKeepsContents(c, m.disk, sid, sid);
  }

  /** What the store is asked to do: every stored event is appended, a timer flushes, and so does the first read of a
      session. */
  function StoreOps(actions: seq<Action>): seq<Op> {
    if actions == [] then []
    else
      var last, before := actions[|actions| - 1], actions[..|actions| - 1];
      StoreOps(before) +
      match last
      case Store(sid, e) => [Append(sid, e)]
      case Timer(sid) => [Flush(sid)]
      case Read(sid) => if WasRead(before, sid) then [] else [Flush(sid)]
  }

  lemma {:induction false} HydratedOnceRead(c: Codec, files: map<string, string>, actions: seq<Action>, threshold: int)
    ensures forall sid :: sid in After(c, Restarted(files), actions, threshold).hydrated <==> WasRead(actions, sid)
  {
    if actions != [] {
      HydratedOnceRead(c, files, actions[..|actions| - 1], threshold);
      forall sid
        ensures WasRead(actions, sid) <==>
                WasRead(actions[..|actions| - 1], sid) || actions[|actions| - 1] == Read(sid)
      {
        WasReadGrows(actions, sid);
      }
    }
  }

  /** Whatever happens to the logs, the disk is what those operations make of it. */
  lemma {:induction false} DiskFollowsStore(c: Codec, files: map<string, string>, actions: seq<Action>, threshold: int)
    ensures After(c, Restarted(files), actions, threshold).disk ==
            Run(c, Disk(files, map[]), StoreOps(actions), threshold)
  {
    if actions != [] {
      var before, last := actions[..|actions| - 1], actions[|actions| - 1];
      var ops := StoreOps(before);
      DiskFollowsStore(c, files, before, threshold);
      HydratedOnceRead(c, files, before, threshold);
      if last.Read? && WasRead(before, last.sid) {
        assert StoreOps(actions) == ops;
      } else {
        var op := if last.Store? then Append(last.sid, last.e) else Flush(last.sid);
        assert StoreOps(actions) == ops + [op] && (ops + [op])[..|ops|] == ops;
      }
    }
  }

  // ---- the aggregator's event log ----

  class EventLogs {
    var eventLogs: map<string, seq<StoredEvent>>
    var hydratedSessions: set<string>
    const persistence: EventPersistence

    ghost function View(): Memory
      reads this, persistence
    {
      Memory(eventLogs, hydratedSessions, persistence.View())
    }

    constructor (persistence: EventPersistence)
      ensures View() == Memory(map[], {}, persistence.View()) && this.persistence == persistence
    {
      this.persistence := persistence;
      eventLogs, hydratedSessions := map[], {};
    }

    method StoreEvent(sessionId: string, event: StoredEvent)
      modifies this, persistence
      ensures View() == Next(persistence.codec, old(View()), Store(sessionId, event), persistence.flushThreshold)
    {
      var log := (if sessionId in eventLogs then eventLogs[sessionId] else []) + [event];
      if |log| > MAX_EVENTS_PER_SESSION {
        var excess := |log| - MAX_EVENTS_PER_SESSION;
        log := log[excess..];
      }
      eventLogs := eventLogs[sessionId := log];
      persistence.AppendEvent(sessionId, event);
    }

    method HydrateFromDisk(sessionId: string)
      modifies this, persistence
      ensures View() == Hydrate(persistence.codec, old(View()), sessionId)
    {
      if sessionId in hydratedSessions { return; }
      hydratedSessions := hydratedSessions + {sessionId};
      var diskEvents := persistence.LoadEvents(sessionId);
      if |diskEvents| > 0 {
        eventLogs := eventLogs[sessionId := diskEvents];
      }
    }

    method GetEvents(clock: Clock, sessionId: string, before: Option<string>, limit: int) returns (page: Page)
      modifies this, persistence
      ensures View() == Next(persistence.codec, old(View()), Read(sessionId), persistence.flushThreshold)
      ensures page == PageOf(clock, LogOf(View(), sessionId), before, limit)
    {
      HydrateFromDisk(sessionId);
      var log := if sessionId in eventLogs then eventLogs[sessionId] else [];
      page := GetPage(clock, log, before, limit);
    }
  }
}
