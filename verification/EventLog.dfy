/** Backward cursor paging over a session's event log (src/server/copilot-aggregator/aggregator.ts), and the
    client that follows the cursor until no page is left (src/client/services/conversation-hooks.ts). */
module EventLog {
  import opened Optional

  /** A stored event: an opaque body and its timestamp string. */
  datatype StoredEvent = StoredEvent(body: string, timestamp: string)

  /** How a timestamp string reads as epoch milliseconds; None is an invalid date. */
  type Clock = string -> Option<int>

  datatype Page = Page(events: seq<StoredEvent>, hasMore: bool, oldest: Option<string>)

  const MAX_PAGE := 500

  function Cap(limit: int): (cap: nat)
    ensures 1 <= cap <= MAX_PAGE
  {
    if limit < 1 then 1 else if limit > MAX_PAGE then MAX_PAGE else limit
  }

  /** Strictly older; a comparison with an invalid date is false. */
  predicate Older(clock: Clock, a: string, b: string) {
    clock(a).Some? && clock(b).Some? && clock(a).value < clock(b).value
  }

  /** One past the rightmost event strictly older than the cursor. */
  function CursorEnd(clock: Clock, log: seq<StoredEvent>, before: string): (n: nat)
    ensures n <= |log|
    ensures n > 0 ==> Older(clock, log[n - 1].timestamp, before)
    ensures forall j :: n <= j < |log| ==> !Older(clock, log[j].timestamp, before)
  {
    if log == [] then 0
    else if Older(clock, log[|log| - 1].timestamp, before) then |log|
    else CursorEnd(clock, log[..|log| - 1], before)
  }

  function EndIndex(clock: Clock, log: seq<StoredEvent>, before: Option<string>): (n: nat)
    ensures n <= |log|
  {
    if Truthy(before) then CursorEnd(clock, log, before.value) else |log|
  }

  /** The page that ends at index `end`. */
  function PageEndingAt(log: seq<StoredEvent>, end: nat, limit: int): Page
    requires end <= |log|
  {
    var start := if end <= Cap(limit) then 0 else end - Cap(limit);
    Page(log[start..end], start > 0, if start < end then Some(log[start].timestamp) else None)
  }

  function PageOf(clock: Clock, log: seq<StoredEvent>, before: Option<string>, limit: int): Page {
    PageEndingAt(log, EndIndex(clock, log, before), limit)
  }

  /** The scan from the newest event back to the first one strictly older than the cursor. */
  method FindCursorEnd(clock: Clock, log: seq<StoredEvent>, before: string) returns (endIndex: nat)
    ensures endIndex == CursorEnd(clock, log, before)
  {
    endIndex := 0;
    var i := |log| - 1;
    assert log[..|log|] == log;
    while i >= 0
      invariant -1 <= i < |log|
      invariant CursorEnd(clock, log, before) == CursorEnd(clock, log[..i + 1], before)
    {
      if Older(clock, log[i].timestamp, before) {
        endIndex := i + 1;
        return;
      }
      assert log[..i + 1][..i] == log[..i];
      i := i - 1;
    }
  }

  method GetPage(clock: Clock, log: seq<StoredEvent>, before: Option<string>, limit: int) returns (page: Page)
    ensures page == PageOf(clock, log, before, limit)
  {
    var cap := if limit < 500 then limit else 500;
    if cap < 1 { cap := 1; }
    assert cap == Cap(limit);
    var endIndex := |log|;
    if Truthy(before) {
      endIndex := FindCursorEnd(clock, log, before.value);
    }
    var startIndex := if endIndex - cap > 0 then endIndex - cap else 0;
    var events := log[startIndex..endIndex];
    assert |events| > 0 ==> events[0] == log[startIndex];
    page := Page(events, startIndex > 0, if |events| > 0 then Some(events[0].timestamp) else None);
  }

  // ---- what a page is ----

  predicate IsEarlier(clock: Clock, e: StoredEvent, cursor: string) {
    match (clock(e.timestamp), clock(cursor))
    case (Some(a), Some(b)) => a < b
    case _ => false
  }

  /** Without a cursor a page ends with the newest event, with one at the last event strictly older than it. */
  ghost predicate EndsAt(clock: Clock, log: seq<StoredEvent>, before: Option<string>, end: nat) {
    end <= |log| &&
    if before == None || before == Some("") then end == |log|
    else
      && (end > 0 ==> IsEarlier(clock, log[end - 1], before.value))
      && (forall j :: end <= j < |log| ==> !IsEarlier(clock, log[j], before.value))
  }

  /** The newest events that end at `end`, at least one and at most 500 of them if there are as many, whether there are
      older ones, and the timestamp of the oldest of them. */
  ghost predicate IsPageAt(log: seq<StoredEvent>, limit: int, end: nat, page: Page)
    requires end <= |log|
  {
    var size := if limit < 1 then 1 else if limit > 500 then 500 else limit;
    && page.events == (if end <= size then log[..end] else log[end - size..end])
    && (page.hasMore <==> end > size)
    && page.oldest == (if page.events == [] then None else Some(page.events[0].timestamp))
  }

  /** This determines the page. */
  lemma PageIsExactly(clock: Clock, log: seq<StoredEvent>, before: Option<string>, limit: int, page: Page)
    ensures page == PageOf(clock, log, before, limit) <==>
            exists end: nat :: EndsAt(clock, log, before, end) && IsPageAt(log, limit, end, page)
  {
    var n := EndIndex(clock, log, before);
    assert EndsAt(clock, log, before, n);
    assert page == PageOf(clock, log, before, limit) ==> IsPageAt(log, limit, n, page);
    forall end: nat | EndsAt(clock, log, before, end) && IsPageAt(log, limit, end, page)
      ensures page == PageOf(clock, log, before, limit)
    {
      EndIsUnique(clock, log, before, end, n);
    }
  }

  lemma EndIsUnique(clock: Clock, log: seq<StoredEvent>, before: Option<string>, a: nat, b: nat)
    requires EndsAt(clock, log, before, a) && EndsAt(clock, log, before, b)
    ensures a == b
  {
  }

  // ---- following the cursor ----

  /** The pages a client gets that starts without a cursor and asks again with the oldest timestamp of the last page
      while there is more; `logs[k]` is the log as it stands at the k-th fetch. */
  function Walk(clock: Clock, logs: seq<seq<StoredEvent>>, cursor: Option<string>, limit: int): seq<Page> {
    if logs == [] then []
    else
      var page := PageOf(clock, logs[0], cursor, limit);
      [page] + if page.hasMore then Walk(clock, logs[1..], page.oldest, limit) else []
  }

  /** Pages come newest first; reversed and joined they are the client's history. */
  function Chronological(pages: seq<Page>): seq<StoredEvent> {
    if pages == [] then [] else Chronological(pages[1..]) + pages[0].events
  }

  /** Every timestamp is a valid date and none is earlier than its predecessor's.  The empty string is no date. */
  ghost predicate InOrder(clock: Clock, log: seq<StoredEvent>) {
    && clock("") == None
    && (forall i :: 0 <= i < |log| ==> clock(log[i].timestamp).Some?)
    && (forall i, j {:trigger NotAfter(clock, log[i], log[j])} ::
         0 <= i < j < |log| ==> NotAfter(clock, log[i], log[j]))
  }

  ghost predicate NotAfter(clock: Clock, a: StoredEvent, b: StoredEvent) {
    clock(a.timestamp).Some? && clock(b.timestamp).Some? && clock(a.timestamp).value <= clock(b.timestamp).value
  }

  ghost predicate StrictlyInOrder(clock: Clock, log: seq<StoredEvent>) {
    InOrder(clock, log) && forall i :: 0 < i < |log| ==> Older(clock, log[i - 1].timestamp, log[i].timestamp)
  }

  /** The log at later fetches is the first one with events appended, always in order. */
  ghost predicate Appending(clock: Clock, logs: seq<seq<StoredEvent>>) {
    && (forall k :: 0 <= k < |logs| ==> InOrder(clock, logs[k]))
    && (forall k :: 0 <= k < |logs| - 1 ==> logs[k] <= logs[k + 1])
  }

  /** No two events with equal timestamps straddle a page boundary, counting pages back from `end`. */
  predicate CleanBoundaries(clock: Clock, log: seq<StoredEvent>, end: nat, cap: nat)
    requires cap >= 1 && end <= |log|
  {
    end <= cap ||
    (Older(clock, log[end - cap - 1].timestamp, log[end - cap].timestamp) &&
     CleanBoundaries(clock, log, end - cap, cap))
  }

  function PageCount(n: nat, cap: nat): (pages: nat)
    requires cap >= 1
    ensures pages >= 1 && (pages - 1) * cap <= n <= pages * cap && (n > 0 ==> (pages - 1) * cap < n)
  {
    if n <= cap then 1 else 1 + PageCount(n - cap, cap)
  }

  /** Nothing from `s` on is strictly older than event `s`. */
  lemma NotOlderFrom(clock: Clock, log: seq<StoredEvent>, s: nat, j: nat)
    requires InOrder(clock, log) && s <= j < |log|
    ensures !Older(clock, log[j].timestamp, log[s].timestamp)
  {
    assert s < j ==> NotAfter(clock, log[s], log[j]);
  }

  lemma CursorBelow(clock: Clock, log: seq<StoredEvent>, s: nat)
    requires InOrder(clock, log) && s < |log|
    ensures CursorEnd(clock, log, log[s].timestamp) <= s
  {
    var n := CursorEnd(clock, log, log[s].timestamp);
    assert n > 0 ==> Older(clock, log[n - 1].timestamp, log[s].timestamp);
    if n > s { NotOlderFrom(clock, log, s, n - 1); }
  }

  /** Asking with the timestamp of event `s` gives the events before it, short of any that share its timestamp. */
  lemma CursorAt(clock: Clock, log: seq<StoredEvent>, s: nat)
    requires InOrder(clock, log) && s < |log|
    ensures Truthy(Some(log[s].timestamp)) && CursorEnd(clock, log, log[s].timestamp) <= s
    ensures CursorEnd(clock, log, log[s].timestamp) == s <==>
            s == 0 || Older(clock, log[s - 1].timestamp, log[s].timestamp)
  {
    CursorBelow(clock, log, s);
    assert clock(log[s].timestamp).Some?;
    var n := CursorEnd(clock, log, log[s].timestamp);
    assert n < s ==> !Older(clock, log[s - 1].timestamp, log[s].timestamp);
    assert n == s && s > 0 ==> Older(clock, log[s - 1].timestamp, log[s].timestamp);
  }

  lemma RestAppends(clock: Clock, logs: seq<seq<StoredEvent>>)
    requires Appending(clock, logs) && |logs| >= 2
    ensures Appending(clock, logs[1..]) && logs[0] <= logs[1..][0]
  {
    var rest := logs[1..];
    forall k | 0 <= k < |rest| - 1
      ensures rest[k] <= rest[k + 1]
    {
      assert rest[k] == logs[k + 1] && rest[k + 1] == logs[k + 2];
    }
  }

  lemma {:induction false} PageCountMonotone(m: nat, n: nat, cap: nat)
    requires cap >= 1 && m <= n
    ensures PageCount(m, cap) <= PageCount(n, cap)
  {
    if m > cap { PageCountMonotone(m - cap, n - cap, cap); }
  }

  lemma ChronologicalStep(page: Page, rest: seq<Page>)
    ensures Chronological([page] + rest) == Chronological(rest) + page.events
  {
    assert ([page] + rest)[1..] == rest;
  }

  /** Boundaries below `end` do not depend on what is appended later. */
  lemma {:induction false} CleanBoundariesStable(
    clock: Clock, log: seq<StoredEvent>, more: seq<StoredEvent>, end: nat, cap: nat)
    requires cap >= 1 && end <= |log| && log <= more
    ensures CleanBoundaries(clock, log, end, cap) == CleanBoundaries(clock, more, end, cap)
  {
    if end > cap { CleanBoundariesStable(clock, log, more, end - cap, cap); }
  }

  /** With the older pages `older` ending at index `next`, the whole is complete exactly when nothing was skipped at
      `s`. */
  lemma CompleteIff(older: seq<StoredEvent>, log: seq<StoredEvent>, next: nat, s: nat, end: nat)
    requires next <= s <= end <= |log| && |older| <= next
    ensures |older + log[s..end]| <= end
    ensures older + log[s..end] == log[..end] <==> next == s && older == log[..s]
  {
    assert log[..end] == log[..s] + log[s..end];
    if older + log[s..end] == log[..end] {
      assert |older| == s;
      assert (older + log[s..end])[..s] == older && log[..end][..s] == log[..s];
    }
  }

  /** One page of the walk, with more to come. */
  lemma WalkStep(clock: Clock, logs: seq<seq<StoredEvent>>, cursor: Option<string>, limit: int, end: nat)
    requires logs != [] && end == EndIndex(clock, logs[0], cursor) && end > Cap(limit)
    ensures var s := end - Cap(limit);
            Walk(clock, logs, cursor, limit) ==
            [Page(logs[0][s..end], true, Some(logs[0][s].timestamp))] +
            Walk(clock, logs[1..], Some(logs[0][s].timestamp), limit)
  {
  }

  /** What a walk back from index `end` of `log` delivers. */
  ghost predicate Delivers(clock: Clock, pages: seq<Page>, log: seq<StoredEvent>, end: nat, cap: nat)
    requires cap >= 1 && end <= |log|
  {
    && pages != [] && !pages[|pages| - 1].hasMore
    && |Chronological(pages)| <= end
    && (Chronological(pages) == log[..end] <==> CleanBoundaries(clock, log, end, cap))
    && (CleanBoundaries(clock, log, end, cap) ==> |pages| == PageCount(end, cap))
  }

  /** How completeness of the older pages decides completeness of the whole. */
  lemma CompleteFrom(
    clock: Clock, log: seq<StoredEvent>, more: seq<StoredEvent>, older: seq<StoredEvent>, next: nat, s: nat, end: nat,
    cap: nat)
    requires 1 <= cap && 0 < s && s + cap == end <= |log| && log <= more && |older| <= next &&
             NextIs(clock, log, s, next)
    requires older == more[..next] <==> CleanBoundaries(clock, more, next, cap)
    ensures |older + log[s..end]| <= end
    ensures older + log[s..end] == log[..end] <==> CleanBoundaries(clock, log, end, cap)
    ensures CleanBoundaries(clock, log, end, cap) ==> next == s && CleanBoundaries(clock, more, next, cap)
  {
    CleanBoundariesStable(clock, log, more, s, cap);
    CompleteIff(older, log, next, s, end);
    assert more[..s] == log[..s];
  }

  lemma DeliversMore(
    clock: Clock, page: Page, later: seq<Page>, log: seq<StoredEvent>, more: seq<StoredEvent>, next: nat, s: nat,
    end: nat,
    cap: nat)
    requires 1 <= cap && 0 < s && s + cap == end <= |log| && log <= more && page.events == log[s..end]
    requires NextIs(clock, log, s, next)
    requires Delivers(clock, later, more, next, cap)
    ensures Delivers(clock, [page] + later, log, end, cap)
  {
    ChronologicalStep(page, later);
    CompleteFrom(clock, log, more, Chronological(later), next, s, end, cap);
    assert ([page] + later)[|later|] == later[|later| - 1];
  }

  lemma OnlyPage(clock: Clock, logs: seq<seq<StoredEvent>>, cursor: Option<string>, limit: int, end: nat)
    requires logs != [] && end == EndIndex(clock, logs[0], cursor) && end <= Cap(limit)
    ensures var pages := Walk(clock, logs, cursor, limit);
            |pages| == 1 && !pages[0].hasMore && Chronological(pages) == logs[0][..end]
  {
    assert Walk(clock, logs, cursor, limit)[1..] == [];
    assert [] + logs[0][..end] == logs[0][..end];
  }

  /** From a cursor that ends at index `end`, a walk ends with a page that has no more, never yields more than `end`
      events, and yields exactly `log[..end]` if and only if the boundaries are clean. */
  lemma {:induction false} WalkFrom(
    clock: Clock, logs: seq<seq<StoredEvent>>, cursor: Option<string>, limit: int, end: nat)
    requires logs != [] && Appending(clock, logs)
    requires end == EndIndex(clock, logs[0], cursor) && |logs| >= PageCount(end, Cap(limit))
    ensures Delivers(clock, Walk(clock, logs, cursor, limit), logs[0], end, Cap(limit))
    decreases end
  {
    if end <= Cap(limit) {
      OnlyPage(clock, logs, cursor, limit, end);
    } else {
      var s := end - Cap(limit);
      var rest, oldest := logs[1..], Some(logs[0][s].timestamp);
      RestAppends(clock, logs);
      NextEnd(clock, logs[0], rest[0], s);
      var next := EndIndex(clock, rest[0], oldest);
      PageCountMonotone(next, s, Cap(limit));
      WalkFrom(clock, rest, oldest, limit, next);
      WalkOneMore(clock, logs, cursor, limit, end, s, oldest, Walk(clock, rest, oldest, limit), rest[0], next);
    }
  }

  /** From what the rest of the walk delivers to what the whole walk delivers. */
  lemma WalkOneMore(
    clock: Clock, logs: seq<seq<StoredEvent>>, cursor: Option<string>, limit: int, end: nat, s: nat,
    oldest: Option<string>,
    later: seq<Page>, more: seq<StoredEvent>, next: nat)
    requires logs != [] && logs[0] <= more && end == EndIndex(clock, logs[0], cursor)
    requires s > 0 && s + Cap(limit) == end && oldest == Some(logs[0][s].timestamp)
    requires later == Walk(clock, logs[1..], oldest, limit) && NextIs(clock, logs[0], s, next)
    requires next <= |more| && Delivers(clock, later, more, next, Cap(limit))
    ensures Delivers(clock, Walk(clock, logs, cursor, limit), logs[0], end, Cap(limit))
  {
    var log := logs[0];
    WalkStep(clock, logs, cursor, limit, end);
    DeliversMore(clock, Page(log[s..end], true, oldest), later, log, more, next, s, end, Cap(limit));
  }

  /** `next` is where the page below event `s` ends: at `s`, unless the event before it has the same timestamp. */
  ghost predicate NextIs(clock: Clock, log: seq<StoredEvent>, s: nat, next: nat)
    requires 0 < s < |log|
  {
    next <= s && (next == s <==> Older(clock, log[s - 1].timestamp, log[s].timestamp))
  }

  lemma NextEnd(clock: Clock, log: seq<StoredEvent>, more: seq<StoredEvent>, s: nat)
    requires InOrder(clock, more) && log <= more && 0 < s < |log|
    ensures var next := EndIndex(clock, more, Some(log[s].timestamp));
            NextIs(clock, log, s, next)
  {
    assert more[s] == log[s] && more[s - 1] == log[s - 1];
    CursorAt(clock, more, s);
  }

  /** In timestamp order, paging back from the newest event gives the whole log of the first fetch if and only if no two
      events with equal timestamps straddle a page boundary, whatever is appended between fetches. */
  lemma PagingIsCompleteExactly(clock: Clock, logs: seq<seq<StoredEvent>>, limit: int)
    requires logs != [] && Appending(clock, logs) && |logs| >= PageCount(|logs[0]|, Cap(limit))
    ensures var pages := Walk(clock, logs, None, limit);
            Chronological(pages) == logs[0] <==> CleanBoundaries(clock, logs[0], |logs[0]|, Cap(limit))
  {
    WalkFrom(clock, logs, None, limit, |logs[0]|);
    assert logs[0][..|logs[0]|] == logs[0];
  }

  /** Two events with one timestamp, fetched one at a time: the first is never delivered. */
  lemma SharedTimestampIsSkipped(clock: Clock, a: StoredEvent, b: StoredEvent)
    requires clock("") == None && clock(a.timestamp).Some? && a.timestamp == b.timestamp
    ensures var logs := [[a, b], [a, b]];
            Appending(clock, logs) && Chronological(Walk(clock, logs, None, 1)) == [b]
  {
    var log, logs := [a, b], [[a, b], [a, b]];
    assert logs[1..] == [log] && logs[0][1..2] == [b];
    WalkStep(clock, logs, None, 1, 2);
    assert Walk(clock, logs, None, 1) ==
           [Page([b], true, Some(b.timestamp))] + Walk(clock, [log], Some(b.timestamp), 1);
    SharedCursorEnds(clock, a, b);
    OnlyPage(clock, [log], Some(b.timestamp), 1, 0);
    ChronologicalStep(Page([b], true, Some(b.timestamp)), Walk(clock, [log], Some(b.timestamp), 1));
    assert log[..0] == [] && [] + [b] == [b];
  }

  lemma SharedCursorEnds(clock: Clock, a: StoredEvent, b: StoredEvent)
    requires clock(a.timestamp).Some? && a.timestamp == b.timestamp && b.timestamp != ""
    ensures EndIndex(clock, [a, b], Some(b.timestamp)) == 0
  {
    assert !Older(clock, a.timestamp, b.timestamp) && !Older(clock, b.timestamp, b.timestamp);
    assert forall j :: 0 <= j < 2 ==> [a, b][j].timestamp == b.timestamp;
  }

  // ---- a log in any order ----

  /** Each fetch finds its cursor where the page before it began. */
  ghost predicate CleanCursors(clock: Clock, logs: seq<seq<StoredEvent>>, end: nat, cap: nat)
    requires cap >= 1 && logs != [] && end <= |logs[0]|
  {
    end <= cap ||
    (|logs| >= 2 && end - cap <= |logs[1]| &&
     EndIndex(clock, logs[1], Some(logs[0][end - cap].timestamp)) == end - cap &&
     CleanCursors(clock, logs[1..], end - cap, cap))
  }

  ghost predicate OnlyAppending(logs: seq<seq<StoredEvent>>) {
    forall k :: 0 <= k < |logs| - 1 ==> logs[k] <= logs[k + 1]
  }

  ghost predicate AllDistinct(log: seq<StoredEvent>) {
    forall i, j :: 0 <= i < j < |log| ==> log[i] != log[j]
  }

  lemma RestOnlyAppends(logs: seq<seq<StoredEvent>>)
    requires OnlyAppending(logs) && |logs| >= 2
    ensures OnlyAppending(logs[1..]) && logs[0] <= logs[1]
  {
    assert forall k :: 0 <= k < |logs| - 1 ==> logs[1..][k] == logs[k + 1];
  }

  /** What the older pages end with: the event before their cursor. */
  lemma OlderPagesEnd(clock: Clock, logs: seq<seq<StoredEvent>>, cursor: Option<string>, limit: int, next: nat)
    requires logs != [] && next == EndIndex(clock, logs[0], cursor)
    ensures var older := Chronological(Walk(clock, logs, cursor, limit));
            (next == 0 ==> older == []) && (next > 0 ==> older != [] && older[|older| - 1] == logs[0][next - 1])
  {
    var page, pages := PageOf(clock, logs[0], cursor, limit), Walk(clock, logs, cursor, limit);
    assert pages[0] == page;
    assert Chronological(pages) == Chronological(pages[1..]) + page.events;
    if next == 0 { assert pages[1..] == [] && [] + page.events == []; }
  }

  lemma MisplacedCursorLosesEvents(
    clock: Clock, logs: seq<seq<StoredEvent>>, cursor: Option<string>, limit: int, log: seq<StoredEvent>, s: nat)
    requires logs != [] && 0 < s <= |log| && log <= logs[0] && AllDistinct(logs[0])
    requires EndIndex(clock, logs[0], cursor) != s
    ensures Chronological(Walk(clock, logs, cursor, limit)) != log[..s]
  {
    var next := EndIndex(clock, logs[0], cursor);
    OlderPagesEnd(clock, logs, cursor, limit, next);
    assert log[..s][s - 1] == logs[0][s - 1];
    assert next > 0 ==> logs[0][next - 1] != logs[0][s - 1];
  }

  lemma SamePrefix(older: seq<StoredEvent>, log: seq<StoredEvent>, s: nat, end: nat)
    requires s <= end <= |log|
    ensures older + log[s..end] == log[..end] <==> older == log[..s]
  {
    assert log[..end] == log[..s] + log[s..end];
    if older + log[s..end] == log[..end] {
      assert |older| == s && (older + log[s..end])[..s] == older && log[..end][..s] == log[..s];
    }
  }

  /** From completeness of the older pages to completeness of the whole. */
  lemma AnyOrderStep(
    clock: Clock, logs: seq<seq<StoredEvent>>, cursor: Option<string>, limit: int, end: nat, s: nat,
    older: seq<StoredEvent>)
    requires |logs| >= 2 && end == EndIndex(clock, logs[0], cursor) && s + Cap(limit) == end && s > 0
    requires older == Chronological(Walk(clock, logs[1..], Some(logs[0][s].timestamp), limit))
    ensures Chronological(Walk(clock, logs, cursor, limit)) == logs[0][..end] <==> older == logs[0][..s]
  {
    var oldest := Some(logs[0][s].timestamp);
    WalkStep(clock, logs, cursor, limit, end);
    ChronologicalStep(Page(logs[0][s..end], true, oldest), Walk(clock, logs[1..], oldest, limit));
    SamePrefix(older, logs[0], s, end);
  }

  lemma PrefixesAgree(log: seq<StoredEvent>, more: seq<StoredEvent>, s: nat)
    requires log <= more && s <= |log|
    ensures log[..s] == more[..s]
  {
  }

  lemma AnyOrderMore(
    clock: Clock, logs: seq<seq<StoredEvent>>, cursor: Option<string>, limit: int, end: nat, s: nat,
    older: seq<StoredEvent>)
    requires |logs| >= 2 && logs[0] <= logs[1]
    requires end == EndIndex(clock, logs[0], cursor) && s + Cap(limit) == end && s > 0
    requires older == Chronological(Walk(clock, logs[1..], Some(logs[0][s].timestamp), limit))
    requires if EndIndex(clock, logs[1], Some(logs[0][s].timestamp)) == s
             then older == logs[1][..s] <==> CleanCursors(clock, logs[1..], s, Cap(limit))
             else older != logs[0][..s]
    ensures Chronological(Walk(clock, logs, cursor, limit)) == logs[0][..end] <==>
            CleanCursors(clock, logs, end, Cap(limit))
  {
    PrefixesAgree(logs[0], logs[1], s);
    AnyOrderStep(clock, logs, cursor, limit, end, s, older);
  }

  lemma {:induction false} AnyOrderFrom(
    clock: Clock, logs: seq<seq<StoredEvent>>, cursor: Option<string>, limit: int, end: nat)
    requires logs != [] && OnlyAppending(logs) && forall k :: 0 <= k < |logs| ==> AllDistinct(logs[k])
    requires end == EndIndex(clock, logs[0], cursor) && |logs| >= PageCount(end, Cap(limit))
    ensures Chronological(Walk(clock, logs, cursor, limit)) == logs[0][..end] <==>
            CleanCursors(clock, logs, end, Cap(limit))
    decreases end
  {
    if end <= Cap(limit) {
      OnlyPage(clock, logs, cursor, limit, end);
    } else {
      var s := end - Cap(limit);
      var rest, oldest := logs[1..], Some(logs[0][s].timestamp);
      RestOnlyAppends(logs);
      if EndIndex(clock, rest[0], oldest) == s {
        AnyOrderFrom(clock, rest, oldest, limit, s);
      } else {
        MisplacedCursorLosesEvents(clock, rest, oldest, limit, logs[0], s);
      }
      AnyOrderMore(clock, logs, cursor, limit, end, s, Chronological(Walk(clock, rest, oldest, limit)));
    }
  }

  /** Whatever the order of the timestamps, as long as no event is stored twice, paging back gives the whole log of the
      first fetch if and only if every later fetch finds its cursor where the page before it began. */
  lemma PagingAnyOrderExactly(clock: Clock, logs: seq<seq<StoredEvent>>, limit: int)
    requires logs != [] && OnlyAppending(logs) && forall k :: 0 <= k < |logs| ==> AllDistinct(logs[k])
    requires |logs| >= PageCount(|logs[0]|, Cap(limit))
    ensures Chronological(Walk(clock, logs, None, limit)) == logs[0] <==>
            CleanCursors(clock, logs, |logs[0]|, Cap(limit))
  {
    AnyOrderFrom(clock, logs, None, limit, |logs[0]|);
    assert logs[0][..|logs[0]|] == logs[0];
  }

  // ---- strictly increasing timestamps ----

  lemma {:induction false} StrictIsClean(clock: Clock, log: seq<StoredEvent>, end: nat, cap: nat)
    requires cap >= 1 && end <= |log| && StrictlyInOrder(clock, log)
    ensures CleanBoundaries(clock, log, end, cap)
  {
    if end > cap { StrictIsClean(clock, log, end - cap, cap); }
  }

  /** With strictly increasing timestamps the reversed pages are the whole log, in the least number of pages. */
  lemma PagesPartitionTheLog(clock: Clock, logs: seq<seq<StoredEvent>>, limit: int)
    requires logs != [] && Appending(clock, logs) && StrictlyInOrder(clock, logs[0])
    requires |logs| >= PageCount(|logs[0]|, Cap(limit))
    ensures var pages := Walk(clock, logs, None, limit);
            && Chronological(pages) == logs[0]
            && |pages| == PageCount(|logs[0]|, Cap(limit))
            && !pages[|pages| - 1].hasMore
  {
    StrictIsClean(clock, logs[0], |logs[0]|, Cap(limit));
    PagingIsCompleteExactly(clock, logs, limit);
    WalkFrom(clock, logs, None, limit, |logs[0]|);
  }

  ghost predicate AllOlder(clock: Clock, events: seq<StoredEvent>, timestamp: string) {
    forall i :: 0 <= i < |events| ==> Older(clock, events[i].timestamp, timestamp)
  }

  lemma NextPageIsOlder(clock: Clock, log: seq<StoredEvent>, s: nat, limit: int)
    requires InOrder(clock, log) && s < |log|
    ensures AllOlder(clock, PageOf(clock, log, Some(log[s].timestamp), limit).events, log[s].timestamp)
  {
    CursorAt(clock, log, s);
    var next := CursorEnd(clock, log, log[s].timestamp);
    var start := if next <= Cap(limit) then 0 else next - Cap(limit);
    forall i | start <= i < next
      ensures Older(clock, log[i].timestamp, log[s].timestamp)
    {
      assert i < next - 1 ==> NotAfter(clock, log[i], log[next - 1]);
    }
  }

  /** In timestamp order the pages are disjoint: each holds only events strictly older than all of the page before
      it. */
  lemma {:induction false} PagesAreDisjoint(
    clock: Clock, logs: seq<seq<StoredEvent>>, cursor: Option<string>, limit: int, k: nat)
    requires Appending(clock, logs) && k + 1 < |Walk(clock, logs, cursor, limit)|
    ensures var pages := Walk(clock, logs, cursor, limit);
            pages[k].events != [] && AllOlder(clock, pages[k + 1].events, pages[k].events[0].timestamp)
    decreases k
  {
    var end := EndIndex(clock, logs[0], cursor);
    assert end > Cap(limit);
    WalkStep(clock, logs, cursor, limit, end);
    RestAppends(clock, logs);
    var rest, s := logs[1..], end - Cap(limit);
    assert rest[0][s] == logs[0][s];
    if k > 0 {
      PagesAreDisjoint(clock, rest, Some(logs[0][s].timestamp), limit, k - 1);
    } else {
      NextPageIsOlder(clock, rest[0], s, limit);
    }
  }
}
