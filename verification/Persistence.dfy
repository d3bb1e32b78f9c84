/** The buffered JSONL store of session events (src/server/copilot-aggregator/event-persistence.ts) and the capped
    in-memory log that is hydrated from it (src/server/copilot-aggregator/aggregator.ts).  A flush is one step. */
module Persistence {
  import opened Optional
  import opened Sequences
  import opened EventLog
  import Text

  /** How events are written as lines and read back. */
  datatype Codec = Codec(encode: StoredEvent -> string, decode: string -> Option<StoredEvent>)

  /** JSON text of an event: one line, no surrounding white space, read back unchanged. */
  ghost predicate GoodCodec(c: Codec) {
    forall e :: GoodLine(c, e)
  }

  ghost predicate GoodLine(c: Codec, e: StoredEvent) {
    var line := c.encode(e);
    line != "" && '\n' !in line && Text.Trim(line) == line && c.decode(line) == Some(e)
  }

  predicate IsSafeChar(ch: char) {
    ('a' <= ch <= 'z') || ('A' <= ch <= 'Z') || ('0' <= ch <= '9') || ch == '_' || ch == '-'
  }

  function SafeName(sessionId: string): string {
    if sessionId == "" then "" else [if IsSafeChar(sessionId[0]) then sessionId[0] else '_'] + SafeName(sessionId[1..])
  }

  function FileName(sessionId: string): string {
    SafeName(sessionId) + ".jsonl"
  }

  /** The files of the data directory and the lines waiting to be appended, per session. */
  datatype Disk = Disk(files: map<string, string>, pending: map<string, seq<string>>)

  datatype Op = Append(sid: string, e: StoredEvent) | Flush(sid: string) | Cleanup(sid: string)

  function JoinLines(lines: seq<string>): string {
    if lines == [] then "" else lines[0] + JoinLines(lines[1..])
  }

  function PendingOf(d: Disk, sid: string): seq<string> {
    if sid in d.pending then d.pending[sid] else []
  }

  function FileOf(d: Disk, name: string): string {
    if name in d.files then d.files[name] else ""
  }

  function DoFlush(d: Disk, sid: string): Disk {
    if PendingOf(d, sid) == [] then d
    else Disk(d.files[FileName(sid) := FileOf(d, FileName(sid)) + JoinLines(PendingOf(d, sid))], d.pending - {sid})
  }

  function DoAppend(c: Codec, d: Disk, sid: string, e: StoredEvent, threshold: int): Disk {
    var lines := PendingOf(d, sid) + [c.encode(e) + "\n"];
    var buffered := d.(pending := d.pending[sid := lines]);
    if |lines| >= threshold then DoFlush(buffered, sid) else buffered
  }

  function DoCleanup(d: Disk, sid: string): Disk {
    Disk(d.files - {FileName(sid)}, d.pending - {sid})
  }

  function Step(c: Codec, d: Disk, op: Op, threshold: int): Disk {
    match op
    case Append(sid, e) => DoAppend(c, d, sid, e, threshold)
    case Flush(sid) => DoFlush(d, sid)
    case Cleanup(sid) => DoCleanup(d, sid)
  }

  function Run(c: Codec, d: Disk, ops: seq<Op>, threshold: int): Disk {
    if ops == [] then d else Step(c, Run(c, d, ops[..|ops| - 1], threshold), ops[|ops| - 1], threshold)
  }

  // ---- reading a file back ----

  function LineLength(raw: string): (n: nat)
    ensures n <= |raw|
  {
    if raw == "" || raw[0] == '\n' then 0 else 1 + LineLength(raw[1..])
  }

  lemma {:induction false} LineLengthFacts(raw: string)
    ensures var n := LineLength(raw);
            (forall j :: 0 <= j < n ==> raw[j] != '\n') && (n < |raw| ==> raw[n] == '\n')
  {
    if raw != "" && raw[0] != '\n' {
      LineLengthFacts(raw[1..]);
      assert forall j :: 1 <= j < |raw| ==> raw[j] == raw[1..][j - 1];
    }
  }

  /** `raw.split("\n")` */
  function Split(raw: string): seq<string>
    decreases |raw|
  {
    var n := LineLength(raw);
    if n == |raw| then [raw] else [raw[..n]] + Split(raw[n + 1..])
  }

  function ParseLine(c: Codec, line: string): seq<StoredEvent> {
    var trimmed := Text.Trim(line);
    if trimmed == "" then []
    else if c.decode(trimmed).Some? then [c.decode(trimmed).value] else []
  }

  function ParseLines(c: Codec, lines: seq<string>): seq<StoredEvent> {
    if lines == [] then [] else ParseLine(c, lines[0]) + ParseLines(c, lines[1..])
  }

  function Parse(c: Codec, raw: string): seq<StoredEvent> {
    ParseLines(c, Split(raw))
  }

  /** Empty, or made of complete lines. */
  predicate Terminated(raw: string) {
    raw == "" || raw[|raw| - 1] == '\n'
  }

  lemma ParseLinesCons(c: Codec, line: string, lines: seq<string>)
    ensures ParseLines(c, [line] + lines) == ParseLine(c, line) + ParseLines(c, lines)
  {
    assert ([line] + lines)[1..] == lines;
  }

  lemma ParseWholeLine(c: Codec, raw: string)
    requires LineLength(raw) == |raw|
    ensures Parse(c, raw) == ParseLine(c, raw)
  {
    ParseLinesCons(c, raw, []);
    assert [raw] + [] == [raw];
  }

  lemma ParseSplit(c: Codec, raw: string, first: string, rest: string)
    requires Split(raw) == [first] + Split(rest)
    ensures Parse(c, raw) == ParseLine(c, first) + Parse(c, rest)
  {
    ParseLinesCons(c, first, Split(rest));
  }

  lemma SplitOnce(raw: string, n: nat)
    requires n == LineLength(raw) && n < |raw|
    ensures Split(raw) == [raw[..n]] + Split(raw[n + 1..])
  {
  }

  lemma ParseFirstLine(c: Codec, raw: string, n: nat)
    requires n == LineLength(raw) && n < |raw|
    ensures Parse(c, raw) == ParseLine(c, raw[..n]) + Parse(c, raw[n + 1..])
  {
    SplitOnce(raw, n);
    ParseSplit(c, raw, raw[..n], raw[n + 1..]);
  }

  lemma LineLengthIs(line: string, rest: string)
    requires '\n' !in line && (rest == "" || rest[0] == '\n')
    ensures LineLength(line + rest) == |line|
  {
    var s := line + rest;
    LineLengthFacts(s);
    assert forall j :: 0 <= j < |line| ==> s[j] == line[j];
    assert rest != "" ==> s[|line|] == '\n';
  }

  /** What follows the first newline does not affect the first line. */
  lemma FirstLineStable(raw: string, tail: string)
    requires LineLength(raw) < |raw|
    ensures var n := LineLength(raw);
            && LineLength(raw + tail) == n && (raw + tail)[..n] == raw[..n]
            && (raw + tail)[n + 1..] == raw[n + 1..] + tail
  {
    var n := LineLength(raw);
    LineLengthFacts(raw);
    SplitAt(raw, n);
    ConcatAssociates(raw[..n], raw[n..], tail);
    LineLengthIs(raw[..n], raw[n..] + tail);
    SuffixConcat(raw, tail, n + 1);
  }

  lemma ParseOneLine(c: Codec, e: StoredEvent)
    requires GoodCodec(c)
    ensures Parse(c, c.encode(e) + "\n") == [e] && Parse(c, "") == []
  {
    var line := c.encode(e);
    assert GoodLine(c, e);
    LineLengthIs(line, "\n");
    ParseFirstLine(c, line + "\n", |line|);
    ParseWholeLine(c, "");
    assert (line + "\n")[|line| + 1..] == "" && (line + "\n")[..|line|] == line;
    assert ""[..0] == "" && [] + ParseLine(c, "") == [];
  }

  /** Appending one encoded line to complete lines appends its event. */
  lemma {:induction false} ParseAppend(c: Codec, raw: string, e: StoredEvent)
    requires GoodCodec(c) && Terminated(raw)
    ensures Parse(c, raw + (c.encode(e) + "\n")) == Parse(c, raw) + [e]
    decreases |raw|
  {
    var line := c.encode(e) + "\n";
    if raw == "" {
      ParseOneLine(c, e);
      assert "" + line == line && [] + [e] == [e];
    } else {
      var n := LineLength(raw);
      LineLengthFacts(raw);
      FirstLineStable(raw, line);
      var first, rest := ParseLine(c, raw[..n]), Parse(c, raw[n + 1..]);
      ParseAppend(c, raw[n + 1..], e);
      assert Parse(c, raw) == first + rest by { ParseFirstLine(c, raw, n); }
      assert Parse(c, raw + line) == first + (rest + [e]) by { ParseFirstLine(c, raw + line, n); }
      ConcatAssociates(first, rest, [e]);
    }
  }

  // ---- what a session's file and buffer hold together ----

  /** The events of a session's file followed by its buffered ones. */
  function Contents(c: Codec, d: Disk, sid: string): seq<StoredEvent> {
    Parse(c, FileOf(d, FileName(sid)) + JoinLines(PendingOf(d, sid)))
  }

  /** What `loadEvents` returns: the file after a flush. */
  function Loaded(c: Codec, d: Disk, sid: string): seq<StoredEvent> {
    Parse(c, FileOf(DoFlush(d, sid), FileName(sid)))
  }

  ghost predicate IsLine(s: string) {
    s != "" && s[|s| - 1] == '\n'
  }

  ghost predicate AllLines(lines: seq<string>) {
    forall i :: 0 <= i < |lines| ==> IsLine(lines[i])
  }

  /** Files hold complete lines, buffers only complete lines. */
  ghost predicate WellFormed(d: Disk) {
    && (forall name :: name in d.files ==> Terminated(d.files[name]))
    && (forall sid :: sid in d.pending ==> AllLines(d.pending[sid]))
  }

  lemma {:induction false} JoinAppend(lines: seq<string>, line: string)
    ensures JoinLines(lines + [line]) == JoinLines(lines) + line
  {
    if lines == [] {
      assert [] + [line] == [line];
      assert JoinLines([line]) == line + "" && "" + line == line;
    } else {
      assert (lines + [line])[1..] == lines[1..] + [line];
      JoinAppend(lines[1..], line);
      ConcatAssociates(lines[0], JoinLines(lines[1..]), line);
    }
  }

  lemma {:induction false} JoinTerminated(raw: string, lines: seq<string>)
    requires Terminated(raw) && AllLines(lines)
    ensures Terminated(raw + JoinLines(lines))
    decreases |lines|
  {
    if lines == [] {
      assert raw + "" == raw;
    } else {
      assert IsLine(lines[0]);
      JoinTerminated(raw + lines[0], lines[1..]);
      ConcatAssociates(raw, lines[0], JoinLines(lines[1..]));
    }
  }

  lemma FlushLoadsContents(c: Codec, d: Disk, sid: string)
    ensures Loaded(c, d, sid) == Contents(c, d, sid)
  {
    assert FileOf(d, FileName(sid)) + "" == FileOf(d, FileName(sid));
  }

  lemma FlushKeepsWellFormed(d: Disk, sid: string)
    requires WellFormed(d)
    ensures WellFormed(DoFlush(d, sid))
  {
    if PendingOf(d, sid) != [] { JoinTerminated(FileOf(d, FileName(sid)), PendingOf(d, sid)); }
  }

  lemma StepKeepsWellFormed(c: Codec, d: Disk, op: Op, threshold: int)
    requires GoodCodec(c) && WellFormed(d)
    ensures WellFormed(Step(c, d, op, threshold))
  {
    match op
    case Append(sid, e) =>
      var lines := PendingOf(d, sid) + [c.encode(e) + "\n"];
      assert AllLines(lines);
      FlushKeepsWellFormed(d.(pending := d.pending[sid := lines]), sid);
    case Flush(sid) => FlushKeepsWellFormed(d, sid);
    case Cleanup(sid) =>
  }

  lemma {:induction false} RunKeepsWellFormed(c: Codec, d: Disk, ops: seq<Op>, threshold: int)
    requires GoodCodec(c) && WellFormed(d)
    ensures WellFormed(Run(c, d, ops, threshold))
  {
    if ops != [] {
      RunKeepsWellFormed(c, d, ops[..|ops| - 1], threshold);
      StepKeepsWellFormed(c, Run(c, d, ops[..|ops| - 1], threshold), ops[|ops| - 1], threshold);
    }
  }

  lemma FlushKeepsContents(c: Codec, d: Disk, sid: string, t: string)
    requires t == sid || FileName(t) != FileName(sid)
    ensures Contents(c, DoFlush(d, sid), t) == Contents(c, d, t)
  {
    if t == sid { FlushLoadsContents(c, d, sid); FlushLoadsContents(c, DoFlush(d, sid), sid); }
  }

  lemma BufferedContents(c: Codec, d: Disk, sid: string, e: StoredEvent)
    requires GoodCodec(c) && WellFormed(d)
    ensures var lines := PendingOf(d, sid) + [c.encode(e) + "\n"];
            Contents(c, d.(pending := d.pending[sid := lines]), sid) == Contents(c, d, sid) + [e]
  {
    var raw, waiting := FileOf(d, FileName(sid)), PendingOf(d, sid);
    JoinAppend(waiting, c.encode(e) + "\n");
    JoinTerminated(raw, waiting);
    ConcatAssociates(raw, JoinLines(waiting), c.encode(e) + "\n");
    ParseAppend(c, raw + JoinLines(waiting), e);
  }

  /** How one operation changes what a session's file and buffer hold, as long as no other session shares the file. */
  lemma StepContents(c: Codec, d: Disk, op: Op, threshold: int, sid: string)
    requires GoodCodec(c) && WellFormed(d)
    requires op.sid == sid || FileName(op.sid) != FileName(sid)
    ensures Contents(c, Step(c, d, op, threshold), sid) ==
            if op.sid != sid || op.Flush? then Contents(c, d, sid)
            else if op.Append? then Contents(c, d, sid) + [op.e]
            else []
  {
    match op
    case Append(s, e) => AppendContents(c, d, s, e, threshold, sid);
    case Flush(s) => FlushKeepsContents(c, d, s, sid);
    case Cleanup(s) => CleanupContents(c, d, s, sid);
  }

  lemma AppendContents(c: Codec, d: Disk, s: string, e: StoredEvent, threshold: int, sid: string)
    requires GoodCodec(c) && WellFormed(d) && (s == sid || FileName(s) != FileName(sid))
    ensures Contents(c, DoAppend(c, d, s, e, threshold), sid) ==
            if s == sid then Contents(c, d, sid) + [e] else Contents(c, d, sid)
  {
    var buffered := d.(pending := d.pending[s := PendingOf(d, s) + [c.encode(e) + "\n"]]);
    if s == sid { BufferedContents(c, d, s, e); }
    FlushKeepsContents(c, buffered, s, sid);
  }

  lemma CleanupContents(c: Codec, d: Disk, s: string, sid: string)
    requires s == sid || FileName(s) != FileName(sid)
    ensures Contents(c, DoCleanup(d, s), sid) == if s == sid then [] else Contents(c, d, sid)
  {
    if s == sid {
      assert FileOf(DoCleanup(d, s), FileName(s)) + JoinLines([]) == "";
      ParseWholeLine(c, "");
    }
  }

  /** The events of a session appended since its last cleanup, on top of what was there at the start. */
  function Appended(ops: seq<Op>, sid: string, initial: seq<StoredEvent>): seq<StoredEvent> {
    if ops == [] then initial
    else
      var last, before := ops[|ops| - 1], Appended(ops[..|ops| - 1], sid, initial);
      if last.sid != sid || last.Flush? then before
      else if last.Append? then before + [last.e]
      else []
  }

  /** No other session of the run writes to this session's file. */
  ghost predicate OwnsFile(ops: seq<Op>, sid: string) {
    forall i :: 0 <= i < |ops| ==> ops[i].sid == sid || FileName(ops[i].sid) != FileName(sid)
  }

  lemma {:induction false} ContentsFollowAppends(c: Codec, d: Disk, ops: seq<Op>, threshold: int, sid: string)
    requires GoodCodec(c) && WellFormed(d) && OwnsFile(ops, sid)
    ensures Contents(c, Run(c, d, ops, threshold), sid) == Appended(ops, sid, Contents(c, d, sid))
  {
    if ops != [] {
      var before := ops[..|ops| - 1];
      assert forall i :: 0 <= i < |before| ==> before[i] == ops[i];
      ContentsFollowAppends(c, d, before, threshold, sid);
      RunKeepsWellFormed(c, d, before, threshold);
      StepContents(c, Run(c, d, before, threshold), ops[|ops| - 1], threshold, sid);
    }
  }

  /** For any interleaving of appends and flushes, by threshold, timer or load, of sessions with other file names,
      loading a session returns exactly its own events in order. */
  lemma LoadReturnsAppended(c: Codec, d: Disk, ops: seq<Op>, threshold: int, sid: string)
    requires GoodCodec(c) && WellFormed(d) && OwnsFile(ops, sid)
    ensures Loaded(c, Run(c, d, ops, threshold), sid) == Appended(ops, sid, Contents(c, d, sid))
  {
    ContentsFollowAppends(c, d, ops, threshold, sid);
    FlushLoadsContents(c, Run(c, d, ops, threshold), sid);
  }

  const EMPTY_DISK := Disk(map[], map[])

  ghost predicate UsesOnly(ops: seq<Op>, s: string, t: string) {
    forall i :: 0 <= i < |ops| ==> ops[i].sid == s || ops[i].sid == t
  }

  /** Every run of two sessions on an empty store loads the first one's own events. */
  ghost predicate Isolated(c: Codec, threshold: int, s: string, t: string) {
    forall ops :: UsesOnly(ops, s, t) ==> Loaded(c, Run(c, EMPTY_DISK, ops, threshold), s) == Appended(ops, s, [])
  }

  /** Two sessions are kept apart exactly when their sanitised file names differ. */
  lemma IsolatedIffNamesDiffer(c: Codec, threshold: int, s: string, t: string, e: StoredEvent)
    requires GoodCodec(c) && s != t
    ensures Isolated(c, threshold, s, t) <==> FileName(s) != FileName(t)
  {
    EmptyContents(c, s);
    if FileName(s) != FileName(t) {
      forall ops | UsesOnly(ops, s, t)
        ensures Loaded(c, Run(c, EMPTY_DISK, ops, threshold), s) == Appended(ops, s, [])
      {
        LoadReturnsAppended(c, EMPTY_DISK, ops, threshold, s);
      }
    } else {
      var ops := [Append(t, e), Flush(t)];
      CollisionLeaks(c, threshold, s, t, e);
      assert UsesOnly(ops, s, t);
    }
  }

  lemma EmptyContents(c: Codec, s: string)
    ensures Contents(c, EMPTY_DISK, s) == [] && WellFormed(EMPTY_DISK)
  {
    ParseWholeLine(c, "");
    assert "" + JoinLines([]) == "";
  }

  /** With equal file names, what one session wrote is loaded for the other. */
  lemma CollisionLeaks(c: Codec, threshold: int, s: string, t: string, e: StoredEvent)
    requires GoodCodec(c) && s != t && FileName(s) == FileName(t)
    ensures var ops := [Append(t, e), Flush(t)];
            Loaded(c, Run(c, EMPTY_DISK, ops, threshold), s) == [e] && Appended(ops, s, []) == []
  {
    var first, ops := [Append(t, e)], [Append(t, e), Flush(t)];
    assert ops[..1] == first && first[..0] == [];
    assert Appended(first, s, []) == [];
    assert first[|first| - 1] == Append(t, e) && Run(c, EMPTY_DISK, first[..|first| - 1], threshold) == EMPTY_DISK;
    assert Run(c, EMPTY_DISK, first, threshold) == Step(c, EMPTY_DISK, Append(t, e), threshold);
    var line := c.encode(e) + "\n";
    assert [] + [line] == [line] && JoinLines([line]) == line + "" == line && "" + line == line;
    var done := Disk(map[FileName(t) := line], map[]);
    assert Run(c, EMPTY_DISK, ops, threshold) == done by { CollisionDisk(c, threshold, t, e); }
    ParseOneLine(c, e);
  }

  /** One append and a flush leave one line in the file and nothing buffered, whatever the threshold. */
  lemma CollisionDisk(c: Codec, threshold: int, t: string, e: StoredEvent)
    ensures DoFlush(DoAppend(c, EMPTY_DISK, t, e, threshold), t) == Disk(map[FileName(t) := c.encode(e) + "\n"], map[])
  {
    var line := c.encode(e) + "\n";
    assert [] + [line] == [line] && JoinLines([line]) == line + "" == line && "" + line == line;
    var buffered := Disk(map[], map[t := [line]]);
    assert EMPTY_DISK.pending[t := [line]] == buffered.pending;
    assert DoFlush(buffered, t).pending == map[];
  }

  lemma SanitisedNamesCanCollide()
    ensures "a/b" != "a_b" && FileName("a/b") == FileName("a_b")
  {
    assert SafeName("b") == "b" && SafeName("/b") == "_b" && SafeName("_b") == "_b";
  }

  // ---- the store object ----

  class EventPersistence {
    var files: map<string, string>
    var pendingBuffers: map<string, seq<string>>
    const codec: Codec
    const flushThreshold: int

    ghost function View(): Disk
      reads this
    {
      Disk(files, pendingBuffers)
    }

    constructor (codec: Codec, flushThreshold: int, files: map<string, string>)
      ensures View() == Disk(files, map[]) && this.codec == codec && this.flushThreshold == flushThreshold
    {
      this.codec, this.flushThreshold := codec, flushThreshold;
      this.files, pendingBuffers := files, map[];
    }

    method AppendEvent(sessionId: string, event: StoredEvent)
      modifies this
      ensures View() == DoAppend(codec, old(View()), sessionId, event, flushThreshold)
    {
      var line := codec.encode(event) + "\n";
      var lines := if sessionId in pendingBuffers then pendingBuffers[sessionId] else [];
      lines := lines + [line];
      pendingBuffers := pendingBuffers[sessionId := lines];
      if |lines| >= flushThreshold {
        FlushSession(sessionId);
      }
    }

    method FlushSession(sessionId: string)
      modifies this
      ensures View() == DoFlush(old(View()), sessionId)
    {
      if sessionId !in pendingBuffers || |pendingBuffers[sessionId]| == 0 { return; }
      var lines := pendingBuffers[sessionId];
      pendingBuffers := pendingBuffers - {sessionId};
      var name := FileName(sessionId);
      files := files[name := (if name in files then files[name] else "") + JoinLines(lines)];
    }

    /** Flushes, reads the file and keeps every line that decodes. */
    method LoadEvents(sessionId: string) returns (events: seq<StoredEvent>)
      modifies this
      ensures View() == DoFlush(old(View()), sessionId)
      ensures events == Loaded(codec, old(View()), sessionId)
    {
      FlushSession(sessionId);
      var name := FileName(sessionId);
      if name !in files {
        ParseWholeLine(codec, "");
        return [];
      }
      events := DecodeLines(codec, Split(files[name]));
    }

    static method DecodeLines(codec: Codec, lines: seq<string>) returns (events: seq<StoredEvent>)
      ensures events == ParseLines(codec, lines)
    {
      events := [];
      for i := 0 to |lines|
        invariant events + ParseLines(codec, lines[i..]) == ParseLines(codec, lines)
      {
        assert lines[i..][1..] == lines[i + 1..];
        ghost var rest := ParseLines(codec, lines[i + 1..]);
        var trimmed := Text.Trim(lines[i]);
        if trimmed != "" && codec.decode(trimmed).Some? {
          ConcatAssociates(events, [codec.decode(trimmed).value], rest);
          events := events + [codec.decode(trimmed).value];
        } else {
          assert [] + rest == rest;
        }
      }
    }

    method CleanupSession(sessionId: string)
      modifies this
      ensures View() == DoCleanup(old(View()), sessionId)
    {
      pendingBuffers := pendingBuffers - {sessionId};
      files := files - {FileName(sessionId)};
    }
  }
}
