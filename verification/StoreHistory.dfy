/** The event store told by the calls made on it: which file a session writes to, which events still wait in its buffer,
    and what a file reads as whatever is in it. */
module StoreHistory {
  import opened Optional
  import opened Sequences
  import opened EventLog
  import opened Persistence
  import Text

  // ---- file names ----

  /** The characters kept in a file name: letters, digits, `_` and `-`. */
  predicate IsKept(ch: char) {
    'a' <= ch <= 'z' || 'A' <= ch <= 'Z' || '0' <= ch <= '9' || ch == '_' || ch == '-'
  }

  /** A file name is the session id with every other character replaced by `_`, and an extension. */
  lemma FileNameIs(sessionId: string)
    ensures |FileName(sessionId)| == |sessionId| + 6 && FileName(sessionId)[|sessionId|..] == ".jsonl"
    ensures forall i :: 0 <= i < |sessionId| ==>
              FileName(sessionId)[i] == if IsKept(sessionId[i]) then sessionId[i] else '_'
  {
    SafeNameIs(sessionId);
    ConcatSuffix(SafeName(sessionId), ".jsonl");
  }

  lemma {:induction false} SafeNameIs(id: string)
    ensures |SafeName(id)| == |id|
    ensures forall i :: 0 <= i < |id| ==> SafeName(id)[i] == if IsKept(id[i]) then id[i] else '_'
  {
    if id != "" {
      SafeNameIs(id[1..]);
      assert forall i :: 1 <= i < |id| ==> id[i] == id[1..][i - 1];
    }
  }

  /** Two ids differ only where a character that is not kept stands against another such or a `_`. */
  ghost predicate Collide(s: string, t: string) {
    |s| == |t| && forall i :: 0 <= i < |s| ==> s[i] == t[i] || (IsLost(s[i]) && IsLost(t[i]))
  }

  predicate IsLost(ch: char) {
    ch == '_' || !IsKept(ch)
  }

  lemma SameFileExactly(s: string, t: string)
    ensures FileName(s) == FileName(t) <==> Collide(s, t)
  {
    FileNameIs(s);
    FileNameIs(t);
    if FileName(s) == FileName(t) {
      forall i | 0 <= i < |s|
        ensures s[i] == t[i] || (IsLost(s[i]) && IsLost(t[i]))
      {
        assert FileName(s)[i] == FileName(t)[i];
      }
    }
    if Collide(s, t) {
      assert forall i :: 0 <= i < |s| ==> FileName(s)[i] == FileName(t)[i];
      assert FileName(s) == FileName(s)[..|s|] + ".jsonl" && FileName(t) == FileName(t)[..|s|] + ".jsonl";
      assert FileName(s)[..|s|] == FileName(t)[..|s|];
    }
  }

  /** Every run of two sessions on an empty store loads the first one's own events, exactly when their ids do not
      collide. */
  lemma IsolatedExactly(c: Codec, threshold: int, s: string, t: string, e: StoredEvent)
    requires GoodCodec(c) && s != t
    ensures Isolated(c, threshold, s, t) <==> !Collide(s, t)
  {
    IsolatedIffNamesDiffer(c, threshold, s, t, e);
    SameFileExactly(s, t);
  }

  // ---- the buffer ----

  /** The events of a session that wait: appended since its last flush or cleanup, and since their number last reached
      the threshold. */
  function Waiting(ops: seq<Op>, sid: string, threshold: int): seq<StoredEvent> {
    if ops == [] then []
    else
      var last, before := ops[|ops| - 1], Waiting(ops[..|ops| - 1], sid, threshold);
      match last
      case Append(s, e) => if s != sid then before else if |before| + 1 >= threshold then [] else before + [e]
      case Flush(s) => if s == sid then [] else before
      case Cleanup(s) => if s == sid then [] else before
  }

  /** One line for each event. */
  ghost predicate AreLinesOf(c: Codec, lines: seq<string>, events: seq<StoredEvent>) {
    |lines| == |events| && forall i :: 0 <= i < |lines| ==> lines[i] == c.encode(events[i]) + "\n"
  }

  lemma BufferStep(c: Codec, d: Disk, op: Op, threshold: int, sid: string, waiting: seq<StoredEvent>)
    requires AreLinesOf(c, PendingOf(d, sid), waiting)
    ensures AreLinesOf(c, PendingOf(Step(c, d, op, threshold), sid),
              if op.sid != sid then waiting
              else if op.Append? && |waiting| + 1 < threshold then waiting + [op.e]
              else [])
  {
  }

  /** For any operations of any sessions, what waits in a session's buffer is one line for each event that waits. */
  lemma {:induction false} BufferFollowsHistory(
    c: Codec, files: map<string, string>, ops: seq<Op>, threshold: int, sid: string)
    ensures AreLinesOf(c, PendingOf(Run(c, Disk(files, map[]), ops, threshold), sid), Waiting(ops, sid, threshold))
  {
    if ops != [] {
      var before, d := ops[..|ops| - 1], Disk(files, map[]);
      BufferFollowsHistory(c, files, before, threshold, sid);
      BufferStep(c, Run(c, d, before, threshold), ops[|ops| - 1], threshold, sid, Waiting(before, sid, threshold));
    }
  }

  lemma {:induction false} FewWait(ops: seq<Op>, sid: string, threshold: int)
    ensures Waiting(ops, sid, threshold) == [] || |Waiting(ops, sid, threshold)| < threshold
  {
    if ops != [] { FewWait(ops[..|ops| - 1], sid, threshold); }
  }

  /** Lines appended to complete lines append their events. */
  lemma {:induction false} ParseAppendAll(c: Codec, raw: string, lines: seq<string>, events: seq<StoredEvent>)
    requires GoodCodec(c) && Terminated(raw) && AreLinesOf(c, lines, events)
    ensures Parse(c, raw + JoinLines(lines)) == Parse(c, raw) + events
    decreases |lines|
  {
    if lines == [] {
      assert raw + "" == raw && Parse(c, raw) + events == Parse(c, raw);
    } else {
      var line := c.encode(events[0]) + "\n";
      ParseAppend(c, raw, events[0]);
      ParseAppendAll(c, raw + line, lines[1..], events[1..]);
      ConcatAssociates(raw, line, JoinLines(lines[1..]));
      assert Parse(c, raw) + events == Parse(c, raw) + [events[0]] + events[1..];
    }
  }

  /** At any time a session's file holds all of its events since its last cleanup but the ones that wait, which are the
      newest and fewer than the threshold. */
  lemma FileHoldsAllButWaiting(c: Codec, files: map<string, string>, ops: seq<Op>, threshold: int, sid: string)
    requires GoodCodec(c) && WellFormed(Disk(files, map[])) && OwnsFile(ops, sid)
    ensures var file := FileOf(Run(c, Disk(files, map[]), ops, threshold), FileName(sid));
            Parse(c, file) + Waiting(ops, sid, threshold) == Appended(ops, sid, Contents(c, Disk(files, map[]), sid))
    ensures Waiting(ops, sid, threshold) == [] || |Waiting(ops, sid, threshold)| < threshold
  {
    var d := Disk(files, map[]);
    var t := Run(c, d, ops, threshold);
    ContentsFollowAppends(c, d, ops, threshold, sid);
    BufferFollowsHistory(c, files, ops, threshold, sid);
    RunKeepsWellFormed(c, d, ops, threshold);
    FewWait(ops, sid, threshold);
    ParseAppendAll(c, FileOf(t, FileName(sid)), PendingOf(t, sid), Waiting(ops, sid, threshold));
  }

  // ---- reading any file ----

  /** What one line contributes: the event it decodes to, when it is neither blank nor malformed. */
  function ReadLine(c: Codec, line: string): seq<StoredEvent> {
    match c.decode(Text.Trim(line))
    case None => []
    case Some(e) => if Text.Trim(line) == "" then [] else [e]
  }

  /** A file reads as its first line followed by the rest of it, whatever it holds. */
  lemma FileIsReadByLines(c: Codec, line: string, rest: string)
    requires '\n' !in line
    ensures Parse(c, line) == ReadLine(c, line)
    ensures Parse(c, line + ("\n" + rest)) == ReadLine(c, line) + Parse(c, rest)
  {
    LineLengthIs(line, "");
    assert line + "" == line;
    ParseWholeLine(c, line);
    var raw := line + ("\n" + rest);
    LineLengthIs(line, "\n" + rest);
    ParseFirstLine(c, raw, |line|);
    assert raw[..|line|] == line && raw[|line| + 1..] == rest;
  }

  /** Complete lines and what follows them are read one after the other. */
  lemma {:induction false} ParseConcat(c: Codec, a: string, b: string)
    requires Terminated(a)
    ensures Parse(c, a + b) == Parse(c, a) + Parse(c, b)
    decreases |a|
  {
    if a == "" {
      ParseWholeLine(c, "");
      assert a + b == b && [] + Parse(c, b) == Parse(c, b);
      assert ""[..0] == "";
    } else {
      var n := LineLength(a);
      LineLengthFacts(a);
      FirstLineStable(a, b);
      ParseConcat(c, a[n + 1..], b);
      ParseFirstLine(c, a, n);
      ParseFirstLine(c, a + b, n);
      ConcatAssociates(ParseLine(c, a[..n]), Parse(c, a[n + 1..]), Parse(c, b));
    }
  }

  /** A blank or malformed line among complete lines hides no other. */
  lemma BadLineIsSkipped(c: Codec, a: string, line: string, b: string)
    requires Terminated(a) && '\n' !in line
    requires Text.Trim(line) == "" || c.decode(Text.Trim(line)).None?
    ensures Parse(c, a + (line + ("\n" + b))) == Parse(c, a + b)
  {
    ParseConcat(c, a, line + ("\n" + b));
    ParseConcat(c, a, b);
    FileIsReadByLines(c, line, b);
    assert [] + Parse(c, b) == Parse(c, b);
  }
}
