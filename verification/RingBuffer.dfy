/** One terminal session of the CLI session manager: its output ring buffer, evicted by whole chunks,
    and the replay-then-live stream sent to HQ (src/daemon/copilot-cli/manager.ts).
    Lengths count UTF-16 code units, as `String.length` does. */
module RingBuffer {
  import opened Sequences

  const MAX_BUFFER_BYTES: nat := 512 * 1024

  function Total(chunks: seq<string>): nat {
    if chunks == [] then 0 else |chunks[0]| + Total(chunks[1..])
  }

  function Join(chunks: seq<string>): string {
    if chunks == [] then "" else chunks[0] + Join(chunks[1..])
  }

  /** `sent` is everything handed to `sendToHq` as terminal data; a session leaves the manager's map on exit. */
  datatype Session = Session(buffer: seq<string>, size: int, attached: bool, registered: bool, sent: seq<string>)

  const FRESH := Session([], 0, false, true, [])

  datatype Op = Data(chunk: string) | Resume | Detach | Exit

  /** Oldest chunks are dropped while over budget, but never the last one. */
  function Trim(chunks: seq<string>): seq<string> {
    if Total(chunks) > MAX_BUFFER_BYTES && |chunks| > 1 then Trim(chunks[1..]) else chunks
  }

  function Step(s: Session, op: Op): Session {
    match op
    case Data(chunk) =>
      var kept := Trim(s.buffer + [chunk]);
      s.(buffer := kept, size := Total(kept), sent := if s.attached then s.sent + [chunk] else s.sent)
    case Resume =>
      if !s.registered then s
      else s.(attached := true, sent := if s.buffer == [] then s.sent else s.sent + [Join(s.buffer)])
    case Detach => if s.registered then s.(attached := false) else s
    case Exit => s.(registered := false)
  }

  function Run(ops: seq<Op>): Session {
    if ops == [] then FRESH else Step(Run(ops[..|ops| - 1]), ops[|ops| - 1])
  }

  /** Everything the PTY printed during `ops`. */
  function Output(ops: seq<Op>): seq<string> {
    if ops == [] then []
    else
      var last, before := ops[|ops| - 1], Output(ops[..|ops| - 1]);
      if last.Data? then before + [last.chunk] else before
  }

  /** The output from chunk `j` on does not fit the budget. */
  ghost predicate OverBudget(all: seq<string>, j: nat) {
    j <= |all| && |Join(all[j..])| > 524_288
  }

  /** `all[start..]` is the longest whole-chunk suffix within the budget, or the last chunk alone if even that exceeds
      it. */
  ghost predicate IsBestSuffix(all: seq<string>, start: nat) {
    && (all == [] ==> start == 0)
    && (all != [] ==> start < |all|)
    && (start <= |all| && (!OverBudget(all, start) || start == |all| - 1))
    && (forall j :: 0 <= j < start ==> OverBudget(all, j))
  }

  // ---- sums and joins ----

  lemma {:induction false} TotalConcat(a: seq<string>, b: seq<string>)
    ensures Total(a + b) == Total(a) + Total(b)
  {
    if a == [] { assert a + b == b; } else { assert (a + b)[1..] == a[1..] + b; TotalConcat(a[1..], b); }
  }

  lemma {:induction false} JoinConcat(a: seq<string>, b: seq<string>)
    ensures Join(a + b) == Join(a) + Join(b)
  {
    if a == [] { assert a + b == b; } else { assert (a + b)[1..] == a[1..] + b; JoinConcat(a[1..], b); }
  }

  /** A total is the length of the text, and the text of one chunk is that chunk. */
  lemma {:induction false} TotalIsLength(chunks: seq<string>)
    ensures Total(chunks) == |Join(chunks)|
    ensures |chunks| == 1 ==> Join(chunks) == chunks[0]
  {
    if chunks != [] {
      TotalIsLength(chunks[1..]);
      assert |chunks| == 1 ==> chunks[0] + "" == chunks[0];
    }
  }

  // ---- the buffer is the best suffix ----

  /** Dropping the head of a suffix that is over budget moves to the next suffix. */
  lemma {:induction false} TrimFindsBest(all: seq<string>, start: nat)
    requires start < |all|
    requires forall j :: 0 <= j < start ==> OverBudget(all, j)
    ensures |Trim(all[start..])| <= |all|
    ensures var best := |all| - |Trim(all[start..])|;
            Trim(all[start..]) == all[best..] && IsBestSuffix(all, best)
    decreases |all| - start
  {
    var chunks := all[start..];
    TotalIsLength(chunks);
    if Total(chunks) > MAX_BUFFER_BYTES && |chunks| > 1 {
      assert chunks[1..] == all[start + 1..];
      TrimFindsBest(all, start + 1);
    }
  }

  ghost predicate IsBestBuffer(all: seq<string>, buffer: seq<string>) {
    |buffer| <= |all| && buffer == all[|all| - |buffer|..] && IsBestSuffix(all, |all| - |buffer|)
  }

  /** One more chunk of output: trimming the extended buffer gives the best suffix of the extended output. */
  lemma BestSuffixGrows(all: seq<string>, start: nat, chunk: string)
    requires IsBestSuffix(all, start)
    ensures IsBestBuffer(all + [chunk], Trim(all[start..] + [chunk]))
  {
    var more := all + [chunk];
    forall j | 0 <= j < start
      ensures OverBudget(more, j)
    {
      assert OverBudget(all, j);
      assert more[j..] == all[j..] + [chunk];
      JoinConcat(all[j..], [chunk]);
    }
    assert more[start..] == all[start..] + [chunk];
    TrimFindsBest(more, start);
  }

  /** After any run the buffer is the best suffix of all output, and its recorded size is its length sum. */
  lemma {:induction false} BufferIsBestSuffix(ops: seq<Op>)
    ensures Run(ops).size == Total(Run(ops).buffer)
    ensures IsBestBuffer(Output(ops), Run(ops).buffer)
  {
    if ops != [] {
      var before, last := ops[..|ops| - 1], ops[|ops| - 1];
      BufferIsBestSuffix(before);
      if last.Data? {
        BestSuffixGrows(Output(before), |Output(before)| - |Run(before).buffer|, last.chunk);
      } else {
        OtherStepsKeepBuffer(ops);
      }
    }
  }

  lemma OtherStepsKeepBuffer(ops: seq<Op>)
    requires ops != [] && !ops[|ops| - 1].Data?
    ensures var s, before := Run(ops), Run(ops[..|ops| - 1]); s.buffer == before.buffer && s.size == before.size
    ensures Output(ops) == Output(ops[..|ops| - 1])
  {
  }

  /** The best suffix is unique, so the theorem above determines the buffer. */
  lemma BestSuffixIsUnique(all: seq<string>, a: nat, b: nat)
    requires IsBestSuffix(all, a) && IsBestSuffix(all, b)
    ensures a == b
  {
    assert a < b ==> OverBudget(all, a);
    assert b < a ==> OverBudget(all, b);
  }

  // ---- replay followed by live output ----

  ghost predicate OnlyData(ops: seq<Op>) {
    forall i :: 0 <= i < |ops| ==> ops[i].Data?
  }

  /** Nothing but output in between: the session stays attached or detached, and what is sent is the output or
      nothing. */
  ghost predicate Forwards(s: Session, t: Session, output: seq<string>) {
    t.attached == s.attached && t.registered == s.registered && t.sent == if s.attached then s.sent + output else s.sent
  }

  lemma RunSnoc(ops: seq<Op>, op: Op)
    ensures Run(ops + [op]) == Step(Run(ops), op)
    ensures Output(ops + [op]) == if op.Data? then Output(ops) + [op.chunk] else Output(ops)
  {
    assert (ops + [op])[..|ops|] == ops;
  }

  lemma ForwardsOneMore(s: Session, t: Session, output: seq<string>, chunk: string)
    requires Forwards(s, t, output)
    ensures Forwards(s, Step(t, Data(chunk)), output + [chunk])
  {
    ConcatAssociates(s.sent, output, [chunk]);
  }

  /** While nothing but output happens, an attached session forwards exactly that output, a detached one nothing. */
  lemma {:induction false} LiveOutput(before: seq<Op>, later: seq<Op>)
    requires OnlyData(later)
    ensures Forwards(Run(before), Run(before + later), Output(later))
    ensures Output(before + later) == Output(before) + Output(later)
  {
    if later == [] {
      assert before + later == before;
    } else {
      var init, last := later[..|later| - 1], later[|later| - 1];
      assert before + later == before + init + [last] && later == init + [last];
      LiveOutput(before, init);
      RunSnoc(before + init, last);
      RunSnoc(init, last);
      ForwardsOneMore(Run(before), Run(before + init), Output(init), last.chunk);
      ConcatAssociates(Output(before), Output(init), [last.chunk]);
    }
  }

  /** What a resume sends: the whole buffer as one message, unless it is empty. */
  function Replay(s: Session): seq<string> {
    if s.buffer == [] then [] else [Join(s.buffer)]
  }

  lemma ReplayJoins(s: Session)
    ensures Join(Replay(s)) == Join(s.buffer)
  {
    assert Join(s.buffer) + "" == Join(s.buffer);
  }

  lemma ResumedFacts(before: seq<Op>, later: seq<Op>)
    requires OnlyData(later) && Run(before).registered
    ensures Run(before + [Resume] + later).sent == Run(before).sent + Replay(Run(before)) + Output(later)
    ensures Output(before + [Resume] + later) == Output(before) + Output(later)
  {
    RunSnoc(before, Resume);
    LiveOutput(before + [Resume], later);
    assert Run(before).buffer == [] ==> Run(before).sent + [] == Run(before).sent;
  }

  lemma BufferIsSuffix(ops: seq<Op>)
    ensures |Run(ops).buffer| <= |Output(ops)|
    ensures Run(ops).buffer == Output(ops)[|Output(ops)| - |Run(ops).buffer|..]
  {
    BufferIsBestSuffix(ops);
  }

  lemma ResumedStream(before: seq<Op>, later: seq<Op>, start: nat)
    requires OnlyData(later) && Run(before).registered && start + |Run(before).buffer| == |Output(before)|
    ensures StreamIs(Run(before).sent, Run(before + [Resume] + later).sent, Output(before + [Resume] + later), start)
  {
    BufferIsSuffix(before);
    ResumedFacts(before, later);
    ReplayJoins(Run(before));
    StreamJoins(Output(before), Run(before).buffer, Run(before).sent, Replay(Run(before)), Output(later),
                Run(before + [Resume] + later).sent, Output(before + [Resume] + later), start);
  }

  /** From a resume until the next resume or detach, what HQ receives is one contiguous suffix of the output,
      starting where the buffer stood at the resume: no gap and no repetition. */
  lemma ResumedStreamIsSuffix(before: seq<Op>, later: seq<Op>)
    requires OnlyData(later) && Run(before).registered
    ensures IsBestBuffer(Output(before), Run(before).buffer)
    ensures var start := |Output(before)| - |Run(before).buffer|;
            StreamIs(Run(before).sent, Run(before + [Resume] + later).sent, Output(before + [Resume] + later), start)
  {
    BufferIsBestSuffix(before);
    ResumedStream(before, later, |Output(before)| - |Run(before).buffer|);
  }

  /** What was sent on top of `sent` reads as the output from chunk `start` on. */
  ghost predicate StreamIs(sent: seq<string>, sentAfter: seq<string>, all: seq<string>, start: nat) {
    start <= |all| && sent <= sentAfter && Join(sentAfter[|sent|..]) == Join(all[start..])
  }

  lemma StreamJoins(
    past: seq<string>, buffer: seq<string>, sent: seq<string>, replay: seq<string>, live: seq<string>,
    sentAfter: seq<string>, all: seq<string>, start: nat)
    requires start <= |past| && buffer == past[start..] && Join(replay) == Join(buffer)
    requires sentAfter == sent + replay + live && all == past + live
    ensures StreamIs(sent, sentAfter, all, start)
  {
    ConcatAssociates(sent, replay, live);
    ConcatSuffix(sent, replay + live);
    SuffixConcat(past, live, start);
    JoinConcat(replay, live);
    JoinConcat(buffer, live);
  }

  // ---- attachment ----

  ghost predicate HasExited(ops: seq<Op>) {
    exists i :: 0 <= i < |ops| && ops[i] == Exit
  }

  /** The session is attached or detached by a call that still finds it. */
  ghost predicate TakesEffectAt(ops: seq<Op>, i: nat, op: Op)
    requires i < |ops|
  {
    ops[i] == op && !HasExited(ops[..i])
  }

  /** The session was resumed and not detached since, calls after its exit not counting. */
  ghost predicate IsAttached(ops: seq<Op>) {
    exists i :: 0 <= i < |ops| && TakesEffectAt(ops, i, Resume) &&
      forall j :: i < j < |ops| ==> !TakesEffectAt(ops, j, Detach)
  }

  lemma HasExitedSnoc(before: seq<Op>, op: Op)
    ensures HasExited(before + [op]) <==> HasExited(before) || op == Exit
  {
    var ops := before + [op];
    assert ops[|before|] == op && forall i :: 0 <= i < |before| ==> ops[i] == before[i];
    if HasExited(before) {
      var i :| 0 <= i < |before| && before[i] == Exit;
      assert ops[i] == Exit;
    }
  }

  lemma EffectsAgree(before: seq<Op>, op: Op, effect: Op)
    ensures forall i | 0 <= i < |before| ::
              TakesEffectAt(before + [op], i, effect) <==> TakesEffectAt(before, i, effect)
    ensures TakesEffectAt(before + [op], |before|, effect) <==> op == effect && !HasExited(before)
  {
    var ops := before + [op];
    assert ops[..|before|] == before;
    forall i | 0 <= i < |before|
      ensures TakesEffectAt(ops, i, effect) <==> TakesEffectAt(before, i, effect)
    {
      assert ops[..i] == before[..i] && ops[i] == before[i];
    }
  }

  lemma IsAttachedSnoc(before: seq<Op>, op: Op)
    ensures IsAttached(before + [op]) <==>
            if HasExited(before) then IsAttached(before)
            else op == Resume || (IsAttached(before) && op != Detach)
  {
    var ops := before + [op];
    EffectsAgree(before, op, Resume);
    EffectsAgree(before, op, Detach);
    if IsAttached(before) && (HasExited(before) || op != Detach) {
      var i :| 0 <= i < |before| && TakesEffectAt(before, i, Resume) &&
        forall j :: i < j < |before| ==> !TakesEffectAt(before, j, Detach);
      assert TakesEffectAt(ops, i, Resume);
    }
  }

  lemma {:induction false} AttachmentIs(ops: seq<Op>)
    ensures Run(ops).attached <==> IsAttached(ops)
    ensures Run(ops).registered <==> !HasExited(ops)
  {
    if ops != [] {
      var before, op := ops[..|ops| - 1], ops[|ops| - 1];
      assert ops == before + [op];
      AttachmentIs(before);
      HasExitedSnoc(before, op);
      IsAttachedSnoc(before, op);
    }
  }

  /** In every run a chunk of output is sent exactly while the session is attached; a resume before the exit sends the
      buffer, if there is anything in it, as one message; and nothing else sends anything. */
  lemma SendingFollowsHistory(ops: seq<Op>, op: Op)
    ensures Run(ops + [op]).sent == Run(ops).sent +
            match op
            case Data(chunk) => if IsAttached(ops) then [chunk] else []
            case Resume => if HasExited(ops) || Run(ops).buffer == [] then [] else [Join(Run(ops).buffer)]
            case _ => []
  {
    AttachmentIs(ops);
    RunSnoc(ops, op);
  }

  // ---- the session object ----

  class CliSession {
    var ringBuffer: seq<string>
    var ringBufferSize: int
    var attached: bool
    var registered: bool
    var sentToHq: seq<string>

    ghost function View(): Session
      reads this
    {
      Session(ringBuffer, ringBufferSize, attached, registered, sentToHq)
    }

    ghost predicate Valid()
      reads this
    {
      ringBufferSize == Total(ringBuffer)
    }

    constructor ()
      ensures Valid() && View() == FRESH
    {
      ringBuffer, ringBufferSize, attached, registered, sentToHq := [], 0, false, true, [];
    }

    /** A chunk of PTY output: always buffered, oldest chunks evicted, forwarded when attached. */
    method OnData(data: string)
      requires Valid()
      modifies this
      ensures Valid() && View() == Step(old(View()), Op.Data(data))
    {
      ringBuffer := ringBuffer + [data];
      ringBufferSize := ringBufferSize + |data|;
      TotalConcat(old(ringBuffer), [data]);
      while ringBufferSize > MAX_BUFFER_BYTES && |ringBuffer| > 1
        invariant Valid() && ringBuffer != []
        invariant Trim(ringBuffer) == Trim(old(ringBuffer) + [data])
        invariant attached == old(attached) && registered == old(registered) && sentToHq == old(sentToHq)
        decreases |ringBuffer|
      {
        var removed := ringBuffer[0];
        ringBuffer := ringBuffer[1..];
        ringBufferSize := ringBufferSize - |removed|;
      }
      if attached {
        sentToHq := sentToHq + [data];
      }
    }

    method ResumeSession() returns (ok: bool)
      requires Valid()
      modifies this
      ensures Valid() && View() == Step(old(View()), Op.Resume) && ok == old(registered)
    {
      if !registered { return false; }
      attached := true;
      if |ringBuffer| > 0 {
        sentToHq := sentToHq + [Join(ringBuffer)];
      }
      return true;
    }

    method DetachSession() returns (ok: bool)
      requires Valid()
      modifies this
      ensures Valid() && View() == Step(old(View()), Op.Detach) && ok == old(registered)
    {
      if !registered { return false; }
      attached := false;
      return true;
    }

    method OnExit()
      requires Valid()
      modifies this
      ensures Valid() && View() == Step(old(View()), Op.Exit)
    {
      registered := false;
    }
  }
}
