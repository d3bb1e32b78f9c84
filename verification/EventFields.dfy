/** What an event says about calls and agents, field by field, for stating what the folds of events must agree with. */
module EventFields {
  import opened Optional
  import opened SessionEvents

  /** The first of two fields that is present, else a default. */
  function FirstOf(a: Option<string>, b: Option<string>, default: string): string {
    match (a, b)
    case (Some(x), _) => x
    case (None, Some(y)) => y
    case (None, None) => default
  }

  /** The call that a tool start opens, and the tool it names. */
  function OpenedCall(e: Event): string {
    match e.data.toolCallId
    case Some(id) => id
    case None => "tool-" + Decimal(e.ts)
  }

  function OpenedTool(e: Event): string {
    FirstOf(e.data.toolName, e.data.name, "unknown")
  }

  /** The call that a completion or a progress report names. */
  function NamedCall(e: Event): string {
    match e.data.toolCallId
    case Some(id) => id
    case None => ""
  }

  /** The subagent that a start opens, its names, and the subagent that an end names. */
  function OpenedAgent(e: Event): string {
    FirstOf(e.data.toolCallId, e.data.agentId, "sub-" + Decimal(e.ts))
  }

  function OpenedAgentName(e: Event): string {
    FirstOf(e.data.agentName, e.data.name, "subagent")
  }

  function OpenedAgentTitle(e: Event): string {
    FirstOf(e.data.agentDisplayName, e.data.displayName, OpenedAgentName(e))
  }

  function NamedAgent(e: Event): string {
    FirstOf(e.data.toolCallId, e.data.agentId, "")
  }

  /** The event is attributed to subagent `x`. */
  predicate IsUnder(e: Event, x: string) {
    x != "" && e.data.agentId == Some(x)
  }

  // ---- decimal numbers read back ----

  function DigitOf(c: char): int {
    c as int - '0' as int
  }

  /** The value of a string of decimal digits, optionally signed. */
  function ValueOf(s: string): int {
    if s == "" then 0 else if s[0] == '-' then -ValueOf(s[1..]) else 10 * ValueOf(s[..|s| - 1]) + DigitOf(s[|s| - 1])
  }

  lemma {:induction false} DecimalHasNoSign(n: nat)
    ensures Decimal(n) != "" && Decimal(n)[0] != '-'
  {
    if n >= 10 { DecimalHasNoSign(n / 10); }
  }

  lemma LastDigit(n: nat)
    ensures Decimal(n)[|Decimal(n)| - 1] == "0123456789"[n % 10] && DigitOf("0123456789"[n % 10]) == n % 10
  {
  }

  lemma {:induction false} NaturalRoundTrip(n: nat)
    ensures ValueOf(Decimal(n)) == n
  {
    var s := Decimal(n);
    DecimalHasNoSign(n);
    LastDigit(n);
    if n >= 10 {
      NaturalRoundTrip(n / 10);
      assert s[..|s| - 1] == Decimal(n / 10);
    } else {
      assert s[..|s| - 1] == "";
    }
    assert ValueOf(s) == 10 * ValueOf(s[..|s| - 1]) + n % 10;
  }

  /** A number is read back from its decimal rendering, so ids made from different times differ. */
  lemma DecimalRoundTrip(n: int)
    ensures ValueOf(Decimal(n)) == n
  {
    if n < 0 {
      NaturalRoundTrip(-n);
      assert Decimal(n)[1..] == Decimal(-n);
    } else {
      NaturalRoundTrip(n);
    }
  }
}
