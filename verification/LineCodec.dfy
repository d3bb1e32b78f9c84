/** A line format that meets what the event store assumes of its codec, in the manner of JSON: fields are delimited, and
    the characters that would break a line or a field are escaped with a backslash. */
module LineCodec {
  import opened Optional
  import opened Sequences
  import opened EventLog
  import opened Persistence
  import Text

  /** The letter that stands for a character after a backslash, if it needs one. */
  function Escaped(ch: char): Option<char> {
    if ch == '\n' then Some('n') else if ch == '\\' then Some('\\') else if ch == '"' then Some('q') else None
  }

  function Unescaped(letter: char): Option<char> {
    if letter == 'n' then Some('\n')
    else if letter == '\\' then Some('\\')
    else if letter == 'q' then Some('"')
    else None
  }

  function Piece(ch: char): string {
    if Escaped(ch).Some? then ['\\', Escaped(ch).value] else [ch]
  }

  function Escape(s: string): string {
    if s == "" then "" else Piece(s[0]) + Escape(s[1..])
  }

  /** A field up to its closing quote, and what follows it. */
  function ReadField(s: string): Option<(string, string)> {
    if s == "" then None
    else if s[0] == '"' then Some(("", s[1..]))
    else if s[0] == '\\' then
      if |s| == 1 || Unescaped(s[1]).None? then None else WithFirst(Unescaped(s[1]).value, ReadField(s[2..]))
    else WithFirst(s[0], ReadField(s[1..]))
  }

  function WithFirst(ch: char, field: Option<(string, string)>): Option<(string, string)> {
    if field.None? then None else Some(([ch] + field.value.0, field.value.1))
  }

  function Encode(e: StoredEvent): string {
    "\"" + (Escape(e.body) + ("\"" + (Escape(e.timestamp) + "\"")))
  }

  function Decode(line: string): Option<StoredEvent> {
    if line == "" || line[0] != '"' then None
    else
      var body := ReadField(line[1..]);
      if body.None? then None
      else
        var timestamp := ReadField(body.value.1);
        if timestamp.None? || timestamp.value.1 != "" then None
        else Some(StoredEvent(body.value.0, timestamp.value.0))
  }

  const LINES := Codec(Encode, Decode)

  /** A field is read back unchanged, whatever follows it. */
  lemma {:induction false} FieldRoundTrip(s: string, rest: string)
    ensures ReadField(Escape(s) + ("\"" + rest)) == Some((s, rest))
  {
    if s == "" {
      assert Escape(s) + ("\"" + rest) == "\"" + rest && ("\"" + rest)[1..] == rest;
    } else {
      FieldRoundTrip(s[1..], rest);
      ReadsPiece(s[0], Escape(s[1..]) + ("\"" + rest));
      ConcatAssociates(Piece(s[0]), Escape(s[1..]), "\"" + rest);
      assert [s[0]] + s[1..] == s;
    }
  }

  lemma ReadsPiece(ch: char, rest: string)
    ensures ReadField(Piece(ch) + rest) == WithFirst(ch, ReadField(rest))
  {
    var s := Piece(ch) + rest;
    assert s[|Piece(ch)|..] == rest;
  }

  lemma {:induction false} EscapeHasNoNewline(s: string)
    ensures '\n' !in Escape(s)
  {
    if s != "" { EscapeHasNoNewline(s[1..]); }
  }

  /** Text that begins and ends with a quote has no white space around it. */
  lemma QuotedIsTrimmed(middle: string)
    ensures Text.Trim("\"" + (middle + "\"")) == "\"" + (middle + "\"")
  {
    var line := "\"" + (middle + "\"");
    assert line[0] == '"' && line[|line| - 1] == '"';
  }

  lemma DecodesBack(e: StoredEvent)
    ensures Decode(Encode(e)) == Some(e)
  {
    var second := Escape(e.timestamp) + "\"";
    assert Encode(e)[1..] == Escape(e.body) + ("\"" + second);
    FieldRoundTrip(e.body, second);
    assert "\"" + "" == "\"";
    FieldRoundTrip(e.timestamp, "");
  }

  lemma IsOneLine(e: StoredEvent)
    ensures Encode(e) != "" && '\n' !in Encode(e) && Text.Trim(Encode(e)) == Encode(e)
  {
    EscapeHasNoNewline(e.body);
    EscapeHasNoNewline(e.timestamp);
    var middle := Escape(e.body) + ("\"" + Escape(e.timestamp));
    assert Encode(e) == "\"" + (middle + "\"");
    QuotedIsTrimmed(middle);
  }

  /** So the store's assumption can be met. */
  lemma LinesIsGoodCodec()
    ensures GoodCodec(LINES)
  {
    forall e
      ensures GoodLine(LINES, e)
    {
      IsOneLine(e);
      DecodesBack(e);
    }
  }
}
