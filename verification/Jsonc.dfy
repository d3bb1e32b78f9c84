/** The comment-stripping loop used before parsing devcontainer.json (src/daemon/preview-detect.ts),
    specified as the projection of a token stream on its non-comment tokens. */
module Jsonc {
  import opened Sequences

  datatype Token = Str(text: string) | LineComment(text: string) | BlockComment(text: string) | Plain(text: string) {
    predicate IsComment() { LineComment? || BlockComment? }
  }

  /** Length of a string literal after its opening quote, closing quote included; a backslash protects the next
      character. */
  function StrLen(s: string): (n: nat)
    ensures n <= |s|
  {
    if s == "" then 0
    else if s[0] == '"' then 1
    else if s[0] == '\\' then (if |s| == 1 then 1 else 2 + StrLen(s[2..]))
    else 1 + StrLen(s[1..])
  }

  /** Length up to, not including, the next newline. */
  function LineLen(s: string): (n: nat)
    ensures n <= |s|
  {
    if s == "" || s[0] == '\n' then 0 else 1 + LineLen(s[1..])
  }

  predicate StartsWith(s: string, a: char, b: char) {
    |s| >= 2 && s[0] == a && s[1] == b
  }

  /** Length of a block comment after its opener, through the closer if there is one. */
  function BlockLen(s: string): (n: nat)
    ensures n <= |s|
  {
    if s == "" then 0 else if StartsWith(s, '*', '/') then 2 else 1 + BlockLen(s[1..])
  }

  function FirstToken(s: string): (t: Token)
    requires s != ""
    ensures t.text != "" && t.text <= s
  {
    if s[0] == '"' then Str(s[..1 + StrLen(s[1..])])
    else if StartsWith(s, '/', '/') then LineComment(s[..LineLen(s)])
    else if StartsWith(s, '/', '*') then BlockComment(s[..2 + BlockLen(s[2..])])
    else Plain(s[..1])
  }

  function Rest(s: string): (r: string)
    requires s != ""
    ensures |r| < |s|
  {
    s[|FirstToken(s).text|..]
  }

  function Lex(s: string): seq<Token>
    decreases |s|
  {
    if s == "" then [] else [FirstToken(s)] + Lex(Rest(s))
  }

  function Text(tokens: seq<Token>): string {
    if tokens == [] then "" else tokens[0].text + Text(tokens[1..])
  }

  function Kept(tokens: seq<Token>): seq<Token> {
    if tokens == [] then []
    else if tokens[0].IsComment() then Kept(tokens[1..])
    else [tokens[0]] + Kept(tokens[1..])
  }

  function Strings(tokens: seq<Token>): seq<string> {
    if tokens == [] then []
    else if tokens[0].Str? then [tokens[0].text] + Strings(tokens[1..])
    else Strings(tokens[1..])
  }

  function Strip(s: string): string {
    Text(Kept(Lex(s)))
  }

  lemma LexStep(s: string)
    requires s != ""
    ensures Lex(s)[0] == FirstToken(s) && Lex(s)[1..] == Lex(Rest(s))
  {
  }

  lemma StripStep(s: string)
    requires s != ""
    ensures Strip(s) == (if FirstToken(s).IsComment() then "" else FirstToken(s).text) + Strip(Rest(s))
  {
    var first, later := FirstToken(s), Lex(Rest(s));
    LexStep(s);
    if first.IsComment() {
      assert "" + Strip(Rest(s)) == Strip(Rest(s));
    } else {
      assert ([first] + Kept(later))[1..] == Kept(later);
    }
  }

  // ---- the projection theorem ----

  /** Nothing is lost by lexing. */
  lemma {:induction false} LexIsLossless(s: string)
    ensures Text(Lex(s)) == s
    decreases |s|
  {
    if s != "" {
      LexIsLossless(Rest(s));
      LexStep(s);
      SplitAt(s, |FirstToken(s).text|);
    }
  }

  /** The end of a string literal does not depend on what follows its closing quote. */
  lemma {:induction false} StrLenIsLocal(b: string, r: string)
    requires StrLen(b) < |b| || r == ""
    ensures StrLen(b[..StrLen(b)] + r) == StrLen(b)
    decreases |b|
  {
    var n := StrLen(b);
    var u := b[..n] + r;
    if b == "" {
      assert u == "";
    } else if b[0] == '"' {
      assert u[0] == '"';
    } else if b[0] == '\\' {
      if |b| == 1 {
        assert u == b;
      } else {
        StrLenIsLocal(b[2..], r);
        assert u[2..] == b[2..][..n - 2] + r;
      }
    } else {
      StrLenIsLocal(b[1..], r);
      assert u[1..] == b[1..][..n - 1] + r;
    }
  }

  /** Unless a comment may start there, the first character survives. */
  lemma HeadSurvives(s: string)
    requires s != "" && s[0] != '/'
    ensures Strip(s) != "" && Strip(s)[0] == s[0]
  {
    StripStep(s);
  }

  /** Put in front of stripped text, a kept token is still the first token. */
  lemma KeptTokenIsFirst(s: string)
    requires s != "" && !FirstToken(s).IsComment()
    ensures var t := FirstToken(s); var u := t.text + Strip(Rest(s));
            u != "" && FirstToken(u) == t && Rest(u) == Strip(Rest(s))
  {
    var t, r := FirstToken(s), Strip(Rest(s));
    var u := t.text + r;
    assert u[|t.text|..] == r && u[..|t.text|] == t.text;
    if t.Str? {
      var b := s[1..];
      assert StrLen(b) == |b| ==> Rest(s) == "";
      StrLenIsLocal(b, r);
      assert u[1..] == b[..StrLen(b)] + r;
    } else if Rest(s) != "" && Rest(s)[0] != '/' {
      HeadSurvives(Rest(s));
    }
  }

  /** Lexing the output gives exactly the non-comment tokens of the input, in order. */
  lemma {:induction false} StripIsProjection(s: string)
    ensures Lex(Strip(s)) == Kept(Lex(s))
    decreases |s|
  {
    if s != "" {
      StripStep(s);
      StripIsProjection(Rest(s));
      LexStep(s);
      if !FirstToken(s).IsComment() { KeptTokenIsFirst(s); }
    }
  }

  ghost predicate CommentFree(tokens: seq<Token>) {
    forall i :: 0 <= i < |tokens| ==> !tokens[i].IsComment()
  }

  lemma {:induction false} KeptIsCommentFree(tokens: seq<Token>)
    ensures CommentFree(Kept(tokens)) && |Text(Kept(tokens))| <= |Text(tokens)|
    ensures CommentFree(tokens) ==> Kept(tokens) == tokens
    ensures Strings(Kept(tokens)) == Strings(tokens)
  {
    if tokens != [] {
      KeptIsCommentFree(tokens[1..]);
      assert ([tokens[0]] + Kept(tokens[1..]))[1..] == Kept(tokens[1..]);
    }
  }

  lemma {:induction false} DroppedCommentShortens(tokens: seq<Token>)
    requires !CommentFree(tokens) && forall i :: 0 <= i < |tokens| ==> tokens[i].text != ""
    ensures |Text(Kept(tokens))| < |Text(tokens)|
  {
    KeptIsCommentFree(tokens[1..]);
    if !tokens[0].IsComment() {
      assert !CommentFree(tokens[1..]) by {
        if CommentFree(tokens[1..]) {
          forall i | 0 <= i < |tokens|
            ensures !tokens[i].IsComment()
          {
            if i > 0 { assert tokens[i] == tokens[1..][i - 1]; }
          }
          assert CommentFree(tokens);
        }
      }
      DroppedCommentShortens(tokens[1..]);
      assert ([tokens[0]] + Kept(tokens[1..]))[1..] == Kept(tokens[1..]);
    }
  }

  lemma {:induction false} TokensAreNotEmpty(s: string)
    ensures forall i :: 0 <= i < |Lex(s)| ==> Lex(s)[i].text != ""
    decreases |s|
  {
    if s != "" { TokensAreNotEmpty(Rest(s)); }
  }

  /** The output holds no comment, and the string literals of the input verbatim and in order. */
  lemma OutputTokens(s: string)
    ensures CommentFree(Lex(Strip(s)))
    ensures Strings(Lex(Strip(s))) == Strings(Lex(s))
  {
    StripIsProjection(s);
    KeptIsCommentFree(Lex(s));
  }

  /** Text is left unchanged exactly when it holds no comment. */
  lemma UnchangedIffCommentFree(s: string)
    ensures Strip(s) == s <==> CommentFree(Lex(s))
  {
    LexIsLossless(s);
    KeptIsCommentFree(Lex(s));
    TokensAreNotEmpty(s);
    if !CommentFree(Lex(s)) { DroppedCommentShortens(Lex(s)); }
  }

  lemma StripIsIdempotent(s: string)
    ensures Strip(Strip(s)) == Strip(s)
  {
    OutputTokens(s);
    UnchangedIffCommentFree(Strip(s));
  }

  predicate CloserAt(s: string, i: nat) {
    i + 1 < |s| && s[i] == '*' && s[i + 1] == '/'
  }

  /** Where comments end: a line comment just before the next newline, a block comment just after
      the first closer past its opener, and both at the end of text that has none. */
  lemma CommentExtent(s: string)
    requires s != "" && FirstToken(s).IsComment()
    ensures var t, r := FirstToken(s), Rest(s);
            if t.LineComment? then
              '\n' !in t.text && (r == "" || r[0] == '\n')
            else
              && (r == "" || (|t.text| >= 4 && CloserAt(t.text, |t.text| - 2)))
              && (forall i :: 2 <= i < |t.text| - 2 ==> !CloserAt(t.text, i))
  {
    if FirstToken(s).LineComment? {
      LineExtent(s);
    } else {
      BlockExtent(s[2..]);
      BlockTextExtent(s, BlockLen(s[2..]));
      assert FirstToken(s).text == s[..2 + BlockLen(s[2..])];
      assert 2 + BlockLen(s[2..]) == |s| ==> Rest(s) == "";
    }
  }

  lemma BlockTextExtent(s: string, n: nat)
    requires |s| >= 2 && n <= |s[2..]|
    requires n < |s[2..]| ==> n >= 2 && CloserAt(s[2..], n - 2)
    requires forall j :: 0 <= j < n - 2 ==> !CloserAt(s[2..], j)
    ensures var t := s[..2 + n];
            && (2 + n < |s| ==> |t| >= 4 && CloserAt(t, |t| - 2))
            && (forall i :: 2 <= i < |t| - 2 ==> !CloserAt(t, i))
  {
    var t, b := s[..2 + n], s[2..];
    forall i | 2 <= i < |t| - 2
      ensures !CloserAt(t, i)
    {
      assert !CloserAt(b, i - 2);
    }
  }

  lemma {:induction false} LineExtent(s: string)
    ensures '\n' !in s[..LineLen(s)] && (LineLen(s) == |s| || s[LineLen(s)] == '\n')
  {
    if s != "" && s[0] != '\n' {
      LineExtent(s[1..]);
      assert s[..LineLen(s)] == [s[0]] + s[1..][..LineLen(s[1..])];
    }
  }

  lemma {:induction false} BlockExtent(b: string)
    ensures BlockLen(b) < |b| ==> BlockLen(b) >= 2 && CloserAt(b, BlockLen(b) - 2)
    ensures forall j :: 0 <= j < BlockLen(b) - 2 ==> !CloserAt(b, j)
  {
    if b != "" && !StartsWith(b, '*', '/') {
      var rest := b[1..];
      BlockExtent(rest);
      forall j | 0 <= j < BlockLen(b) - 2
        ensures !CloserAt(b, j)
      {
        assert j > 0 ==> !CloserAt(rest, j - 1);
      }
    }
  }

  // ---- the loop ----

  /** What is left of the text at index `i`, which the loop may move past the end. */
  function Tail(raw: string, i: nat): string {
    if i <= |raw| then raw[i..] else ""
  }

  lemma StringOpens(s: string)
    requires s != "" && s[0] == '"'
    ensures var n := StrLen(s[1..]); Strip(s) == "\"" + s[1..][..n] + Strip(s[1..][n..])
  {
    StripStep(s);
    var n := StrLen(s[1..]);
    assert s[..1 + n] == "\"" + s[1..][..n] && Rest(s) == s[1..][n..];
  }

  lemma LineOpens(s: string)
    requires StartsWith(s, '/', '/')
    ensures Strip(s) == Strip(s[LineLen(s)..])
  {
    StripStep(s);
    assert "" + Strip(Rest(s)) == Strip(Rest(s));
  }

  lemma BlockOpens(s: string)
    requires StartsWith(s, '/', '*')
    ensures Strip(s) == Strip(s[2..][BlockLen(s[2..])..])
  {
    StripStep(s);
    assert "" + Strip(Rest(s)) == Strip(Rest(s));
    assert Rest(s) == s[2..][BlockLen(s[2..])..];
  }

  // The four branches of the loop, in terms of the text left at index `i`.

  lemma StringBranch(raw: string, i: nat)
    requires i < |raw| && raw[i] == '"'
    ensures var b := raw[i + 1..]; Strip(Tail(raw, i)) == "\"" + b[..StrLen(b)] + Strip(b[StrLen(b)..])
  {
    StringOpens(raw[i..]);
    assert raw[i..][1..] == raw[i + 1..];
  }

  lemma LineBranch(raw: string, i: nat)
    requires i + 1 < |raw| && raw[i] == '/' && raw[i + 1] == '/'
    ensures Strip(Tail(raw, i)) == Strip(Tail(raw, i)[LineLen(Tail(raw, i))..])
  {
    LineOpens(raw[i..]);
  }

  lemma BlockBranch(raw: string, i: nat)
    requires i + 1 < |raw| && raw[i] == '/' && raw[i + 1] == '*'
    ensures Strip(Tail(raw, i)) == Strip(Tail(raw, i + 2)[BlockLen(Tail(raw, i + 2))..])
  {
    BlockOpens(raw[i..]);
    assert raw[i..][2..] == raw[i + 2..];
  }

  lemma PlainBranch(raw: string, i: nat)
    requires i < |raw| && raw[i] != '"'
    requires !(raw[i] == '/' && i + 1 < |raw| && (raw[i + 1] == '/' || raw[i + 1] == '*'))
    ensures Strip(Tail(raw, i)) == [raw[i]] + Strip(Tail(raw, i + 1))
  {
    StripStep(raw[i..]);
    assert raw[i..][..1] == [raw[i]] && raw[i..][1..] == raw[i + 1..];
  }

  /** A string literal after its opening quote, and what follows it. */
  function Literal(s: string): string { s[..StrLen(s)] }
  function AfterLiteral(s: string): string { s[StrLen(s)..] }

  /** An ordinary character is the first of the rest of the literal; so is a backslash with the character it
      protects. */
  lemma LiteralStep(s: string, n: nat)
    requires s != "" && s[0] != '"' && n == (if s[0] == '\\' && |s| > 1 then 2 else 1)
    ensures Literal(s) == s[..n] + Literal(s[n..]) && AfterLiteral(s) == AfterLiteral(s[n..])
  {
    assert s[1..] != "" || s[1..] == "";
  }

  /** What is copied up to index `i`, and what is still to come, make up the literal that starts at `start`. */
  ghost predicate Copied(raw: string, start: nat, copied: string, i: nat)
    requires start <= |raw|
  {
    copied + Literal(Tail(raw, i)) == Literal(raw[start..]) && AfterLiteral(Tail(raw, i)) == AfterLiteral(raw[start..])
  }

  lemma LiteralRound(raw: string, start: nat, copied: string, i: nat, piece: string, next: nat)
    requires start <= |raw| && i < |raw| && raw[i] != '"' && Copied(raw, start, copied, i)
    requires next == if raw[i] == '\\' then i + 2 else i + 1
    requires piece == if raw[i] == '\\' && i + 1 < |raw| then [raw[i], raw[i + 1]] else [raw[i]]
    ensures Copied(raw, start, copied + piece, next)
  {
    var s := raw[i..];
    LiteralStep(s, |piece|);
    assert s[..|piece|] == piece && s[|piece|..] == Tail(raw, next);
    ConcatAssociates(copied, piece, Literal(Tail(raw, next)));
  }

  lemma NothingCopied(raw: string, start: nat)
    requires start <= |raw|
    ensures Copied(raw, start, "", start)
  {
    assert "" + Literal(raw[start..]) == Literal(raw[start..]);
  }

  lemma ClosesAtQuote(raw: string, start: nat, copied: string, i: nat)
    requires start <= |raw| && Copied(raw, start, copied, i) && i < |raw| && raw[i] == '"'
    ensures copied + "\"" == Literal(raw[start..]) && Tail(raw, i + 1) == AfterLiteral(raw[start..])
  {
    assert StrLen(raw[i..]) == 1 && Literal(raw[i..]) == "\"";
    assert AfterLiteral(raw[i..]) == raw[i + 1..];
  }

  lemma ClosesAtEnd(raw: string, start: nat, copied: string, i: nat)
    requires start <= |raw| && Copied(raw, start, copied, i) && i >= |raw|
    ensures copied == Literal(raw[start..]) && "" == AfterLiteral(raw[start..])
  {
    assert Tail(raw, i) == "" && Literal("") == "";
    assert copied + "" == copied;
  }

  /** The rest of the literal is copied verbatim; `start` is just after the opening quote. */
  method CopyBody(raw: string, start: nat) returns (copied: string, i: nat)
    requires start <= |raw|
    ensures i >= start && copied == Literal(raw[start..]) && Tail(raw, i) == AfterLiteral(raw[start..])
  {
    copied, i := CopyUpToQuote(raw, start);
    if i < |raw| {
      ClosesAtQuote(raw, start, copied, i);
      copied := copied + "\"";
      i := i + 1;
    } else {
      ClosesAtEnd(raw, start, copied, i);
    }
  }

  method CopyUpToQuote(raw: string, start: nat) returns (copied: string, i: nat)
    requires start <= |raw|
    ensures i >= start && Copied(raw, start, copied, i) && (i < |raw| ==> raw[i] == '"')
  {
    copied, i := "", start;
    NothingCopied(raw, start);
    while i < |raw| && raw[i] != '"'
      invariant i >= start && Copied(raw, start, copied, i)
      decreases |raw| - i
    {
      var piece, next := [raw[i]], i + 1;
      if raw[i] == '\\' {
        piece, next := piece + if i + 1 < |raw| then [raw[i + 1]] else "", i + 2;
      }
      LiteralRound(raw, start, copied, i, piece, next);
      copied := copied + piece;
      i := next;
    }
  }

  /** The end of a line comment. */
  method SkipLine(raw: string, start: nat) returns (i: nat)
    requires start <= |raw|
    ensures start <= i <= |raw| && raw[i..] == raw[start..][LineLen(raw[start..])..]
  {
    i := start;
    while i < |raw| && raw[i] != '\n'
      invariant start <= i <= |raw|
      invariant LineLen(raw[start..]) == i - start + LineLen(raw[i..])
    {
      assert raw[i..][1..] == raw[i + 1..];
      i := i + 1;
    }
    LineEnds(raw, start, i);
  }

  lemma LineEnds(raw: string, start: nat, i: nat)
    requires start <= i <= |raw|
    requires LineLen(raw[start..]) == i - start + LineLen(raw[i..])
    requires i < |raw| ==> raw[i] == '\n'
    ensures raw[i..] == raw[start..][LineLen(raw[start..])..]
  {
  }

  /** The search for the closer of a block comment. */
  method FindCloser(raw: string, start: nat) returns (i: nat)
    requires start <= |raw|
    ensures start <= i <= |raw| && BlockLen(raw[start..]) == i - start + BlockLen(raw[i..])
    ensures i < |raw| ==> i + 1 < |raw| && raw[i] == '*' && raw[i + 1] == '/'
  {
    i := start;
    while i < |raw| && !(raw[i] == '*' && i + 1 < |raw| && raw[i + 1] == '/')
      invariant start <= i <= |raw|
      invariant BlockLen(raw[start..]) == i - start + BlockLen(raw[i..])
    {
      assert raw[i..][1..] == raw[i + 1..];
      i := i + 1;
    }
  }

  /** A block comment is skipped past its closer, or past the end when it has none. */
  method SkipBlock(raw: string, open: nat) returns (i: nat)
    requires open + 2 <= |raw|
    ensures i > open && Tail(raw, i) == raw[open + 2..][BlockLen(raw[open + 2..])..]
  {
    var closer := FindCloser(raw, open + 2);
    BlockEnds(raw, open + 2, closer);
    i := closer + 2;
  }

  lemma BlockEnds(raw: string, start: nat, i: nat)
    requires start <= i <= |raw|
    requires BlockLen(raw[start..]) == i - start + BlockLen(raw[i..])
    requires i < |raw| ==> i + 1 < |raw| && raw[i] == '*' && raw[i + 1] == '/'
    ensures Tail(raw, i + 2) == raw[start..][BlockLen(raw[start..])..]
  {
    if i < |raw| {
      assert StartsWith(raw[i..], '*', '/');
      assert raw[start..][i + 2 - start..] == raw[i + 2..];
    }
  }

  // Each round of the loop keeps: what is produced so far and what is still to come make up the whole output.

  ghost predicate Produced(raw: string, result: string, i: nat) {
    result + Strip(Tail(raw, i)) == Strip(raw)
  }

  lemma NothingProduced(raw: string)
    ensures Produced(raw, "", 0)
  {
    assert Tail(raw, 0) == raw;
    assert "" + Strip(raw) == Strip(raw);
  }

  lemma AllProduced(raw: string, result: string, i: nat)
    requires Produced(raw, result, i) && i >= |raw|
    ensures result == Strip(raw)
  {
    assert Tail(raw, i) == "" && Strip("") == "";
    assert result + "" == result;
  }

  lemma StringRound(raw: string, result: string, i: nat, body: string, next: nat)
    requires Produced(raw, result, i) && i < |raw| && raw[i] == '"'
    requires body == Literal(raw[i + 1..]) && Tail(raw, next) == AfterLiteral(raw[i + 1..])
    ensures Produced(raw, result + ("\"" + body), next)
  {
    StringBranch(raw, i);
    ConcatAssociates(result, "\"" + body, Strip(Tail(raw, next)));
  }

  lemma PlainRound(raw: string, result: string, i: nat)
    requires Produced(raw, result, i) && i < |raw| && raw[i] != '"'
    requires !(raw[i] == '/' && i + 1 < |raw| && (raw[i + 1] == '/' || raw[i + 1] == '*'))
    ensures Produced(raw, result + [raw[i]], i + 1)
  {
    PlainBranch(raw, i);
    ConcatAssociates(result, [raw[i]], Strip(Tail(raw, i + 1)));
  }

  lemma LineRound(raw: string, result: string, i: nat, next: nat)
    requires Produced(raw, result, i) && i + 1 < |raw| && raw[i] == '/' && raw[i + 1] == '/'
    requires i <= next <= |raw| && raw[next..] == raw[i..][LineLen(raw[i..])..]
    ensures next > i && Produced(raw, result, next)
  {
    LineBranch(raw, i);
    LineLonger(raw, i);
  }

  lemma BlockRound(raw: string, result: string, i: nat, next: nat)
    requires Produced(raw, result, i) && i + 1 < |raw| && raw[i] == '/' && raw[i + 1] == '*'
    requires Tail(raw, next) == raw[i + 2..][BlockLen(raw[i + 2..])..]
    ensures Produced(raw, result, next)
  {
    BlockBranch(raw, i);
  }

  /** The character loop: its result is the text of the non-comment tokens. */
  method StripComments(raw: string) returns (result: string)
    ensures result == Strip(raw)
  {
    result := "";
    var i := 0;
    NothingProduced(raw);
    while i < |raw|
      invariant Produced(raw, result, i)
      decreases |raw| - i
    {
      if raw[i] == '"' {
        var body, next := CopyBody(raw, i + 1);
        StringRound(raw, result, i, body, next);
        result := result + ("\"" + body);
        i := next;
      } else if raw[i] == '/' && i + 1 < |raw| && raw[i + 1] == '/' {
        var next := SkipLine(raw, i);
        LineRound(raw, result, i, next);
        i := next;
      } else if raw[i] == '/' && i + 1 < |raw| && raw[i + 1] == '*' {
        var next := SkipBlock(raw, i);
        BlockRound(raw, result, i, next);
        i := next;
      } else {
        PlainRound(raw, result, i);
        result := result + [raw[i]];
        i := i + 1;
      }
    }
    AllProduced(raw, result, i);
  }

  /** Skipping a line comment makes progress. */
  lemma LineLonger(raw: string, i: nat)
    requires i < |raw| && raw[i] == '/'
    ensures |raw[i..][LineLen(raw[i..])..]| < |raw| - i
  {
  }
}
