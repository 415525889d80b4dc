/**
 * The lexer (src/lexer.py): a scanner over the source text that tries the token
 * alternatives in a fixed order at each offset and yields one token per match,
 * skipping blanks, and always ends the stream with exactly one EOF token.
 */
module Lexer {
  import opened Wrappers
  import opened Values

  /** Token types, in the source's spelling. */
  datatype Kind = NUMBER | ID | ASSIGN | COMMA | LPAREN | RPAREN | OP | NEWLINE | FUNCTION | EOF

  /** A token's value: a number for NUMBER tokens, the matched text for every other kind. */
  datatype Payload = Numeric(n: Value) | Text(s: string)

  /** `pos` is the offset where the token's lexeme starts. */
  datatype Token = Token(kind: Kind, value: Payload, pos: nat)

  /** The SyntaxError raised on a character no alternative accepts. */
  datatype LexError = UnexpectedChar(c: char, pos: nat)

  /** The named groups of the master pattern, in the order they are tried. */
  datatype Group = GNumber | GId | GAssign | GComma | GLParen | GRParen | GOp | GSkip | GNewline | GMismatch

  /** The only keyword; it is reported with its own upper-cased kind. */
  const FunctionKeyword: string := "function"

  predicate IsDigit(c: char) { '0' <= c <= '9' }
  predicate IsIdStart(c: char) { 'A' <= c <= 'Z' || 'a' <= c <= 'z' || c == '_' }
  predicate IsIdChar(c: char) { IsIdStart(c) || IsDigit(c) }
  predicate IsOpChar(c: char) { c == '+' || c == '-' || c == '*' || c == '/' || c == '^' }
  predicate IsBlank(c: char) { c == ' ' || c == '\t' }

  /** The characters at which some alternative other than the catch-all mismatch matches. */
  predicate CanStartToken(c: char) {
    IsIdChar(c) || c == '=' || c == ',' || c == '(' || c == ')' || IsOpChar(c) || IsBlank(c) || c == '\n'
  }

  predicate AllDigits(s: string) { forall k :: 0 <= k < |s| ==> IsDigit(s[k]) }

  /** End of the longest run of characters of one class that starts at `i`. */
  function RunEnd(code: string, i: nat, inClass: char -> bool): (j: nat)
    requires i <= |code|
    ensures i <= j <= |code|
    ensures forall k :: i <= k < j ==> inClass(code[k])
    ensures j == |code| || !inClass(code[j])
    decreases |code| - i
  {
    if i < |code| && inClass(code[i]) then RunEnd(code, i + 1, inClass) else i
  }

  /** End of `\d+(?:\.\d+)?` at `i`: all the digits, then the point and the digits after it
      when at least one digit follows the point. */
  function NumberEnd(code: string, i: nat): (j: nat)
    requires i < |code| && IsDigit(code[i])
    ensures i < j <= |code|
  {
    var k := RunEnd(code, i, IsDigit);
    if k + 1 < |code| && code[k] == '.' && IsDigit(code[k + 1]) then RunEnd(code, k + 1, IsDigit) else k
  }

  datatype Match = Match(group: Group, end: nat)

  /** The match at `pos`: the alternatives are tried in list order and the first one that
      matches wins; the catch-all accepts any character but a newline, which has its own group. */
  function NextMatch(code: string, pos: nat): (m: Match)
    requires pos < |code|
    ensures pos < m.end <= |code|
  {
    var c := code[pos];
    if IsDigit(c) then Match(GNumber, NumberEnd(code, pos))
    else if IsIdStart(c) then Match(GId, RunEnd(code, pos, IsIdChar))
    else if c == '=' then Match(GAssign, pos + 1)
    else if c == ',' then Match(GComma, pos + 1)
    else if c == '(' then Match(GLParen, pos + 1)
    else if c == ')' then Match(GRParen, pos + 1)
    else if IsOpChar(c) then Match(GOp, pos + 1)
    else if IsBlank(c) then Match(GSkip, RunEnd(code, pos, IsBlank))
    else if c == '\n' then Match(GNewline, pos + 1)
    else Match(GMismatch, pos + 1)
  }

  /** The decimal value of a run of digits (Python's `int` on it). */
  function DigitsValue(s: string): nat
    requires AllDigits(s)
  {
    if s == [] then 0 else 10 * DigitsValue(s[..|s| - 1]) + (s[|s| - 1] as int - '0' as int)
  }

  function Pow10(n: nat): (p: nat)
    ensures p > 0
  {
    if n == 0 then 1 else 10 * Pow10(n - 1)
  }

  /** The value of the NUMBER lexeme at `pos`: `int` of it without a point, `float` of it
      (an exact decimal here) with one. */
  function NumberLiteral(code: string, pos: nat): Value
    requires pos < |code| && IsDigit(code[pos])
  {
    var k := RunEnd(code, pos, IsDigit);
    var end := NumberEnd(code, pos);
    if end == k then IntV(DigitsValue(code[pos..k]))
    else FloatV(DigitsValue(code[pos..k]) as real + DigitsValue(code[k + 1..end]) as real / Pow10(end - k - 1) as real)
  }

  /** The token yielded for the match at `pos`, or None for blanks, a mismatch or the end. */
  function TokenAt(code: string, pos: nat): Option<Token>
    requires pos <= |code|
  {
    if pos == |code| then None
    else
      var m := NextMatch(code, pos);
      var lexeme := code[pos..m.end];
      match m.group
      case GNumber => Some(Token(NUMBER, Numeric(NumberLiteral(code, pos)), pos))
      case GId => if lexeme == FunctionKeyword then Some(Token(FUNCTION, Text(lexeme), pos)) else Some(Token(ID, Text(lexeme), pos))
      case GOp => Some(Token(OP, Text(lexeme), pos))
      case GAssign => Some(Token(ASSIGN, Text(lexeme), pos))
      case GComma => Some(Token(COMMA, Text(lexeme), pos))
      case GLParen => Some(Token(LPAREN, Text(lexeme), pos))
      case GRParen => Some(Token(RPAREN, Text(lexeme), pos))
      case GNewline => Some(Token(NEWLINE, Text("\n"), pos))
      case GSkip => None
      case GMismatch => None
  }

  function Prepend(toks: seq<Token>, r: Result<seq<Token>, LexError>): Result<seq<Token>, LexError> {
    match r
    case Ok(ts) => Ok(toks + ts)
    case Err(e) => Err(e)
  }

  function EofAt(pos: nat): Token { Token(EOF, Text(""), pos) }

  /** The whole stream `tokenize` yields from offset `pos` on, or the error that aborts it. */
  function LexFrom(code: string, pos: nat): (r: Result<seq<Token>, LexError>)
    requires pos <= |code|
    ensures r.Ok? ==> |r.value| > 0 && r.value[|r.value| - 1] == EofAt(|code|)
    decreases |code| - pos
  {
    if pos == |code| then Ok([EofAt(pos)])
    else
      var m := NextMatch(code, pos);
      match m.group
      case GMismatch => Err(UnexpectedChar(code[pos], pos))
      case GSkip => LexFrom(code, m.end)
      case _ => Prepend([TokenAt(code, pos).value], LexFrom(code, m.end))
  }

  /** One step of the scan, unfolded. */
  lemma LexStep(code: string, pos: nat)
    requires pos < |code|
    ensures var m := NextMatch(code, pos);
      LexFrom(code, pos) ==
        if m.group == GMismatch then Err(UnexpectedChar(code[pos], pos))
        else if m.group == GSkip then LexFrom(code, m.end)
        else Prepend([TokenAt(code, pos).value], LexFrom(code, m.end))
  {
  }

  lemma PrependAssoc(a: seq<Token>, b: seq<Token>, r: Result<seq<Token>, LexError>)
    ensures Prepend(a, Prepend(b, r)) == Prepend(a + b, r)
  {
    if r.Ok? { assert a + (b + r.value) == (a + b) + r.value; }
  }

  /** `tokenize`: the loop over the matches, yielding a token per match and EOF after the last. */
  method Tokenize(code: string) returns (r: Result<seq<Token>, LexError>)
    ensures r == LexFrom(code, 0)
  {
    var pos := 0;
    var tokens: seq<Token> := [];
    assert Prepend(tokens, LexFrom(code, 0)) == LexFrom(code, 0) by {
      if LexFrom(code, 0).Ok? { assert tokens + LexFrom(code, 0).value == LexFrom(code, 0).value; }
    }
    while pos < |code|
      invariant pos <= |code|
      invariant LexFrom(code, 0) == Prepend(tokens, LexFrom(code, pos))
      decreases |code| - pos
    {
      var m := NextMatch(code, pos);
      LexStep(code, pos);
      if m.group == GMismatch {
        return Err(UnexpectedChar(code[pos], pos));
      }
      if m.group != GSkip {
        PrependAssoc(tokens, [TokenAt(code, pos).value], LexFrom(code, m.end));
        tokens := tokens + [TokenAt(code, pos).value];
      }
      pos := m.end;
    }
    r := Ok(tokens + [EofAt(pos)]);
  }

  // ---------------------------------------------------------------------------
  // Properties of the token stream

  predicate AllBlank(s: string) { forall k :: 0 <= k < |s| ==> IsBlank(s[k]) }

  /** The token for a match is built from the lexeme that starts at `pos`: NUMBER carries the
      number, every other kind the matched text (a newline's text is the newline itself), and
      the kind is FUNCTION exactly for the text `function`. */
  lemma TokenAtShape(code: string, pos: nat)
    requires pos < |code|
    ensures TokenAt(code, pos).Some? ==>
      var t := TokenAt(code, pos).value;
      var lexeme := code[pos..NextMatch(code, pos).end];
      && t.pos == pos
      && t.kind != EOF
      && (t.kind == NUMBER <==> t.value.Numeric?)
      && (t.value.Text? ==> t.value.s == lexeme)
      && (t.kind == FUNCTION <==> t.value == Text(FunctionKeyword))
      && (t.kind == NEWLINE <==> code[pos] == '\n')
    ensures TokenAt(code, pos).None? <==> IsBlank(code[pos]) || !CanStartToken(code[pos])
  {
    var m := NextMatch(code, pos);
    if m.group == GNewline {
      assert code[pos..m.end] == [code[pos]];
    }
    if m.group in {GOp, GAssign, GComma, GLParen, GRParen} {
      assert |code[pos..m.end]| == 1;
      assert code[pos..m.end] != FunctionKeyword;
    }
  }

  /** A NUMBER lexeme is a run of digits with at most one point, and its value is a float
      exactly when the lexeme contains the point. Without one it is the integer the digits spell;
      with one, shifted left by the digits after the point, it is the integer all the digits spell. */
  lemma NumberLiteralShape(code: string, pos: nat)
    requires pos < |code| && IsDigit(code[pos])
    ensures var lexeme := code[pos..NumberEnd(code, pos)];
      && (NumberLiteral(code, pos).FloatV? <==> '.' in lexeme)
      && (NumberLiteral(code, pos).IntV? <==> '.' !in lexeme)
      && (NumberLiteral(code, pos).IntV? ==> AllDigits(lexeme) && NumberLiteral(code, pos).i == DigitsValue(lexeme))
      && (forall k :: 0 <= k < |lexeme| && lexeme[k] == '.' ==>
            0 < k < |lexeme| - 1 && AllDigits(lexeme[..k]) && AllDigits(lexeme[k + 1..]))
      && (forall k :: 0 <= k < |lexeme| && lexeme[k] == '.' ==>
            NumberLiteral(code, pos).FloatV? && AllDigits(lexeme[..k] + lexeme[k + 1..]) &&
            Scaled(NumberLiteral(code, pos).r, |lexeme[k + 1..]|) == DigitsValue(lexeme[..k] + lexeme[k + 1..]) as real)
  {
    var k := RunEnd(code, pos, IsDigit);
    var end := NumberEnd(code, pos);
    var lexeme := code[pos..end];
    if end == k {
      assert AllDigits(lexeme);
      assert '.' !in lexeme by {
        forall j | 0 <= j < |lexeme| ensures lexeme[j] != '.' { assert IsDigit(lexeme[j]); }
      }
    } else {
      assert lexeme[k - pos] == '.';
      forall j | 0 <= j < |lexeme| && lexeme[j] == '.'
        ensures 0 < j < |lexeme| - 1 && AllDigits(lexeme[..j]) && AllDigits(lexeme[j + 1..])
        ensures NumberLiteral(code, pos).FloatV? && AllDigits(lexeme[..j] + lexeme[j + 1..])
        ensures Scaled(NumberLiteral(code, pos).r, |lexeme[j + 1..]|) == DigitsValue(lexeme[..j] + lexeme[j + 1..]) as real
      {
        FloatLiteralValue(code, pos, j);
      }
    }
  }

  /** The value of a literal with a point at `j`, scaled by ten to the number of digits after
      the point, is the integer the digits spell without the point. */
  lemma FloatLiteralValue(code: string, pos: nat, j: nat)
    requires pos < |code| && IsDigit(code[pos])
    requires pos + j < NumberEnd(code, pos) && code[pos + j] == '.'
    ensures var lexeme := code[pos..NumberEnd(code, pos)];
      0 < j < |lexeme| - 1 && AllDigits(lexeme[..j]) && AllDigits(lexeme[j + 1..]) &&
      NumberLiteral(code, pos).FloatV? && AllDigits(lexeme[..j] + lexeme[j + 1..]) &&
      Scaled(NumberLiteral(code, pos).r, |lexeme[j + 1..]|) == DigitsValue(lexeme[..j] + lexeme[j + 1..]) as real
  {
    var k := RunEnd(code, pos, IsDigit);
    var end := NumberEnd(code, pos);
    var lexeme := code[pos..end];
    assert lexeme[j] == '.';
    if end == k {
      assert IsDigit(code[pos + j]);
    }
    assert end != k;
    var e2 := RunEnd(code, k + 1, IsDigit);
    assert end == e2;
    var i := k - pos;
    forall t | 0 <= t < |lexeme| && t != i ensures IsDigit(lexeme[t]) {
      assert lexeme[t] == code[pos + t];
    }
    PointAt(lexeme, i, j);
    var a, b := code[pos..k], code[k + 1..end];
    assert lexeme[..j] == a && lexeme[j + 1..] == b && end - k - 1 == |b|;
    assert AllDigits(a) && AllDigits(b) && 0 < |a| && 0 < |b|;
    FloatScaled(NumberLiteral(code, pos), lexeme, j, a, b);
  }

  /** A float built from the digits before and after a point, scaled back by ten to the number
      of digits after the point, is the integer all the digits spell. */
  lemma FloatScaled(v: Value, lexeme: string, j: nat, a: string, b: string)
    requires j < |lexeme| && lexeme[..j] == a && lexeme[j + 1..] == b && AllDigits(a) && AllDigits(b)
    requires v == FloatV(DigitsValue(a) as real + DigitsValue(b) as real / Pow10(|b|) as real)
    ensures v.FloatV? && AllDigits(lexeme[..j] + lexeme[j + 1..])
    ensures Scaled(v.r, |lexeme[j + 1..]|) == DigitsValue(lexeme[..j] + lexeme[j + 1..]) as real
  {
    DigitsAppend(a, b);
    ScaledFraction(v.r, DigitsValue(a), DigitsValue(b), |b|, DigitsValue(a + b));
  }

  /** A lexeme whose characters are digits except at `i` has its only point at `i`. */
  lemma PointAt(lexeme: string, i: nat, j: nat)
    requires i < |lexeme| && j < |lexeme| && lexeme[j] == '.'
    requires forall k :: 0 <= k < |lexeme| && k != i ==> IsDigit(lexeme[k])
    ensures j == i
  {
    if j != i {
      assert IsDigit(lexeme[j]);
    }
  }

  /** Digits written after other digits: the first run is worth ten to the length of the second. */
  lemma {:induction false} DigitsAppend(a: string, b: string)
    requires AllDigits(a) && AllDigits(b)
    ensures AllDigits(a + b) && DigitsValue(a + b) == DigitsValue(a) * Pow10(|b|) + DigitsValue(b)
    decreases |b|
  {
    if b == [] {
      assert a + b == a;
    } else {
      var ab := a + b;
      var b' := b[..|b| - 1];
      assert AllDigits(b');
      DigitsAppend(a, b');
      assert AllDigits(ab) by {
        forall k | 0 <= k < |ab| ensures IsDigit(ab[k]) {
          if k < |a| { assert ab[k] == a[k]; } else { assert ab[k] == b[k - |a|]; }
        }
      }
      assert ab[..|ab| - 1] == a + b';
      var l := b[|b| - 1] as int - '0' as int;
      assert ab[|ab| - 1] == b[|b| - 1];
      var va, vb', p' := DigitsValue(a), DigitsValue(b'), Pow10(|b'|);
      assert DigitsValue(ab) == 10 * (va * p' + vb') + l;
      assert DigitsValue(b) == 10 * vb' + l;
      assert Pow10(|b|) == 10 * p';
      TenTimes(va, p');
    }
  }

  lemma TenTimes(x: int, y: int)
    ensures 10 * (x * y) == x * (10 * y)
  {
    calc {
      10 * (x * y);
      x * y + x * y + x * y + x * y + x * y + x * y + x * y + x * y + x * y + x * y;
      x * (10 * y);
    }
  }

  /** Scaling `a + b / p` by `p` clears the fraction. */
  lemma ScaledFraction(x: real, a: nat, b: nat, f: nat, n: nat)
    requires x == a as real + b as real / Pow10(f) as real && n == a * Pow10(f) + b
    ensures Scaled(x, f) == n as real
  {
    var p := Pow10(f) as real;
    assert (b as real / p) * p == b as real;
  }

  /** `x` shifted left by `f` decimal places. */
  function Scaled(x: real, f: nat): real
  {
    x * Pow10(f) as real
  }

  /** Every token but the last is the token of the match at its own position, and that
      position lies in the scanned range. */
  lemma {:induction false} LexTokensAreMatches(code: string, p: nat)
    requires p <= |code|
    ensures LexFrom(code, p).Ok? ==>
      var ts := LexFrom(code, p).value;
      forall i :: 0 <= i < |ts| - 1 ==> p <= ts[i].pos < |code| && TokenAt(code, ts[i].pos) == Some(ts[i])
    decreases |code| - p
  {
    if p < |code| {
      var m := NextMatch(code, p);
      LexStep(code, p);
      if m.group != GMismatch {
        LexTokensAreMatches(code, m.end);
      }
    }
  }

  /** The stream ends with exactly one EOF token, at the end of the text, and no EOF comes earlier. */
  lemma LexSingleEof(code: string)
    ensures LexFrom(code, 0).Ok? ==>
      var ts := LexFrom(code, 0).value;
      && |ts| > 0 && ts[|ts| - 1] == EofAt(|code|)
      && forall i :: 0 <= i < |ts| - 1 ==> ts[i].kind != EOF
  {
    LexTokensAreMatches(code, 0);
    if LexFrom(code, 0).Ok? {
      var ts := LexFrom(code, 0).value;
      assert forall i :: 0 <= i < |ts| - 1 ==> 0 <= ts[i].pos < |code| && TokenAt(code, ts[i].pos) == Some(ts[i]);
      forall i | 0 <= i < |ts| - 1 ensures ts[i].kind != EOF {
        TokenAtShape(code, ts[i].pos);
      }
    }
  }

  /** Token positions strictly increase and all lie at or after the offset the scan starts at. */
  lemma {:induction false} LexPositionsIncrease(code: string, p: nat)
    requires p <= |code|
    ensures LexFrom(code, p).Ok? ==>
      var ts := LexFrom(code, p).value;
      && (forall i :: 0 <= i < |ts| ==> p <= ts[i].pos)
      && (forall i :: 0 < i < |ts| ==> ts[i - 1].pos < ts[i].pos)
    decreases |code| - p
  {
    if p < |code| {
      var m := NextMatch(code, p);
      LexStep(code, p);
      if m.group != GMismatch {
        LexPositionsIncrease(code, m.end);
      }
    }
  }

  /** Every character in `[a, b)` is a blank. */
  predicate BlankRange(code: string, a: nat, b: nat) {
    a <= b <= |code| && forall k :: a <= k < b ==> IsBlank(code[k])
  }

  /** The matches are contiguous: what lies before the first token, and between the end of one
      token's lexeme and the start of the next, is blanks and nothing else. */
  lemma {:induction false} LexGapsAreBlank(code: string, p: nat)
    requires p <= |code|
    ensures LexFrom(code, p).Ok? ==>
      var ts := LexFrom(code, p).value;
      && BlankRange(code, p, ts[0].pos)
      && forall i :: 0 <= i < |ts| - 1 ==>
           ts[i].pos < |code| && BlankRange(code, NextMatch(code, ts[i].pos).end, ts[i + 1].pos)
    decreases |code| - p
  {
    if p < |code| {
      var m := NextMatch(code, p);
      LexStep(code, p);
      if m.group != GMismatch {
        LexGapsAreBlank(code, m.end);
        if LexFrom(code, p).Ok? && m.group != GSkip {
          TokenAtShape(code, p);
          var rest := LexFrom(code, m.end).value;
          var ts := LexFrom(code, p).value;
          assert ts == [TokenAt(code, p).value] + rest;
          assert ts[0].pos == p;
          forall i | 0 <= i < |ts| - 1
            ensures ts[i].pos < |code| && BlankRange(code, NextMatch(code, ts[i].pos).end, ts[i + 1].pos)
          {
            if i > 0 { assert ts[i] == rest[i - 1] && ts[i + 1] == rest[i]; }
          }
        }
      }
    }
  }

  /** The SyntaxError names a character of the text at its own offset, and that character is
      one no alternative but the catch-all accepts. */
  lemma {:induction false} LexErrorCharacter(code: string, p: nat)
    requires p <= |code|
    ensures LexFrom(code, p).Err? ==>
      var e := LexFrom(code, p).error;
      p <= e.pos < |code| && code[e.pos] == e.c && !CanStartToken(e.c)
    decreases |code| - p
  {
    if p < |code| {
      var m := NextMatch(code, p);
      LexStep(code, p);
      if m.group != GMismatch {
        LexErrorCharacter(code, m.end);
      }
    }
  }

  /** A text made only of characters some alternative accepts always tokenizes. */
  lemma {:induction false} LexTotal(code: string, p: nat)
    requires p <= |code|
    requires forall k :: p <= k < |code| ==> CanStartToken(code[k])
    ensures LexFrom(code, p).Ok?
    decreases |code| - p
  {
    if p < |code| {
      var m := NextMatch(code, p);
      LexStep(code, p);
      assert m.group != GMismatch;
      LexTotal(code, m.end);
    }
  }

  /** A run of class characters that stops at `j` ends at `j`. */
  lemma RunEndIs(code: string, i: nat, j: nat, inClass: char -> bool)
    requires i <= j <= |code|
    requires forall k :: i <= k < j ==> inClass(code[k])
    requires j == |code| || !inClass(code[j])
    ensures RunEnd(code, i, inClass) == j
  {
  }

  /** Alternatives are tried in order, so digits directly followed by letters split into a
      NUMBER and an ID. */
  lemma NumberThenIdentifier()
    ensures LexFrom("12ab", 0) == Ok([Token(NUMBER, Numeric(IntV(12)), 0), Token(ID, Text("ab"), 2), EofAt(4)])
  {
    var code := "12ab";
    var num, id := Token(NUMBER, Numeric(IntV(12)), 0), Token(ID, Text("ab"), 2);
    RunEndIs(code, 0, 2, IsDigit);
    RunEndIs(code, 2, 4, IsIdChar);
    assert code[0..2] == "12" && code[2..4] == "ab";
    assert DigitsValue("12") == 12 by { assert "12"[..1] == "1"; }
    assert TokenAt(code, 0) == Some(num);
    assert TokenAt(code, 2) == Some(id);
    assert LexFrom(code, 4) == Ok([EofAt(4)]);
    LexStep(code, 2);
    assert [id] + [EofAt(4)] == [id, EofAt(4)];
    LexStep(code, 0);
    assert [num] + [id, EofAt(4)] == [num, id, EofAt(4)];
  }

  /** The tail of the example below: a float literal, then a newline. */
  lemma FloatNewline(code: string)
    requires code == "function 1.5\n"
    ensures LexFrom(code, 9) ==
      Ok([Token(NUMBER, Numeric(FloatV(1.5)), 9), Token(NEWLINE, Text("\n"), 12), EofAt(13)])
  {
    var num, nl := Token(NUMBER, Numeric(FloatV(1.5)), 9), Token(NEWLINE, Text("\n"), 12);
    assert LexFrom(code, 13) == Ok([EofAt(13)]);
    assert TokenAt(code, 12) == Some(nl);
    LexStep(code, 12);
    assert [nl] + [EofAt(13)] == [nl, EofAt(13)];
    RunEndIs(code, 9, 10, IsDigit);
    RunEndIs(code, 11, 12, IsDigit);
    assert NumberEnd(code, 9) == 12;
    assert code[9..10] == "1" && code[11..12] == "5";
    assert DigitsValue("1") == 1 && DigitsValue("5") == 5;
    assert NumberLiteral(code, 9) == FloatV(1.5);
    assert TokenAt(code, 9) == Some(num);
    LexStep(code, 9);
    assert [num] + [nl, EofAt(13)] == [num, nl, EofAt(13)];
  }

  /** The head of the example below: the keyword is one identifier match. */
  lemma KeywordMatch(code: string)
    requires code == "function 1.5\n"
    ensures NextMatch(code, 0) == Match(GId, 8)
    ensures TokenAt(code, 0) == Some(Token(FUNCTION, Text("function"), 0))
  {
    RunEndIs(code, 0, 8, IsIdChar);
    assert code[0..8] == FunctionKeyword;
  }

  /** The blank after the keyword yields nothing. */
  lemma BlankSkipped(code: string)
    requires code == "function 1.5\n"
    ensures LexFrom(code, 8) == LexFrom(code, 9)
  {
    RunEndIs(code, 8, 9, IsBlank);
    LexStep(code, 8);
  }

  /** The keyword gets its own kind, a number with a point is a float, blanks vanish and the
      newline is a token of its own. */
  lemma KeywordFloatNewline()
    ensures LexFrom("function 1.5\n", 0) ==
      Ok([Token(FUNCTION, Text("function"), 0), Token(NUMBER, Numeric(FloatV(1.5)), 9),
          Token(NEWLINE, Text("\n"), 12), EofAt(13)])
  {
    var code := "function 1.5\n";
    var kw, num, nl := Token(FUNCTION, Text("function"), 0), Token(NUMBER, Numeric(FloatV(1.5)), 9), Token(NEWLINE, Text("\n"), 12);
    FloatNewline(code);
    KeywordMatch(code);
    BlankSkipped(code);
    LexStep(code, 0);
    assert [kw] + [num, nl, EofAt(13)] == [kw, num, nl, EofAt(13)];
  }

  /** An operator character at `pos`, in front of what the scan yields after it. */
  lemma OpToken(code: string, pos: nat, c: char, rest: seq<Token>)
    requires pos < |code| && code[pos] == c && IsOpChar(c) && LexFrom(code, pos + 1) == Ok(rest)
    ensures LexFrom(code, pos) == Ok([Token(OP, Text([c]), pos)] + rest)
  {
    assert code[pos..pos + 1] == [c];
    assert NextMatch(code, pos) == Match(GOp, pos + 1);
    LexStep(code, pos);
  }

  /** `=` at `pos`, in front of what the scan yields after it. */
  lemma AssignToken(code: string, pos: nat, rest: seq<Token>)
    requires pos < |code| && code[pos] == '=' && LexFrom(code, pos + 1) == Ok(rest)
    ensures LexFrom(code, pos) == Ok([Token(ASSIGN, Text("="), pos)] + rest)
  {
    assert code[pos..pos + 1] == "=";
    assert NextMatch(code, pos) == Match(GAssign, pos + 1);
    LexStep(code, pos);
  }

  /** A newline at `pos`, in front of what the scan yields after it. */
  lemma NewlineToken(code: string, pos: nat, rest: seq<Token>)
    requires pos < |code| && code[pos] == '\n' && LexFrom(code, pos + 1) == Ok(rest)
    ensures LexFrom(code, pos) == Ok([Token(NEWLINE, Text("\n"), pos)] + rest)
  {
    assert NextMatch(code, pos) == Match(GNewline, pos + 1);
    LexStep(code, pos);
  }

  /** A digit standing alone, in front of what the scan yields after it: an int of its value. */
  lemma DigitToken(code: string, pos: nat, n: nat, rest: seq<Token>)
    requires pos + 1 < |code| && IsDigit(code[pos]) && !IsDigit(code[pos + 1]) && code[pos + 1] != '.'
    requires code[pos] as int - '0' as int == n && LexFrom(code, pos + 1) == Ok(rest)
    ensures LexFrom(code, pos) == Ok([Token(NUMBER, Numeric(IntV(n)), pos)] + rest)
  {
    RunEndIs(code, pos, pos + 1, IsDigit);
    assert NumberEnd(code, pos) == pos + 1;
    var digit := code[pos..pos + 1];
    assert digit[..0] == [] && digit[0] == code[pos];
    assert DigitsValue(digit) == n;
    assert NumberLiteral(code, pos) == IntV(n);
    assert NextMatch(code, pos) == Match(GNumber, pos + 1);
    LexStep(code, pos);
  }

  /** A lone blank yields nothing. */
  lemma BlankToken(code: string, pos: nat)
    requires pos + 1 < |code| && code[pos] == ' ' && !IsBlank(code[pos + 1])
    ensures LexFrom(code, pos) == LexFrom(code, pos + 1)
  {
    RunEndIs(code, pos, pos + 1, IsBlank);
    LexStep(code, pos);
  }

  /** The characters of `result = 1 + 2 * 3.0` and a newline, one by one. */
  predicate ScriptChars(code: string) {
    && |code| == 21 && code[..6] == "result" && code[6] == ' ' && code[7] == '=' && code[8] == ' '
    && code[9] == '1' && code[10] == ' ' && code[11] == '+' && code[12] == ' ' && code[13] == '2'
    && code[14] == ' ' && code[15] == '*' && code[16] == ' ' && code[17] == '3' && code[18] == '.'
    && code[19] == '0' && code[20] == '\n'
  }

  /** The tail of `result = 1 + 2 * 3.0`: the float and the newline. */
  lemma ScriptFloatTokens(code: string)
    requires ScriptChars(code)
    ensures LexFrom(code, 17) == Ok([Token(NUMBER, Numeric(FloatV(3.0)), 17), Token(NEWLINE, Text("\n"), 20), EofAt(21)])
  {
    var num, nl := Token(NUMBER, Numeric(FloatV(3.0)), 17), Token(NEWLINE, Text("\n"), 20);
    assert LexFrom(code, 21) == Ok([EofAt(21)]);
    NewlineToken(code, 20, [EofAt(21)]);
    assert [nl] + [EofAt(21)] == [nl, EofAt(21)];
    RunEndIs(code, 17, 18, IsDigit);
    RunEndIs(code, 19, 20, IsDigit);
    assert NumberEnd(code, 17) == 20;
    assert code[17..18] == "3" && code[19..20] == "0";
    assert DigitsValue("3") == 3 && DigitsValue("0") == 0;
    assert NumberLiteral(code, 17) == FloatV(3.0);
    assert TokenAt(code, 17) == Some(num);
    LexStep(code, 17);
    assert [num] + [nl, EofAt(21)] == [num, nl, EofAt(21)];
  }

  /** From offset 15 of `result = 1 + 2 * 3.0`: `* 3.0` and the newline. */
  lemma ScriptFrom15(code: string)
    requires ScriptChars(code)
    ensures LexFrom(code, 15) ==
      Ok([Token(OP, Text("*"), 15), Token(NUMBER, Numeric(FloatV(3.0)), 17), Token(NEWLINE, Text("\n"), 20),
          EofAt(21)])
  {
    var rest := [Token(NUMBER, Numeric(FloatV(3.0)), 17), Token(NEWLINE, Text("\n"), 20), EofAt(21)];
    ScriptFloatTokens(code);
    BlankToken(code, 16);
    OpToken(code, 15, '*', rest);
    assert [Token(OP, Text("*"), 15)] + rest ==
      [Token(OP, Text("*"), 15), Token(NUMBER, Numeric(FloatV(3.0)), 17), Token(NEWLINE, Text("\n"), 20),
       EofAt(21)];
  }

  /** From offset 13 of `result = 1 + 2 * 3.0`: `2 * 3.0` and the newline. */
  lemma ScriptFrom13(code: string)
    requires ScriptChars(code)
    ensures LexFrom(code, 13) ==
      Ok([Token(NUMBER, Numeric(IntV(2)), 13), Token(OP, Text("*"), 15), Token(NUMBER, Numeric(FloatV(3.0)), 17),
          Token(NEWLINE, Text("\n"), 20), EofAt(21)])
  {
    var rest := [Token(OP, Text("*"), 15), Token(NUMBER, Numeric(FloatV(3.0)), 17), Token(NEWLINE, Text("\n"), 20),
                 EofAt(21)];
    ScriptFrom15(code);
    BlankToken(code, 14);
    DigitToken(code, 13, 2, rest);
    assert [Token(NUMBER, Numeric(IntV(2)), 13)] + rest ==
      [Token(NUMBER, Numeric(IntV(2)), 13), Token(OP, Text("*"), 15), Token(NUMBER, Numeric(FloatV(3.0)), 17),
       Token(NEWLINE, Text("\n"), 20), EofAt(21)];
  }

  /** From offset 11 of `result = 1 + 2 * 3.0`: `+ 2 * 3.0` and the newline. */
  lemma ScriptFrom11(code: string)
    requires ScriptChars(code)
    ensures LexFrom(code, 11) ==
      Ok([Token(OP, Text("+"), 11), Token(NUMBER, Numeric(IntV(2)), 13), Token(OP, Text("*"), 15),
          Token(NUMBER, Numeric(FloatV(3.0)), 17), Token(NEWLINE, Text("\n"), 20), EofAt(21)])
  {
    var rest := [Token(NUMBER, Numeric(IntV(2)), 13), Token(OP, Text("*"), 15), Token(NUMBER, Numeric(FloatV(3.0)), 17),
                 Token(NEWLINE, Text("\n"), 20), EofAt(21)];
    ScriptFrom13(code);
    BlankToken(code, 12);
    OpToken(code, 11, '+', rest);
    assert [Token(OP, Text("+"), 11)] + rest ==
      [Token(OP, Text("+"), 11), Token(NUMBER, Numeric(IntV(2)), 13), Token(OP, Text("*"), 15),
       Token(NUMBER, Numeric(FloatV(3.0)), 17), Token(NEWLINE, Text("\n"), 20), EofAt(21)];
  }

  /** From offset 9 of `result = 1 + 2 * 3.0`: `1 + 2 * 3.0` and the newline. */
  lemma ScriptFrom9(code: string)
    requires ScriptChars(code)
    ensures LexFrom(code, 9) ==
      Ok([Token(NUMBER, Numeric(IntV(1)), 9), Token(OP, Text("+"), 11), Token(NUMBER, Numeric(IntV(2)), 13),
          Token(OP, Text("*"), 15), Token(NUMBER, Numeric(FloatV(3.0)), 17), Token(NEWLINE, Text("\n"), 20),
          EofAt(21)])
  {
    var rest := [Token(OP, Text("+"), 11), Token(NUMBER, Numeric(IntV(2)), 13), Token(OP, Text("*"), 15),
                 Token(NUMBER, Numeric(FloatV(3.0)), 17), Token(NEWLINE, Text("\n"), 20), EofAt(21)];
    ScriptFrom11(code);
    BlankToken(code, 10);
    DigitToken(code, 9, 1, rest);
    assert [Token(NUMBER, Numeric(IntV(1)), 9)] + rest ==
      [Token(NUMBER, Numeric(IntV(1)), 9), Token(OP, Text("+"), 11), Token(NUMBER, Numeric(IntV(2)), 13),
       Token(OP, Text("*"), 15), Token(NUMBER, Numeric(FloatV(3.0)), 17), Token(NEWLINE, Text("\n"), 20),
       EofAt(21)];
  }

  /** From offset 7 of `result = 1 + 2 * 3.0`: everything after the name. */
  lemma ScriptFrom7(code: string)
    requires ScriptChars(code)
    ensures LexFrom(code, 7) ==
      Ok([Token(ASSIGN, Text("="), 7), Token(NUMBER, Numeric(IntV(1)), 9), Token(OP, Text("+"), 11),
          Token(NUMBER, Numeric(IntV(2)), 13), Token(OP, Text("*"), 15), Token(NUMBER, Numeric(FloatV(3.0)), 17),
          Token(NEWLINE, Text("\n"), 20), EofAt(21)])
  {
    var rest := [Token(NUMBER, Numeric(IntV(1)), 9), Token(OP, Text("+"), 11), Token(NUMBER, Numeric(IntV(2)), 13),
      Token(OP, Text("*"), 15), Token(NUMBER, Numeric(FloatV(3.0)), 17), Token(NEWLINE, Text("\n"), 20), EofAt(21)];
    ScriptFrom9(code);
    BlankToken(code, 8);
    AssignToken(code, 7, rest);
    assert [Token(ASSIGN, Text("="), 7)] + rest ==
      [Token(ASSIGN, Text("="), 7), Token(NUMBER, Numeric(IntV(1)), 9), Token(OP, Text("+"), 11),
       Token(NUMBER, Numeric(IntV(2)), 13), Token(OP, Text("*"), 15), Token(NUMBER, Numeric(FloatV(3.0)), 17),
       Token(NEWLINE, Text("\n"), 20), EofAt(21)];
  }

  /** The name at the start of the script is one identifier match, not the keyword. */
  lemma ScriptName(code: string)
    requires ScriptChars(code)
    ensures NextMatch(code, 0) == Match(GId, 6) && TokenAt(code, 0) == Some(Token(ID, Text("result"), 0))
  {
    RunEndIs(code, 0, 6, IsIdChar);
    assert code[0..6] == "result" && code[0..6] != FunctionKeyword;
  }

  /** The whole assignment scans to its tokens, the newline and EOF. */
  lemma ScriptTokens(code: string)
    requires ScriptChars(code)
    ensures LexFrom(code, 0) ==
      Ok([Token(ID, Text("result"), 0), Token(ASSIGN, Text("="), 7),
          Token(NUMBER, Numeric(IntV(1)), 9), Token(OP, Text("+"), 11), Token(NUMBER, Numeric(IntV(2)), 13),
          Token(OP, Text("*"), 15), Token(NUMBER, Numeric(FloatV(3.0)), 17), Token(NEWLINE, Text("\n"), 20), EofAt(21)])
  {
    var id := Token(ID, Text("result"), 0);
    var rest := [Token(ASSIGN, Text("="), 7), Token(NUMBER, Numeric(IntV(1)), 9), Token(OP, Text("+"), 11),
      Token(NUMBER, Numeric(IntV(2)), 13), Token(OP, Text("*"), 15), Token(NUMBER, Numeric(FloatV(3.0)), 17),
      Token(NEWLINE, Text("\n"), 20), EofAt(21)];
    ScriptFrom7(code);
    BlankToken(code, 6);
    ScriptName(code);
    LexStep(code, 0);
    assert [id] + rest ==
      [id, Token(ASSIGN, Text("="), 7), Token(NUMBER, Numeric(IntV(1)), 9), Token(OP, Text("+"), 11),
       Token(NUMBER, Numeric(IntV(2)), 13), Token(OP, Text("*"), 15), Token(NUMBER, Numeric(FloatV(3.0)), 17),
       Token(NEWLINE, Text("\n"), 20), EofAt(21)];
  }
}
