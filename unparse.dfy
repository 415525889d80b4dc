/**
 * A printer from expression trees back to tokens, with the fewest parentheses the grammar
 * needs, and the proof that the parser inverts it.  The inverse property pins down the
 * parser's precedence and associativity: a left operand of the same level is printed bare
 * and comes back as the left child, while a right operand of the same level needs
 * parentheses.
 */
module Unparse {
  import opened Wrappers
  import opened Values
  import opened Ast
  import opened Lexer
  import opened Grammar

  /** The binary level of an operator: `^` binds tightest (1), then `*` `/` (2), then `+` `-` (3). */
  function Prec(op: string): nat {
    if op == "^" then 1 else if op == "*" || op == "/" then 2 else 3
  }

  /** The loosest level a tree occupies; calls, numbers and variables sit at level 0. */
  function Level(e: Node): nat {
    if e.BinaryOp? then Prec(e.op) else 0
  }

  /** 1 when printing `e` where level `k` is expected needs parentheses. */
  function Flag(e: Node, k: nat): nat {
    if Level(e) > k then 1 else 0
  }

  function Tok(kind: Kind, text: string): Token {
    Token(kind, Text(text), 0)
  }

  function Print(e: Node): (ts: seq<Token>)
    requires IsExpr(e)
    decreases Size(e), 1
  {
    match e
    case Number(v) => [Token(NUMBER, Numeric(v), 0)]
    case Var(x) => [Tok(ID, x)]
    case BinaryOp(op, l, r) => PrintAt(l, Prec(op)) + [Tok(OP, op)] + PrintAt(r, Prec(op) - 1)
    case Call(Named(f), args) => [Tok(ID, f)] + [Tok(LPAREN, "(")] + PrintArgs(args) + [Tok(RPAREN, ")")]
    case Call(Computed(n), args) =>
      assert CalleeSize(e.callee) == Size(n);
      PrintAt(n, 0) + [Tok(LPAREN, "(")] + PrintArgs(args) + [Tok(RPAREN, ")")]
  }

  /** `e` printed where level `k` is expected: in parentheses when it is looser than `k`. */
  function PrintAt(e: Node, k: nat): (ts: seq<Token>)
    requires IsExpr(e)
    decreases Size(e), 2
  {
    if Level(e) > k then [Tok(LPAREN, "(")] + Print(e) + [Tok(RPAREN, ")")] else Print(e)
  }

  function PrintArgs(args: seq<Node>): (ts: seq<Token>)
    requires forall a :: a in args ==> IsExpr(a)
    decreases SizeList(args), 0
  {
    if args == [] then [] else Print(args[0]) + CommaArgs(args[1..])
  }

  function CommaArgs(rest: seq<Node>): (ts: seq<Token>)
    requires forall a :: a in rest ==> IsExpr(a)
    decreases SizeList(rest), 0
  {
    if rest == [] then [] else [Tok(COMMA, ",")] + Print(rest[0]) + CommaArgs(rest[1..])
  }

  /** The tokens of `s` sit in `ts` from index `p` on. */
  predicate At(ts: seq<Token>, p: nat, s: seq<Token>) {
    p + |s| <= |ts| && forall i: nat :: i < |s| ==> Sits(ts, p, s, i)
  }

  /** Token `i` of `s` sits in `ts` at index `p + i`. */
  predicate Sits(ts: seq<Token>, p: nat, s: seq<Token>, i: nat) {
    i < |s| && p + i < |ts| && ts[p + i] == s[i]
  }

  lemma AtConcat(ts: seq<Token>, p: nat, a: seq<Token>, b: seq<Token>)
    requires At(ts, p, a + b)
    ensures At(ts, p, a) && At(ts, p + |a|, b)
  {
    forall i: nat | i < |a| ensures Sits(ts, p, a, i) {
      assert Sits(ts, p, a + b, i);
    }
    var q := p + |a|;
    forall i: nat | i < |b| ensures Sits(ts, q, b, i) {
      assert Sits(ts, p, a + b, |a| + i);
    }
  }

  lemma AtWhole(ts: seq<Token>)
    ensures At(ts, 0, ts)
  {
    forall i: nat | i < |ts| ensures Sits(ts, 0, ts, i) {
    }
  }

  lemma AtIndex(ts: seq<Token>, p: nat, s: seq<Token>, i: nat)
    requires Terminated(ts) && At(ts, p, s) && i < |s|
    ensures Cur(ts, p + i) == ts[p + i] == s[i]
  {
    assert Sits(ts, p, s, i);
  }

  /** The token after an expression that ends it at level `k`: not a call's `(`, and not an
      operator of level `k` or tighter. */
  predicate Stops(t: Token, k: nat) {
    t.kind != LPAREN && (k < 1 || !IsLevelOp(t, 1)) && (k < 2 || !IsLevelOp(t, 2)) && (k < 3 || !IsLevelOp(t, 3))
  }

  /** Parsing at level `k`: 0 is `parse_call_primary`, 1 to 3 the binary levels. */
  function AtLevel(ts: seq<Token>, p: nat, k: nat): Result<Parsed<Node>, ParseError>
    requires Terminated(ts) && k <= 3
  {
    if k == 0 then CallPrimary(ts, p) else Binary(ts, p, k)
  }

  /** The parser reads back a printed expression and stops right after it. */
  lemma {:induction false} ParseAt(e: Node, k: nat, ts: seq<Token>, p: nat)
    requires Terminated(ts) && IsExpr(e) && k <= 3
    requires At(ts, p, PrintAt(e, k))
    requires Stops(Cur(ts, p + |PrintAt(e, k)|), k)
    ensures AtLevel(ts, p, k) == Ok(Parsed(e, p + |PrintAt(e, k)|))
    decreases Size(e), Flag(e, k), 3 * k + 3
  {
    var q := p + |PrintAt(e, k)|;
    if k == 0 {
      CallPrefix(e, ts, p);
      assert CallSuffix(ts, e, q) == Ok(Parsed(e, q));
    } else {
      LevelPrefix(e, k, ts, p);
      assert LevelTail(ts, k, e, q) == Ok(Parsed(e, q));
    }
  }

  /** Reading a binary level over a printed operand leaves the level's loop at the operand,
      whatever operator of that level follows. */
  lemma {:induction false} LevelPrefix(l: Node, j: nat, ts: seq<Token>, p: nat)
    requires Terminated(ts) && IsExpr(l) && 1 <= j <= 3
    requires At(ts, p, PrintAt(l, j))
    requires Stops(Cur(ts, p + |PrintAt(l, j)|), j - 1)
    ensures Binary(ts, p, j) == LevelTail(ts, j, l, p + |PrintAt(l, j)|)
    decreases Size(l), Flag(l, j), 3 * j + 2
  {
    if Level(l) == j {
      OperatorPrefix(l, j, ts, p);
    } else {
      assert PrintAt(l, j) == PrintAt(l, j - 1);
      ParseAt(l, j - 1, ts, p);
    }
  }

  /** The case of `LevelPrefix` where the operand is itself an operation of the level: its left
      operand is read first, then the loop takes its operator and right operand. */
  lemma {:induction false} OperatorPrefix(l: Node, j: nat, ts: seq<Token>, p: nat)
    requires Terminated(ts) && IsExpr(l) && 1 <= j <= 3 && Level(l) == j
    requires At(ts, p, PrintAt(l, j))
    requires Stops(Cur(ts, p + |PrintAt(l, j)|), j - 1)
    ensures Binary(ts, p, j) == LevelTail(ts, j, l, p + |PrintAt(l, j)|)
    decreases Size(l), Flag(l, j), 3 * j + 1
  {
    var BinaryOp(op, l', r') := l;
    var left, right := PrintAt(l', j), PrintAt(r', j - 1);
    assert PrintAt(l, j) == left + [Tok(OP, op)] + right;
    var q1 := OperatorLayout(ts, p, left, op, right);
    var q := q1 + 1 + |right|;
    assert q == p + |PrintAt(l, j)|;
    assert IsArithOperator(op) && Prec(op) == j && Stops(Cur(ts, q1), j - 1);
    LevelPrefix(l', j, ts, p);
    assert IsExpr(r') && Stops(Cur(ts, q1 + 1 + |right|), j - 1);
    ParseAt(r', j - 1, ts, q1 + 1);
    LevelStep(ts, j, l', op, r', q1, q);
  }

  /** Where the left operand, the operator and the right operand of a printed operation sit. */
  lemma OperatorLayout(ts: seq<Token>, p: nat, left: seq<Token>, op: string, right: seq<Token>) returns (q1: nat)
    requires Terminated(ts) && At(ts, p, left + [Tok(OP, op)] + right)
    ensures q1 == p + |left|
    ensures At(ts, p, left) && Cur(ts, q1) == Tok(OP, op) && At(ts, q1 + 1, right)
  {
    q1 := p + |left|;
    AtConcat(ts, p, left + [Tok(OP, op)], right);
    AtConcat(ts, p, left, [Tok(OP, op)]);
    AtIndex(ts, q1, [Tok(OP, op)], 0);
  }

  /** One turn of a level's loop: an operator of the level and the operand after it. */
  lemma LevelStep(ts: seq<Token>, j: nat, l: Node, op: string, r: Node, q1: nat, q: nat)
    requires Terminated(ts) && 1 <= j <= 3 && IsExpr(l) && IsArithOperator(op) && Prec(op) == j
    requires Cur(ts, q1) == Tok(OP, op)
    requires AtLevel(ts, q1 + 1, j - 1) == Ok(Parsed(r, q))
    ensures LevelTail(ts, j, l, q1) == LevelTail(ts, j, BinaryOp(op, l, r), q)
  {
  }

  /** Reading a call-level expression over a printed callee leaves the call loop at the callee. */
  lemma {:induction false} CallPrefix(c: Node, ts: seq<Token>, p: nat)
    requires Terminated(ts) && IsExpr(c)
    requires At(ts, p, PrintAt(c, 0))
    ensures CallPrimary(ts, p) == CallSuffix(ts, c, p + |PrintAt(c, 0)|)
    decreases Size(c), Flag(c, 0), 2
  {
    match c
    case Number(v) =>
      AtIndex(ts, p, PrintAt(c, 0), 0);
    case Var(x) =>
      AtIndex(ts, p, PrintAt(c, 0), 0);
    case BinaryOp(_, _, _) =>
      ParenPrefix(c, ts, p);
    case Call(Named(f), args) =>
      NamedCallPrefix(f, args, ts, p);
    case Call(Computed(n), args) =>
      ComputedCallPrefix(n, args, ts, p);
  }

  /** A call by name: the name is a variable primary, and one turn of the call loop follows. */
  lemma {:induction false} NamedCallPrefix(f: string, args: seq<Node>, ts: seq<Token>, p: nat)
    requires Terminated(ts) && IsExpr(Call(Named(f), args))
    requires At(ts, p, PrintAt(Call(Named(f), args), 0))
    ensures CallPrimary(ts, p) == CallSuffix(ts, Call(Named(f), args), p + |PrintAt(Call(Named(f), args), 0)|)
    decreases Size(Call(Named(f), args)), 0, 1
  {
    var rest := [Tok(LPAREN, "(")] + PrintArgs(args) + [Tok(RPAREN, ")")];
    assert PrintAt(Call(Named(f), args), 0) == [Tok(ID, f)] + rest;
    AtConcat(ts, p, [Tok(ID, f)], rest);
    AtIndex(ts, p, [Tok(ID, f)], 0);
    assert CallPrimary(ts, p) == CallSuffix(ts, Var(f), p + 1);
    CallStep(Var(f), args, ts, p + 1);
  }

  /** A call of a computed callee: the callee is read first, then one turn of the call loop. */
  lemma {:induction false} ComputedCallPrefix(n: Node, args: seq<Node>, ts: seq<Token>, p: nat)
    requires Terminated(ts) && IsExpr(Call(Computed(n), args))
    requires At(ts, p, PrintAt(Call(Computed(n), args), 0))
    ensures CallPrimary(ts, p) == CallSuffix(ts, Call(Computed(n), args), p + |PrintAt(Call(Computed(n), args), 0)|)
    decreases Size(Call(Computed(n), args)), 0, 1
  {
    var rest := [Tok(LPAREN, "(")] + PrintArgs(args) + [Tok(RPAREN, ")")];
    assert PrintAt(Call(Computed(n), args), 0) == PrintAt(n, 0) + rest;
    var q := CalleeLayout(ts, p, PrintAt(n, 0), rest);
    assert CalleeSize(Computed(n)) == Size(n);
    CallPrefix(n, ts, p);
    CallStep(n, args, ts, q);
  }

  /** Where a printed callee and the argument list after it sit. */
  lemma CalleeLayout(ts: seq<Token>, p: nat, callee: seq<Token>, rest: seq<Token>) returns (q: nat)
    requires At(ts, p, callee + rest)
    ensures q == p + |callee| && At(ts, p, callee) && At(ts, q, rest)
  {
    q := p + |callee|;
    AtConcat(ts, p, callee, rest);
  }

  /** A parenthesised binary expression is a primary that yields the tree inside. */
  lemma {:induction false} ParenPrefix(c: Node, ts: seq<Token>, p: nat)
    requires Terminated(ts) && IsExpr(c) && c.BinaryOp?
    requires At(ts, p, PrintAt(c, 0))
    ensures CallPrimary(ts, p) == CallSuffix(ts, c, p + |PrintAt(c, 0)|)
    decreases Size(c), Flag(c, 0), 0
  {
    var body := Print(c);
    assert PrintAt(c, 0) == [Tok(LPAREN, "(")] + body + [Tok(RPAREN, ")")];
    AtConcat(ts, p, [Tok(LPAREN, "(")] + body, [Tok(RPAREN, ")")]);
    AtConcat(ts, p, [Tok(LPAREN, "(")], body);
    AtIndex(ts, p, [Tok(LPAREN, "(")], 0);
    AtIndex(ts, p + 1 + |body|, [Tok(RPAREN, ")")], 0);
    assert PrintAt(c, 3) == body;
    ParseAt(c, 3, ts, p + 1);
    assert Expression(ts, p + 1) == Ok(Parsed(c, p + 1 + |body|));
    assert Primary(ts, p) == Ok(Parsed(c, p + 2 + |body|));
  }

  /** One turn of the call loop over a printed `( arguments )`. */
  lemma {:induction false} CallStep(node: Node, args: seq<Node>, ts: seq<Token>, q: nat)
    requires Terminated(ts) && IsExpr(node) && forall a :: a in args ==> IsExpr(a)
    requires At(ts, q, [Tok(LPAREN, "(")] + PrintArgs(args) + [Tok(RPAREN, ")")])
    ensures CallSuffix(ts, node, q) == CallSuffix(ts, MakeCall(node, args), q + 2 + |PrintArgs(args)|)
    decreases SizeList(args), 0, 1
  {
    var list := PrintArgs(args);
    AtConcat(ts, q, [Tok(LPAREN, "(")] + list, [Tok(RPAREN, ")")]);
    AtConcat(ts, q, [Tok(LPAREN, "(")], list);
    AtIndex(ts, q, [Tok(LPAREN, "(")], 0);
    AtIndex(ts, q + 1 + |list|, [Tok(RPAREN, ")")], 0);
    ArgsLemma(args, ts, q + 1);
  }

  /** The parser reads back a printed argument list that a `)` closes. */
  lemma {:induction false} ArgsLemma(args: seq<Node>, ts: seq<Token>, p: nat)
    requires Terminated(ts) && forall a :: a in args ==> IsExpr(a)
    requires At(ts, p, PrintArgs(args))
    requires Cur(ts, p + |PrintArgs(args)|).kind == RPAREN
    ensures Arguments(ts, p) == Ok(Parsed(args, p + |PrintArgs(args)|))
    decreases SizeList(args), 0, 0
  {
    if args != [] {
      var first := Print(args[0]);
      AtConcat(ts, p, first, CommaArgs(args[1..]));
      assert PrintAt(args[0], 3) == first;
      ArgsStop(args[1..], ts, p + |first|);
      ParseAt(args[0], 3, ts, p);
      PrintStart(args[0]);
      AtIndex(ts, p, first, 0);
      assert Expression(ts, p) == Ok(Parsed(args[0], p + |first|));
      assert Arguments(ts, p) == ArgumentsTail(ts, [args[0]], p + |first|);
      ArgsTailLemma([args[0]], args[1..], ts, p + |first|);
      assert [args[0]] + args[1..] == args;
      assert |PrintArgs(args)| == |first| + |CommaArgs(args[1..])|;
    }
  }

  /** After a printed argument comes a `,` or the closing `)`. */
  lemma ArgsStop(rest: seq<Node>, ts: seq<Token>, q: nat)
    requires Terminated(ts) && forall a :: a in rest ==> IsExpr(a)
    requires At(ts, q, CommaArgs(rest))
    requires Cur(ts, q + |CommaArgs(rest)|).kind == RPAREN
    ensures Stops(Cur(ts, q), 3)
  {
    if rest != [] {
      AtIndex(ts, q, CommaArgs(rest), 0);
    }
  }

  lemma {:induction false} ArgsTailLemma(acc: seq<Node>, rest: seq<Node>, ts: seq<Token>, q: nat)
    requires Terminated(ts)
    requires forall a :: a in acc ==> IsExpr(a)
    requires forall a :: a in rest ==> IsExpr(a)
    requires At(ts, q, CommaArgs(rest))
    requires Cur(ts, q + |CommaArgs(rest)|).kind == RPAREN
    ensures ArgumentsTail(ts, acc, q) == Ok(Parsed(acc + rest, q + |CommaArgs(rest)|))
    decreases SizeList(rest), 0, 0
  {
    if rest == [] {
      assert acc + rest == acc;
    } else {
      var first := Print(rest[0]);
      assert CommaArgs(rest) == [Tok(COMMA, ",")] + first + CommaArgs(rest[1..]);
      AtConcat(ts, q, [Tok(COMMA, ",")] + first, CommaArgs(rest[1..]));
      AtConcat(ts, q, [Tok(COMMA, ",")], first);
      AtIndex(ts, q, [Tok(COMMA, ",")], 0);
      assert PrintAt(rest[0], 3) == first;
      ArgsStop(rest[1..], ts, q + 1 + |first|);
      ParseAt(rest[0], 3, ts, q + 1);
      var acc', rest', q' := acc + [rest[0]], rest[1..], q + 1 + |first|;
      assert Expression(ts, q + 1) == Ok(Parsed(rest[0], q'));
      assert ArgumentsTail(ts, acc, q) == ArgumentsTail(ts, acc', q');
      ArgsTailLemma(acc', rest', ts, q');
      assert acc' + rest' == acc + rest by { AppendHead(acc, rest); }
      assert q' + |CommaArgs(rest')| == q + |CommaArgs(rest)|;
    }
  }

  lemma AppendHead<T>(acc: seq<T>, rest: seq<T>)
    requires rest != []
    ensures acc + [rest[0]] + rest[1..] == acc + rest
  {
    assert [rest[0]] + rest[1..] == rest;
  }

  /** A printed expression starts with a token a primary can start with. */
  lemma {:induction false} PrintStart(e: Node)
    requires IsExpr(e)
    ensures |Print(e)| > 0 && Print(e)[0].kind in {NUMBER, ID, LPAREN}
    decreases Size(e)
  {
    match e
    case Number(_) =>
    case Var(_) =>
    case BinaryOp(op, l, r) =>
      if Level(l) <= Prec(op) {
        PrintStart(l);
      }
      assert Print(e)[0] == PrintAt(l, Prec(op))[0];
    case Call(Named(_), _) =>
    case Call(Computed(n), args) =>
      assert CalleeSize(e.callee) == Size(n);
      if Level(n) == 0 {
        PrintStart(n);
      }
      assert Print(e)[0] == PrintAt(n, 0)[0];
  }

  /** The kinds of token an expression is printed with. */
  predicate ExprTokens(s: seq<Token>) {
    forall i :: 0 <= i < |s| ==> s[i].kind in {NUMBER, ID, OP, LPAREN, RPAREN, COMMA}
  }

  lemma {:induction false} PrintKinds(e: Node)
    requires IsExpr(e)
    ensures ExprTokens(Print(e))
    decreases Size(e), 1
  {
    match e
    case Number(_) =>
    case Var(_) =>
    case BinaryOp(op, l, r) =>
      PrintAtKinds(l, Prec(op));
      PrintAtKinds(r, Prec(op) - 1);
      KindsConcat(PrintAt(l, Prec(op)), [Tok(OP, op)]);
      KindsConcat(PrintAt(l, Prec(op)) + [Tok(OP, op)], PrintAt(r, Prec(op) - 1));
    case Call(Named(f), args) =>
      ArgsKinds(args);
      KindsConcat([Tok(ID, f)], [Tok(LPAREN, "(")]);
      KindsConcat([Tok(ID, f)] + [Tok(LPAREN, "(")], PrintArgs(args));
      KindsConcat([Tok(ID, f)] + [Tok(LPAREN, "(")] + PrintArgs(args), [Tok(RPAREN, ")")]);
    case Call(Computed(n), args) =>
      assert CalleeSize(e.callee) == Size(n);
      PrintAtKinds(n, 0);
      ArgsKinds(args);
      KindsConcat(PrintAt(n, 0), [Tok(LPAREN, "(")]);
      KindsConcat(PrintAt(n, 0) + [Tok(LPAREN, "(")], PrintArgs(args));
      KindsConcat(PrintAt(n, 0) + [Tok(LPAREN, "(")] + PrintArgs(args), [Tok(RPAREN, ")")]);
  }

  lemma {:induction false} PrintAtKinds(e: Node, k: nat)
    requires IsExpr(e)
    ensures ExprTokens(PrintAt(e, k))
    decreases Size(e), 2
  {
    PrintKinds(e);
    if Level(e) > k {
      KindsConcat([Tok(LPAREN, "(")], Print(e));
      KindsConcat([Tok(LPAREN, "(")] + Print(e), [Tok(RPAREN, ")")]);
    }
  }

  lemma KindsConcat(a: seq<Token>, b: seq<Token>)
    requires ExprTokens(a) && ExprTokens(b)
    ensures ExprTokens(a + b)
  {
    assert forall i :: 0 <= i < |a + b| ==> (a + b)[i] == if i < |a| then a[i] else b[i - |a|];
  }

  lemma {:induction false} ArgsKinds(args: seq<Node>)
    requires forall a :: a in args ==> IsExpr(a)
    ensures ExprTokens(PrintArgs(args)) && ExprTokens(CommaArgs(args))
    decreases SizeList(args), 0
  {
    if args != [] {
      PrintKinds(args[0]);
      ArgsKinds(args[1..]);
      KindsConcat(Print(args[0]), CommaArgs(args[1..]));
      KindsConcat([Tok(COMMA, ",")], Print(args[0]));
      KindsConcat([Tok(COMMA, ",")] + Print(args[0]), CommaArgs(args[1..]));
    }
  }

  /** A whole expression printed and followed by EOF parses back to itself and consumes
      everything but the EOF. */
  lemma ExpressionRoundTrip(e: Node)
    requires IsExpr(e)
    ensures var ts := Print(e) + [Tok(EOF, "")];
      Terminated(ts) && Expression(ts, 0) == Ok(Parsed(e, |Print(e)|))
  {
    var ts := Print(e) + [Tok(EOF, "")];
    AtWhole(ts);
    AtConcat(ts, 0, Print(e), [Tok(EOF, "")]);
    assert PrintAt(e, 3) == Print(e);
    AtIndex(ts, |Print(e)|, [Tok(EOF, "")], 0);
    ParseAt(e, 3, ts, 0);
  }

  function Num(n: int): Node { Number(IntV(n)) }
  function NumTok(n: int): Token { Token(NUMBER, Numeric(IntV(n)), 0) }

  lemma PrintPowers()
    ensures Print(BinaryOp("^", BinaryOp("^", Num(2), Num(3)), Num(2)))
         == [NumTok(2), Tok(OP, "^"), NumTok(3), Tok(OP, "^"), NumTok(2)]
  {
    var p23 := BinaryOp("^", Num(2), Num(3));
    assert PrintAt(Num(2), 1) == [NumTok(2)] && PrintAt(Num(3), 0) == [NumTok(3)];
    assert PrintAt(p23, 1) == [NumTok(2)] + [Tok(OP, "^")] + [NumTok(3)];
    assert PrintAt(Num(2), 0) == [NumTok(2)];
  }

  /** `^` is left-associative like the other levels: `2 ^ 3 ^ 2` is `(2 ^ 3) ^ 2`. */
  lemma PowerIsLeftAssociative()
    ensures Expression([NumTok(2), Tok(OP, "^"), NumTok(3), Tok(OP, "^"), NumTok(2), Tok(EOF, "")], 0)
         == Ok(Parsed(BinaryOp("^", BinaryOp("^", Num(2), Num(3)), Num(2)), 5))
  {
    var e := BinaryOp("^", BinaryOp("^", Num(2), Num(3)), Num(2));
    PrintPowers();
    ExpressionRoundTrip(e);
    assert Print(e) + [Tok(EOF, "")] == [NumTok(2), Tok(OP, "^"), NumTok(3), Tok(OP, "^"), NumTok(2), Tok(EOF, "")];
  }

  lemma PrintSubtractions()
    ensures Print(BinaryOp("-", BinaryOp("-", Var("a"), Var("b")), Var("c")))
         == [Tok(ID, "a"), Tok(OP, "-"), Tok(ID, "b"), Tok(OP, "-"), Tok(ID, "c")]
  {
    var ab := BinaryOp("-", Var("a"), Var("b"));
    assert PrintAt(Var("a"), 3) == [Tok(ID, "a")] && PrintAt(Var("b"), 2) == [Tok(ID, "b")];
    assert PrintAt(ab, 3) == [Tok(ID, "a")] + [Tok(OP, "-")] + [Tok(ID, "b")];
    assert PrintAt(Var("c"), 2) == [Tok(ID, "c")];
  }

  /** `a - b - c` is `(a - b) - c`. */
  lemma SubtractionIsLeftAssociative()
    ensures Expression([Tok(ID, "a"), Tok(OP, "-"), Tok(ID, "b"), Tok(OP, "-"), Tok(ID, "c"), Tok(EOF, "")], 0)
         == Ok(Parsed(BinaryOp("-", BinaryOp("-", Var("a"), Var("b")), Var("c")), 5))
  {
    var e := BinaryOp("-", BinaryOp("-", Var("a"), Var("b")), Var("c"));
    PrintSubtractions();
    ExpressionRoundTrip(e);
    assert Print(e) + [Tok(EOF, "")] == [Tok(ID, "a"), Tok(OP, "-"), Tok(ID, "b"), Tok(OP, "-"), Tok(ID, "c"), Tok(EOF, "")];
  }

  lemma PrintPrecedence()
    ensures Print(BinaryOp("+", Num(1), BinaryOp("*", Num(2), BinaryOp("^", Call(Named("f"), [Num(3)]), Num(2)))))
         == [NumTok(1), Tok(OP, "+"), NumTok(2), Tok(OP, "*"), Tok(ID, "f"), Tok(LPAREN, "("),
             NumTok(3), Tok(RPAREN, ")"), Tok(OP, "^"), NumTok(2)]
  {
    var call := Call(Named("f"), [Num(3)]);
    var pow := BinaryOp("^", call, Num(2));
    var mul := BinaryOp("*", Num(2), pow);
    assert [Num(3)][1..] == [] && Print(Num(3)) == [NumTok(3)];
    assert PrintArgs([Num(3)]) == [NumTok(3)];
    assert PrintAt(Num(2), 0) == [NumTok(2)] && PrintAt(Num(2), 2) == [NumTok(2)];
    var callToks := [Tok(ID, "f"), Tok(LPAREN, "("), NumTok(3), Tok(RPAREN, ")")];
    assert PrintAt(call, 1) == callToks;
    assert PrintAt(pow, 1) == callToks + [Tok(OP, "^")] + [NumTok(2)];
    assert PrintAt(mul, 2) == [NumTok(2)] + [Tok(OP, "*")] + PrintAt(pow, 1);
    assert PrintAt(Num(1), 3) == [NumTok(1)];
    assert Print(BinaryOp("+", Num(1), mul)) == [NumTok(1)] + [Tok(OP, "+")] + PrintAt(mul, 2);
  }

  /** `1 + 2 * f(3) ^ 2` is `1 + (2 * (f(3) ^ 2))`: calls bind tightest, then `^`, then `*`, then `+`. */
  lemma PrecedenceLevels()
    ensures Expression([NumTok(1), Tok(OP, "+"), NumTok(2), Tok(OP, "*"), Tok(ID, "f"), Tok(LPAREN, "("),
                        NumTok(3), Tok(RPAREN, ")"), Tok(OP, "^"), NumTok(2), Tok(EOF, "")], 0)
         == Ok(Parsed(BinaryOp("+", Num(1), BinaryOp("*", Num(2), BinaryOp("^", Call(Named("f"), [Num(3)]), Num(2)))), 10))
  {
    var e := BinaryOp("+", Num(1), BinaryOp("*", Num(2), BinaryOp("^", Call(Named("f"), [Num(3)]), Num(2))));
    PrintPrecedence();
    ExpressionRoundTrip(e);
    assert Print(e) + [Tok(EOF, "")] == [NumTok(1), Tok(OP, "+"), NumTok(2), Tok(OP, "*"), Tok(ID, "f"), Tok(LPAREN, "("),
                        NumTok(3), Tok(RPAREN, ")"), Tok(OP, "^"), NumTok(2), Tok(EOF, "")];
  }

  lemma PrintComputedCallee()
    ensures Print(Call(Computed(BinaryOp("+", Var("a"), Var("b"))), []))
         == [Tok(LPAREN, "("), Tok(ID, "a"), Tok(OP, "+"), Tok(ID, "b"), Tok(RPAREN, ")"),
             Tok(LPAREN, "("), Tok(RPAREN, ")")]
  {
    var sum := BinaryOp("+", Var("a"), Var("b"));
    assert PrintAt(Var("a"), 3) == [Tok(ID, "a")] && PrintAt(Var("b"), 2) == [Tok(ID, "b")];
    assert Print(sum) == [Tok(ID, "a")] + [Tok(OP, "+")] + [Tok(ID, "b")];
    assert PrintAt(sum, 0) == [Tok(LPAREN, "(")] + Print(sum) + [Tok(RPAREN, ")")];
    assert PrintArgs([]) == [];
  }

  /** Parentheses leave no node behind, and a call on a computed callee keeps the callee node. */
  lemma ParenthesesAndComputedCallee()
    ensures Expression([Tok(LPAREN, "("), Tok(ID, "a"), Tok(OP, "+"), Tok(ID, "b"), Tok(RPAREN, ")"),
                        Tok(LPAREN, "("), Tok(RPAREN, ")"), Tok(EOF, "")], 0)
         == Ok(Parsed(Call(Computed(BinaryOp("+", Var("a"), Var("b"))), []), 7))
  {
    var e := Call(Computed(BinaryOp("+", Var("a"), Var("b"))), []);
    PrintComputedCallee();
    ExpressionRoundTrip(e);
    assert Print(e) + [Tok(EOF, "")] == [Tok(LPAREN, "("), Tok(ID, "a"), Tok(OP, "+"), Tok(ID, "b"), Tok(RPAREN, ")"),
                        Tok(LPAREN, "("), Tok(RPAREN, ")"), Tok(EOF, "")];
  }

  // ---------------------------------------------------------------------------
  // Statements and programs

  /** The statements the statement grammar yields. */
  predicate IsStatement(s: Node) {
    match s
    case Assign(_, e) => IsExpr(e)
    case FunctionDef(_, _, body) => IsExpr(body)
    case _ => IsExpr(s)
  }

  function NewlineTok(): Token { Tok(NEWLINE, "\n") }

  function PrintParams(ps: seq<string>): seq<Token> {
    if ps == [] then [] else [Tok(ID, ps[0])] + CommaIds(ps[1..])
  }

  function CommaIds(rest: seq<string>): seq<Token> {
    if rest == [] then [] else [Tok(COMMA, ","), Tok(ID, rest[0])] + CommaIds(rest[1..])
  }

  /** A statement on a line of its own. */
  function PrintStatement(s: Node): seq<Token>
    requires IsStatement(s)
  {
    match s
    case Assign(x, e) => [Tok(ID, x), Tok(ASSIGN, "=")] + Print(e) + [NewlineTok()]
    case FunctionDef(f, ps, body) =>
      [Tok(FUNCTION, FunctionKeyword), Tok(ID, f), Tok(LPAREN, "(")] + PrintParams(ps)
      + [Tok(RPAREN, ")"), Tok(ASSIGN, "=")] + Print(body) + [NewlineTok()]
    case _ => Print(s) + [NewlineTok()]
  }

  function Newlines(n: nat): seq<Token> {
    if n == 0 then [] else [NewlineTok()] + Newlines(n - 1)
  }

  /** Statement `i` of a program printed on a line of its own. */
  function StatementLines(stmts: seq<Node>): (lines: seq<seq<Token>>)
    requires forall s :: s in stmts ==> IsStatement(s)
    ensures |lines| == |stmts|
  {
    seq(|stmts|, i requires 0 <= i < |stmts| => PrintStatement(stmts[i]))
  }

  /** A program with `gaps[i]` blank lines before statement `i` and `gaps[|stmts|]` at the end. */
  function PrintProgram(stmts: seq<Node>, gaps: seq<nat>): seq<Token>
    requires |gaps| == |stmts| + 1 && forall s :: s in stmts ==> IsStatement(s)
  {
    Lines(StatementLines(stmts), gaps, 0)
  }

  /** Lines `k` onwards, each after its blank lines, and the blank lines at the end. */
  function Lines(lines: seq<seq<Token>>, gaps: seq<nat>, k: nat): seq<Token>
    requires |gaps| == |lines| + 1 && k <= |lines|
    decreases |lines| - k
  {
    Newlines(gaps[k]) + if k == |lines| then [] else lines[k] + Lines(lines, gaps, k + 1)
  }

  lemma {:induction false} ParamsTailLemma(acc: seq<string>, rest: seq<string>, ts: seq<Token>, q: nat)
    requires Terminated(ts) && At(ts, q, CommaIds(rest))
    requires Cur(ts, q + |CommaIds(rest)|).kind == RPAREN
    ensures ParametersTail(ts, acc, q) == Ok(Parsed(acc + rest, q + |CommaIds(rest)|))
    decreases |rest|
  {
    if rest == [] {
      assert acc + rest == acc;
    } else {
      AtConcat(ts, q, [Tok(COMMA, ","), Tok(ID, rest[0])], CommaIds(rest[1..]));
      AtIndex(ts, q, [Tok(COMMA, ","), Tok(ID, rest[0])], 0);
      AtIndex(ts, q, [Tok(COMMA, ","), Tok(ID, rest[0])], 1);
      ParamsTailLemma(acc + [rest[0]], rest[1..], ts, q + 2);
      assert acc + [rest[0]] + rest[1..] == acc + rest;
    }
  }

  /** The parser reads back a printed parameter list that a `)` closes. */
  lemma ParamsLemma(ps: seq<string>, ts: seq<Token>, p: nat)
    requires Terminated(ts) && At(ts, p, PrintParams(ps))
    requires Cur(ts, p + |PrintParams(ps)|).kind == RPAREN
    ensures Parameters(ts, p) == Ok(Parsed(ps, p + |PrintParams(ps)|))
  {
    if ps != [] {
      AtConcat(ts, p, [Tok(ID, ps[0])], CommaIds(ps[1..]));
      AtIndex(ts, p, [Tok(ID, ps[0])], 0);
      ParamsTailLemma([ps[0]], ps[1..], ts, p + 1);
      assert [ps[0]] + ps[1..] == ps;
    }
  }

  /** The parser reads back a printed statement, with the newline that ends it. */
  lemma StatementLemma(s: Node, ts: seq<Token>, p: nat)
    requires Terminated(ts) && IsStatement(s) && At(ts, p, PrintStatement(s))
    ensures Statement(ts, p) == Ok(Parsed(s, p + |PrintStatement(s)|))
  {
    if s.Assign? {
      AssignLemma(s, ts, p);
    } else if s.FunctionDef? {
      FunctionDefLemma(s, ts, p);
    } else {
      ExpressionStatementLemma(s, ts, p);
    }
  }

  lemma AssignLemma(s: Node, ts: seq<Token>, p: nat)
    requires s.Assign? && Terminated(ts) && IsExpr(s.expr) && At(ts, p, PrintStatement(s))
    ensures Statement(ts, p) == Ok(Parsed(s, p + |PrintStatement(s)|))
  {
    var x, e := s.name, s.expr;
    var head, nl := [Tok(ID, x), Tok(ASSIGN, "=")], [NewlineTok()];
    assert PrintStatement(Assign(x, e)) == head + Print(e) + nl;
    var q := AssignLayout(ts, p, x, Print(e));
    AssignParts(ts, p, x, e, q);
  }

  /** Where the target, `=`, the expression and the newline of a printed assignment sit. */
  lemma AssignLayout(ts: seq<Token>, p: nat, x: string, text: seq<Token>) returns (q: nat)
    requires Terminated(ts) && At(ts, p, [Tok(ID, x), Tok(ASSIGN, "=")] + text + [NewlineTok()])
    ensures q == p + 2 + |text|
    ensures Cur(ts, p) == Tok(ID, x) && p + 1 < |ts| && ts[p + 1].kind == ASSIGN
    ensures At(ts, p + 2, text) && Cur(ts, q).kind == NEWLINE
  {
    var head, nl := [Tok(ID, x), Tok(ASSIGN, "=")], [NewlineTok()];
    q := p + 2 + |text|;
    AtConcat(ts, p, head + text, nl);
    AtConcat(ts, p, head, text);
    AtIndex(ts, p, head, 0);
    AtIndex(ts, p, head, 1);
    AtIndex(ts, q, nl, 0);
  }

  lemma AssignParts(ts: seq<Token>, p: nat, x: string, e: Node, q: nat)
    requires Terminated(ts) && IsExpr(e) && q == p + 2 + |Print(e)|
    requires Cur(ts, p) == Tok(ID, x) && p + 1 < |ts| && ts[p + 1].kind == ASSIGN
    requires At(ts, p + 2, Print(e)) && Cur(ts, q).kind == NEWLINE
    ensures Statement(ts, p) == Ok(Parsed(Assign(x, e), q + 1))
  {
    ExpressionAt(e, ts, p + 2);
    AssignStep(ts, p, x, e, q);
  }

  /** The parser reads back a printed expression that a newline, `)`, `,` or EOF follows. */
  lemma ExpressionAt(e: Node, ts: seq<Token>, p: nat)
    requires Terminated(ts) && IsExpr(e) && At(ts, p, Print(e))
    requires Cur(ts, p + |Print(e)|).kind in {NEWLINE, RPAREN, COMMA, EOF}
    ensures Expression(ts, p) == Ok(Parsed(e, p + |Print(e)|))
  {
    assert PrintAt(e, 3) == Print(e);
    ParseAt(e, 3, ts, p);
  }

  lemma AssignStep(ts: seq<Token>, p: nat, x: string, e: Node, q: nat)
    requires Terminated(ts)
    requires Cur(ts, p) == Tok(ID, x) && p + 1 < |ts| && ts[p + 1].kind == ASSIGN
    requires Expression(ts, p + 2) == Ok(Parsed(e, q)) && Cur(ts, q).kind == NEWLINE
    ensures Statement(ts, p) == Ok(Parsed(Assign(x, e), q + 1))
  {
  }

  lemma FunctionDefLemma(s: Node, ts: seq<Token>, p: nat)
    requires s.FunctionDef? && Terminated(ts) && IsExpr(s.body) && At(ts, p, PrintStatement(s))
    ensures Statement(ts, p) == Ok(Parsed(s, p + |PrintStatement(s)|))
  {
    var f, ps, body := s.name, s.params, s.body;
    var head := [Tok(FUNCTION, FunctionKeyword), Tok(ID, f), Tok(LPAREN, "(")];
    var mid, nl := [Tok(RPAREN, ")"), Tok(ASSIGN, "=")], [NewlineTok()];
    assert PrintStatement(FunctionDef(f, ps, body)) == head + PrintParams(ps) + mid + Print(body) + nl;
    var p4, q := FunctionDefLayout(ts, p, f, PrintParams(ps), Print(body));
    FunctionDefParts(ts, p, f, ps, p4, body, q);
  }

  /** Where the parts of a printed function definition sit. */
  lemma FunctionDefLayout(ts: seq<Token>, p: nat, f: string, params: seq<Token>, body: seq<Token>) returns (p4: nat, q: nat)
    requires Terminated(ts)
    requires At(ts, p, [Tok(FUNCTION, FunctionKeyword), Tok(ID, f), Tok(LPAREN, "(")] + params
                       + [Tok(RPAREN, ")"), Tok(ASSIGN, "=")] + body + [NewlineTok()])
    ensures p4 == p + 3 + |params| && q == p4 + 2 + |body|
    ensures Cur(ts, p).kind == FUNCTION && Cur(ts, p + 1) == Tok(ID, f) && Cur(ts, p + 2).kind == LPAREN
    ensures At(ts, p + 3, params) && Cur(ts, p4).kind == RPAREN && Cur(ts, p4 + 1).kind == ASSIGN
    ensures At(ts, p4 + 2, body) && Cur(ts, q).kind == NEWLINE
  {
    var head := [Tok(FUNCTION, FunctionKeyword), Tok(ID, f), Tok(LPAREN, "(")];
    var mid, nl := [Tok(RPAREN, ")"), Tok(ASSIGN, "=")], [NewlineTok()];
    p4 := p + 3 + |params|;
    q := p4 + 2 + |body|;
    AtSplit5(ts, p, head, params, mid, body, nl);
    AtIndex(ts, p, head, 0);
    AtIndex(ts, p, head, 1);
    AtIndex(ts, p, head, 2);
    AtIndex(ts, p4, mid, 0);
    AtIndex(ts, p4, mid, 1);
    AtIndex(ts, q, nl, 0);
  }

  lemma FunctionDefParts(ts: seq<Token>, p: nat, f: string, ps: seq<string>, p4: nat, body: Node, q: nat)
    requires Terminated(ts) && IsExpr(body)
    requires p4 == p + 3 + |PrintParams(ps)| && q == p4 + 2 + |Print(body)|
    requires Cur(ts, p).kind == FUNCTION && Cur(ts, p + 1) == Tok(ID, f) && Cur(ts, p + 2).kind == LPAREN
    requires At(ts, p + 3, PrintParams(ps)) && Cur(ts, p4).kind == RPAREN && Cur(ts, p4 + 1).kind == ASSIGN
    requires At(ts, p4 + 2, Print(body)) && Cur(ts, q).kind == NEWLINE
    ensures Statement(ts, p) == Ok(Parsed(FunctionDef(f, ps, body), q + 1))
  {
    ParamsLemma(ps, ts, p + 3);
    ExpressionAt(body, ts, p4 + 2);
    FunctionDefStep(ts, p, f, ps, p4, body, q);
  }

  lemma AtSplit5(ts: seq<Token>, p: nat, a: seq<Token>, b: seq<Token>, c: seq<Token>, d: seq<Token>, e: seq<Token>)
    requires At(ts, p, a + b + c + d + e)
    ensures At(ts, p, a) && At(ts, p + |a|, b) && At(ts, p + |a| + |b|, c)
    ensures At(ts, p + |a| + |b| + |c|, d) && At(ts, p + |a| + |b| + |c| + |d|, e)
  {
    AtConcat(ts, p, a + b + c + d, e);
    AtConcat(ts, p, a + b + c, d);
    AtConcat(ts, p, a + b, c);
    AtConcat(ts, p, a, b);
  }

  lemma FunctionDefStep(ts: seq<Token>, p: nat, f: string, ps: seq<string>, p4: nat, body: Node, q: nat)
    requires Terminated(ts)
    requires Cur(ts, p).kind == FUNCTION && Cur(ts, p + 1) == Tok(ID, f) && Cur(ts, p + 2).kind == LPAREN
    requires Parameters(ts, p + 3) == Ok(Parsed(ps, p4))
    requires Cur(ts, p4).kind == RPAREN && Cur(ts, p4 + 1).kind == ASSIGN
    requires Expression(ts, p4 + 2) == Ok(Parsed(body, q)) && Cur(ts, q).kind == NEWLINE
    ensures Statement(ts, p) == Ok(Parsed(FunctionDef(f, ps, body), q + 1))
  {
    assert FunctionDefinition(ts, p) == Ok(Parsed(FunctionDef(f, ps, body), q + 1));
  }

  lemma ExpressionStatementLemma(s: Node, ts: seq<Token>, p: nat)
    requires Terminated(ts) && IsExpr(s) && At(ts, p, PrintStatement(s))
    ensures Statement(ts, p) == Ok(Parsed(s, p + |PrintStatement(s)|))
  {
    var q := ExpressionLine(s, ts, p);
    ExpressionStep(ts, p, s, q);
  }

  /** The expression of an expression line is read up to the line's newline. */
  lemma ExpressionLine(s: Node, ts: seq<Token>, p: nat) returns (q: nat)
    requires Terminated(ts) && IsExpr(s) && At(ts, p, PrintStatement(s))
    ensures q + 1 == p + |PrintStatement(s)|
    ensures Expression(ts, p) == Ok(Parsed(s, q)) && Cur(ts, q).kind == NEWLINE
    ensures Cur(ts, p).kind != FUNCTION && (Cur(ts, p).kind == ID ==> p + 1 < |ts| && ts[p + 1].kind != ASSIGN)
  {
    var text := Print(s);
    assert PrintStatement(s) == text + [NewlineTok()];
    PrintStart(s);
    PrintKinds(s);
    ExpressionLineLayout(ts, p, text);
    ExpressionAt(s, ts, p);
    q := p + |text|;
  }

  /** A line holding the tokens of an expression neither starts with `function` nor with an
      ID and `=`. */
  lemma ExpressionLineLayout(ts: seq<Token>, p: nat, text: seq<Token>)
    requires Terminated(ts) && At(ts, p, text + [NewlineTok()])
    requires ExprTokens(text) && |text| > 0 && text[0].kind in {NUMBER, ID, LPAREN}
    ensures At(ts, p, text) && Cur(ts, p + |text|).kind == NEWLINE
    ensures Cur(ts, p).kind != FUNCTION && (Cur(ts, p).kind == ID ==> p + 1 < |ts| && ts[p + 1].kind != ASSIGN)
  {
    AtConcat(ts, p, text, [NewlineTok()]);
    AtIndex(ts, p + |text|, [NewlineTok()], 0);
    AtIndex(ts, p, text, 0);
    if |text| > 1 {
      AtIndex(ts, p, text, 1);
    }
  }

  lemma ExpressionStep(ts: seq<Token>, p: nat, e: Node, q: nat)
    requires Terminated(ts)
    requires Cur(ts, p).kind != FUNCTION && (Cur(ts, p).kind == ID ==> p + 1 < |ts| && ts[p + 1].kind != ASSIGN)
    requires Expression(ts, p) == Ok(Parsed(e, q)) && Cur(ts, q).kind == NEWLINE
    ensures Statement(ts, p) == Ok(Parsed(e, q + 1))
  {
  }

  /** Blank lines between statements are skipped. */
  lemma {:induction false} NewlinesLemma(n: nat, ts: seq<Token>, p: nat, acc: seq<Node>)
    requires Terminated(ts) && At(ts, p, Newlines(n))
    ensures Statements(ts, p, acc) == Statements(ts, p + n, acc)
  {
    if n > 0 {
      AtConcat(ts, p, [NewlineTok()], Newlines(n - 1));
      AtIndex(ts, p, [NewlineTok()], 0);
      NewlinesLemma(n - 1, ts, p + 1, acc);
    }
  }

  /** Wherever line `i` sits in `ts`, the statement parser reads it back as statement `i`. */
  ghost predicate LinesParse(ts: seq<Token>, lines: seq<seq<Token>>, stmts: seq<Node>)
    requires Terminated(ts) && |lines| == |stmts|
  {
    forall i, q: nat {:trigger At(ts, q, lines[i])} :: 0 <= i < |lines| && At(ts, q, lines[i]) ==>
      Statement(ts, q) == Ok(Parsed(stmts[i], q + |lines[i]|))
  }

  /** No line is empty, and none starts with the end of input or a newline. */
  predicate LinesStart(lines: seq<seq<Token>>) {
    forall i :: 0 <= i < |lines| ==> |lines[i]| > 0 && lines[i][0].kind !in {EOF, NEWLINE}
  }

  /** One line per statement, each read back as its statement wherever it sits. */
  ghost predicate LinesRead(ts: seq<Token>, lines: seq<seq<Token>>, stmts: seq<Node>)
    requires Terminated(ts)
  {
    |lines| == |stmts| && LinesParse(ts, lines, stmts) && LinesStart(lines)
  }

  /** Lines that the statement parser reads back, with blank lines around them, give the
      statement list. */
  lemma {:induction false} LinesLemma(lines: seq<seq<Token>>, stmts: seq<Node>, gaps: seq<nat>, k: nat, ts: seq<Token>, p: nat)
    requires Terminated(ts) && |gaps| == |lines| + 1 && k <= |lines| && LinesRead(ts, lines, stmts)
    requires At(ts, p, Lines(lines, gaps, k)) && Cur(ts, p + |Lines(lines, gaps, k)|).kind == EOF
    ensures Statements(ts, p, stmts[..k]) == Ok(stmts)
    decreases |lines| - k
  {
    if k == |lines| {
      assert Lines(lines, gaps, k) == Newlines(gaps[k]) + [];
      ProgramEnd(stmts[..k], gaps[k], ts, p);
      assert stmts[..k] == stmts;
    } else {
      var r := LinesNext(lines, stmts, gaps, k, ts, p);
      LinesLemma(lines, stmts, gaps, k + 1, ts, r);
    }
  }

  /** Blank lines before EOF end the statement list. */
  lemma ProgramEnd(acc: seq<Node>, n: nat, ts: seq<Token>, p: nat)
    requires Terminated(ts) && At(ts, p, Newlines(n) + []) && Cur(ts, p + |Newlines(n) + []|).kind == EOF
    ensures Statements(ts, p, acc) == Ok(acc)
  {
    assert Newlines(n) + [] == Newlines(n);
    NewlinesLength(n);
    NewlinesLemma(n, ts, p, acc);
  }

  /** The blank lines and line `k` are read back, leaving the rest at `r`. */
  lemma LinesNext(lines: seq<seq<Token>>, stmts: seq<Node>, gaps: seq<nat>, k: nat, ts: seq<Token>, p: nat) returns (r: nat)
    requires Terminated(ts) && |gaps| == |lines| + 1 && k < |lines| && LinesRead(ts, lines, stmts)
    requires At(ts, p, Lines(lines, gaps, k)) && Cur(ts, p + |Lines(lines, gaps, k)|).kind == EOF
    ensures At(ts, r, Lines(lines, gaps, k + 1)) && Cur(ts, r + |Lines(lines, gaps, k + 1)|).kind == EOF
    ensures Statements(ts, p, stmts[..k]) == Statements(ts, r, stmts[..k + 1])
  {
    LineHead(ts, lines, stmts, k);
    var q;
    q, r := LinesSplit(lines, gaps, k, ts, p);
    LineAt(ts, lines, stmts, k, q);
    var acc, s := stmts[..k], stmts[k];
    NewlinesLemma(gaps[k], ts, p, acc);
    StatementsStep(ts, q, acc, s, r);
    assert acc + [s] == stmts[..k + 1];
  }

  lemma LineHead(ts: seq<Token>, lines: seq<seq<Token>>, stmts: seq<Node>, k: nat)
    requires Terminated(ts) && LinesRead(ts, lines, stmts) && k < |lines|
    ensures |lines[k]| > 0 && lines[k][0].kind !in {EOF, NEWLINE}
  {
    assert LinesStart(lines);
  }

  lemma LineAt(ts: seq<Token>, lines: seq<seq<Token>>, stmts: seq<Node>, k: nat, q: nat)
    requires Terminated(ts) && LinesRead(ts, lines, stmts) && k < |lines| && At(ts, q, lines[k])
    ensures Statement(ts, q) == Ok(Parsed(stmts[k], q + |lines[k]|))
  {
    assert LinesParse(ts, lines, stmts);
  }

  /** Where the blank lines, line `k` and the lines after it sit. */
  lemma LinesSplit(lines: seq<seq<Token>>, gaps: seq<nat>, k: nat, ts: seq<Token>, p: nat) returns (q: nat, r: nat)
    requires Terminated(ts) && |gaps| == |lines| + 1 && k < |lines|
    requires |lines[k]| > 0 && lines[k][0].kind !in {EOF, NEWLINE}
    requires At(ts, p, Lines(lines, gaps, k)) && Cur(ts, p + |Lines(lines, gaps, k)|).kind == EOF
    ensures q == p + gaps[k] && r == q + |lines[k]| && At(ts, p, Newlines(gaps[k]))
    ensures At(ts, q, lines[k]) && Cur(ts, q).kind !in {EOF, NEWLINE}
    ensures At(ts, r, Lines(lines, gaps, k + 1)) && Cur(ts, r + |Lines(lines, gaps, k + 1)|).kind == EOF
  {
    assert Lines(lines, gaps, k) == Newlines(gaps[k]) + (lines[k] + Lines(lines, gaps, k + 1));
    q, r := Layout(ts, p, gaps[k], lines[k], Lines(lines, gaps, k + 1));
  }

  /** Where blank lines, a statement and the rest of a printed program sit. */
  lemma Layout(ts: seq<Token>, p: nat, n: nat, first: seq<Token>, rest: seq<Token>) returns (q: nat, r: nat)
    requires Terminated(ts) && At(ts, p, Newlines(n) + (first + rest))
    requires Cur(ts, p + |Newlines(n) + (first + rest)|).kind == EOF
    requires |first| > 0 && first[0].kind !in {EOF, NEWLINE}
    ensures q == p + n && r == q + |first|
    ensures At(ts, p, Newlines(n)) && At(ts, q, first) && At(ts, r, rest)
    ensures Cur(ts, r + |rest|).kind == EOF && Cur(ts, q).kind !in {EOF, NEWLINE}
  {
    NewlinesLength(n);
    q := p + n;
    r := q + |first|;
    AtConcat(ts, p, Newlines(n), first + rest);
    AtConcat(ts, q, first, rest);
    AtIndex(ts, q, first, 0);
  }

  lemma StatementsStep(ts: seq<Token>, q: nat, acc: seq<Node>, s: Node, r: nat)
    requires Terminated(ts) && Cur(ts, q).kind !in {EOF, NEWLINE}
    requires Statement(ts, q) == Ok(Parsed(s, r))
    ensures Statements(ts, q, acc) == Statements(ts, r, acc + [s])
  {
  }

  lemma {:induction false} NewlinesLength(n: nat)
    ensures |Newlines(n)| == n
  {
    if n > 0 {
      NewlinesLength(n - 1);
    }
  }

  lemma PrintStatementStart(s: Node)
    requires IsStatement(s)
    ensures |PrintStatement(s)| > 0 && PrintStatement(s)[0].kind !in {EOF, NEWLINE}
  {
    if !s.Assign? && !s.FunctionDef? {
      PrintStart(s);
    }
  }

  /** A printed program, with any number of blank lines around its statements, parses back
      to the same statements in the same order. */
  lemma ProgramRoundTrip(stmts: seq<Node>, gaps: seq<nat>)
    requires |gaps| == |stmts| + 1 && forall s :: s in stmts ==> IsStatement(s)
    ensures var ts := PrintProgram(stmts, gaps) + [Tok(EOF, "")];
      Terminated(ts) && ProgramFrom(ts, 0) == Ok(Program(stmts))
  {
    var lines := StatementLines(stmts);
    var text := Lines(lines, gaps, 0);
    var ts := text + [Tok(EOF, "")];
    assert Terminated(ts) && At(ts, 0, text) && Cur(ts, |text|).kind == EOF by {
      AtWhole(ts);
      AtConcat(ts, 0, text, [Tok(EOF, "")]);
      AtIndex(ts, |text|, [Tok(EOF, "")], 0);
    }
    ProgramLinesRead(stmts, ts);
    LinesLemma(lines, stmts, gaps, 0, ts, 0);
    assert stmts[..0] == [];
  }

  /** The lines of a printed program are read back wherever they sit. */
  lemma ProgramLinesRead(stmts: seq<Node>, ts: seq<Token>)
    requires Terminated(ts) && forall s :: s in stmts ==> IsStatement(s)
    ensures LinesRead(ts, StatementLines(stmts), stmts)
  {
    var lines := StatementLines(stmts);
    ProgramLinesParse(stmts, lines, ts);
    ProgramLinesStart(stmts, lines);
  }

  lemma ProgramLinesParse(stmts: seq<Node>, lines: seq<seq<Token>>, ts: seq<Token>)
    requires Terminated(ts) && forall s :: s in stmts ==> IsStatement(s)
    requires lines == StatementLines(stmts)
    ensures LinesParse(ts, lines, stmts)
  {
    forall i, q: nat | 0 <= i < |lines| && At(ts, q, lines[i])
      ensures Statement(ts, q) == Ok(Parsed(stmts[i], q + |lines[i]|))
    {
      LineRead(stmts, lines, ts, i, q);
    }
  }

  lemma ProgramLinesStart(stmts: seq<Node>, lines: seq<seq<Token>>)
    requires forall s :: s in stmts ==> IsStatement(s)
    requires lines == StatementLines(stmts)
    ensures LinesStart(lines)
  {
    forall i | 0 <= i < |lines| ensures |lines[i]| > 0 && lines[i][0].kind !in {EOF, NEWLINE} {
      LineStart(stmts, lines, i);
    }
  }

  lemma LineRead(stmts: seq<Node>, lines: seq<seq<Token>>, ts: seq<Token>, i: nat, q: nat)
    requires Terminated(ts) && forall s :: s in stmts ==> IsStatement(s)
    requires lines == StatementLines(stmts)
    requires i < |lines| && At(ts, q, lines[i])
    ensures Statement(ts, q) == Ok(Parsed(stmts[i], q + |lines[i]|))
  {
    var s, line := stmts[i], lines[i];
    assert s in stmts && line == PrintStatement(s);
    StatementLemma(s, ts, q);
  }

  lemma LineStart(stmts: seq<Node>, lines: seq<seq<Token>>, i: nat)
    requires forall s :: s in stmts ==> IsStatement(s)
    requires lines == StatementLines(stmts)
    requires i < |lines|
    ensures |lines[i]| > 0 && lines[i][0].kind !in {EOF, NEWLINE}
  {
    assert stmts[i] in stmts;
    assert lines[i] == PrintStatement(stmts[i]);
    PrintStatementStart(stmts[i]);
  }

  /** No separator is needed between statements: `x = 1 y` is two statements. */
  lemma NoSeparatorNeeded(ts: seq<Token>)
    requires ts == [Tok(ID, "x"), Tok(ASSIGN, "="), NumTok(1), Tok(ID, "y"), Tok(EOF, "")]
    ensures ProgramFrom(ts, 0) == Ok(Program([Assign("x", Num(1)), Var("y")]))
  {
    FirstOfTwoStatements(ts);
    SecondOfTwoStatements(ts);
    assert Statements(ts, 4, [Assign("x", Num(1)), Var("y")]) == Ok([Assign("x", Num(1)), Var("y")]);
    assert [Assign("x", Num(1))] + [Var("y")] == [Assign("x", Num(1)), Var("y")];
    assert Statements(ts, 3, [Assign("x", Num(1))]) == Ok([Assign("x", Num(1)), Var("y")]);
    assert [] + [Assign("x", Num(1))] == [Assign("x", Num(1))];
  }

  lemma FirstOfTwoStatements(ts: seq<Token>)
    requires ts == [Tok(ID, "x"), Tok(ASSIGN, "="), NumTok(1), Tok(ID, "y"), Tok(EOF, "")]
    ensures Statement(ts, 0) == Ok(Parsed(Assign("x", Num(1)), 3))
  {
    assert Cur(ts, 2) == NumTok(1) && Cur(ts, 3) == Tok(ID, "y");
    assert Primary(ts, 2) == Ok(Parsed(Num(1), 3));
    assert CallPrimary(ts, 2) == Ok(Parsed(Num(1), 3));
    assert Binary(ts, 2, 1) == Ok(Parsed(Num(1), 3));
    assert !IsLevelOp(Cur(ts, 3), 1) && !IsLevelOp(Cur(ts, 3), 2) && !IsLevelOp(Cur(ts, 3), 3);
    assert Binary(ts, 2, 2) == Ok(Parsed(Num(1), 3));
    assert Binary(ts, 2, 3) == Ok(Parsed(Num(1), 3));
    assert Expression(ts, 2) == Ok(Parsed(Num(1), 3));
  }

  lemma SecondOfTwoStatements(ts: seq<Token>)
    requires ts == [Tok(ID, "x"), Tok(ASSIGN, "="), NumTok(1), Tok(ID, "y"), Tok(EOF, "")]
    ensures Statement(ts, 3) == Ok(Parsed(Var("y"), 4))
  {
    assert Cur(ts, 3) == Tok(ID, "y") && Cur(ts, 4) == Tok(EOF, "");
    assert Primary(ts, 3) == Ok(Parsed(Var("y"), 4));
    assert CallPrimary(ts, 3) == Ok(Parsed(Var("y"), 4));
    assert Binary(ts, 3, 1) == Ok(Parsed(Var("y"), 4));
    assert !IsLevelOp(Cur(ts, 4), 1) && !IsLevelOp(Cur(ts, 4), 2) && !IsLevelOp(Cur(ts, 4), 3);
    assert Binary(ts, 3, 2) == Ok(Parsed(Var("y"), 4));
    assert Binary(ts, 3, 3) == Ok(Parsed(Var("y"), 4));
    assert Expression(ts, 3) == Ok(Parsed(Var("y"), 4));
  }
}
