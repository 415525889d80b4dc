/**
 * The parser reads a token's kind and value and never its position: positions only travel
 * inside the error it raises.  So two token lists that agree on every kind and value parse
 * to the same tree, or both fail.  This is what carries a parse of printed tokens (all at
 * offset 0) over to the tokens the lexer yields for the same text.
 */
module Positions {
  import opened Wrappers
  import opened Ast
  import opened Lexer
  import opened Grammar

  /** Two token lists of the same length that agree on every kind and value. */
  predicate Like(ts: seq<Token>, us: seq<Token>) {
    |ts| == |us| && forall i :: 0 <= i < |ts| ==> ts[i].kind == us[i].kind && ts[i].value == us[i].value
  }

  /** Two parse results that both succeed with the same value, or both fail. */
  predicate SameOk<T(==)>(a: Result<T, ParseError>, b: Result<T, ParseError>) {
    a.Ok? == b.Ok? && (a.Ok? ==> a.value == b.value)
  }

  /** The current token of like lists has the same kind and value, and as many tokens are left. */
  lemma CurLike(ts: seq<Token>, us: seq<Token>, p: nat)
    requires Terminated(ts) && Terminated(us) && Like(ts, us)
    ensures Cur(ts, p).kind == Cur(us, p).kind && Cur(ts, p).value == Cur(us, p).value
    ensures Dist(ts, p) == Dist(us, p)
  {
  }

  lemma ExpectLike(ts: seq<Token>, us: seq<Token>, p: nat, kind: Kind)
    requires Terminated(ts) && Terminated(us) && Like(ts, us)
    ensures SameOk(Expect(ts, p, kind), Expect(us, p, kind))
  {
    CurLike(ts, us, p);
  }

  lemma {:induction false} PrimaryLike(ts: seq<Token>, us: seq<Token>, p: nat)
    requires Terminated(ts) && Terminated(us) && Like(ts, us)
    ensures SameOk(Primary(ts, p), Primary(us, p))
    decreases Dist(ts, p), 0
  {
    CurLike(ts, us, p);
    if Cur(ts, p).kind == LPAREN {
      ExpressionLike(ts, us, p + 1);
      if Expression(ts, p + 1).Ok? {
        CurLike(ts, us, Expression(ts, p + 1).value.next);
      }
    }
  }

  lemma {:induction false} CallPrimaryLike(ts: seq<Token>, us: seq<Token>, p: nat)
    requires Terminated(ts) && Terminated(us) && Like(ts, us)
    ensures SameOk(CallPrimary(ts, p), CallPrimary(us, p))
    decreases Dist(ts, p), 1
  {
    PrimaryLike(ts, us, p);
    if Primary(ts, p).Ok? {
      var Parsed(node, q) := Primary(ts, p).value;
      CallSuffixLike(ts, us, node, q);
    }
  }

  lemma {:induction false} CallSuffixLike(ts: seq<Token>, us: seq<Token>, node: Node, q: nat)
    requires Terminated(ts) && Terminated(us) && Like(ts, us) && IsExpr(node)
    ensures SameOk(CallSuffix(ts, node, q), CallSuffix(us, node, q))
    decreases Dist(ts, q), 0
  {
    CurLike(ts, us, q);
    if Cur(ts, q).kind == LPAREN {
      ArgumentsLike(ts, us, q + 1);
      if Arguments(ts, q + 1).Ok? {
        var Parsed(args, r) := Arguments(ts, q + 1).value;
        CurLike(ts, us, r);
        if Cur(ts, r).kind == RPAREN {
          CallSuffixLike(ts, us, MakeCall(node, args), r + 1);
        }
      }
    }
  }

  lemma {:induction false} ArgumentsLike(ts: seq<Token>, us: seq<Token>, p: nat)
    requires Terminated(ts) && Terminated(us) && Like(ts, us)
    ensures SameOk(Arguments(ts, p), Arguments(us, p))
    decreases Dist(ts, p), 6
  {
    CurLike(ts, us, p);
    if Cur(ts, p).kind != RPAREN {
      ExpressionLike(ts, us, p);
      if Expression(ts, p).Ok? {
        var Parsed(a, q) := Expression(ts, p).value;
        ArgumentsTailLike(ts, us, [a], q);
      }
    }
  }

  lemma {:induction false} ArgumentsTailLike(ts: seq<Token>, us: seq<Token>, acc: seq<Node>, q: nat)
    requires Terminated(ts) && Terminated(us) && Like(ts, us)
    requires forall a :: a in acc ==> IsExpr(a)
    ensures SameOk(ArgumentsTail(ts, acc, q), ArgumentsTail(us, acc, q))
    decreases Dist(ts, q), 0
  {
    CurLike(ts, us, q);
    if Cur(ts, q).kind == COMMA {
      ExpressionLike(ts, us, q + 1);
      if Expression(ts, q + 1).Ok? {
        var Parsed(a, r) := Expression(ts, q + 1).value;
        ArgumentsTailLike(ts, us, acc + [a], r);
      }
    }
  }

  lemma {:induction false} BinaryLike(ts: seq<Token>, us: seq<Token>, p: nat, k: nat)
    requires Terminated(ts) && Terminated(us) && Like(ts, us) && 1 <= k <= 3
    ensures SameOk(Binary(ts, p, k), Binary(us, p, k))
    decreases Dist(ts, p), 1 + k
  {
    var first := if k == 1 then CallPrimary(ts, p) else Binary(ts, p, k - 1);
    if k == 1 { CallPrimaryLike(ts, us, p); } else { BinaryLike(ts, us, p, k - 1); }
    if first.Ok? {
      var Parsed(node, q) := first.value;
      LevelTailLike(ts, us, k, node, q);
    }
  }

  lemma {:induction false} LevelTailLike(ts: seq<Token>, us: seq<Token>, k: nat, left: Node, q: nat)
    requires Terminated(ts) && Terminated(us) && Like(ts, us) && 1 <= k <= 3 && IsExpr(left)
    ensures SameOk(LevelTail(ts, k, left, q), LevelTail(us, k, left, q))
    decreases Dist(ts, q), 0
  {
    CurLike(ts, us, q);
    var t := Cur(ts, q);
    if IsLevelOp(t, k) {
      var right := if k == 1 then CallPrimary(ts, q + 1) else Binary(ts, q + 1, k - 1);
      if k == 1 { CallPrimaryLike(ts, us, q + 1); } else { BinaryLike(ts, us, q + 1, k - 1); }
      if right.Ok? {
        var Parsed(rnode, r) := right.value;
        LevelTailLike(ts, us, k, BinaryOp(t.value.s, left, rnode), r);
      }
    }
  }

  lemma {:induction false} ExpressionLike(ts: seq<Token>, us: seq<Token>, p: nat)
    requires Terminated(ts) && Terminated(us) && Like(ts, us)
    ensures SameOk(Expression(ts, p), Expression(us, p))
    decreases Dist(ts, p), 5
  {
    BinaryLike(ts, us, p, 3);
  }

  lemma {:induction false} ParametersTailLike(ts: seq<Token>, us: seq<Token>, acc: seq<string>, q: nat)
    requires Terminated(ts) && Terminated(us) && Like(ts, us)
    ensures SameOk(ParametersTail(ts, acc, q), ParametersTail(us, acc, q))
    decreases Dist(ts, q)
  {
    CurLike(ts, us, q);
    if Cur(ts, q).kind == COMMA {
      ExpectLike(ts, us, q + 1, ID);
      if Expect(ts, q + 1, ID).Ok? {
        var Parsed(name, r) := Expect(ts, q + 1, ID).value;
        ParametersTailLike(ts, us, acc + [TextOf(name)], r);
      }
    }
  }

  lemma FunctionDefinitionLike(ts: seq<Token>, us: seq<Token>, p: nat)
    requires Terminated(ts) && Terminated(us) && Like(ts, us)
    ensures SameOk(FunctionDefinition(ts, p), FunctionDefinition(us, p))
  {
    ExpectLike(ts, us, p, FUNCTION);
    ExpectLike(ts, us, p + 1, ID);
    ExpectLike(ts, us, p + 2, LPAREN);
    CurLike(ts, us, p + 3);
    ParametersTailLike(ts, us, [TextOf(Cur(ts, p + 3).value)], p + 4);
    if Parameters(ts, p + 3).Ok? {
      var p4 := Parameters(ts, p + 3).value.next;
      ExpectLike(ts, us, p4, RPAREN);
      ExpectLike(ts, us, p4 + 1, ASSIGN);
      ExpressionLike(ts, us, p4 + 2);
      if Expression(ts, p4 + 2).Ok? {
        CurLike(ts, us, Expression(ts, p4 + 2).value.next);
      }
    }
  }

  lemma StatementLike(ts: seq<Token>, us: seq<Token>, p: nat)
    requires Terminated(ts) && Terminated(us) && Like(ts, us)
    ensures SameOk(Statement(ts, p), Statement(us, p))
  {
    CurLike(ts, us, p);
    var t := Cur(ts, p);
    if t.kind == FUNCTION {
      FunctionDefinitionLike(ts, us, p);
    } else {
      var start := if t.kind == ID && ts[p + 1].kind == ASSIGN then p + 2 else p;
      ExpressionLike(ts, us, start);
      if Expression(ts, start).Ok? {
        CurLike(ts, us, Expression(ts, start).value.next);
      }
    }
  }

  lemma {:induction false} StatementsLike(ts: seq<Token>, us: seq<Token>, p: nat, acc: seq<Node>)
    requires Terminated(ts) && Terminated(us) && Like(ts, us)
    ensures SameOk(Statements(ts, p, acc), Statements(us, p, acc))
    decreases Dist(ts, p)
  {
    CurLike(ts, us, p);
    var t := Cur(ts, p);
    if t.kind == NEWLINE {
      StatementsLike(ts, us, p + 1, acc);
    } else if t.kind != EOF {
      StatementLike(ts, us, p);
      if Statement(ts, p).Ok? {
        var Parsed(s, q) := Statement(ts, p).value;
        StatementsLike(ts, us, q, acc + [s]);
      }
    }
  }

  /** Token lists that agree on every kind and value parse to the same program, or both fail. */
  lemma ProgramIgnoresPositions(ts: seq<Token>, us: seq<Token>)
    requires Terminated(ts) && Terminated(us) && Like(ts, us)
    ensures ProgramFrom(ts, 0).Ok? == ProgramFrom(us, 0).Ok?
    ensures ProgramFrom(ts, 0).Ok? ==> ProgramFrom(ts, 0).value == ProgramFrom(us, 0).value
  {
    StatementsLike(ts, us, 0, []);
  }
}
