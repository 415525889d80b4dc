/**
 * The parser object (src/parser.py): the token list, the index `pos` and the lookahead token
 * `current`, with one method per grammar rule.  Every parse method is proved to return what
 * the matching function of `Grammar` yields and to leave `pos` where that function says.
 */
module Parsing {
  import opened Wrappers
  import opened Values
  import opened Ast
  import opened Lexer
  import opened Grammar

  /** A method's result agrees with the grammar's: the same node and the same next index, or
      the same SyntaxError (after which the parser is abandoned, so its index is not stated). */
  predicate Agrees<T(==)>(spec: Result<Parsed<T>, ParseError>, r: Result<T, ParseError>, pos: nat) {
    match spec
    case Ok(Parsed(v, n)) => r == Ok(v) && pos == n
    case Err(e) => r == Err(e)
  }

  class Parser {
    const tokens: seq<Token>
    var pos: nat
    var current: Token

    predicate Valid()
      reads this
    {
      Terminated(tokens) && current == Cur(tokens, pos)
    }

    /** The source's constructor also runs the lexer; here it receives the lexer's output
        (see `ParseSource`). */
    constructor (tokens: seq<Token>)
      requires Terminated(tokens)
      ensures Valid() && this.tokens == tokens && pos == 0
    {
      this.tokens := tokens;
      pos := 0;
      current := tokens[0];
    }

    /** `advance`: `pos` always grows, but `current` never moves past the last token, so once
        it is EOF it stays EOF. */
    method Advance() returns (t: Token)
      requires Valid()
      modifies this
      ensures Valid()
      ensures pos == old(pos) + 1 && t == current
      ensures current == if pos < |tokens| then tokens[pos] else old(current)
      ensures old(current).kind == EOF && old(pos) + 1 == |tokens| ==> current == old(current)
    {
      pos := pos + 1;
      if pos < |tokens| {
        current := tokens[pos];
      }
      t := current;
    }

    /** `accept`: consumes the current token and returns its value when it has the kind. */
    method Accept(kind: Kind) returns (v: Option<Payload>)
      requires Valid()
      modifies this
      ensures Valid()
      ensures old(current).kind == kind ==> v == Some(old(current).value) && pos == old(pos) + 1
      ensures old(current).kind != kind ==> v == None && pos == old(pos) && current == old(current)
    {
      if current.kind == kind {
        v := Some(current.value);
        var _ := Advance();
      } else {
        v := None;
      }
    }

    /** `expect`: like `accept`, but a token of another kind is a SyntaxError and nothing is consumed. */
    method Expect(kind: Kind) returns (r: Result<Payload, ParseError>)
      requires Valid()
      modifies this
      ensures Valid()
      ensures Agrees(Grammar.Expect(tokens, old(pos), kind), r, pos)
      ensures r.Err? ==> pos == old(pos) && current == old(current)
    {
      if current.kind == kind {
        var v := current.value;
        var _ := Advance();
        return Ok(v);
      }
      return Err(Expected(kind, current));
    }

    /** `parse`: statements up to EOF, skipping newlines between them. */
    method Parse() returns (r: Result<Node, ParseError>)
      requires Valid()
      modifies this
      ensures Valid()
      ensures r == ProgramFrom(tokens, old(pos))
    {
      var stmts: seq<Node> := [];
      while current.kind != EOF
        invariant Valid()
        invariant Statements(tokens, old(pos), []) == Statements(tokens, pos, stmts)
        decreases Dist(tokens, pos)
      {
        if current.kind == NEWLINE {
          var _ := Advance();
          continue;
        }
        var s := ParseStatement();
        if s.Err? {
          return Err(s.error);
        }
        stmts := stmts + [s.value];
      }
      return Ok(Program(stmts));
    }

    method ParseStatement() returns (r: Result<Node, ParseError>)
      requires Valid()
      modifies this
      ensures Valid()
      ensures Agrees(Statement(tokens, old(pos)), r, pos)
    {
      if current.kind == FUNCTION {
        r := ParseFunctionDef();
      } else if current.kind == ID {
        if tokens[pos + 1].kind == ASSIGN {
          var name := Expect(ID);
          var _ := Expect(ASSIGN);
          var e := ParseExpression();
          if e.Err? {
            return Err(e.error);
          }
          if current.kind == NEWLINE {
            var _ := Advance();
          }
          return Ok(Assign(TextOf(name.value), e.value));
        } else {
          var e := ParseExpression();
          if e.Err? {
            return e;
          }
          if current.kind == NEWLINE {
            var _ := Advance();
          }
          return e;
        }
      } else {
        var e := ParseExpression();
        if e.Err? {
          return e;
        }
        if current.kind == NEWLINE {
          var _ := Advance();
        }
        return e;
      }
    }

    method ParseFunctionDef() returns (r: Result<Node, ParseError>)
      requires Valid()
      modifies this
      ensures Valid()
      ensures Agrees(FunctionDefinition(tokens, old(pos)), r, pos)
    {
      var f := Expect(FUNCTION);
      if f.Err? {
        return Err(f.error);
      }
      var name := Expect(ID);
      if name.Err? {
        return Err(name.error);
      }
      var lp := Expect(LPAREN);
      if lp.Err? {
        return Err(lp.error);
      }
      var params := ParseParameters();
      if params.Err? {
        return Err(params.error);
      }
      var rp := Expect(RPAREN);
      if rp.Err? {
        return Err(rp.error);
      }
      var eq := Expect(ASSIGN);
      if eq.Err? {
        return Err(eq.error);
      }
      var body := ParseExpression();
      if body.Err? {
        return body;
      }
      if current.kind == NEWLINE {
        var _ := Advance();
      }
      return Ok(FunctionDef(TextOf(name.value), params.value, body.value));
    }

    /** The parameter list of `parse_function_def`: an optional first ID, then `, ID` while a
        comma follows. */
    method ParseParameters() returns (r: Result<seq<string>, ParseError>)
      requires Valid()
      modifies this
      ensures Valid()
      ensures Agrees(Parameters(tokens, old(pos)), r, pos)
    {
      var params: seq<string> := [];
      if current.kind == ID {
        var first := Expect(ID);
        params := [TextOf(first.value)];
        while current.kind == COMMA
          invariant Valid()
          invariant Parameters(tokens, old(pos)) == ParametersTail(tokens, params, pos)
          decreases Dist(tokens, pos)
        {
          var _ := Advance();
          var id := Expect(ID);
          if id.Err? {
            return Err(id.error);
          }
          params := params + [TextOf(id.value)];
        }
      }
      return Ok(params);
    }

    method ParseExpression() returns (r: Result<Node, ParseError>)
      requires Valid()
      modifies this
      ensures Valid()
      ensures Agrees(Expression(tokens, old(pos)), r, pos)
      decreases Dist(tokens, pos), 5
    {
      r := ParseAddSub();
    }

    method ParseAddSub() returns (r: Result<Node, ParseError>)
      requires Valid()
      modifies this
      ensures Valid()
      ensures Agrees(Binary(tokens, old(pos), 3), r, pos)
      decreases Dist(tokens, pos), 4
    {
      var first := ParseMulDiv();
      if first.Err? {
        return first;
      }
      var node := first.value;
      while current.kind == OP && (current.value == Text("+") || current.value == Text("-"))
        invariant Valid()
        invariant Dist(tokens, pos) < Dist(tokens, old(pos)) && IsExpr(node)
        invariant Binary(tokens, old(pos), 3) == LevelTail(tokens, 3, node, pos)
        decreases Dist(tokens, pos)
      {
        var op := current.value;
        var _ := Advance();
        var right := ParseMulDiv();
        if right.Err? {
          return right;
        }
        node := BinaryOp(op.s, node, right.value);
      }
      return Ok(node);
    }

    method ParseMulDiv() returns (r: Result<Node, ParseError>)
      requires Valid()
      modifies this
      ensures Valid()
      ensures Agrees(Binary(tokens, old(pos), 2), r, pos)
      decreases Dist(tokens, pos), 3
    {
      var first := ParsePower();
      if first.Err? {
        return first;
      }
      var node := first.value;
      while current.kind == OP && (current.value == Text("*") || current.value == Text("/"))
        invariant Valid()
        invariant Dist(tokens, pos) < Dist(tokens, old(pos)) && IsExpr(node)
        invariant Binary(tokens, old(pos), 2) == LevelTail(tokens, 2, node, pos)
        decreases Dist(tokens, pos)
      {
        var op := current.value;
        var _ := Advance();
        var right := ParsePower();
        if right.Err? {
          return right;
        }
        node := BinaryOp(op.s, node, right.value);
      }
      return Ok(node);
    }

    method ParsePower() returns (r: Result<Node, ParseError>)
      requires Valid()
      modifies this
      ensures Valid()
      ensures Agrees(Binary(tokens, old(pos), 1), r, pos)
      decreases Dist(tokens, pos), 2
    {
      var first := ParseCallPrimary();
      if first.Err? {
        return first;
      }
      var node := first.value;
      while current.kind == OP && current.value == Text("^")
        invariant Valid()
        invariant Dist(tokens, pos) < Dist(tokens, old(pos)) && IsExpr(node)
        invariant Binary(tokens, old(pos), 1) == LevelTail(tokens, 1, node, pos)
        decreases Dist(tokens, pos)
      {
        var op := current.value;
        var _ := Advance();
        var right := ParseCallPrimary();
        if right.Err? {
          return right;
        }
        node := BinaryOp(op.s, node, right.value);
      }
      return Ok(node);
    }

    method ParseCallPrimary() returns (r: Result<Node, ParseError>)
      requires Valid()
      modifies this
      ensures Valid()
      ensures Agrees(CallPrimary(tokens, old(pos)), r, pos)
      decreases Dist(tokens, pos), 1
    {
      var first := ParsePrimary();
      if first.Err? {
        return first;
      }
      var node := first.value;
      while current.kind == LPAREN
        invariant Valid()
        invariant Dist(tokens, pos) < Dist(tokens, old(pos)) && IsExpr(node)
        invariant CallPrimary(tokens, old(pos)) == CallSuffix(tokens, node, pos)
        decreases Dist(tokens, pos)
      {
        ghost var q0 := pos;
        assert Cur(tokens, q0).kind == LPAREN;
        var _ := Advance();
        var args := ParseArguments();
        if args.Err? {
          return Err(args.error);
        }
        ghost var node0, q1 := node, pos;
        assert Arguments(tokens, q0 + 1) == Ok(Parsed(args.value, q1));
        var rp := Expect(RPAREN);
        if rp.Err? {
          return Err(rp.error);
        }
        assert Cur(tokens, q1).kind == RPAREN && pos == q1 + 1;
        node := MakeCall(node, args.value);
        assert CallSuffix(tokens, node0, q0) == CallSuffix(tokens, node, pos);
      }
      return Ok(node);
    }

    /** The argument list of `parse_call_primary`, after its `(`: nothing when `)` follows at
        once, else an expression and then `, expression` while a comma follows. */
    method ParseArguments() returns (r: Result<seq<Node>, ParseError>)
      requires Valid()
      modifies this
      ensures Valid()
      ensures Agrees(Arguments(tokens, old(pos)), r, pos)
      ensures r.Ok? ==> Dist(tokens, pos) <= Dist(tokens, old(pos))
      decreases Dist(tokens, pos), 6
    {
      var args: seq<Node> := [];
      if current.kind != RPAREN {
        var a := ParseExpression();
        if a.Err? {
          return Err(a.error);
        }
        args := [a.value];
        while current.kind == COMMA
          invariant Valid()
          invariant Dist(tokens, pos) <= Dist(tokens, old(pos))
          invariant forall x :: x in args ==> IsExpr(x)
          invariant Arguments(tokens, old(pos)) == ArgumentsTail(tokens, args, pos)
          decreases Dist(tokens, pos)
        {
          var _ := Advance();
          var b := ParseExpression();
          if b.Err? {
            return Err(b.error);
          }
          args := args + [b.value];
        }
      }
      return Ok(args);
    }

    method ParsePrimary() returns (r: Result<Node, ParseError>)
      requires Valid()
      modifies this
      ensures Valid()
      ensures Agrees(Primary(tokens, old(pos)), r, pos)
      decreases Dist(tokens, pos), 0
    {
      if current.kind == NUMBER {
        var v := current.value;
        var _ := Advance();
        return Ok(Number(NumberOf(v)));
      }
      if current.kind == ID {
        var name := current.value;
        var _ := Advance();
        return Ok(Var(TextOf(name)));
      }
      if current.kind == LPAREN {
        var _ := Advance();
        var e := ParseExpression();
        if e.Err? {
          return e;
        }
        var rp := Expect(RPAREN);
        if rp.Err? {
          return Err(rp.error);
        }
        return e;
      }
      return Err(Unexpected(current));
    }
  }

  /** `Parser(code).parse()`: tokenize, then parse; a lexer error surfaces as its own kind. */
  datatype SyntaxError = LexFailure(lex: LexError) | ParseFailure(parse: ParseError)

  method ParseSource(code: string) returns (r: Result<Node, SyntaxError>)
    ensures r == match LexFrom(code, 0)
                 case Err(e) => Err(LexFailure(e))
                 case Ok(ts) => match ProgramFrom(ts, 0)
                                case Err(e) => Err(ParseFailure(e))
                                case Ok(prog) => Ok(prog)
  {
    var lexed := Tokenize(code);
    if lexed.Err? {
      return Err(LexFailure(lexed.error));
    }
    var parser := new Parser(lexed.value);
    var parsed := parser.Parse();
    if parsed.Err? {
      return Err(ParseFailure(parsed.error));
    }
    return Ok(parsed.value);
  }
}
