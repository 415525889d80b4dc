/**
 * The grammar the recursive-descent parser (src/parser.py) accepts, written as functions of
 * the token list and the index of the current token.  Each function returns what the
 * matching parser method returns together with the index it leaves the parser at, or the
 * SyntaxError it raises.  The `Parser` class proves its methods equal to these.
 */
module Grammar {
  import opened Wrappers
  import opened Values
  import opened Ast
  import opened Lexer

  /** The two SyntaxErrors: `expect` meeting the wrong token, and a token no primary starts with. */
  datatype ParseError = Expected(want: Kind, got: Token) | Unexpected(got: Token)

  /** A parse result and the index of the first token it did not consume. */
  datatype Parsed<T> = Parsed(value: T, next: nat)

  /** A token list as the lexer yields it: never empty, the last token is EOF. */
  predicate Terminated(ts: seq<Token>) {
    |ts| > 0 && ts[|ts| - 1].kind == EOF
  }

  /** The parser's `current` token at index `p`: past the end it stays at the last token. */
  function Cur(ts: seq<Token>, p: nat): Token
    requires Terminated(ts)
  {
    if p < |ts| then ts[p] else ts[|ts| - 1]
  }

  /** Tokens left to consume; it drops whenever a token other than EOF is consumed. */
  function Dist(ts: seq<Token>, p: nat): nat {
    if p < |ts| then |ts| - p else 0
  }

  /** The text of an ID or OP token (the lexer gives every token but NUMBER a text). */
  function TextOf(v: Payload): string {
    if v.Text? then v.s else ""
  }

  /** The value of a NUMBER token (the lexer gives every NUMBER token a number). */
  function NumberOf(v: Payload): Value {
    if v.Numeric? then v.n else NoneV
  }

  /** The operators of each binary level: 1 is `^`, 2 is `*` `/`, 3 is `+` `-`. */
  function LevelOps(k: nat): set<string> {
    if k == 1 then {"^"} else if k == 2 then {"*", "/"} else {"+", "-"}
  }

  /** The loop test of a binary level: an OP token whose text is one of the level's operators. */
  predicate IsLevelOp(t: Token, k: nat) {
    t.kind == OP && t.value.Text? && t.value.s in LevelOps(k)
  }

  /** The trees the expression grammar yields: arithmetic operators only, and a computed
      callee is never a bare variable. */
  predicate IsExpr(e: Node) {
    match e
    case Number(_) => true
    case Var(_) => true
    case BinaryOp(op, l, r) => IsArithOperator(op) && IsExpr(l) && IsExpr(r)
    case Call(callee, args) =>
      (match callee
       case Named(_) => true
       case Computed(n) => !n.Var? && IsExpr(n))
      && forall a :: a in args ==> IsExpr(a)
    case _ => false
  }

  /** The node a call suffix builds: a variable callee is kept by name, anything else as a node. */
  function MakeCall(node: Node, args: seq<Node>): Node {
    if node.Var? then Call(Named(node.name), args) else Call(Computed(node), args)
  }

  /** `expect`: the current token's value and one step on when its kind matches, else the error. */
  function Expect(ts: seq<Token>, p: nat, kind: Kind): (r: Result<Parsed<Payload>, ParseError>)
    requires Terminated(ts)
  {
    if Cur(ts, p).kind == kind then Ok(Parsed(Cur(ts, p).value, p + 1)) else Err(Expected(kind, Cur(ts, p)))
  }

  // ---------------------------------------------------------------------------
  // Expressions.  Each function decreases the tokens left and then a rank:
  // Primary 0, CallPrimary 1, Binary k at 1 + k, Expression 5, Arguments 6.

  function Primary(ts: seq<Token>, p: nat): (r: Result<Parsed<Node>, ParseError>)
    requires Terminated(ts)
    ensures r.Ok? ==> Dist(ts, r.value.next) < Dist(ts, p) && IsExpr(r.value.value)
    decreases Dist(ts, p), 0
  {
    var t := Cur(ts, p);
    if t.kind == NUMBER then Ok(Parsed(Number(NumberOf(t.value)), p + 1))
    else if t.kind == ID then Ok(Parsed(Var(TextOf(t.value)), p + 1))
    else if t.kind == LPAREN then
      match Expression(ts, p + 1)
      case Err(e) => Err(e)
      case Ok(Parsed(e, q)) =>
        if Cur(ts, q).kind == RPAREN then Ok(Parsed(e, q + 1)) else Err(Expected(RPAREN, Cur(ts, q)))
    else Err(Unexpected(t))
  }

  function CallPrimary(ts: seq<Token>, p: nat): (r: Result<Parsed<Node>, ParseError>)
    requires Terminated(ts)
    ensures r.Ok? ==> Dist(ts, r.value.next) < Dist(ts, p) && IsExpr(r.value.value)
    decreases Dist(ts, p), 1
  {
    match Primary(ts, p)
    case Err(e) => Err(e)
    case Ok(Parsed(node, q)) => CallSuffix(ts, node, q)
  }

  /** The `while LPAREN` loop of `parse_call_primary`, from the node built so far. */
  function CallSuffix(ts: seq<Token>, node: Node, q: nat): (r: Result<Parsed<Node>, ParseError>)
    requires Terminated(ts)
    requires IsExpr(node)
    ensures r.Ok? ==> Dist(ts, r.value.next) <= Dist(ts, q) && IsExpr(r.value.value)
    decreases Dist(ts, q), 0
  {
    if Cur(ts, q).kind != LPAREN then Ok(Parsed(node, q))
    else
      match Arguments(ts, q + 1)
      case Err(e) => Err(e)
      case Ok(Parsed(args, r)) =>
        if Cur(ts, r).kind == RPAREN then CallSuffix(ts, MakeCall(node, args), r + 1)
        else Err(Expected(RPAREN, Cur(ts, r)))
  }

  /** The argument list after `(`: empty when `)` follows at once, else comma-separated expressions. */
  function Arguments(ts: seq<Token>, p: nat): (r: Result<Parsed<seq<Node>>, ParseError>)
    requires Terminated(ts)
    ensures r.Ok? ==> Dist(ts, r.value.next) <= Dist(ts, p) && forall a :: a in r.value.value ==> IsExpr(a)
    decreases Dist(ts, p), 6
  {
    if Cur(ts, p).kind == RPAREN then Ok(Parsed([], p))
    else
      match Expression(ts, p)
      case Err(e) => Err(e)
      case Ok(Parsed(a, q)) => ArgumentsTail(ts, [a], q)
  }

  /** The `while COMMA` loop over the arguments, from those parsed so far. */
  function ArgumentsTail(ts: seq<Token>, acc: seq<Node>, q: nat): (r: Result<Parsed<seq<Node>>, ParseError>)
    requires Terminated(ts)
    requires forall a :: a in acc ==> IsExpr(a)
    ensures r.Ok? ==> Dist(ts, r.value.next) <= Dist(ts, q) && forall a :: a in r.value.value ==> IsExpr(a)
    decreases Dist(ts, q), 0
  {
    if Cur(ts, q).kind != COMMA then Ok(Parsed(acc, q))
    else
      match Expression(ts, q + 1)
      case Err(e) => Err(e)
      case Ok(Parsed(a, r)) => ArgumentsTail(ts, acc + [a], r)
  }

  /** A binary level: `parse_power` (k = 1), `parse_mul_div` (k = 2), `parse_add_sub` (k = 3).
      The first operand comes from the next tighter level. */
  function Binary(ts: seq<Token>, p: nat, k: nat): (r: Result<Parsed<Node>, ParseError>)
    requires Terminated(ts)
    requires 1 <= k <= 3
    ensures r.Ok? ==> Dist(ts, r.value.next) < Dist(ts, p) && IsExpr(r.value.value)
    decreases Dist(ts, p), 1 + k
  {
    var first := if k == 1 then CallPrimary(ts, p) else Binary(ts, p, k - 1);
    match first
    case Err(e) => Err(e)
    case Ok(Parsed(node, q)) => LevelTail(ts, k, node, q)
  }

  /** The `while` loop of a binary level: each operator of the level and the operand after it
      extend the tree to the left. */
  function LevelTail(ts: seq<Token>, k: nat, left: Node, q: nat): (r: Result<Parsed<Node>, ParseError>)
    requires Terminated(ts)
    requires 1 <= k <= 3
    requires IsExpr(left)
    ensures r.Ok? ==> Dist(ts, r.value.next) <= Dist(ts, q) && IsExpr(r.value.value)
    decreases Dist(ts, q), 0
  {
    var t := Cur(ts, q);
    if !IsLevelOp(t, k) then Ok(Parsed(left, q))
    else
      var right := if k == 1 then CallPrimary(ts, q + 1) else Binary(ts, q + 1, k - 1);
      match right
      case Err(e) => Err(e)
      case Ok(Parsed(rnode, r)) => LevelTail(ts, k, BinaryOp(t.value.s, left, rnode), r)
  }

  /** `parse_expression`: the loosest level. */
  function Expression(ts: seq<Token>, p: nat): (r: Result<Parsed<Node>, ParseError>)
    requires Terminated(ts)
    ensures r.Ok? ==> Dist(ts, r.value.next) < Dist(ts, p) && IsExpr(r.value.value)
    decreases Dist(ts, p), 5
  {
    Binary(ts, p, 3)
  }

  // ---------------------------------------------------------------------------
  // Statements and programs

  /** The optional NEWLINE after a statement. */
  function SkipNewline(ts: seq<Token>, q: nat): (r: nat)
    requires Terminated(ts)
  {
    if Cur(ts, q).kind == NEWLINE then q + 1 else q
  }

  /** The ID parameters after `(`: none unless an ID comes first, then comma-separated IDs. */
  function Parameters(ts: seq<Token>, p: nat): (r: Result<Parsed<seq<string>>, ParseError>)
    requires Terminated(ts)
    ensures r.Ok? ==> Dist(ts, r.value.next) <= Dist(ts, p)
  {
    if Cur(ts, p).kind == ID then ParametersTail(ts, [TextOf(Cur(ts, p).value)], p + 1)
    else Ok(Parsed([], p))
  }

  function ParametersTail(ts: seq<Token>, acc: seq<string>, q: nat): (r: Result<Parsed<seq<string>>, ParseError>)
    requires Terminated(ts)
    ensures r.Ok? ==> Dist(ts, r.value.next) <= Dist(ts, q)
    decreases Dist(ts, q)
  {
    if Cur(ts, q).kind != COMMA then Ok(Parsed(acc, q))
    else
      match Expect(ts, q + 1, ID)
      case Err(e) => Err(e)
      case Ok(Parsed(name, r)) => ParametersTail(ts, acc + [TextOf(name)], r)
  }

  /** `parse_function_def`: `function`, the name, `(`, the parameters, `)`, `=`, the body, and
      an optional newline. */
  function FunctionDefinition(ts: seq<Token>, p: nat): (r: Result<Parsed<Node>, ParseError>)
    requires Terminated(ts)
    ensures r.Ok? ==> Dist(ts, r.value.next) < Dist(ts, p)
  {
    match Expect(ts, p, FUNCTION)
    case Err(e) => Err(e)
    case Ok(Parsed(_, p1)) =>
      match Expect(ts, p1, ID)
      case Err(e) => Err(e)
      case Ok(Parsed(name, p2)) =>
        match Expect(ts, p2, LPAREN)
        case Err(e) => Err(e)
        case Ok(Parsed(_, p3)) =>
          match Parameters(ts, p3)
          case Err(e) => Err(e)
          case Ok(Parsed(params, p4)) =>
            match Expect(ts, p4, RPAREN)
            case Err(e) => Err(e)
            case Ok(Parsed(_, p5)) =>
              match Expect(ts, p5, ASSIGN)
              case Err(e) => Err(e)
              case Ok(Parsed(_, p6)) =>
                match Expression(ts, p6)
                case Err(e) => Err(e)
                case Ok(Parsed(body, p7)) =>
                  Ok(Parsed(FunctionDef(TextOf(name), params, body), SkipNewline(ts, p7)))
  }

  /** `parse_statement`: a definition, an assignment when an ID is directly followed by `=`,
      or a bare expression; each may be followed by one newline. */
  function Statement(ts: seq<Token>, p: nat): (r: Result<Parsed<Node>, ParseError>)
    requires Terminated(ts)
    ensures r.Ok? ==> Dist(ts, r.value.next) < Dist(ts, p)
  {
    var t := Cur(ts, p);
    if t.kind == FUNCTION then FunctionDefinition(ts, p)
    else if t.kind == ID && ts[p + 1].kind == ASSIGN then
      match Expression(ts, p + 2)
      case Err(e) => Err(e)
      case Ok(Parsed(e, q)) => Ok(Parsed(Assign(TextOf(t.value), e), SkipNewline(ts, q)))
    else
      match Expression(ts, p)
      case Err(e) => Err(e)
      case Ok(Parsed(e, q)) => Ok(Parsed(e, SkipNewline(ts, q)))
  }

  /** The loop of `parse`: newlines between statements are skipped, and the loop stops at EOF. */
  function Statements(ts: seq<Token>, p: nat, acc: seq<Node>): (r: Result<seq<Node>, ParseError>)
    requires Terminated(ts)
    decreases Dist(ts, p)
  {
    var t := Cur(ts, p);
    if t.kind == EOF then Ok(acc)
    else if t.kind == NEWLINE then Statements(ts, p + 1, acc)
    else
      match Statement(ts, p)
      case Err(e) => Err(e)
      case Ok(Parsed(s, q)) => Statements(ts, q, acc + [s])
  }

  /** `parse` from index `p`: the program of all statements up to EOF. */
  function ProgramFrom(ts: seq<Token>, p: nat): (r: Result<Node, ParseError>)
    requires Terminated(ts)
    ensures r.Ok? ==> r.value.Program?
  {
    match Statements(ts, p, [])
    case Err(e) => Err(e)
    case Ok(stmts) => Ok(Program(stmts))
  }
}
