/**
 * The whole toolchain as a driver script uses it: parse the source, run the semantic
 * analyzer, compile, and run the main code object on a fresh VM.  The method wires the four
 * classes together; the function states the same chain on values, and the lemma connects a
 * run that gets through every stage to the direct evaluation of the parsed program.
 */
module Pipeline {
  import opened Wrappers
  import opened Values
  import opened Ast
  import opened Lexer
  import opened Grammar
  import opened Parsing
  import Semantic
  import Codegen
  import Vm
  import Eval
  import Correctness
  import Unparse
  import Positions

  /** The stage that rejected the program, with the error it raised. */
  datatype StageError =
    | SyntaxFailure(syntax: SyntaxError)
    | SemanticFailure(semantic: Semantic.SemanticError)
    | CompileFailure(compile: Codegen.CodegenError)

  /** What `vm.run()` returned or raised, and the VM's globals afterwards. */
  datatype Finished = Finished(result: Result<Value, Vm.VmError>, globals: map<string, Value>)

  /** `Parser(src).parse()`: the tokens, then the program they spell. */
  function Parse(code: string): (r: Result<Node, SyntaxError>)
    ensures r.Ok? ==> r.value.Program?
  {
    match LexFrom(code, 0)
    case Err(e) => Err(LexFailure(e))
    case Ok(ts) =>
      match ProgramFrom(ts, 0)
      case Err(e) => Err(ParseFailure(e))
      case Ok(prog) => Ok(prog)
  }

  /** The four stages on values: the first stage that fails decides the outcome; a program that
      gets through all of them runs with calls at most `fuel` deep. */
  function Toolchain(code: string, fuel: nat): Result<Finished, StageError> {
    match Parse(code)
    case Err(e) => Err(SyntaxFailure(e))
    case Ok(prog) =>
      var (o, _, _) := Semantic.Analysis(map[], {}, prog.statements);
      if o.Fail? then Err(SemanticFailure(o.error))
      else
        match Codegen.CompileProgram([], map[], [], [], prog.statements).result
        case Err(e) => Err(CompileFailure(e))
        case Ok((main, fns)) =>
          var e := Vm.Exec(fns, main, map[], Vm.State(0, [], map[]), fuel);
          Ok(Finished(e.result, e.state.globals))
  }

  /** A finished run agrees with direct evaluation: the same run-time error, or None returned
      with globals `==` to the evaluated ones; a construct evaluation rejects never compiles. */
  predicate Agrees(f: Finished, ev: Result<map<string, Value>, Eval.Failure>) {
    if ev.Ok? then f.result == Ok(NoneV) && Correctness.EnvEq(f.globals, ev.value)
    else ev.error.Runtime? && f.result == Err(ev.error.error)
  }

  /** Parse, analyze, compile and run `code` with fresh objects for every stage. */
  method CompileAndRun(code: string, fuel: nat) returns (r: Result<Finished, StageError>)
    ensures r == Toolchain(code, fuel)
    ensures r.Ok? ==> Parse(code).Ok? && Agrees(r.value, Eval.EvaluateProgram(Parse(code).value.statements, fuel))
  {
    var parsed := ParseSource(code);
    if parsed.Err? {
      return Err(SyntaxFailure(parsed.error));
    }
    var prog := parsed.value;
    var analyzer := new Semantic.SemanticAnalyzer();
    var analyzed := analyzer.Analyze(prog);
    if analyzed.Fail? {
      return Err(SemanticFailure(analyzed.error));
    }
    var compiler := new Codegen.Compiler();
    var compiled := compiler.Compile(prog);
    if compiled.Err? {
      return Err(CompileFailure(compiled.error));
    }
    var (main, fns) := compiled.value;
    var vm := new Vm.VM(main, fns);
    var result := vm.Run(fuel);
    r := Ok(Finished(result, vm.globals.vars));
    ToolchainAgrees(code, fuel);
  }

  /** Every program the toolchain runs to the end is one whose direct evaluation it matches. */
  lemma ToolchainAgrees(code: string, fuel: nat)
    ensures Toolchain(code, fuel).Ok? ==>
      Parse(code).Ok? && Agrees(Toolchain(code, fuel).value, Eval.EvaluateProgram(Parse(code).value.statements, fuel))
  {
    if Toolchain(code, fuel).Ok? {
      Correctness.CompileThenRun(Parse(code).value.statements, fuel);
    }
  }

  /** `result = <e>` as the parser builds it. */
  function ResultIs(e: Node): seq<Node> {
    [Assign("result", e)]
  }

  function I(n: int): Node { Number(IntV(n)) }
  function F(x: real): Node { Number(FloatV(x)) }

  /** `result = e` leaves exactly `result`, bound to the value of `e`. */
  lemma ScriptCase(e: Node, v: Value)
    requires Eval.Evaluate(map[], [], map[], map[], e, 0) == Ok(v)
    ensures Eval.EvaluateProgram(ResultIs(e), 0) == Ok(map["result" := v])
  {
    var stmts := ResultIs(e);
    assert stmts[1..] == [];
    assert Eval.Definitions(map[], stmts) == map[];
    var g := map["result" := v];
    assert Eval.EvaluateStmt(map[], map[], stmts[0], 0) == Ok(g);
    assert Eval.EvaluateMain(map[], g, stmts[1..], 0) == Ok(g);
    assert Eval.EvaluateMain(map[], map[], stmts, 0) == Ok(g);
  }

  /** The float test script's sums: an int and a float add to a float, and `*` binds tighter
      than `+`. */
  lemma FloatScriptSums()
    ensures Eval.EvaluateProgram(ResultIs(BinaryOp("+", F(1.5), BinaryOp("*", F(2.25), I(2)))), 0)
      == Ok(map["result" := FloatV(6.0)])
    ensures Eval.EvaluateProgram(ResultIs(BinaryOp("+", I(1), F(2.5))), 0) == Ok(map["result" := FloatV(3.5)])
    ensures Eval.EvaluateProgram(ResultIs(BinaryOp("+", I(1), BinaryOp("*", I(2), F(3.0)))), 0)
      == Ok(map["result" := FloatV(7.0)])
  {
    assert Eval.Evaluate(map[], [], map[], map[], BinaryOp("*", F(2.25), I(2)), 0) == Ok(FloatV(4.5));
    ScriptCase(BinaryOp("+", F(1.5), BinaryOp("*", F(2.25), I(2))), FloatV(6.0));
    ScriptCase(BinaryOp("+", I(1), F(2.5)), FloatV(3.5));
    assert Eval.Evaluate(map[], [], map[], map[], BinaryOp("*", I(2), F(3.0)), 0) == Ok(FloatV(6.0));
    ScriptCase(BinaryOp("+", I(1), BinaryOp("*", I(2), F(3.0))), FloatV(7.0));
  }

  /** The float test script's divisions and power: `/` of two ints is exact and a float, and
      `^` of two ints is a float. */
  lemma FloatScriptQuotients()
    ensures Eval.EvaluateProgram(ResultIs(BinaryOp("/", I(5), I(2))), 0) == Ok(map["result" := FloatV(2.5)])
    ensures Eval.EvaluateProgram(ResultIs(BinaryOp("/", I(1), I(2))), 0) == Ok(map["result" := FloatV(0.5)])
    ensures Eval.EvaluateProgram(ResultIs(BinaryOp("^", I(2), I(3))), 0) == Ok(map["result" := FloatV(8.0)])
  {
    ScriptCase(BinaryOp("/", I(5), I(2)), FloatV(2.5));
    ScriptCase(BinaryOp("/", I(1), I(2)), FloatV(0.5));
    ScriptCase(BinaryOp("^", I(2), I(3)), FloatV(8.0));
  }

  /** The same script compiled and run: `1 + 2 * 3.0` leaves a `result` equal to 7.0. */
  lemma CompiledFloatCase(fuel: nat)
    ensures var stmts := ResultIs(BinaryOp("+", I(1), BinaryOp("*", I(2), F(3.0))));
      Codegen.CompileProgram([], map[], [], [], stmts).result.Ok? &&
      var (main, fns) := Codegen.CompileProgram([], map[], [], [], stmts).result.value;
      var e := Vm.Exec(fns, main, map[], Vm.State(0, [], map[]), fuel);
      e.result == Ok(NoneV) && "result" in e.state.globals && PyEq(e.state.globals["result"], FloatV(7.0))
  {
    var stmts := ResultIs(BinaryOp("+", I(1), BinaryOp("*", I(2), F(3.0))));
    var product := BinaryOp("*", I(2), F(3.0));
    assert Eval.Evaluate(map[], [], map[], map[], product, fuel) == Ok(FloatV(6.0));
    assert Eval.Evaluate(map[], [], map[], map[], stmts[0].expr, fuel) == Ok(FloatV(7.0));
    assert Eval.EvaluateProgram(stmts, fuel) == Ok(map["result" := FloatV(7.0)]);
    Correctness.CompileThenRun(stmts, fuel);
  }

  /** A function's name read as a variable: the analyzer lets it through (it accepts any known
      function name where a variable is expected), but the VM looks the name up only among the
      locals and globals, so the compiled program raises UndefinedVariable. */
  lemma FunctionNameAsValue(stmts: seq<Node>, fuel: nat)
    requires stmts == [FunctionDef("f", [], I(1)), Assign("y", Var("f"))]
    ensures Semantic.Analysis(map[], {}, stmts).0 == Pass
    ensures Codegen.CompileProgram([], map[], [], [], stmts).result.Ok?
    ensures var (main, fns) := Codegen.CompileProgram([], map[], [], [], stmts).result.value;
      Vm.Exec(fns, main, map[], Vm.State(0, [], map[]), fuel).result == Err(Vm.UndefinedVariable("f"))
  {
    var table := map["f" := 0];
    assert Semantic.Collect(table, stmts[1..]) == (Pass, table);
    assert Semantic.Collect(map[], stmts) == (Pass, table);
    assert Semantic.StatementCheck(table, {}, [], stmts[0]) == (Pass, {});
    assert Semantic.CheckExpression(table, {}, [], Var("f")) == Pass;
    var none: set<string> := {};
    assert none + {"y"} == {"y"};
    assert Semantic.StatementCheck(table, none, [], stmts[1]) == (Pass, {"y"});
    assert Semantic.CheckAll(table, {"y"}, stmts[2..]) == (Pass, {"y"});
    assert Semantic.CheckAll(table, {}, stmts[1..]) == (Pass, {"y"});
    assert Semantic.CheckAll(table, {}, stmts) == (Pass, {"y"});
    var defs := Eval.Definitions(map[], stmts);
    assert Eval.EvaluateStmt(defs, map[], stmts[1], fuel) == Err(Eval.Runtime(Vm.UndefinedVariable("f")));
    assert Eval.EvaluateMain(defs, map[], stmts[1..], fuel) == Err(Eval.Runtime(Vm.UndefinedVariable("f")));
    assert Eval.EvaluateProgram(stmts, fuel) == Err(Eval.Runtime(Vm.UndefinedVariable("f")));
    var co := Codegen.CodeObject([Codegen.PushConst(0), Codegen.Ret], [IntV(1)], []);
    var pool: seq<Value> := [];
    assert Codegen.FindConst(pool, IntV(1)) == None && pool + [IntV(1)] == [IntV(1)];
    assert Codegen.ConstSlot(pool, IntV(1)) == (0, [IntV(1)]);
    assert Codegen.EmitExpr([], [], I(1)) == Codegen.Emission(Pass, [Codegen.PushConst(0)], [IntV(1)]);
    assert [Codegen.PushConst(0)] + [Codegen.Ret] == co.instructions;
    assert Codegen.FunctionCode(stmts[0]) == Ok(co);
    assert Codegen.CompileDefs(map[]["f" := co], stmts[1..]).0 == Pass;
    assert Codegen.CompileDefs(map[], stmts).0 == Pass;
    assert Codegen.EmitStmt([], [], stmts[1]).outcome == Pass;
    assert Codegen.EmitMain([], [], stmts[1..]).outcome == Pass;
    assert Codegen.EmitMain([], [], stmts).outcome == Pass;
    Correctness.CompileThenRun(stmts, fuel);
  }

  // ---------------------------------------------------------------------------
  // One script from its text: the printed tokens of a tree carry every kind and value the
  // lexer yields for the text, so the round trip of the parser applies to the text itself.

  /** Text whose tokens agree in kind and value with the printed tokens of `stmts` parses
      to the program of `stmts`. */
  lemma ParsePrinted(code: string, stmts: seq<Node>, gaps: seq<nat>)
    requires |gaps| == |stmts| + 1 && forall s :: s in stmts ==> Unparse.IsStatement(s)
    requires LexFrom(code, 0).Ok?
    requires Positions.Like(LexFrom(code, 0).value, Unparse.PrintProgram(stmts, gaps) + [Unparse.Tok(EOF, "")])
    ensures Parse(code) == Ok(Program(stmts))
  {
    var ts := LexFrom(code, 0).value;
    var printed := Unparse.PrintProgram(stmts, gaps) + [Unparse.Tok(EOF, "")];
    Unparse.ProgramRoundTrip(stmts, gaps);
    Positions.ProgramIgnoresPositions(printed, ts);
  }

  const ScriptText := "result = 1 + 2 * 3.0\n"

  /** The tree of the script. */
  function ScriptTree(): Node {
    Assign("result", BinaryOp("+", I(1), BinaryOp("*", I(2), F(3.0))))
  }

  /** The tokens the script's text scans to. */
  function ScriptScan(): seq<Token> {
    [Token(ID, Text("result"), 0), Token(ASSIGN, Text("="), 7),
     Token(NUMBER, Numeric(IntV(1)), 9), Token(OP, Text("+"), 11), Token(NUMBER, Numeric(IntV(2)), 13),
     Token(OP, Text("*"), 15), Token(NUMBER, Numeric(FloatV(3.0)), 17), Token(NEWLINE, Text("\n"), 20), EofAt(21)]
  }

  lemma ScriptLexed()
    ensures LexFrom(ScriptText, 0) == Ok(ScriptScan())
  {
    ScriptTokens(ScriptText);
  }

  /** The printed tokens of the script's tree, all at offset 0. */
  lemma ScriptPrinted()
    ensures Unparse.IsStatement(ScriptTree())
    ensures Unparse.PrintProgram([ScriptTree()], [0, 0]) + [Unparse.Tok(EOF, "")] ==
      [Unparse.Tok(ID, "result"), Unparse.Tok(ASSIGN, "="), Token(NUMBER, Numeric(IntV(1)), 0), Unparse.Tok(OP, "+"),
       Token(NUMBER, Numeric(IntV(2)), 0), Unparse.Tok(OP, "*"), Token(NUMBER, Numeric(FloatV(3.0)), 0),
       Unparse.Tok(NEWLINE, "\n"), Unparse.Tok(EOF, "")]
  {
    var product := BinaryOp("*", I(2), F(3.0));
    assert Unparse.Print(product) == [Token(NUMBER, Numeric(IntV(2)), 0), Unparse.Tok(OP, "*"), Token(NUMBER, Numeric(FloatV(3.0)), 0)];
    assert Unparse.Print(ScriptTree().expr) ==
      [Token(NUMBER, Numeric(IntV(1)), 0), Unparse.Tok(OP, "+")] + Unparse.Print(product);
    assert Unparse.PrintProgram([ScriptTree()], [0, 0]) == Unparse.PrintStatement(ScriptTree());
  }

  /** The script's text parses to its one assignment. */
  lemma ScriptParses()
    ensures Parse(ScriptText) == Ok(Program([ScriptTree()]))
  {
    ScriptLexed();
    ScriptPrinted();
    var printed := Unparse.PrintProgram([ScriptTree()], [0, 0]) + [Unparse.Tok(EOF, "")];
    assert Positions.Like(ScriptScan(), printed);
    ParsePrinted(ScriptText, [ScriptTree()], [0, 0]);
  }

  /** The script defines no function and reads no variable, so analysis lets it pass. */
  lemma ScriptAnalyzed()
    ensures Semantic.Analysis(map[], {}, [ScriptTree()]).0 == Pass
  {
    var stmts := [ScriptTree()];
    assert Semantic.Collect(map[], stmts) == (Pass, map[]);
    var none: set<string> := {};
    assert none + {"result"} == {"result"};
    assert Semantic.StatementCheck(map[], none, [], stmts[0]) == (Pass, {"result"});
    assert Semantic.CheckAll(map[], {"result"}, stmts[1..]) == (Pass, {"result"});
    assert Semantic.CheckAll(map[], {}, stmts) == (Pass, {"result"});
  }

  /** `result = 1 + 2 * 3.0` from its text: it scans, parses, passes analysis, compiles, and
      the run returns None with `result` equal to 7.0. */
  lemma ScriptFromText(fuel: nat)
    ensures Toolchain(ScriptText, fuel).Ok?
    ensures var f := Toolchain(ScriptText, fuel).value;
      f.result == Ok(NoneV) && "result" in f.globals && PyEq(f.globals["result"], FloatV(7.0))
  {
    ScriptParses();
    ScriptAnalyzed();
    assert [ScriptTree()] == ResultIs(BinaryOp("+", I(1), BinaryOp("*", I(2), F(3.0))));
    CompiledFloatCase(fuel);
  }
}
