/**
 * The semantic analyzer (src/semantic.py).  Pass 1 records the arity of every function and
 * rejects a second definition of a name; pass 2 walks the statements in order, growing the
 * set of assigned globals, and checks every variable reference, call target and argument
 * count.  The checks on one expression are a pure function of the analyzer's state; the two
 * passes are methods of a class whose `functions` and `globals` fields they update.
 */
module Semantic {
  import opened Wrappers
  import opened Values
  import opened Ast

  /** The SemanticError raised, tagged by its message. */
  datatype SemanticError =
    | DuplicateFunction(name: string)
    | UndefinedVariable(name: string)
    | UnsupportedCall
    | UndefinedFunction(name: string)
    | ArityMismatch(name: string, expected: nat, got: nat)
    | UnsupportedExpression

  /** `check_expression`: the first failing check in evaluation order, or success.  `locals` is
      the enclosing function's parameter list, empty at top level (`None` there in the source,
      which is just as falsy). */
  function CheckExpression(functions: map<string, nat>, globals: set<string>, locals: seq<string>, e: Node)
    : (r: Outcome<SemanticError>)
    decreases Size(e), 1
  {
    match e
    case Number(_) => Pass
    case Var(x) =>
      if x in locals || x in globals || x in functions then Pass else Fail(UndefinedVariable(x))
    case BinaryOp(_, l, r) =>
      (match CheckExpression(functions, globals, locals, l)
       case Fail(err) => Fail(err)
       case Pass => CheckExpression(functions, globals, locals, r))
    case Call(callee, args) =>
      (match CalleeName(callee)
       case None => Fail(UnsupportedCall)
       case Some(f) =>
         if f !in functions then Fail(UndefinedFunction(f))
         else if |args| != functions[f] then Fail(ArityMismatch(f, functions[f], |args|))
         else CheckArgs(functions, globals, locals, args))
    case _ => Fail(UnsupportedExpression)
  }

  /** The loop over a call's arguments, left to right. */
  function CheckArgs(functions: map<string, nat>, globals: set<string>, locals: seq<string>, args: seq<Node>)
    : (r: Outcome<SemanticError>)
    decreases SizeList(args), 0
  {
    if args == [] then Pass
    else
      match CheckExpression(functions, globals, locals, args[0])
      case Fail(err) => Fail(err)
      case Pass => CheckArgs(functions, globals, locals, args[1..])
  }

  /** `check_statement` on values: the outcome and the globals afterwards.  A definition's body
      sees its own parameters; an assignment records its target only after its right-hand side
      has been checked. */
  function StatementCheck(functions: map<string, nat>, globals: set<string>, locals: seq<string>, s: Node)
    : (r: (Outcome<SemanticError>, set<string>))
    ensures r.0.Pass? && s.Assign? ==> r.1 == globals + {s.name}
    ensures !(r.0.Pass? && s.Assign?) ==> r.1 == globals
  {
    match s
    case FunctionDef(_, params, body) => (CheckExpression(functions, globals, params, body), globals)
    case Assign(x, e) =>
      (match CheckExpression(functions, globals, locals, e)
       case Fail(err) => (Fail(err), globals)
       case Pass => (Pass, globals + {x}))
    case _ => (CheckExpression(functions, globals, locals, s), globals)
  }

  /** Pass 1: the arities collected, and the error at the first name defined twice. */
  function Collect(functions: map<string, nat>, stmts: seq<Node>): (r: (Outcome<SemanticError>, map<string, nat>))
    decreases |stmts|
  {
    if stmts == [] then (Pass, functions)
    else if stmts[0].FunctionDef? then
      if stmts[0].name in functions then (Fail(DuplicateFunction(stmts[0].name)), functions)
      else Collect(functions[stmts[0].name := |stmts[0].params|], stmts[1..])
    else Collect(functions, stmts[1..])
  }

  /** Pass 2: the statements checked in order with no locals, stopping at the first error. */
  function CheckAll(functions: map<string, nat>, globals: set<string>, stmts: seq<Node>)
    : (r: (Outcome<SemanticError>, set<string>))
    decreases |stmts|
  {
    if stmts == [] then (Pass, globals)
    else
      var (o, globals') := StatementCheck(functions, globals, [], stmts[0]);
      if o.Fail? then (o, globals') else CheckAll(functions, globals', stmts[1..])
  }

  /** `analyze` on values: the outcome and the analyzer's two fields afterwards.  Pass 2 runs
      only when pass 1 succeeds. */
  function Analysis(functions: map<string, nat>, globals: set<string>, stmts: seq<Node>)
    : (Outcome<SemanticError>, map<string, nat>, set<string>)
  {
    var (o1, functions') := Collect(functions, stmts);
    if o1.Fail? then (o1, functions', globals)
    else
      var (o2, globals') := CheckAll(functions', globals, stmts);
      (o2, functions', globals')
  }

  class SemanticAnalyzer {
    var functions: map<string, nat>
    var globals: set<string>

    constructor ()
      ensures functions == map[] && globals == {}
    {
      functions := map[];
      globals := {};
    }

    /** `analyze`: success is `True`; a failure is the SemanticError raised, with the fields as
        the passes left them. */
    method Analyze(program: Node) returns (r: Outcome<SemanticError>)
      requires program.Program?
      modifies this
      ensures (r, functions, globals) == Analysis(old(functions), old(globals), program.statements)
    {
      var stmts := program.statements;
      var i := 0;
      while i < |stmts|
        invariant i <= |stmts|
        invariant globals == old(globals)
        invariant Collect(old(functions), stmts) == Collect(functions, stmts[i..])
      {
        var s := stmts[i];
        assert stmts[i..][1..] == stmts[i + 1..];
        if s.FunctionDef? {
          if s.name in functions {
            return Fail(DuplicateFunction(s.name));
          }
          functions := functions[s.name := |s.params|];
        }
        i := i + 1;
      }
      i := 0;
      while i < |stmts|
        invariant i <= |stmts|
        invariant functions == Collect(old(functions), stmts).1
        invariant Collect(old(functions), stmts).0 == Pass
        invariant CheckAll(functions, old(globals), stmts) == CheckAll(functions, globals, stmts[i..])
      {
        assert stmts[i..][1..] == stmts[i + 1..];
        var o := CheckStatement(stmts[i], []);
        if o.Fail? {
          return o;
        }
        i := i + 1;
      }
      return Pass;
    }

    /** `check_statement`: the body of a definition is checked with its parameters as locals;
        an assignment adds its target to `globals` once its right-hand side has passed. */
    method CheckStatement(stmt: Node, locals: seq<string>) returns (r: Outcome<SemanticError>)
      modifies this
      ensures functions == old(functions)
      ensures (r, globals) == StatementCheck(functions, old(globals), locals, stmt)
    {
      if stmt.FunctionDef? {
        r := CheckExpression(functions, globals, stmt.params, stmt.body);
      } else if stmt.Assign? {
        r := CheckExpression(functions, globals, locals, stmt.expr);
        if r.Pass? {
          globals := globals + {stmt.name};
        }
      } else {
        r := CheckExpression(functions, globals, locals, stmt);
      }
    }
  }

  // ---------------------------------------------------------------------------
  // The rules the checks enforce, stated on whole trees and programs

  /** Every variable is a local, an assigned global or a function name, and every call names a
      known function by name and passes as many arguments as it has parameters. */
  predicate Scoped(functions: map<string, nat>, globals: set<string>, locals: seq<string>, e: Node)
    decreases e
  {
    match e
    case Number(_) => true
    case Var(x) => x in locals || x in globals || x in functions
    case BinaryOp(_, l, r) => Scoped(functions, globals, locals, l) && Scoped(functions, globals, locals, r)
    case Call(callee, args) =>
      && CalleeName(callee).Some?
      && CalleeName(callee).value in functions
      && |args| == functions[CalleeName(callee).value]
      && forall a :: a in args ==> Scoped(functions, globals, locals, a)
    case _ => false
  }

  /** `check_expression` passes exactly on the trees that keep the scoping and arity rules. */
  lemma {:induction false} CheckExpressionIff(functions: map<string, nat>, globals: set<string>, locals: seq<string>, e: Node)
    ensures CheckExpression(functions, globals, locals, e).Pass? <==> Scoped(functions, globals, locals, e)
    decreases Size(e), 1
  {
    match e
    case BinaryOp(_, l, r) =>
      CheckExpressionIff(functions, globals, locals, l);
      CheckExpressionIff(functions, globals, locals, r);
    case Call(_, args) =>
      CheckArgsIff(functions, globals, locals, args);
    case _ =>
  }

  lemma {:induction false} CheckArgsIff(functions: map<string, nat>, globals: set<string>, locals: seq<string>, args: seq<Node>)
    ensures CheckArgs(functions, globals, locals, args).Pass? <==> forall a :: a in args ==> Scoped(functions, globals, locals, a)
    decreases SizeList(args), 0
  {
    if args != [] {
      assert args == [args[0]] + args[1..];
      CheckExpressionIff(functions, globals, locals, args[0]);
      CheckArgsIff(functions, globals, locals, args[1..]);
    }
  }

  /** An outcome of `check_expression` that reports a real violation, if any. */
  predicate Genuine(functions: map<string, nat>, globals: set<string>, locals: seq<string>, r: Outcome<SemanticError>) {
    match r
    case Pass => true
    case Fail(UndefinedVariable(x)) => x !in locals && x !in globals && x !in functions
    case Fail(UndefinedFunction(f)) => f !in functions
    case Fail(ArityMismatch(f, expected, got)) => f in functions && functions[f] == expected && expected != got
    case Fail(DuplicateFunction(_)) => false
    case Fail(_) => true
  }

  /** Every error names a real violation: an undefined variable is in no scope, an undefined
      function is unknown, and an arity error reports the recorded count and a different one. */
  lemma {:induction false} ErrorsAreGenuine(functions: map<string, nat>, globals: set<string>, locals: seq<string>, e: Node)
    ensures Genuine(functions, globals, locals, CheckExpression(functions, globals, locals, e))
    decreases Size(e), 1
  {
    match e
    case BinaryOp(_, l, r) =>
      ErrorsAreGenuine(functions, globals, locals, l);
      ErrorsAreGenuine(functions, globals, locals, r);
    case Call(_, args) =>
      ArgsErrorsAreGenuine(functions, globals, locals, args);
    case _ =>
  }

  lemma {:induction false} ArgsErrorsAreGenuine(functions: map<string, nat>, globals: set<string>, locals: seq<string>, args: seq<Node>)
    ensures Genuine(functions, globals, locals, CheckArgs(functions, globals, locals, args))
    decreases SizeList(args), 0
  {
    if args != [] {
      ErrorsAreGenuine(functions, globals, locals, args[0]);
      ArgsErrorsAreGenuine(functions, globals, locals, args[1..]);
    }
  }

  /** No function name is known already, and no two definitions share a name. */
  predicate DistinctDefinitions(functions: map<string, nat>, stmts: seq<Node>) {
    && (forall i :: 0 <= i < |stmts| && stmts[i].FunctionDef? ==> stmts[i].name !in functions)
    && (forall i, j :: 0 <= i < j < |stmts| && stmts[i].FunctionDef? && stmts[j].FunctionDef? ==>
          stmts[i].name != stmts[j].name)
  }

  /** Pass 1 succeeds exactly when the definitions' names are distinct and new, and its only
      error is a duplicate definition. */
  lemma {:induction false} CollectPassesIff(functions: map<string, nat>, stmts: seq<Node>)
    ensures Collect(functions, stmts).0.Pass? <==> DistinctDefinitions(functions, stmts)
    ensures Collect(functions, stmts).0.Fail? ==> Collect(functions, stmts).0.error.DuplicateFunction?
    decreases |stmts|
  {
    if stmts != [] {
      var rest := stmts[1..];
      if stmts[0].FunctionDef? {
        if stmts[0].name !in functions {
          var functions' := functions[stmts[0].name := |stmts[0].params|];
          CollectPassesIff(functions', rest);
          DistinctStep(functions, stmts);
        }
      } else {
        CollectPassesIff(functions, rest);
        DistinctSkip(functions, stmts);
      }
    }
  }

  lemma DistinctStep(functions: map<string, nat>, stmts: seq<Node>)
    requires stmts != [] && stmts[0].FunctionDef? && stmts[0].name !in functions
    ensures DistinctDefinitions(functions, stmts) <==>
      DistinctDefinitions(functions[stmts[0].name := |stmts[0].params|], stmts[1..])
  {
    var functions', rest := functions[stmts[0].name := |stmts[0].params|], stmts[1..];
    if DistinctDefinitions(functions, stmts) {
      forall i | 0 <= i < |rest| && rest[i].FunctionDef? ensures rest[i].name !in functions' {
        assert rest[i] == stmts[i + 1];
      }
      forall i, j | 0 <= i < j < |rest| && rest[i].FunctionDef? && rest[j].FunctionDef?
        ensures rest[i].name != rest[j].name
      {
        assert rest[i] == stmts[i + 1] && rest[j] == stmts[j + 1];
      }
    }
    if DistinctDefinitions(functions', rest) {
      forall i | 0 <= i < |stmts| && stmts[i].FunctionDef? ensures stmts[i].name !in functions {
        if i > 0 { assert stmts[i] == rest[i - 1]; }
      }
      forall i, j | 0 <= i < j < |stmts| && stmts[i].FunctionDef? && stmts[j].FunctionDef?
        ensures stmts[i].name != stmts[j].name
      {
        assert stmts[j] == rest[j - 1];
        if i > 0 { assert stmts[i] == rest[i - 1]; }
      }
    }
  }

  lemma DistinctSkip(functions: map<string, nat>, stmts: seq<Node>)
    requires stmts != [] && !stmts[0].FunctionDef?
    ensures DistinctDefinitions(functions, stmts) <==> DistinctDefinitions(functions, stmts[1..])
  {
    var rest := stmts[1..];
    if DistinctDefinitions(functions, stmts) {
      forall i | 0 <= i < |rest| && rest[i].FunctionDef? ensures rest[i].name !in functions {
        assert rest[i] == stmts[i + 1];
      }
      forall i, j | 0 <= i < j < |rest| && rest[i].FunctionDef? && rest[j].FunctionDef?
        ensures rest[i].name != rest[j].name
      {
        assert rest[i] == stmts[i + 1] && rest[j] == stmts[j + 1];
      }
    }
    if DistinctDefinitions(functions, rest) {
      forall i | 0 <= i < |stmts| && stmts[i].FunctionDef? ensures stmts[i].name !in functions {
        assert stmts[i] == rest[i - 1];
      }
      forall i, j | 0 <= i < j < |stmts| && stmts[i].FunctionDef? && stmts[j].FunctionDef?
        ensures stmts[i].name != stmts[j].name
      {
        assert stmts[i] == rest[i - 1] && stmts[j] == rest[j - 1];
      }
    }
  }

  /** Pass 1 never forgets or changes an arity it started with. */
  lemma {:induction false} CollectKeeps(functions: map<string, nat>, stmts: seq<Node>)
    ensures forall f :: f in functions ==> f in Collect(functions, stmts).1 && Collect(functions, stmts).1[f] == functions[f]
    decreases |stmts|
  {
    if stmts != [] {
      if stmts[0].FunctionDef? {
        if stmts[0].name !in functions {
          CollectKeeps(functions[stmts[0].name := |stmts[0].params|], stmts[1..]);
        }
      } else {
        CollectKeeps(functions, stmts[1..]);
      }
    }
  }

  /** After a successful pass 1 the table holds the old entries, and each definition's name
      with its parameter count, and nothing else. */
  lemma {:induction false} CollectArities(functions: map<string, nat>, stmts: seq<Node>)
    requires Collect(functions, stmts).0.Pass?
    ensures var table := Collect(functions, stmts).1;
      && (forall f :: f in functions ==> f in table && table[f] == functions[f])
      && (forall i :: 0 <= i < |stmts| && stmts[i].FunctionDef? ==>
            stmts[i].name in table && table[stmts[i].name] == |stmts[i].params|)
      && (forall f :: f in table ==> f in functions || exists i :: 0 <= i < |stmts| && stmts[i].FunctionDef? && stmts[i].name == f)
    decreases |stmts|
  {
    CollectKeeps(functions, stmts);
    if stmts != [] {
      var rest := stmts[1..];
      var functions' := if stmts[0].FunctionDef? then functions[stmts[0].name := |stmts[0].params|] else functions;
      assert Collect(functions, stmts) == Collect(functions', rest);
      CollectArities(functions', rest);
      var table := Collect(functions, stmts).1;
      forall i | 0 <= i < |stmts| && stmts[i].FunctionDef?
        ensures stmts[i].name in table && table[stmts[i].name] == |stmts[i].params|
      {
        if i > 0 { assert stmts[i] == rest[i - 1]; }
      }
      forall f | f in table
        ensures f in functions || exists i :: 0 <= i < |stmts| && stmts[i].FunctionDef? && stmts[i].name == f
      {
        if f !in functions' {
          var k :| 0 <= k < |rest| && rest[k].FunctionDef? && rest[k].name == f;
          assert stmts[k + 1] == rest[k];
        }
      }
    }
  }

  /** The targets of the assignments among `stmts`. */
  function Assigned(stmts: seq<Node>): set<string> {
    if stmts == [] then {} else (if stmts[0].Assign? then {stmts[0].name} else {}) + Assigned(stmts[1..])
  }

  /** A statement keeps the rules with the given globals: a definition's body with its
      parameters as locals, anything else with none. */
  predicate StatementScoped(functions: map<string, nat>, globals: set<string>, s: Node) {
    match s
    case FunctionDef(_, params, body) => Scoped(functions, globals, params, body)
    case Assign(_, e) => Scoped(functions, globals, [], e)
    case _ => Scoped(functions, globals, [], s)
  }

  lemma StatementCheckIff(functions: map<string, nat>, globals: set<string>, s: Node)
    ensures StatementCheck(functions, globals, [], s).0.Pass? <==> StatementScoped(functions, globals, s)
  {
    match s
    case FunctionDef(_, params, body) => CheckExpressionIff(functions, globals, params, body);
    case Assign(_, e) => CheckExpressionIff(functions, globals, [], e);
    case _ => CheckExpressionIff(functions, globals, [], s);
  }

  /** Every statement keeps the rules with the globals assigned by the statements before it. */
  predicate ScopedInOrder(functions: map<string, nat>, globals: set<string>, stmts: seq<Node>) {
    forall i :: 0 <= i < |stmts| ==> StatementScoped(functions, globals + Assigned(stmts[..i]), stmts[i])
  }

  /** Pass 2 succeeds exactly when every statement keeps the rules with the globals assigned by
      the statements before it, so a use before the assignment is rejected. */
  lemma {:induction false} CheckAllIff(functions: map<string, nat>, globals: set<string>, stmts: seq<Node>)
    ensures CheckAll(functions, globals, stmts).0.Pass? <==> ScopedInOrder(functions, globals, stmts)
    decreases |stmts|
  {
    if stmts != [] {
      var o := StatementCheck(functions, globals, [], stmts[0]).0;
      var globals' := StatementCheck(functions, globals, [], stmts[0]).1;
      StatementCheckIff(functions, globals, stmts[0]);
      if o.Pass? {
        CheckAllIff(functions, globals', stmts[1..]);
        InOrderCons(functions, globals, globals', stmts);
      } else {
        assert globals + Assigned(stmts[..0]) == globals;
      }
    }
  }

  /** `ScopedInOrder` unfolded once: the first statement with the globals so far, the rest with
      the first one's target added. */
  lemma InOrderCons(functions: map<string, nat>, globals: set<string>, globals': set<string>, stmts: seq<Node>)
    requires stmts != []
    requires globals' == globals + (if stmts[0].Assign? then {stmts[0].name} else {})
    ensures ScopedInOrder(functions, globals, stmts) <==>
      StatementScoped(functions, globals, stmts[0]) && ScopedInOrder(functions, globals', stmts[1..])
  {
    var rest := stmts[1..];
    assert globals + Assigned(stmts[..0]) == globals;
    forall i | 0 <= i < |rest| ensures globals + Assigned(stmts[..i + 1]) == globals' + Assigned(rest[..i]) {
      assert stmts[..i + 1][1..] == rest[..i];
    }
    if ScopedInOrder(functions, globals, stmts) {
      forall i | 0 <= i < |rest| ensures StatementScoped(functions, globals' + Assigned(rest[..i]), rest[i]) {
        assert rest[i] == stmts[i + 1];
      }
    }
    if StatementScoped(functions, globals, stmts[0]) && ScopedInOrder(functions, globals', rest) {
      forall i | 0 <= i < |stmts| ensures StatementScoped(functions, globals + Assigned(stmts[..i]), stmts[i]) {
        if i > 0 {
          assert stmts[i] == rest[i - 1];
          assert globals + Assigned(stmts[..i]) == globals' + Assigned(rest[..i - 1]);
        }
      }
    }
  }

  /** Pass 2 only adds globals, and only assignment targets; a complete pass adds them all. */
  lemma {:induction false} CheckAllGlobals(functions: map<string, nat>, globals: set<string>, stmts: seq<Node>)
    ensures globals <= CheckAll(functions, globals, stmts).1 <= globals + Assigned(stmts)
    ensures CheckAll(functions, globals, stmts).0.Pass? ==> CheckAll(functions, globals, stmts).1 == globals + Assigned(stmts)
    decreases |stmts|
  {
    if stmts != [] {
      var (o, globals') := StatementCheck(functions, globals, [], stmts[0]);
      if o.Pass? {
        CheckAllGlobals(functions, globals', stmts[1..]);
      }
    }
  }

  /** `analyze` succeeds exactly when the definitions' names are distinct and new and every
      statement keeps the rules with the globals assigned before it, whatever the bodies of
      later statements hold. */
  lemma AnalysisIff(functions: map<string, nat>, globals: set<string>, stmts: seq<Node>)
    ensures Analysis(functions, globals, stmts).0.Pass? <==>
      DistinctDefinitions(functions, stmts) && ScopedInOrder(Collect(functions, stmts).1, globals, stmts)
  {
    CollectPassesIff(functions, stmts);
    CheckAllIff(Collect(functions, stmts).1, globals, stmts);
  }

  /** The first definition among `stmts`, given that there is one. */
  lemma {:induction false} FirstDefinition(stmts: seq<Node>, i: nat) returns (first: nat)
    requires i < |stmts| && stmts[i].FunctionDef?
    ensures first <= i && stmts[first].FunctionDef?
    ensures forall k :: 0 <= k < first ==> !stmts[k].FunctionDef?
  {
    if k :| 0 <= k < i && stmts[k].FunctionDef? {
      first := FirstDefinition(stmts, k);
    } else {
      first := i;
    }
  }

  /** Pass 1 records the first definition's name, even when a later one fails. */
  lemma {:induction false} CollectRecordsFirst(functions: map<string, nat>, stmts: seq<Node>, first: nat)
    requires first < |stmts| && stmts[first].FunctionDef? && stmts[first].name !in functions
    requires forall k :: 0 <= k < first ==> !stmts[k].FunctionDef?
    ensures stmts[first].name in Collect(functions, stmts).1
    decreases first
  {
    if first == 0 {
      CollectKeeps(functions[stmts[0].name := |stmts[0].params|], stmts[1..]);
    } else {
      CollectRecordsFirst(functions, stmts[1..], first - 1);
    }
  }

  /** The analyzer keeps its tables between runs: analysing a program that defines a function
      a second time on the same instance reports a duplicate definition, however the first run
      ended. */
  lemma RerunRejects(stmts: seq<Node>, i: nat)
    requires i < |stmts| && stmts[i].FunctionDef?
    ensures var (_, functions, globals) := Analysis(map[], {}, stmts);
      var second := Analysis(functions, globals, stmts).0;
      second.Fail? && second.error.DuplicateFunction?
  {
    var first := FirstDefinition(stmts, i);
    CollectRecordsFirst(map[], stmts, first);
    var functions := Analysis(map[], {}, stmts).1;
    CollectPassesIff(functions, stmts);
  }

  /** The same on the class: a second `analyze` of a program with a definition fails. */
  method AnalyzeTwice(program: Node) returns (first: Outcome<SemanticError>, second: Outcome<SemanticError>)
    requires program.Program? && exists i :: 0 <= i < |program.statements| && program.statements[i].FunctionDef?
    ensures second.Fail? && second.error.DuplicateFunction?
  {
    var analyzer := new SemanticAnalyzer();
    first := analyzer.Analyze(program);
    second := analyzer.Analyze(program);
    var i :| 0 <= i < |program.statements| && program.statements[i].FunctionDef?;
    RerunRejects(program.statements, i);
  }

  // ---------------------------------------------------------------------------
  // Examples

  function Int(n: int): Node { Number(IntV(n)) }

  /** Signatures are collected first, so a call may precede the definition it calls. */
  lemma ForwardCall()
    ensures Analysis(map[], {}, [Call(Named("f"), [Int(2)]), FunctionDef("f", ["x"], BinaryOp("*", Var("x"), Var("x")))]).0
         == Pass
  {
  }

  /** The right-hand side is checked before the target is recorded: `x = x + 1` needs an
      earlier `x`. */
  lemma SelfReference()
    ensures Analysis(map[], {}, [Assign("x", BinaryOp("+", Var("x"), Int(1)))]) == (Fail(UndefinedVariable("x")), map[], {})
    ensures Analysis(map[], {}, [Assign("x", Int(0)), Assign("x", BinaryOp("+", Var("x"), Int(1)))]) == (Pass, map[], {"x"})
  {
    var stmts := [Assign("x", Int(0)), Assign("x", BinaryOp("+", Var("x"), Int(1)))];
    assert {} + {"x"} == {"x"} + {"x"} == {"x"};
    assert CheckExpression(map[], {"x"}, [], stmts[1].expr) == Pass;
    assert StatementCheck(map[], {"x"}, [], stmts[1]) == (Pass, {"x"});
    assert CheckAll(map[], {}, stmts) == CheckAll(map[], {"x"}, stmts[1..]);
  }

  /** A body sees the globals assigned before its definition and no later ones. */
  lemma BodySeesEarlierGlobals()
    ensures Analysis(map[], {}, [FunctionDef("f", [], Var("g")), Assign("g", Int(1))]).0 == Fail(UndefinedVariable("g"))
    ensures Analysis(map[], {}, [Assign("g", Int(1)), FunctionDef("f", [], Var("g"))]).0 == Pass
  {
  }

  /** A duplicate definition is reported by pass 1, before the undefined name in a body is seen. */
  lemma DuplicateBeforeBodies()
    ensures Analysis(map[], {}, [FunctionDef("f", [], Var("nope")), FunctionDef("f", [], Int(1))])
         == (Fail(DuplicateFunction("f")), map["f" := 0], {})
  {
  }

  /** A call passes exactly as many arguments as the definition has parameters. */
  lemma ArityChecked()
    ensures Analysis(map[], {}, [FunctionDef("f", ["a", "b"], BinaryOp("+", Var("a"), Var("b"))), Call(Named("f"), [Int(1)])]).0
         == Fail(ArityMismatch("f", 2, 1))
    ensures Analysis(map[], {}, [FunctionDef("f", ["x"], BinaryOp("+", Var("x"), Int(1))),
                                 Assign("result", Call(Named("f"), [Int(1), Int(2)]))]).0
         == Fail(ArityMismatch("f", 1, 2))
  {
  }

  /** A name read before any assignment to it is reported, and nothing is recorded. */
  lemma UndefinedVariableRejected()
    ensures Analysis(map[], {}, [Assign("x", BinaryOp("+", Var("y"), Int(1)))]) == (Fail(UndefinedVariable("y")), map[], {})
  {
  }

  /** Only a name can be called. */
  lemma ComputedCalleeRejected()
    ensures CheckExpression(map["f" := 0], {}, [], Call(Computed(BinaryOp("+", Var("f"), Int(1))), [])) == Fail(UnsupportedCall)
  {
  }
}
