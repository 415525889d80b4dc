/**
 * A direct, tree-walking meaning for programs: the reference the compiled bytecode is held
 * to. It reads variables, binds arguments, bounds call depth and raises errors exactly as a
 * frame of the VM does, but works on the syntax tree itself, with no stack, no constant pool
 * and no instructions.
 */
module Eval {
  import opened Wrappers
  import opened Values
  import opened Ast
  import opened Codegen
  import opened Vm

  /** A run-time error the VM would raise, or a construct the code generator refuses. */
  datatype Failure = Runtime(error: VmError) | Uncompilable(reason: CodegenError)

  /** A function definition as the evaluator keeps it. */
  datatype Def = Def(params: seq<string>, body: Node)

  function OperatorOf(op: string): Option<ArithOp> {
    if op == "+" then Some(AddOp)
    else if op == "-" then Some(SubOp)
    else if op == "*" then Some(MulOp)
    else if op == "/" then Some(DivOp)
    else if op == "^" then Some(PowOp)
    else None
  }

  /** The value of `e` inside a function with parameters `params` (none at top level):
      parameters are read from the locals only, other names from the locals and then the
      globals; a call evaluates its arguments left to right and runs the callee's body with
      the arguments bound by position, one level of `fuel` deeper. */
  function Evaluate(defs: map<string, Def>, params: seq<string>, locals: map<string, Value>,
                    globals: map<string, Value>, e: Node, fuel: nat): Result<Value, Failure>
    decreases fuel, Size(e), 1
  {
    match e
    case Number(v) => Ok(v)
    case Var(x) =>
      if x in params then
        if x in locals then Ok(locals[x]) else Err(Runtime(UndefinedLocal(x)))
      else if x in locals then Ok(locals[x])
      else if x in globals then Ok(globals[x])
      else Err(Runtime(UndefinedVariable(x)))
    case BinaryOp(op, l, r) =>
      (match Evaluate(defs, params, locals, globals, l, fuel)
       case Err(f) => Err(f)
       case Ok(a) =>
         match Evaluate(defs, params, locals, globals, r, fuel)
         case Err(f) => Err(f)
         case Ok(b) =>
           match OperatorOf(op)
           case None => Err(Uncompilable(UnknownOperator(op)))
           case Some(aop) =>
             match Arith(aop, a, b)
             case Ok(v) => Ok(v)
             case Err(err) => Err(Runtime(ArithFailure(err))))
    case Call(callee, args) =>
      (match EvaluateArgs(defs, params, locals, globals, args, fuel)
       case Err(f) => Err(f)
       case Ok(vs) =>
         match CalleeName(callee)
         case None => Err(Uncompilable(UnsupportedCallTarget))
         case Some(f) =>
           if f !in defs then Err(Runtime(UndefinedFunction(f)))
           else if fuel == 0 then Err(Runtime(RecursionLimit))
           else
             var d := defs[f];
             Evaluate(defs, d.params, Bind(map[], d.params, vs), globals, d.body, fuel - 1))
    case _ => Err(Uncompilable(UnsupportedExpression))
  }

  function EvaluateArgs(defs: map<string, Def>, params: seq<string>, locals: map<string, Value>,
                        globals: map<string, Value>, args: seq<Node>, fuel: nat): (r: Result<seq<Value>, Failure>)
    ensures r.Ok? ==> |r.value| == |args|
    decreases fuel, SizeList(args), 0
  {
    if args == [] then Ok([])
    else
      match Evaluate(defs, params, locals, globals, args[0], fuel)
      case Err(f) => Err(f)
      case Ok(v) =>
        match EvaluateArgs(defs, params, locals, globals, args[1..], fuel)
        case Err(f) => Err(f)
        case Ok(vs) => Ok([v] + vs)
  }

  /** The function table: every definition in order, a later one replacing an earlier one. */
  function Definitions(defs: map<string, Def>, stmts: seq<Node>): map<string, Def>
    decreases |stmts|
  {
    if stmts == [] then defs
    else if stmts[0].FunctionDef? then
      Definitions(defs[stmts[0].name := Def(stmts[0].params, stmts[0].body)], stmts[1..])
    else Definitions(defs, stmts[1..])
  }

  /** One top-level statement: an assignment updates the globals, a definition was already
      taken into the table, any other statement is evaluated and its value dropped. */
  function EvaluateStmt(defs: map<string, Def>, globals: map<string, Value>, s: Node, fuel: nat): Result<map<string, Value>, Failure> {
    if s.FunctionDef? then Ok(globals)
    else
      var e := if s.Assign? then s.expr else s;
      match Evaluate(defs, [], map[], globals, e, fuel)
      case Err(f) => Err(f)
      case Ok(v) => Ok(if s.Assign? then globals[s.name := v] else globals)
  }

  function EvaluateMain(defs: map<string, Def>, globals: map<string, Value>, stmts: seq<Node>, fuel: nat): Result<map<string, Value>, Failure>
    decreases |stmts|
  {
    if stmts == [] then Ok(globals)
    else
      match EvaluateStmt(defs, globals, stmts[0], fuel)
      case Err(f) => Err(f)
      case Ok(g) => EvaluateMain(defs, g, stmts[1..], fuel)
  }

  /** The globals a program leaves, starting from none, with calls at most `fuel` deep. */
  function EvaluateProgram(stmts: seq<Node>, fuel: nat): Result<map<string, Value>, Failure> {
    EvaluateMain(Definitions(map[], stmts), map[], stmts, fuel)
  }
}
