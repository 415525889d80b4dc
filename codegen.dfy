/**
 * The code generator (src/codegen.py): lowers the syntax tree to the VM's stack bytecode.
 *
 * The functional part states what each emit step appends and how the constant pool grows;
 * the `Compiler` class is the source's object, whose `consts`, `instructions` and
 * `functions` fields are extended in place, proved against those functions.
 */
module Codegen {
  import opened Wrappers
  import opened Values
  import opened Ast

  /** One bytecode instruction. `Unrecognised` stands for any opcode the compiler never emits. */
  datatype Instr =
    | PushConst(idx: nat)
    | LoadVar(name: string)
    | StoreVar(name: string)
    | LoadLocal(name: string)
    | Pop
    | Add
    | Sub
    | Mul
    | Div
    | Pow
    | CallFunction(fname: string, argc: nat)
    | Ret
    | Unrecognised(op: string)

  /** A compiled body: its instructions, its own constant pool and its parameter names
      (empty for the main code object). */
  datatype CodeObject = CodeObject(instructions: seq<Instr>, consts: seq<Value>, params: seq<string>)

  /** The exceptions `emit_expression` raises. */
  datatype CodegenError = UnknownOperator(op: string) | UnsupportedCallTarget | UnsupportedExpression

  /** What an emit step leaves behind: whether it raised, the instructions it appended (up to
      the raise) and the constant pool afterwards. */
  datatype Emission = Emission(outcome: Outcome<CodegenError>, code: seq<Instr>, consts: seq<Value>)

  function OperatorInstr(op: string): (r: Option<Instr>)
    ensures r.Some? <==> IsArithOperator(op)
  {
    if op == "+" then Some(Add)
    else if op == "-" then Some(Sub)
    else if op == "*" then Some(Mul)
    else if op == "/" then Some(Div)
    else if op == "^" then Some(Pow)
    else None
  }

  // ---------------------------------------------------------------- the constant pool

  /** `consts.index(v)`: the first slot holding a value Python's `==` equates with `v`. */
  function FindConst(consts: seq<Value>, v: Value): (r: Option<nat>)
    ensures r.Some? ==> r.value < |consts| && PyEq(consts[r.value], v)
    ensures r.Some? ==> forall j :: 0 <= j < r.value ==> !PyEq(consts[j], v)
    ensures r.None? ==> forall j :: 0 <= j < |consts| ==> !PyEq(consts[j], v)
  {
    if consts == [] then None
    else if PyEq(consts[0], v) then Some(0)
    else match FindConst(consts[1..], v)
      case None => None
      case Some(k) => Some(k + 1)
  }

  /** `_add_const`: the slot for `v` and the pool afterwards. */
  function ConstSlot(consts: seq<Value>, v: Value): (r: (nat, seq<Value>))
    ensures r.0 < |r.1| && PyEq(r.1[r.0], v) && consts <= r.1
    ensures r.0 < |consts| ==> r.1 == consts
    ensures r.0 == |consts| ==> r.1 == consts + [v] && forall j :: 0 <= j < |consts| ==> !PyEq(consts[j], v)
  {
    match FindConst(consts, v)
    case Some(i) => (i, consts)
    case None => (|consts|, consts + [v])
  }

  /** No two slots of the pool are `==`. */
  predicate Distinct(consts: seq<Value>) {
    forall i, j :: 0 <= i < j < |consts| ==> !PyEq(consts[i], consts[j])
  }

  lemma ConstSlotKeepsDistinct(consts: seq<Value>, v: Value)
    requires Distinct(consts)
    ensures Distinct(ConstSlot(consts, v).1)
  {
    var (i, pool) := ConstSlot(consts, v);
    if i == |consts| {
      forall a, b | 0 <= a < b < |pool|
        ensures !PyEq(pool[a], pool[b])
      {
        if b == |consts| {
          PyEqIsEquivalence(pool[a], v, v);
        }
      }
    }
  }

  // ---------------------------------------------------------------- emitting code

  /** `emit_expression` with `current_params` = `params` (an absent list is empty: both are falsy). */
  function EmitExpr(params: seq<string>, consts: seq<Value>, e: Node): (r: Emission)
    ensures consts <= r.consts
    decreases Size(e), 1
  {
    match e
    case Number(v) =>
      var (idx, pool) := ConstSlot(consts, v);
      Emission(Pass, [PushConst(idx)], pool)
    case Var(x) =>
      Emission(Pass, [if x in params then LoadLocal(x) else LoadVar(x)], consts)
    case BinaryOp(op, l, r) =>
      var a := EmitExpr(params, consts, l);
      if a.outcome.Fail? then a
      else
        var b := EmitExpr(params, a.consts, r);
        if b.outcome.Fail? then Emission(b.outcome, a.code + b.code, b.consts)
        else (match OperatorInstr(op)
          case None => Emission(Fail(UnknownOperator(op)), a.code + b.code, b.consts)
          case Some(ins) => Emission(Pass, a.code + b.code + [ins], b.consts))
    case Call(callee, args) =>
      var a := EmitArgs(params, consts, args);
      if a.outcome.Fail? then a
      else (match CalleeName(callee)
        case None => Emission(Fail(UnsupportedCallTarget), a.code, a.consts)
        case Some(f) => Emission(Pass, a.code + [CallFunction(f, |args|)], a.consts))
    case _ => Emission(Fail(UnsupportedExpression), [], consts)
  }

  /** The argument loop of a call: each argument in turn, stopping at the first raise. */
  function EmitArgs(params: seq<string>, consts: seq<Value>, args: seq<Node>): (r: Emission)
    ensures consts <= r.consts
    decreases SizeList(args), 0
  {
    if args == [] then Emission(Pass, [], consts)
    else
      var a := EmitExpr(params, consts, args[0]);
      if a.outcome.Fail? then a
      else
        var b := EmitArgs(params, a.consts, args[1..]);
        Emission(b.outcome, a.code + b.code, b.consts)
  }

  /** One turn of the argument loop: with `prior` emitted before the arguments `rest`, the
      first of them either raises, ending the whole loop, or is appended and the loop goes on
      with the others. */
  lemma ArgsTurn(params: seq<string>, consts: seq<Value>, rest: seq<Node>, target: Emission, prior: seq<Instr>)
    requires rest != []
    requires var tail := EmitArgs(params, consts, rest);
      target == Emission(tail.outcome, prior + tail.code, tail.consts)
    ensures var a := EmitExpr(params, consts, rest[0]);
      if a.outcome.Fail? then target == Emission(a.outcome, prior + a.code, a.consts)
      else var tail := EmitArgs(params, a.consts, rest[1..]);
        target == Emission(tail.outcome, (prior + a.code) + tail.code, tail.consts)
  {
    var a := EmitExpr(params, consts, rest[0]);
    if a.outcome.Pass? {
      var tail := EmitArgs(params, a.consts, rest[1..]);
      assert prior + (a.code + tail.code) == (prior + a.code) + tail.code;
    }
  }

  /** `emit_statement`: an assignment stores its value, any other statement drops it. */
  function EmitStmt(params: seq<string>, consts: seq<Value>, s: Node): (r: Emission)
    ensures consts <= r.consts
  {
    var e := if s.Assign? then s.expr else s;
    var a := EmitExpr(params, consts, e);
    if a.outcome.Fail? then a
    else Emission(Pass, a.code + [if s.Assign? then StoreVar(s.name) else Pop], a.consts)
  }

  /** `compile_function`: the body in a fresh compiler with the parameters as locals. */
  function FunctionCode(fdef: Node): (r: Result<CodeObject, CodegenError>)
    requires fdef.FunctionDef?
    ensures r.Ok? ==> r.value.params == fdef.params
  {
    var a := EmitExpr(fdef.params, [], fdef.body);
    if a.outcome.Fail? then Err(a.outcome.error)
    else Ok(CodeObject(a.code + [Ret], a.consts, fdef.params))
  }

  /** The first loop of `compile`: every definition in order, stored under its name. */
  function CompileDefs(functions: map<string, CodeObject>, stmts: seq<Node>): (Outcome<CodegenError>, map<string, CodeObject>)
    decreases |stmts|
  {
    if stmts == [] then (Pass, functions)
    else if stmts[0].FunctionDef? then
      match FunctionCode(stmts[0])
      case Err(err) => (Fail(err), functions)
      case Ok(co) => CompileDefs(functions[stmts[0].name := co], stmts[1..])
    else CompileDefs(functions, stmts[1..])
  }

  /** The second loop of `compile`: every other statement in order, into one pool. */
  function EmitMain(params: seq<string>, consts: seq<Value>, stmts: seq<Node>): (r: Emission)
    ensures consts <= r.consts
    decreases |stmts|
  {
    if stmts == [] then Emission(Pass, [], consts)
    else if stmts[0].FunctionDef? then EmitMain(params, consts, stmts[1..])
    else
      var a := EmitStmt(params, consts, stmts[0]);
      if a.outcome.Fail? then a
      else
        var b := EmitMain(params, a.consts, stmts[1..]);
        Emission(b.outcome, a.code + b.code, b.consts)
  }

  /** One turn of the statement loop of `compile`, with `prior` emitted before the statements
      `rest`: a definition is skipped; another statement either raises, ending the loop, or is
      appended and the loop goes on with the others. */
  lemma MainTurn(params: seq<string>, consts: seq<Value>, rest: seq<Node>, target: Emission, prior: seq<Instr>)
    requires rest != []
    requires var tail := EmitMain(params, consts, rest);
      target == Emission(tail.outcome, prior + tail.code, tail.consts)
    ensures var a := EmitStmt(params, consts, rest[0]);
      if rest[0].FunctionDef? then
        var tail := EmitMain(params, consts, rest[1..]);
        target == Emission(tail.outcome, prior + tail.code, tail.consts)
      else if a.outcome.Fail? then target == Emission(a.outcome, prior + a.code, a.consts)
      else var tail := EmitMain(params, a.consts, rest[1..]);
        target == Emission(tail.outcome, (prior + a.code) + tail.code, tail.consts)
  {
    var a := EmitStmt(params, consts, rest[0]);
    if !rest[0].FunctionDef? && a.outcome.Pass? {
      var tail := EmitMain(params, a.consts, rest[1..]);
      assert prior + (a.code + tail.code) == (prior + a.code) + tail.code;
    }
  }

  /** The compiler's fields after `compile`, and what it returned. */
  datatype Compiled = Compiled(
    result: Result<(CodeObject, map<string, CodeObject>), CodegenError>,
    functions: map<string, CodeObject>,
    consts: seq<Value>,
    instructions: seq<Instr>)

  /** `compile` on a compiler whose fields hold `params`, `functions`, `consts`, `instructions`. */
  function CompileProgram(params: seq<string>, functions: map<string, CodeObject>, consts: seq<Value>,
                          instructions: seq<Instr>, stmts: seq<Node>): Compiled
  {
    var (defs, table) := CompileDefs(functions, stmts);
    if defs.Fail? then Compiled(Err(defs.error), table, consts, instructions)
    else
      var m := EmitMain(params, [], stmts);
      if m.outcome.Fail? then Compiled(Err(m.outcome.error), table, m.consts, m.code)
      else Compiled(Ok((CodeObject(m.code + [Ret], m.consts, []), table)), table, m.consts, m.code + [Ret])
  }

  // ---------------------------------------------------------------- the compiler object

  class Compiler {
    var consts: seq<Value>
    var instructions: seq<Instr>
    var functions: map<string, CodeObject>
    var currentParams: seq<string>

    constructor()
      ensures consts == [] && instructions == [] && functions == map[] && currentParams == []
    {
      consts := [];
      instructions := [];
      functions := map[];
      currentParams := [];
    }

    method AddConst(v: Value) returns (idx: nat)
      modifies this
      ensures (idx, consts) == ConstSlot(old(consts), v)
      ensures instructions == old(instructions) && functions == old(functions) && currentParams == old(currentParams)
    {
      var i := 0;
      while i < |consts|
        invariant i <= |consts|
        invariant forall j :: 0 <= j < i ==> !PyEq(consts[j], v)
      {
        if PyEq(consts[i], v) {
          return i;
        }
        i := i + 1;
      }
      consts := consts + [v];
      idx := |consts| - 1;
    }

    method EmitExpression(e: Node) returns (r: Outcome<CodegenError>)
      modifies this
      ensures var em := EmitExpr(currentParams, old(consts), e);
        r == em.outcome && consts == em.consts && instructions == old(instructions) + em.code
      ensures functions == old(functions) && currentParams == old(currentParams)
      decreases Size(e), 2
    {
      match e {
        case Number(v) =>
          var idx := AddConst(v);
          instructions := instructions + [PushConst(idx)];
          return Pass;
        case Var(x) =>
          if x in currentParams {
            instructions := instructions + [LoadLocal(x)];
          } else {
            instructions := instructions + [LoadVar(x)];
          }
          return Pass;
        case BinaryOp(_, _, _) =>
          r := EmitBinary(e);
        case Call(_, _) =>
          r := EmitCall(e);
        case _ =>
          return Fail(UnsupportedExpression);
      }
    }

    /** The `BinaryOp` branch of `emit_expression`: both operands, then the operator. */
    method EmitBinary(e: Node) returns (r: Outcome<CodegenError>)
      requires e.BinaryOp?
      modifies this
      ensures var em := EmitExpr(currentParams, old(consts), e);
        r == em.outcome && consts == em.consts && instructions == old(instructions) + em.code
      ensures functions == old(functions) && currentParams == old(currentParams)
      decreases Size(e), 1
    {
      ghost var start := instructions;
      ghost var a := EmitExpr(currentParams, consts, e.left);
      r := EmitExpression(e.left);
      if r.Fail? {
        return;
      }
      ghost var b := EmitExpr(currentParams, consts, e.right);
      r := EmitExpression(e.right);
      assert instructions == start + (a.code + b.code);
      if r.Fail? {
        return;
      }
      var ins := OperatorInstr(e.op);
      if ins.None? {
        return Fail(UnknownOperator(e.op));
      }
      instructions := instructions + [ins.value];
      assert instructions == start + (a.code + b.code + [ins.value]);
    }

    /** The `Call` branch of `emit_expression`: the arguments, then one `CALL`. */
    method EmitCall(e: Node) returns (r: Outcome<CodegenError>)
      requires e.Call?
      modifies this
      ensures var em := EmitExpr(currentParams, old(consts), e);
        r == em.outcome && consts == em.consts && instructions == old(instructions) + em.code
      ensures functions == old(functions) && currentParams == old(currentParams)
      decreases Size(e), 1
    {
      r := EmitArguments(e.args);
      if r.Fail? {
        return;
      }
      var fname := CalleeName(e.callee);
      if fname.None? {
        return Fail(UnsupportedCallTarget);
      }
      instructions := instructions + [CallFunction(fname.value, |e.args|)];
    }

    /** The `for a in expr.args` loop of `emit_expression`. */
    method EmitArguments(args: seq<Node>) returns (r: Outcome<CodegenError>)
      modifies this
      ensures var em := EmitArgs(currentParams, old(consts), args);
        r == em.outcome && consts == em.consts && instructions == old(instructions) + em.code
      ensures functions == old(functions) && currentParams == old(currentParams)
      decreases SizeList(args), 0
    {
      ghost var all := EmitArgs(currentParams, consts, args);
      ghost var target := Emission(all.outcome, instructions + all.code, all.consts);
      var rest := args;
      while rest != []
        invariant SizeList(rest) <= SizeList(args)
        invariant functions == old(functions) && currentParams == old(currentParams)
        invariant var tail := EmitArgs(currentParams, consts, rest);
          target == Emission(tail.outcome, instructions + tail.code, tail.consts)
        decreases |rest|
      {
        ArgsTurn(currentParams, consts, rest, target, instructions);
        r := EmitExpression(rest[0]);
        if r.Fail? {
          return;
        }
        rest := rest[1..];
      }
      assert instructions + [] == instructions;
      return Pass;
    }

    method EmitStatement(s: Node) returns (r: Outcome<CodegenError>)
      modifies this
      ensures var em := EmitStmt(currentParams, old(consts), s);
        r == em.outcome && consts == em.consts && instructions == old(instructions) + em.code
      ensures functions == old(functions) && currentParams == old(currentParams)
    {
      if s.Assign? {
        r := EmitExpression(s.expr);
        if r.Pass? {
          instructions := instructions + [StoreVar(s.name)];
        }
      } else {
        r := EmitExpression(s);
        if r.Pass? {
          instructions := instructions + [Pop];
        }
      }
    }

    /** Compiles one definition in a fresh compiler; this compiler is left untouched. */
    method CompileFunction(fdef: Node) returns (r: Result<CodeObject, CodegenError>)
      requires fdef.FunctionDef?
      ensures r == FunctionCode(fdef)
    {
      var c := new Compiler();
      c.currentParams := fdef.params;
      c.consts := [];
      c.instructions := [];
      var o := c.EmitExpression(fdef.body);
      assert c.instructions == EmitExpr(fdef.params, [], fdef.body).code;
      if o.Fail? {
        return Err(o.error);
      }
      c.instructions := c.instructions + [Ret];
      return Ok(CodeObject(c.instructions, c.consts, fdef.params));
    }

    method Compile(program: Node) returns (r: Result<(CodeObject, map<string, CodeObject>), CodegenError>)
      requires program.Program?
      modifies this
      ensures Compiled(r, functions, consts, instructions)
        == CompileProgram(old(currentParams), old(functions), old(consts), old(instructions), program.statements)
      ensures currentParams == old(currentParams)
    {
      var rest := program.statements;
      while rest != []
        invariant consts == old(consts) && instructions == old(instructions)
        invariant currentParams == old(currentParams)
        invariant CompileDefs(old(functions), program.statements) == CompileDefs(functions, rest)
      {
        if rest[0].FunctionDef? {
          var co := CompileFunction(rest[0]);
          if co.Err? {
            return Err(co.error);
          }
          functions := functions[rest[0].name := co.value];
        }
        rest := rest[1..];
      }
      consts := [];
      instructions := [];
      ghost var target := EmitMain(currentParams, [], program.statements);
      rest := program.statements;
      while rest != []
        invariant currentParams == old(currentParams)
        invariant CompileDefs(old(functions), program.statements) == (Pass, functions)
        invariant var tail := EmitMain(currentParams, consts, rest);
          target == Emission(tail.outcome, instructions + tail.code, tail.consts)
      {
        MainTurn(currentParams, consts, rest, target, instructions);
        if !rest[0].FunctionDef? {
          var o := EmitStatement(rest[0]);
          if o.Fail? {
            return Err(o.error);
          }
        }
        rest := rest[1..];
      }
      assert instructions + [] == instructions;
      instructions := instructions + [Ret];
      return Ok((CodeObject(instructions, consts, []), functions));
    }
  }

  // ---------------------------------------------------------------- what emitted code looks like

  /** Every `PUSH_CONST` names a slot of a pool of `n` constants. */
  predicate ConstsInRange(code: seq<Instr>, n: nat) {
    forall i :: 0 <= i < |code| && code[i].PushConst? ==> code[i].idx < n
  }

  /** `LOAD_LOCAL` exactly for parameters, `LOAD_VAR` for every other name. */
  predicate LoadsMatchParams(params: seq<string>, code: seq<Instr>) {
    forall i :: 0 <= i < |code| ==>
      (code[i].LoadLocal? ==> code[i].name in params) && (code[i].LoadVar? ==> code[i].name !in params)
  }

  /** Straight-line code: no `RET` and no opcode the VM rejects. */
  predicate Straight(code: seq<Instr>) {
    forall i :: 0 <= i < |code| ==> code[i] != Ret && !code[i].Unrecognised?
  }

  /** The three facts together, for code emitted under `params` into a pool of `n` constants. */
  predicate WellEmitted(params: seq<string>, n: nat, code: seq<Instr>) {
    ConstsInRange(code, n) && LoadsMatchParams(params, code) && Straight(code)
  }

  lemma WellEmittedConcat(params: seq<string>, n: nat, m: nat, a: seq<Instr>, b: seq<Instr>)
    requires WellEmitted(params, n, a) && WellEmitted(params, m, b) && n <= m
    ensures WellEmitted(params, m, a + b)
  {
    forall i | 0 <= i < |a + b|
      ensures (a + b)[i] == (if i < |a| then a[i] else b[i - |a|])
    {
    }
  }

  /** Whatever an expression emits, even up to a raise: constant indices inside the final pool,
      loads chosen by the parameter list, no `RET`; and a pool without `==` duplicates stays so. */
  lemma {:induction false} EmitExprShape(params: seq<string>, consts: seq<Value>, e: Node)
    ensures var r := EmitExpr(params, consts, e);
      WellEmitted(params, |r.consts|, r.code) && (Distinct(consts) ==> Distinct(r.consts))
    decreases Size(e), 1
  {
    match e
    case Number(v) =>
      if Distinct(consts) {
        ConstSlotKeepsDistinct(consts, v);
      }
    case Var(_) =>
    case BinaryOp(op, l, r) =>
      var a := EmitExpr(params, consts, l);
      EmitExprShape(params, consts, l);
      if a.outcome.Pass? {
        var b := EmitExpr(params, a.consts, r);
        EmitExprShape(params, a.consts, r);
        WellEmittedConcat(params, |a.consts|, |b.consts|, a.code, b.code);
        if OperatorInstr(op).Some? {
          WellEmittedConcat(params, |b.consts|, |b.consts|, a.code + b.code, [OperatorInstr(op).value]);
        }
      }
    case Call(callee, args) =>
      var a := EmitArgs(params, consts, args);
      EmitArgsShape(params, consts, args);
      if a.outcome.Pass? && CalleeName(callee).Some? {
        WellEmittedConcat(params, |a.consts|, |a.consts|, a.code, [CallFunction(CalleeName(callee).value, |args|)]);
      }
    case _ =>
  }

  lemma {:induction false} EmitArgsShape(params: seq<string>, consts: seq<Value>, args: seq<Node>)
    ensures var r := EmitArgs(params, consts, args);
      WellEmitted(params, |r.consts|, r.code) && (Distinct(consts) ==> Distinct(r.consts))
    decreases SizeList(args), 0
  {
    if args != [] {
      var a := EmitExpr(params, consts, args[0]);
      EmitExprShape(params, consts, args[0]);
      if a.outcome.Pass? {
        var b := EmitArgs(params, a.consts, args[1..]);
        EmitArgsShape(params, a.consts, args[1..]);
        WellEmittedConcat(params, |a.consts|, |b.consts|, a.code, b.code);
      }
    }
  }

  lemma EmitStmtShape(params: seq<string>, consts: seq<Value>, s: Node)
    ensures var r := EmitStmt(params, consts, s);
      WellEmitted(params, |r.consts|, r.code) && (Distinct(consts) ==> Distinct(r.consts))
  {
    var e := if s.Assign? then s.expr else s;
    var a := EmitExpr(params, consts, e);
    EmitExprShape(params, consts, e);
    if a.outcome.Pass? {
      WellEmittedConcat(params, |a.consts|, |a.consts|, a.code, [if s.Assign? then StoreVar(s.name) else Pop]);
    }
  }

  lemma {:induction false} EmitMainShape(params: seq<string>, consts: seq<Value>, stmts: seq<Node>)
    ensures var r := EmitMain(params, consts, stmts);
      WellEmitted(params, |r.consts|, r.code) && (Distinct(consts) ==> Distinct(r.consts))
    decreases |stmts|
  {
    if stmts != [] {
      if stmts[0].FunctionDef? {
        EmitMainShape(params, consts, stmts[1..]);
      } else {
        var a := EmitStmt(params, consts, stmts[0]);
        EmitStmtShape(params, consts, stmts[0]);
        if a.outcome.Pass? {
          var b := EmitMain(params, a.consts, stmts[1..]);
          EmitMainShape(params, a.consts, stmts[1..]);
          WellEmittedConcat(params, |a.consts|, |b.consts|, a.code, b.code);
        }
      }
    }
  }

  // ---------------------------------------------------------------- stack discipline

  /** The stack height after one instruction, or None where the VM would pop an empty stack
      (or stop: `RET` and rejected opcodes end straight-line code). */
  function Effect(ins: Instr, d: nat): Option<nat> {
    match ins
    case PushConst(_) => Some(d + 1)
    case LoadVar(_) => Some(d + 1)
    case LoadLocal(_) => Some(d + 1)
    case StoreVar(_) => if d >= 1 then Some(d - 1) else None
    case Pop => if d >= 1 then Some(d - 1) else None
    case CallFunction(_, n) => if d >= n then Some(d - n + 1) else None
    case Ret => None
    case Unrecognised(_) => None
    case _ => if d >= 2 then Some(d - 1) else None
  }

  /** The stack height after running `code` from height `d`, never popping an empty stack. */
  function Depth(code: seq<Instr>, d: nat): Option<nat>
    decreases |code|
  {
    if code == [] then Some(d)
    else match Effect(code[0], d)
      case None => None
      case Some(d') => Depth(code[1..], d')
  }

  lemma {:induction false} DepthConcat(a: seq<Instr>, b: seq<Instr>, d: nat)
    ensures Depth(a + b, d) == (match Depth(a, d) case None => None case Some(k) => Depth(b, k))
    decreases |a|
  {
    if a == [] {
      assert a + b == b;
    } else {
      assert (a + b)[0] == a[0] && (a + b)[1..] == a[1..] + b;
      match Effect(a[0], d)
      case None =>
        assert Depth(a, d) == None;
      case Some(k) =>
        assert Depth(a, d) == Depth(a[1..], k);
        assert Depth(a + b, d) == Depth(a[1..] + b, k);
        DepthConcat(a[1..], b, k);
    }
  }

  /** A compiled expression pushes exactly one value, whatever the height it starts at,
      and never reaches below that height. */
  lemma {:induction false} ExprStackEffect(params: seq<string>, consts: seq<Value>, e: Node, d: nat)
    requires EmitExpr(params, consts, e).outcome.Pass?
    ensures Depth(EmitExpr(params, consts, e).code, d) == Some(d + 1)
    decreases Size(e), 2
  {
    match e
    case Number(_) =>
    case Var(_) =>
    case BinaryOp(_, _, _) => BinaryStackEffect(params, consts, e, d);
    case Call(_, _) => CallStackEffect(params, consts, e, d);
  }

  lemma DepthThen(a: seq<Instr>, b: seq<Instr>, d: nat, k: nat, m: nat)
    requires Depth(a, d) == Some(k) && Depth(b, k) == Some(m)
    ensures Depth(a + b, d) == Some(m)
  {
    DepthConcat(a, b, d);
  }

  lemma {:induction false} BinaryStackEffect(params: seq<string>, consts: seq<Value>, e: Node, d: nat)
    requires e.BinaryOp? && EmitExpr(params, consts, e).outcome.Pass?
    ensures Depth(EmitExpr(params, consts, e).code, d) == Some(d + 1)
    decreases Size(e), 1
  {
    var a := EmitExpr(params, consts, e.left);
    var b := EmitExpr(params, a.consts, e.right);
    var ins := OperatorInstr(e.op).value;
    assert EmitExpr(params, consts, e).code == a.code + b.code + [ins];
    ExprStackEffect(params, consts, e.left, d);
    ExprStackEffect(params, a.consts, e.right, d + 1);
    DepthThen(a.code, b.code, d, d + 1, d + 2);
    assert Depth([ins], d + 2) == Some(d + 1);
    DepthThen(a.code + b.code, [ins], d, d + 2, d + 1);
  }

  lemma {:induction false} CallStackEffect(params: seq<string>, consts: seq<Value>, e: Node, d: nat)
    requires e.Call? && EmitExpr(params, consts, e).outcome.Pass?
    ensures Depth(EmitExpr(params, consts, e).code, d) == Some(d + 1)
    decreases Size(e), 1
  {
    var a := EmitArgs(params, consts, e.args);
    var ins := CallFunction(CalleeName(e.callee).value, |e.args|);
    assert EmitExpr(params, consts, e).code == a.code + [ins];
    ArgsStackEffect(params, consts, e.args, d);
    assert Depth([ins], d + |e.args|) == Some(d + 1);
    DepthThen(a.code, [ins], d, d + |e.args|, d + 1);
  }

  /** The argument code pushes one value per argument. */
  lemma {:induction false} ArgsStackEffect(params: seq<string>, consts: seq<Value>, args: seq<Node>, d: nat)
    requires EmitArgs(params, consts, args).outcome.Pass?
    ensures Depth(EmitArgs(params, consts, args).code, d) == Some(d + |args|)
    decreases SizeList(args), 0
  {
    if args != [] {
      var a := EmitExpr(params, consts, args[0]);
      var b := EmitArgs(params, a.consts, args[1..]);
      ExprStackEffect(params, consts, args[0], d);
      ArgsStackEffect(params, a.consts, args[1..], d + 1);
      DepthConcat(a.code, b.code, d);
    }
  }

  /** A compiled statement leaves the stack as it found it. */
  lemma StmtStackEffect(params: seq<string>, consts: seq<Value>, s: Node, d: nat)
    requires EmitStmt(params, consts, s).outcome.Pass?
    ensures Depth(EmitStmt(params, consts, s).code, d) == Some(d)
  {
    var e := if s.Assign? then s.expr else s;
    var a := EmitExpr(params, consts, e);
    ExprStackEffect(params, consts, e, d);
    DepthConcat(a.code, [if s.Assign? then StoreVar(s.name) else Pop], d);
  }

  lemma {:induction false} MainStackEffect(params: seq<string>, consts: seq<Value>, stmts: seq<Node>, d: nat)
    requires EmitMain(params, consts, stmts).outcome.Pass?
    ensures Depth(EmitMain(params, consts, stmts).code, d) == Some(d)
    decreases |stmts|
  {
    if stmts != [] {
      if stmts[0].FunctionDef? {
        MainStackEffect(params, consts, stmts[1..], d);
      } else {
        var a := EmitStmt(params, consts, stmts[0]);
        var b := EmitMain(params, a.consts, stmts[1..]);
        StmtStackEffect(params, consts, stmts[0], d);
        MainStackEffect(params, a.consts, stmts[1..], d);
        DepthConcat(a.code, b.code, d);
      }
    }
  }

  // ---------------------------------------------------------------- compiled code objects

  /** A function's code object: straight-line code that leaves exactly its result for the one
      trailing `RET`, over a duplicate-free pool. */
  predicate FunctionShaped(co: CodeObject) {
    |co.instructions| > 0 && co.instructions[|co.instructions| - 1] == Ret &&
    var body := co.instructions[..|co.instructions| - 1];
    WellEmitted(co.params, |co.consts|, body) && Distinct(co.consts) && Depth(body, 0) == Some(1)
  }

  /** The main code object: the same, except that it has no parameters, loads only globals and
      leaves the stack empty, so its `RET` returns None. */
  predicate MainShaped(co: CodeObject) {
    |co.instructions| > 0 && co.instructions[|co.instructions| - 1] == Ret && co.params == [] &&
    var body := co.instructions[..|co.instructions| - 1];
    WellEmitted([], |co.consts|, body) && Distinct(co.consts) && Depth(body, 0) == Some(0) &&
    forall i :: 0 <= i < |body| ==> !body[i].LoadLocal?
  }

  lemma FunctionCodeShaped(fdef: Node)
    requires fdef.FunctionDef? && FunctionCode(fdef).Ok?
    ensures FunctionShaped(FunctionCode(fdef).value)
  {
    var a := EmitExpr(fdef.params, [], fdef.body);
    EmitExprShape(fdef.params, [], fdef.body);
    ExprStackEffect(fdef.params, [], fdef.body, 0);
    assert (a.code + [Ret])[..|a.code|] == a.code;
  }

  predicate AllFunctionsShaped(table: map<string, CodeObject>) {
    forall f :: f in table ==> FunctionShaped(table[f])
  }

  lemma {:induction false} CompileDefsShaped(functions: map<string, CodeObject>, stmts: seq<Node>)
    requires AllFunctionsShaped(functions)
    ensures AllFunctionsShaped(CompileDefs(functions, stmts).1)
    decreases |stmts|
  {
    if stmts != [] {
      if stmts[0].FunctionDef? {
        if FunctionCode(stmts[0]).Ok? {
          var co := FunctionCode(stmts[0]).value;
          FunctionCodeShaped(stmts[0]);
          assert CompileDefs(functions, stmts) == CompileDefs(functions[stmts[0].name := co], stmts[1..]);
          CompileDefsShaped(functions[stmts[0].name := co], stmts[1..]);
        }
      } else {
        assert CompileDefs(functions, stmts) == CompileDefs(functions, stmts[1..]);
        CompileDefsShaped(functions, stmts[1..]);
      }
    }
  }

  /** What a fresh compiler produces for a whole program: a main code object with a single
      trailing `RET` that loads no locals and balances the stack, and one function code object
      of the same discipline per definition. */
  lemma CompiledProgramShaped(stmts: seq<Node>)
    requires CompileProgram([], map[], [], [], stmts).result.Ok?
    ensures var (main, table) := CompileProgram([], map[], [], [], stmts).result.value;
      MainShaped(main) && AllFunctionsShaped(table)
  {
    CompileDefsShaped(map[], stmts);
    var m := EmitMain([], [], stmts);
    assert CompileProgram([], map[], [], [], stmts).result.value == (CodeObject(m.code + [Ret], m.consts, []), CompileDefs(map[], stmts).1);
    EmitMainShape([], [], stmts);
    MainStackEffect([], [], stmts, 0);
    assert (m.code + [Ret])[..|m.code|] == m.code;
  }

  // ---------------------------------------------------------------- examples

  /** Parameters load from the frame's locals, every other name from the globals. */
  lemma ParameterLoadsLocally()
    ensures FunctionCode(FunctionDef("f", ["x"], BinaryOp("+", Var("x"), Var("y"))))
      == Ok(CodeObject([LoadLocal("x"), LoadVar("y"), Add, Ret], [], ["x"]))
  {
    assert "y" !in ["x"];
    assert EmitExpr(["x"], [], Var("x")) == Emission(Pass, [LoadLocal("x")], []);
    assert EmitExpr(["x"], [], Var("y")) == Emission(Pass, [LoadVar("y")], []);
    assert OperatorInstr("+") == Some(Add);
    assert [LoadLocal("x")] + [LoadVar("y")] + [Add] == [LoadLocal("x"), LoadVar("y"), Add];
    assert EmitExpr(["x"], [], BinaryOp("+", Var("x"), Var("y"))) == Emission(Pass, [LoadLocal("x"), LoadVar("y"), Add], []);
    assert [LoadLocal("x"), LoadVar("y"), Add] + [Ret] == [LoadLocal("x"), LoadVar("y"), Add, Ret];
  }

  /** Python's `==` merges the float literal 1.0 into the slot of the int 1 already pooled, so
      `b = 1.0 + 1` after `a = 1` adds two ints. */
  lemma PoolMergesIntAndFloat()
    ensures var m := EmitMain([], [], [Assign("a", Number(IntV(1))),
                                       Assign("b", BinaryOp("+", Number(FloatV(1.0)), Number(IntV(1))))]);
      m == Emission(Pass, [PushConst(0), StoreVar("a"), PushConst(0), PushConst(0), Add, StoreVar("b")], [IntV(1)])
  {
  }

  /** A later definition of the same name replaces the earlier one. */
  lemma LaterDefinitionWins()
    ensures var (o, table) := CompileDefs(map[], [FunctionDef("f", [], Number(IntV(1))), FunctionDef("f", ["x"], Var("x"))]);
      o == Pass && table.Keys == {"f"} && table["f"] == CodeObject([LoadLocal("x"), Ret], [], ["x"])
  {
  }
}
