/**
 * Compiling and then running a program on the VM gives what evaluating it directly gives:
 * the same error, or globals that Python's `==` equates entry by entry. Equality holds only up
 * to `==` because the constant pool hands back the first `==` literal it already holds
 * (an int 1 for a later float 1.0).
 */
module Correctness {
  import opened Wrappers
  import opened Values
  import opened Ast
  import opened Codegen
  import opened Vm
  import opened Eval

  /** Two variable maps with the same names and `==` values. */
  predicate EnvEq(a: map<string, Value>, b: map<string, Value>) {
    a.Keys == b.Keys && forall x :: x in a ==> PyEq(a[x], b[x])
  }

  predicate ValuesEq(ws: seq<Value>, vs: seq<Value>) {
    |ws| == |vs| && forall i :: 0 <= i < |ws| ==> PyEq(ws[i], vs[i])
  }

  /** The compiled function table holds, under each name, the code of the definition the
      evaluator's table holds. */
  predicate Related(fns: map<string, CodeObject>, defs: map<string, Def>) {
    fns.Keys == defs.Keys &&
    forall f :: f in defs ==> FunctionCode(FunctionDef(f, defs[f].params, defs[f].body)) == Ok(fns[f])
  }

  /** `code` sits in `instrs` from index `p` on. */
  predicate CodeAt(instrs: seq<Instr>, p: nat, code: seq<Instr>) {
    p + |code| <= |instrs| && forall i :: 0 <= i < |code| ==> instrs[p + i] == code[i]
  }

  lemma CodeAtConcat(instrs: seq<Instr>, p: nat, a: seq<Instr>, b: seq<Instr>)
    requires CodeAt(instrs, p, a + b)
    ensures CodeAt(instrs, p, a) && CodeAt(instrs, p + |a|, b)
  {
    forall i | 0 <= i < |a|
      ensures instrs[p + i] == a[i]
    {
      assert (a + b)[i] == a[i];
    }
    forall i | 0 <= i < |b|
      ensures instrs[p + |a| + i] == b[i]
    {
      assert (a + b)[|a| + i] == b[i];
    }
  }

  lemma CodeAtIndex(instrs: seq<Instr>, p: nat, code: seq<Instr>, i: nat)
    requires CodeAt(instrs, p, code) && i < |code|
    ensures instrs[p + i] == code[i]
  {
  }

  /** A code object made of `code` and one last instruction holds `code` from its start. */
  lemma EntryCode(code: seq<Instr>, last: Instr)
    ensures CodeAt(code + [last], 0, code) && (code + [last])[|code|] == last
  {
    forall i | 0 <= i < |code|
      ensures (code + [last])[0 + i] == code[i]
    {
    }
  }

  lemma PrefixTransitive(a: seq<Value>, b: seq<Value>, c: seq<Value>)
    requires a <= b && b <= c
    ensures a <= c
  {
    assert c[..|a|] == c[..|b|][..|a|];
  }

  lemma ValuesEqCons(w: Value, ws: seq<Value>, v: Value, vs: seq<Value>)
    requires PyEq(w, v) && ValuesEq(ws, vs)
    ensures ValuesEq([w] + ws, [v] + vs)
  {
    forall i | 0 <= i < |ws| + 1
      ensures PyEq(([w] + ws)[i], ([v] + vs)[i])
    {
      if i > 0 {
        assert ([w] + ws)[i] == ws[i - 1] && ([v] + vs)[i] == vs[i - 1];
      }
    }
  }

  /** Binding `==` argument lists under the same parameters gives `==` locals. */
  lemma {:induction false} BindEnvEq(into: map<string, Value>, intoE: map<string, Value>, params: seq<string>, ws: seq<Value>, vs: seq<Value>)
    requires EnvEq(into, intoE) && ValuesEq(ws, vs)
    ensures EnvEq(Bind(into, params, ws), Bind(intoE, params, vs))
    decreases |ws|
  {
    if ws != [] {
      BindEnvEq(into, intoE, params, ws[..|ws| - 1], vs[..|vs| - 1]);
    }
  }

  lemma OperatorsAgree(op: string)
    ensures OperatorOf(op).Some? <==> OperatorInstr(op).Some?
    ensures OperatorInstr(op).Some? ==> ArithInstr(OperatorInstr(op).value) == OperatorOf(op)
  {
  }

  // ---------------------------------------------------------------- one frame against the evaluator

  /** A frame of the VM next to the evaluator's view of the same scope: the tables, the code
      object the frame runs, the current parameter list, and both sides' locals and globals. */
  datatype Setting = Setting(
    fns: map<string, CodeObject>, defs: map<string, Def>, code: CodeObject, params: seq<string>,
    locals: map<string, Value>, localsE: map<string, Value>,
    globals: map<string, Value>, globalsE: map<string, Value>)

  predicate Agree(c: Setting) {
    Related(c.fns, c.defs) && EnvEq(c.locals, c.localsE) && EnvEq(c.globals, c.globalsE)
  }

  function Run(c: Setting, p: nat, stack: seq<Value>, fuel: nat): End {
    Exec(c.fns, c.code, c.locals, State(p, stack, c.globals), fuel)
  }

  function Code(c: Setting, pool: seq<Value>, e: Node): Emission {
    EmitExpr(c.params, pool, e)
  }

  function ArgsCode(c: Setting, pool: seq<Value>, args: seq<Node>): Emission {
    EmitArgs(c.params, pool, args)
  }

  function Reference(c: Setting, e: Node, fuel: nat): Result<Value, Failure> {
    Evaluate(c.defs, c.params, c.localsE, c.globalsE, e, fuel)
  }

  function ArgsReference(c: Setting, args: seq<Node>, fuel: nat): Result<seq<Value>, Failure> {
    EvaluateArgs(c.defs, c.params, c.localsE, c.globalsE, args, fuel)
  }

  /** The code of an expression sits at `p` of the frame's code, emitted into a pool the
      frame's pool extends. */
  predicate Placed(c: Setting, pool: seq<Value>, e: Node, p: nat) {
    var em := EmitExpr(c.params, pool, e);
    em.outcome.Pass? && em.consts <= c.code.consts && CodeAt(c.code.instructions, p, em.code)
  }

  predicate PlacedArgs(c: Setting, pool: seq<Value>, args: seq<Node>, p: nat) {
    var em := EmitArgs(c.params, pool, args);
    em.outcome.Pass? && em.consts <= c.code.consts && CodeAt(c.code.instructions, p, em.code)
  }

  /** Running `len` instructions from `p` does what evaluating gave: pushes a value `==` to
      it and carries on, or raises the same error with the globals untouched. */
  predicate Simulates(c: Setting, p: nat, len: nat, stack: seq<Value>, fuel: nat, r: Result<Value, Failure>, w: Value) {
    match r
    case Ok(v) => PyEq(w, v) && Run(c, p, stack, fuel) == Run(c, p + len, stack + [w], fuel)
    case Err(Runtime(err)) => Run(c, p, stack, fuel).result == Err(err) && Run(c, p, stack, fuel).state.globals == c.globals
    case Err(Uncompilable(_)) => false
  }

  predicate SimulatesArgs(c: Setting, p: nat, len: nat, stack: seq<Value>, fuel: nat, r: Result<seq<Value>, Failure>, ws: seq<Value>) {
    match r
    case Ok(vs) => ValuesEq(ws, vs) && Run(c, p, stack, fuel) == Run(c, p + len, stack + ws, fuel)
    case Err(Runtime(err)) => Run(c, p, stack, fuel).result == Err(err) && Run(c, p, stack, fuel).state.globals == c.globals
    case Err(Uncompilable(_)) => false
  }

  /** The code compiled from an expression computes, on any stack, a value `==` to the
      expression's value, or raises the error evaluation raises. */
  lemma {:induction false} ExpressionSimulated(c: Setting, pool: seq<Value>, e: Node, p: nat, stack: seq<Value>, fuel: nat) returns (w: Value)
    requires Agree(c) && Placed(c, pool, e, p)
    ensures Simulates(c, p, |Code(c, pool, e).code|, stack, fuel, Reference(c, e, fuel), w)
    decreases fuel, Size(e), 2
  {
    match e
    case Number(_) =>
      w := NumberSimulated(c, pool, e, p, stack, fuel);
    case Var(_) =>
      w := VarSimulated(c, pool, e, p, stack, fuel);
    case BinaryOp(_, _, _) =>
      w := BinarySimulated(c, pool, e, p, stack, fuel);
    case Call(_, _) =>
      w := CallSimulated(c, pool, e, p, stack, fuel);
  }

  lemma NumberSimulated(c: Setting, pool: seq<Value>, e: Node, p: nat, stack: seq<Value>, fuel: nat) returns (w: Value)
    requires Placed(c, pool, e, p) && e.Number?
    ensures Simulates(c, p, |Code(c, pool, e).code|, stack, fuel, Reference(c, e, fuel), w)
  {
    var (idx, slots) := ConstSlot(pool, e.value);
    CodeAtIndex(c.code.instructions, p, Code(c, pool, e).code, 0);
    assert c.code.consts[..|slots|] == slots;
    w := c.code.consts[idx];
  }

  lemma VarSimulated(c: Setting, pool: seq<Value>, e: Node, p: nat, stack: seq<Value>, fuel: nat) returns (w: Value)
    requires Agree(c) && Placed(c, pool, e, p) && e.Var?
    ensures Simulates(c, p, |Code(c, pool, e).code|, stack, fuel, Reference(c, e, fuel), w)
  {
    var x := e.name;
    var ins := if x in c.params then LoadLocal(x) else LoadVar(x);
    assert Code(c, pool, e).code == [ins];
    CodeAtIndex(c.code.instructions, p, [ins], 0);
    w := NoneV;
    if x in c.locals {
      assert x in c.localsE && PyEq(c.locals[x], c.localsE[x]);
      w := c.locals[x];
    } else if x in c.globals && x !in c.params {
      assert x in c.globalsE && PyEq(c.globals[x], c.globalsE[x]);
      w := c.globals[x];
    }
  }

  /** What evaluation makes of `l op r` from the values of its operands. */
  function Combine(op: string, rl: Result<Value, Failure>, rr: Result<Value, Failure>): Result<Value, Failure> {
    match rl
    case Err(f) => Err(f)
    case Ok(a) =>
      match rr
      case Err(f) => Err(f)
      case Ok(b) =>
        match OperatorOf(op)
        case None => Err(Uncompilable(UnknownOperator(op)))
        case Some(aop) =>
          match Arith(aop, a, b)
          case Ok(v) => Ok(v)
          case Err(err) => Err(Runtime(ArithFailure(err)))
  }

  /** The code of `l op r` is the code of `l`, then of `r`, then one arithmetic instruction. */
  lemma BinaryPlacement(c: Setting, pool: seq<Value>, e: Node, p: nat, fuel: nat) returns (poolR: seq<Value>)
    requires Placed(c, pool, e, p) && e.BinaryOp?
    ensures poolR == Code(c, pool, e.left).consts
    ensures Placed(c, pool, e.left, p) && Placed(c, poolR, e.right, p + |Code(c, pool, e.left).code|)
    ensures var q := p + |Code(c, pool, e.left).code| + |Code(c, poolR, e.right).code|;
      |Code(c, pool, e).code| == q + 1 - p && q < |c.code.instructions| &&
      OperatorOf(e.op).Some? && c.code.instructions[q] == OperatorInstr(e.op).value
    ensures Reference(c, e, fuel) == Combine(e.op, Reference(c, e.left, fuel), Reference(c, e.right, fuel))
  {
    var a := EmitExpr(c.params, pool, e.left);
    var b := EmitExpr(c.params, a.consts, e.right);
    var ins := OperatorInstr(e.op).value;
    CodeAtConcat(c.code.instructions, p, a.code + b.code, [ins]);
    CodeAtConcat(c.code.instructions, p, a.code, b.code);
    CodeAtIndex(c.code.instructions, p + |a.code + b.code|, [ins], 0);
    PrefixTransitive(a.consts, b.consts, c.code.consts);
    OperatorsAgree(e.op);
    poolR := a.consts;
  }

  /** An arithmetic instruction applies its operator to the two values on top of the stack. */
  lemma ArithmeticStep(c: Setting, q: nat, stack: seq<Value>, a: Value, b: Value, aop: ArithOp, fuel: nat)
    requires q < |c.code.instructions| && !c.code.instructions[q].CallFunction?
    requires ArithInstr(c.code.instructions[q]) == Some(aop)
    ensures Run(c, q, stack + [a] + [b], fuel) ==
      match Arith(aop, a, b)
      case Ok(v) => Run(c, q + 1, stack + [v], fuel)
      case Err(err) => End(Err(ArithFailure(err)), State(q + 1, stack, c.globals))
  {
    var top := stack + [a] + [b];
    assert top[|top| - 2] == a && top[|top| - 1] == b && top[..|top| - 2] == stack;
  }

  lemma BinaryCompose(c: Setting, op: string, p: nat, la: nat, lb: nat, stack: seq<Value>, fuel: nat,
                      rl: Result<Value, Failure>, rr: Result<Value, Failure>, wl: Value, wr: Value) returns (w: Value)
    requires OperatorOf(op).Some? && p + la + lb < |c.code.instructions|
    requires c.code.instructions[p + la + lb] == OperatorInstr(op).value
    requires Simulates(c, p, la, stack, fuel, rl, wl)
    requires rl.Ok? ==> Simulates(c, p + la, lb, stack + [wl], fuel, rr, wr)
    ensures Simulates(c, p, la + lb + 1, stack, fuel, Combine(op, rl, rr), w)
  {
    w := NoneV;
    if rl.Ok? && rr.Ok? {
      var aop := OperatorOf(op).value;
      OperatorsAgree(op);
      ArithRespectsPyEq(aop, wl, rl.value, wr, rr.value);
      ArithmeticStep(c, p + la + lb, stack, wl, wr, aop, fuel);
      if Arith(aop, wl, wr).Ok? {
        w := Arith(aop, wl, wr).value;
      }
    }
  }

  lemma {:induction false} BinarySimulated(c: Setting, pool: seq<Value>, e: Node, p: nat, stack: seq<Value>, fuel: nat) returns (w: Value)
    requires Agree(c) && Placed(c, pool, e, p) && e.BinaryOp?
    ensures Simulates(c, p, |Code(c, pool, e).code|, stack, fuel, Reference(c, e, fuel), w)
    decreases fuel, Size(e), 1
  {
    var poolR := BinaryPlacement(c, pool, e, p, fuel);
    var la, lb := |Code(c, pool, e.left).code|, |Code(c, poolR, e.right).code|;
    var rl, rr := Reference(c, e.left, fuel), Reference(c, e.right, fuel);
    var wl := ExpressionSimulated(c, pool, e.left, p, stack, fuel);
    var wr := NoneV;
    if rl.Ok? {
      wr := ExpressionSimulated(c, poolR, e.right, p + la, stack + [wl], fuel);
    }
    w := BinaryCompose(c, e.op, p, la, lb, stack, fuel, rl, rr, wl, wr);
  }

  /** What evaluation makes of a call to `f` with argument values `vs`. */
  function Invoke(c: Setting, f: string, vs: seq<Value>, fuel: nat): Result<Value, Failure> {
    if f !in c.defs then Err(Runtime(UndefinedFunction(f)))
    else if fuel == 0 then Err(Runtime(RecursionLimit))
    else Evaluate(c.defs, c.defs[f].params, Bind(map[], c.defs[f].params, vs), c.globalsE, c.defs[f].body, fuel - 1)
  }

  function InvokeAfter(c: Setting, f: string, ra: Result<seq<Value>, Failure>, fuel: nat): Result<Value, Failure> {
    match ra
    case Err(fail) => Err(fail)
    case Ok(vs) => Invoke(c, f, vs, fuel)
  }

  /** The code of a call is the code of its arguments, then one `CALL`. */
  lemma CallPlacement(c: Setting, pool: seq<Value>, e: Node, p: nat, fuel: nat)
    requires Placed(c, pool, e, p) && e.Call?
    ensures PlacedArgs(c, pool, e.args, p) && CalleeName(e.callee).Some?
    ensures var q := p + |ArgsCode(c, pool, e.args).code|;
      |Code(c, pool, e).code| == q + 1 - p && q < |c.code.instructions| &&
      c.code.instructions[q] == CallFunction(CalleeName(e.callee).value, |e.args|)
    ensures Reference(c, e, fuel) == InvokeAfter(c, CalleeName(e.callee).value, ArgsReference(c, e.args, fuel), fuel)
  {
    var a := EmitArgs(c.params, pool, e.args);
    var ins := CallFunction(CalleeName(e.callee).value, |e.args|);
    CodeAtConcat(c.code.instructions, p, a.code, [ins]);
    CodeAtIndex(c.code.instructions, p + |a.code|, [ins], 0);
  }

  lemma {:induction false} CallSimulated(c: Setting, pool: seq<Value>, e: Node, p: nat, stack: seq<Value>, fuel: nat) returns (w: Value)
    requires Agree(c) && Placed(c, pool, e, p) && e.Call?
    ensures Simulates(c, p, |Code(c, pool, e).code|, stack, fuel, Reference(c, e, fuel), w)
    decreases fuel, Size(e), 1
  {
    CallPlacement(c, pool, e, p, fuel);
    var f := CalleeName(e.callee).value;
    var la := |ArgsCode(c, pool, e.args).code|;
    var ws := ArgsSimulated(c, pool, e.args, p, stack, fuel);
    w := NoneV;
    var ra := ArgsReference(c, e.args, fuel);
    if ra.Ok? {
      w := InstructionCallSimulated(c, f, p + la, stack, ws, ra.value, fuel);
    }
  }

  /** One `CALL` instruction with its arguments on top of the stack does what evaluation does
      with the argument values. */
  lemma {:induction false} InstructionCallSimulated(c: Setting, f: string, q: nat, stack: seq<Value>, ws: seq<Value>, vs: seq<Value>, fuel: nat) returns (w: Value)
    requires Agree(c) && ValuesEq(ws, vs)
    requires q < |c.code.instructions| && c.code.instructions[q] == CallFunction(f, |ws|)
    ensures match Invoke(c, f, vs, fuel)
      case Ok(v) => PyEq(w, v) && Run(c, q, stack + ws, fuel) == Run(c, q + 1, stack + [w], fuel)
      case Err(Runtime(err)) => Run(c, q, stack + ws, fuel).result == Err(err) && Run(c, q, stack + ws, fuel).state.globals == c.globals
      case Err(Uncompilable(_)) => false
    decreases fuel, 0, 1
  {
    w := NoneV;
    var top := stack + ws;
    assert top[|top| - |ws|..] == ws && top[..|top| - |ws|] == stack;
    assert Run(c, q, top, fuel) == ExecCall(c.fns, c.code, c.locals, State(q, top, c.globals), fuel);
    if f in c.defs && fuel > 0 {
      w := CalleeSimulated(c, f, ws, vs, fuel);
    }
  }

  /** The callee's frame: its code object, its parameters, the arguments bound on both sides,
      and the shared globals. */
  function Callee(c: Setting, f: string, ws: seq<Value>, vs: seq<Value>): Setting
    requires f in c.fns && f in c.defs
  {
    Setting(c.fns, c.defs, c.fns[f], c.defs[f].params,
            Bind(map[], c.fns[f].params, ws), Bind(map[], c.defs[f].params, vs), c.globals, c.globalsE)
  }

  lemma CalleeEntry(c: Setting, f: string, ws: seq<Value>, vs: seq<Value>, fuel: nat)
    requires Agree(c) && f in c.defs && ValuesEq(ws, vs) && fuel > 0
    ensures var c' := Callee(c, f, ws, vs);
      var n := |Code(c', [], c.defs[f].body).code|;
      Agree(c') && Placed(c', [], c.defs[f].body, 0) &&
      n < |c'.code.instructions| && c'.code.instructions[n] == Ret &&
      Reference(c', c.defs[f].body, fuel - 1) == Invoke(c, f, vs, fuel)
  {
    var d := c.defs[f];
    var body := EmitExpr(d.params, [], d.body);
    assert FunctionCode(FunctionDef(f, d.params, d.body)) == Ok(c.fns[f]);
    BindEnvEq(map[], map[], d.params, ws, vs);
    EntryCode(body.code, Ret);
  }

  /** Running a callee's code object returns a value `==` to its body's value, or raises the
      body's error, leaving the globals untouched either way. */
  lemma {:induction false} CalleeSimulated(c: Setting, f: string, ws: seq<Value>, vs: seq<Value>, fuel: nat) returns (w: Value)
    requires Agree(c) && f in c.defs && ValuesEq(ws, vs) && fuel > 0
    ensures var s := Run(Callee(c, f, ws, vs), 0, [], fuel - 1);
      match Invoke(c, f, vs, fuel)
      case Ok(v) => s.result == Ok(w) && PyEq(w, v) && s.state.globals == c.globals
      case Err(Runtime(err)) => s.result == Err(err) && s.state.globals == c.globals
      case Err(Uncompilable(_)) => false
    decreases fuel, 0, 0
  {
    var c' := Callee(c, f, ws, vs);
    var body := c.defs[f].body;
    CalleeEntry(c, f, ws, vs, fuel);
    w := ExpressionSimulated(c', [], body, 0, [], fuel - 1);
    CalleeCompose(c', |Code(c', [], body).code|, fuel - 1, Reference(c', body, fuel - 1), w);
  }

  /** A body's code followed by `RET` returns what the body pushed, or raises what it raised. */
  lemma CalleeCompose(c: Setting, len: nat, fuel: nat, r: Result<Value, Failure>, w: Value)
    requires Simulates(c, 0, len, [], fuel, r, w)
    requires len < |c.code.instructions| && c.code.instructions[len] == Ret
    ensures var s := Run(c, 0, [], fuel);
      match r
      case Ok(v) => s.result == Ok(w) && PyEq(w, v) && s.state.globals == c.globals
      case Err(Runtime(err)) => s.result == Err(err) && s.state.globals == c.globals
      case Err(Uncompilable(_)) => false
  {
    if r.Ok? {
      assert [] + [w] == [w];
      ReturnsTop(c.fns, c.code, c.locals, len, w, c.globals, fuel);
    }
  }

  lemma ReturnsTop(fns: map<string, CodeObject>, co: CodeObject, locals: map<string, Value>, ip: nat, w: Value, g: map<string, Value>, fuel: nat)
    requires ip < |co.instructions| && co.instructions[ip] == Ret
    ensures Exec(fns, co, locals, State(ip, [w], g), fuel) == End(Ok(w), State(ip + 1, [], g))
  {
    assert [w][..0] == [];
  }

  /** Evaluating a first argument and then the rest, stopping at the first failure. */
  function Prepend(r: Result<Value, Failure>, rs: Result<seq<Value>, Failure>): Result<seq<Value>, Failure> {
    match r
    case Err(f) => Err(f)
    case Ok(v) => match rs case Err(f) => Err(f) case Ok(vs) => Ok([v] + vs)
  }

  /** The code of an argument list is the code of the first argument, then of the rest. */
  lemma ArgsPlacement(c: Setting, pool: seq<Value>, args: seq<Node>, p: nat, fuel: nat) returns (poolR: seq<Value>)
    requires PlacedArgs(c, pool, args, p) && args != []
    ensures poolR == Code(c, pool, args[0]).consts
    ensures Placed(c, pool, args[0], p) && PlacedArgs(c, poolR, args[1..], p + |Code(c, pool, args[0]).code|)
    ensures |ArgsCode(c, pool, args).code| == |Code(c, pool, args[0]).code| + |ArgsCode(c, poolR, args[1..]).code|
    ensures ArgsReference(c, args, fuel) == Prepend(Reference(c, args[0], fuel), ArgsReference(c, args[1..], fuel))
  {
    var a := EmitExpr(c.params, pool, args[0]);
    var b := EmitArgs(c.params, a.consts, args[1..]);
    CodeAtConcat(c.code.instructions, p, a.code, b.code);
    PrefixTransitive(a.consts, b.consts, c.code.consts);
    poolR := a.consts;
  }

  lemma ArgsCompose(c: Setting, p: nat, la: nat, lb: nat, stack: seq<Value>, fuel: nat,
                    r: Result<Value, Failure>, rs: Result<seq<Value>, Failure>, w: Value, rest: seq<Value>)
    requires Simulates(c, p, la, stack, fuel, r, w)
    requires r.Ok? ==> SimulatesArgs(c, p + la, lb, stack + [w], fuel, rs, rest)
    ensures SimulatesArgs(c, p, la + lb, stack, fuel, Prepend(r, rs), [w] + rest)
  {
    if r.Ok? && rs.Ok? {
      assert stack + [w] + rest == stack + ([w] + rest);
      ValuesEqCons(w, rest, r.value, rs.value);
    }
  }

  lemma {:induction false} ArgsSimulated(c: Setting, pool: seq<Value>, args: seq<Node>, p: nat, stack: seq<Value>, fuel: nat) returns (ws: seq<Value>)
    requires Agree(c) && PlacedArgs(c, pool, args, p)
    ensures SimulatesArgs(c, p, |ArgsCode(c, pool, args).code|, stack, fuel, ArgsReference(c, args, fuel), ws)
    decreases fuel, SizeList(args), 1
  {
    ws := [];
    if args == [] {
      assert stack + [] == stack;
    } else {
      var poolR := ArgsPlacement(c, pool, args, p, fuel);
      var la := |Code(c, pool, args[0]).code|;
      var w := ExpressionSimulated(c, pool, args[0], p, stack, fuel);
      var rest: seq<Value> := [];
      if Reference(c, args[0], fuel).Ok? {
        rest := ArgsSimulated(c, poolR, args[1..], p + la, stack + [w], fuel);
      }
      ArgsCompose(c, p, la, |ArgsCode(c, poolR, args[1..]).code|, stack, fuel,
                  Reference(c, args[0], fuel), ArgsReference(c, args[1..], fuel), w, rest);
      ws := [w] + rest;
    }
  }

  // ---------------------------------------------------------------- the main code object

  /** The frame of the main code object: no parameters and no locals. */
  predicate TopLevel(c: Setting) {
    Agree(c) && c.params == [] && c.locals == map[] && c.localsE == map[]
  }

  function StatementCode(pool: seq<Value>, s: Node): Emission {
    EmitStmt([], pool, s)
  }

  function MainCode(pool: seq<Value>, stmts: seq<Node>): Emission {
    EmitMain([], pool, stmts)
  }

  /** Running `len` instructions of the main code object from `p` with an empty stack ends as
      evaluating the corresponding statements does. */
  predicate MainSimulates(c: Setting, p: nat, len: nat, fuel: nat, r: Result<map<string, Value>, Failure>, g: map<string, Value>) {
    match r
    case Ok(gE) => EnvEq(g, gE) && Run(c, p, [], fuel) == Exec(c.fns, c.code, map[], State(p + len, [], g), fuel)
    case Err(Runtime(err)) => Run(c, p, [], fuel).result == Err(err)
    case Err(Uncompilable(_)) => false
  }

  /** `em` is a successful emission sitting at `p` of the frame's code, into a pool the
      frame's pool extends. */
  predicate PlacedCode(c: Setting, em: Emission, p: nat) {
    em.outcome.Pass? && em.consts <= c.code.consts && CodeAt(c.code.instructions, p, em.code)
  }

  /** The code of a statement is the code of its expression, then `STORE_VAR` or `POP`. */
  lemma StatementPlacement(c: Setting, pool: seq<Value>, s: Node, p: nat, fuel: nat)
    requires TopLevel(c) && !s.FunctionDef? && PlacedCode(c, StatementCode(pool, s), p)
    ensures var e := if s.Assign? then s.expr else s;
      var q := p + |Code(c, pool, e).code|;
      Placed(c, pool, e, p) && |StatementCode(pool, s).code| == q + 1 - p && q < |c.code.instructions| &&
      c.code.instructions[q] == (if s.Assign? then StoreVar(s.name) else Pop) &&
      EvaluateStmt(c.defs, c.globalsE, s, fuel) ==
        match Reference(c, e, fuel)
        case Err(f) => Err(f)
        case Ok(v) => Ok(if s.Assign? then c.globalsE[s.name := v] else c.globalsE)
  {
    var e := if s.Assign? then s.expr else s;
    var a := EmitExpr([], pool, e);
    var last := if s.Assign? then StoreVar(s.name) else Pop;
    CodeAtConcat(c.code.instructions, p, a.code, [last]);
    CodeAtIndex(c.code.instructions, p + |a.code|, [last], 0);
  }

  /** A top-level statement's code leaves the stack empty and moves the globals as evaluation
      moves them, or raises evaluation's error. */
  lemma StatementSimulated(c: Setting, pool: seq<Value>, s: Node, p: nat, fuel: nat) returns (g: map<string, Value>)
    requires TopLevel(c) && !s.FunctionDef? && PlacedCode(c, StatementCode(pool, s), p)
    ensures MainSimulates(c, p, |StatementCode(pool, s).code|, fuel, EvaluateStmt(c.defs, c.globalsE, s, fuel), g)
  {
    var e := if s.Assign? then s.expr else s;
    StatementPlacement(c, pool, s, p, fuel);
    var w := ExpressionSimulated(c, pool, e, p, [], fuel);
    g := StatementCompose(c, p, p + |Code(c, pool, e).code|, s, fuel, Reference(c, e, fuel), w);
  }

  /** An expression's code followed by `STORE_VAR` or `POP` stores or drops what the
      expression pushed, or raises what it raised. */
  lemma StatementCompose(c: Setting, p: nat, q: nat, s: Node, fuel: nat, r: Result<Value, Failure>, w: Value)
    returns (g: map<string, Value>)
    requires TopLevel(c) && p <= q
    requires Simulates(c, p, q - p, [], fuel, r, w)
    requires q < |c.code.instructions| && c.code.instructions[q] == (if s.Assign? then StoreVar(s.name) else Pop)
    ensures MainSimulates(c, p, q + 1 - p, fuel,
      match r
      case Err(f) => Err(f)
      case Ok(v) => Ok(if s.Assign? then c.globalsE[s.name := v] else c.globalsE), g)
  {
    g := c.globals;
    if r.Ok? {
      assert [] + [w] == [w] && [w][..0] == [];
      if s.Assign? {
        g := c.globals[s.name := w];
      }
    }
  }

  lemma {:induction false} MainSimulated(c: Setting, pool: seq<Value>, stmts: seq<Node>, p: nat, fuel: nat) returns (g: map<string, Value>)
    requires TopLevel(c) && PlacedCode(c, MainCode(pool, stmts), p)
    ensures MainSimulates(c, p, |MainCode(pool, stmts).code|, fuel, EvaluateMain(c.defs, c.globalsE, stmts, fuel), g)
    decreases |stmts|, 1
  {
    g := c.globals;
    if stmts == [] {
    } else if stmts[0].FunctionDef? {
      g := MainSimulated(c, pool, stmts[1..], p, fuel);
    } else {
      g := MainStatementSimulated(c, pool, stmts, p, fuel);
    }
  }

  /** Evaluating one statement and then the rest from the globals it leaves. */
  function Sequence(r: Result<map<string, Value>, Failure>, rest: Result<map<string, Value>, Failure>): Result<map<string, Value>, Failure> {
    if r.Err? then r else rest
  }

  /** The code of statements starting with a non-definition is that statement's code, then
      the rest's. */
  lemma MainPlacement(c: Setting, pool: seq<Value>, stmts: seq<Node>, p: nat, fuel: nat) returns (poolR: seq<Value>)
    requires PlacedCode(c, MainCode(pool, stmts), p) && stmts != [] && !stmts[0].FunctionDef?
    ensures poolR == StatementCode(pool, stmts[0]).consts
    ensures PlacedCode(c, StatementCode(pool, stmts[0]), p)
    ensures PlacedCode(c, MainCode(poolR, stmts[1..]), p + |StatementCode(pool, stmts[0]).code|)
    ensures |MainCode(pool, stmts).code| == |StatementCode(pool, stmts[0]).code| + |MainCode(poolR, stmts[1..]).code|
    ensures var r := EvaluateStmt(c.defs, c.globalsE, stmts[0], fuel);
      EvaluateMain(c.defs, c.globalsE, stmts, fuel) == Sequence(r, if r.Ok? then EvaluateMain(c.defs, r.value, stmts[1..], fuel) else r)
  {
    var a := StatementCode(pool, stmts[0]);
    var b := MainCode(a.consts, stmts[1..]);
    CodeAtConcat(c.code.instructions, p, a.code, b.code);
    PrefixTransitive(a.consts, b.consts, c.code.consts);
    poolR := a.consts;
  }

  lemma MainCompose(c: Setting, p: nat, la: nat, lb: nat, fuel: nat,
                    r: Result<map<string, Value>, Failure>, g1: map<string, Value>,
                    rest: Result<map<string, Value>, Failure>, g: map<string, Value>)
    requires c.locals == map[]
    requires MainSimulates(c, p, la, fuel, r, g1)
    requires r.Ok? ==> MainSimulates(c.(globals := g1, globalsE := r.value), p + la, lb, fuel, rest, g)
    ensures MainSimulates(c, p, la + lb, fuel, Sequence(r, rest), if r.Ok? then g else g1)
  {
  }

  lemma {:induction false} MainStatementSimulated(c: Setting, pool: seq<Value>, stmts: seq<Node>, p: nat, fuel: nat) returns (g: map<string, Value>)
    requires TopLevel(c) && stmts != [] && !stmts[0].FunctionDef? && PlacedCode(c, MainCode(pool, stmts), p)
    ensures MainSimulates(c, p, |MainCode(pool, stmts).code|, fuel, EvaluateMain(c.defs, c.globalsE, stmts, fuel), g)
    decreases |stmts|, 0
  {
    var poolR := MainPlacement(c, pool, stmts, p, fuel);
    var la := |StatementCode(pool, stmts[0]).code|;
    var g1 := StatementSimulated(c, pool, stmts[0], p, fuel);
    var r1 := EvaluateStmt(c.defs, c.globalsE, stmts[0], fuel);
    g := g1;
    var rest := r1;
    if r1.Ok? {
      rest := EvaluateMain(c.defs, r1.value, stmts[1..], fuel);
      g := MainSimulated(c.(globals := g1, globalsE := r1.value), poolR, stmts[1..], p + la, fuel);
    }
    MainCompose(c, p, la, |MainCode(poolR, stmts[1..]).code|, fuel, r1, g1, rest, g);
  }

  /** Compiling the definitions keeps the compiled table in step with the evaluator's table. */
  lemma {:induction false} DefinitionsRelated(fns: map<string, CodeObject>, defs: map<string, Def>, stmts: seq<Node>)
    requires Related(fns, defs) && CompileDefs(fns, stmts).0.Pass?
    ensures Related(CompileDefs(fns, stmts).1, Definitions(defs, stmts))
    decreases |stmts|
  {
    if stmts != [] {
      var s := stmts[0];
      if s.FunctionDef? {
        assert s == FunctionDef(s.name, s.params, s.body);
        DefinitionsRelated(fns[s.name := FunctionCode(s).value], defs[s.name := Def(s.params, s.body)], stmts[1..]);
      } else {
        DefinitionsRelated(fns, defs, stmts[1..]);
      }
    }
  }

  /** Compiling a program with a fresh compiler and running the main code object on a fresh
      VM ends as direct evaluation does: the same error, or None with globals `==` to the
      evaluated ones; and compiled code never meets a construct evaluation rejects. */
  lemma CompileThenRun(stmts: seq<Node>, fuel: nat)
    requires CompileProgram([], map[], [], [], stmts).result.Ok?
    ensures var (main, fns) := CompileProgram([], map[], [], [], stmts).result.value;
      var e := Exec(fns, main, map[], State(0, [], map[]), fuel);
      match EvaluateProgram(stmts, fuel)
      case Ok(g) => e.result == Ok(NoneV) && EnvEq(e.state.globals, g)
      case Err(Runtime(err)) => e.result == Err(err)
      case Err(Uncompilable(_)) => false
  {
    var (main, fns) := CompileProgram([], map[], [], [], stmts).result.value;
    var m := MainCode([], stmts);
    assert main == CodeObject(m.code + [Ret], m.consts, []);
    DefinitionsRelated(map[], map[], stmts);
    var c := Setting(fns, Definitions(map[], stmts), main, [], map[], map[], map[], map[]);
    EntryCode(m.code, Ret);
    var g := MainSimulated(c, [], stmts, 0, fuel);
  }
}
