/**
 * The stack machine (src/vm.py): one operand stack per frame, locals per frame, one globals
 * dictionary shared by every frame, and `CALL` running a fresh frame recursively.
 *
 * `Exec` states what running a frame from a given state produces; the `VM` and `Frame`
 * classes are the source's objects, proved against it. The host's recursion limit is a
 * `fuel` count of nested calls.
 */
module Vm {
  import opened Wrappers
  import opened Values
  import opened Codegen
  import Lexer

  /** What running a frame can raise: the VM's own errors, the host's IndexError on an empty
      stack or a bad constant index, arithmetic errors, and the host's recursion limit. */
  datatype VmError =
    | UndefinedVariable(name: string)
    | UndefinedLocal(name: string)
    | UndefinedFunction(name: string)
    | UnknownInstruction(op: string)
    | StackUnderflow
    | ConstIndexOutOfRange
    | ArithFailure(error: ArithError)
    | RecursionLimit

  /** A frame's changing part, with the shared globals. */
  datatype State = State(ip: nat, stack: seq<Value>, globals: map<string, Value>)

  /** How a frame ended: what `run_frame` returned or raised, and the state at that point. */
  datatype End = End(result: Result<Value, VmError>, state: State)

  /** One instruction other than `CALL`: carry on, return, or raise. */
  datatype Flow = Next(state: State) | Return(value: Value, state: State) | Raise(error: VmError, state: State)

  function Top(stack: seq<Value>): Value
    requires stack != []
  {
    stack[|stack| - 1]
  }

  function Below(stack: seq<Value>): seq<Value>
    requires stack != []
  {
    stack[..|stack| - 1]
  }

  function ArithInstr(ins: Instr): (r: Option<ArithOp>)
    ensures r.Some? <==> ins in {Add, Sub, Mul, Div, Pow}
  {
    match ins
    case Add => Some(AddOp)
    case Sub => Some(SubOp)
    case Mul => Some(MulOp)
    case Div => Some(DivOp)
    case Pow => Some(PowOp)
    case _ => None
  }

  /** The effect of one instruction other than `CALL`, `s` being the state after `ip` moved on. */
  function Step(consts: seq<Value>, locals: map<string, Value>, ins: Instr, s: State): (r: Flow)
    requires !ins.CallFunction?
    ensures r.state.ip == s.ip && (r.Return? <==> ins == Ret)
  {
    match ins
    case PushConst(idx) =>
      if idx < |consts| then Next(s.(stack := s.stack + [consts[idx]])) else Raise(ConstIndexOutOfRange, s)
    case LoadVar(x) =>
      if x in locals then Next(s.(stack := s.stack + [locals[x]]))
      else if x in s.globals then Next(s.(stack := s.stack + [s.globals[x]]))
      else Raise(UndefinedVariable(x), s)
    case StoreVar(x) =>
      if s.stack == [] then Raise(StackUnderflow, s)
      else Next(State(s.ip, Below(s.stack), s.globals[x := Top(s.stack)]))
    case LoadLocal(x) =>
      if x in locals then Next(s.(stack := s.stack + [locals[x]])) else Raise(UndefinedLocal(x), s)
    case Pop =>
      if s.stack == [] then Raise(StackUnderflow, s) else Next(s.(stack := Below(s.stack)))
    case Ret =>
      if s.stack == [] then Return(NoneV, s) else Return(Top(s.stack), s.(stack := Below(s.stack)))
    case Unrecognised(op) => Raise(UnknownInstruction(op), s)
    case Add | Sub | Mul | Div | Pow =>
      var n := |s.stack|;
      if n < 2 then Raise(StackUnderflow, s.(stack := []))
      else
        var rest := s.stack[..n - 2];
        match Arith(ArithInstr(ins).value, s.stack[n - 2], s.stack[n - 1])
        case Ok(v) => Next(s.(stack := rest + [v]))
        case Err(e) => Raise(ArithFailure(e), s.(stack := rest))
  }

  /** Decimal digits of `n`, as an f-string renders an int. */
  function Decimal(n: nat): (r: string)
    ensures |r| > 0
    decreases n
  {
    var d := "0123456789"[n % 10];
    if n < 10 then [d] else Decimal(n / 10) + [d]
  }

  /** The rendering is a string of digits that spells `n` with no leading zero, so distinct
      numbers get distinct renderings. */
  lemma {:induction false} DecimalSpells(n: nat)
    ensures Lexer.AllDigits(Decimal(n)) && Lexer.DigitsValue(Decimal(n)) == n
    ensures n >= 10 ==> Decimal(n)[0] != '0'
    decreases n
  {
    var s := Decimal(n);
    DigitChar(n % 10);
    if n >= 10 {
      DecimalSpells(n / 10);
      var t := Decimal(n / 10);
      assert s == t + ["0123456789"[n % 10]];
      forall k | 0 <= k < |s| ensures Lexer.IsDigit(s[k]) {
        if k < |t| { assert s[k] == t[k]; }
      }
      assert s[..|s| - 1] == t;
      if n / 10 < 10 {
        DigitChar(n / 10);
      }
    } else {
      assert s == ["0123456789"[n]];
    }
  }

  /** The character for a digit value spells that value. */
  lemma DigitChar(d: nat)
    requires d < 10
    ensures Lexer.IsDigit("0123456789"[d]) && "0123456789"[d] as int - '0' as int == d
  {
    var digits := "0123456789";
    assert digits[0] == '0' && digits[1] == '1' && digits[2] == '2' && digits[3] == '3' && digits[4] == '4';
    assert digits[5] == '5' && digits[6] == '6' && digits[7] == '7' && digits[8] == '8' && digits[9] == '9';
  }

  /** The local name argument `i` is bound under: its parameter, or `arg{i}` past the last one. */
  function ArgKey(params: seq<string>, i: nat): string {
    if i < |params| then params[i] else "arg" + Decimal(i)
  }

  /** The binding loop of `CALL`: argument `i` written under `ArgKey(params, i)`, in order. */
  function Bind(into: map<string, Value>, params: seq<string>, args: seq<Value>): (r: map<string, Value>)
    decreases |args|
  {
    if args == [] then into
    else Bind(into, params, args[..|args| - 1])[ArgKey(params, |args| - 1) := args[|args| - 1]]
  }

  /** `run_frame` from state `s` on `code` with `locals`, the functions table being `functions`
      and at most `fuel` calls deep. */
  function Exec(functions: map<string, CodeObject>, code: CodeObject, locals: map<string, Value>, s: State, fuel: nat): End
    decreases fuel, |code.instructions| - s.ip, 1
  {
    if s.ip >= |code.instructions| then End(Ok(NoneV), s)
    else if code.instructions[s.ip].CallFunction? then ExecCall(functions, code, locals, s, fuel)
    else match Step(code.consts, locals, code.instructions[s.ip], s.(ip := s.ip + 1))
      case Next(s2) => Exec(functions, code, locals, s2, fuel)
      case Return(v, s2) => End(Ok(v), s2)
      case Raise(e, s2) => End(Err(e), s2)
  }

  /** `CALL fname argc` at `s.ip`: pop the arguments, run the callee in a fresh frame that
      shares the globals, push its result and carry on. */
  function ExecCall(functions: map<string, CodeObject>, code: CodeObject, locals: map<string, Value>, s: State, fuel: nat): End
    requires s.ip < |code.instructions| && code.instructions[s.ip].CallFunction?
    decreases fuel, |code.instructions| - s.ip, 0
  {
    var ins := code.instructions[s.ip];
    var n := |s.stack|;
    if ins.argc > n then End(Err(StackUnderflow), State(s.ip + 1, [], s.globals))
    else
      var args := s.stack[n - ins.argc..];
      var caller := State(s.ip + 1, s.stack[..n - ins.argc], s.globals);
      if ins.fname !in functions then End(Err(UndefinedFunction(ins.fname)), caller)
      else if fuel == 0 then End(Err(RecursionLimit), caller)
      else
        var co := functions[ins.fname];
        var sub := Exec(functions, co, Bind(map[], co.params, args), State(0, [], s.globals), fuel - 1);
        var back := caller.(globals := sub.state.globals);
        if sub.result.Err? then End(sub.result, back)
        else Exec(functions, code, locals, back.(stack := back.stack + [sub.result.value]), fuel)
  }

  // ---------------------------------------------------------------- the machine

  /** The globals dictionary, one object shared by the VM and every frame. */
  class Store {
    var vars: map<string, Value>

    constructor()
      ensures vars == map[]
    {
      vars := map[];
    }
  }

  class Frame {
    const code: CodeObject
    var ip: nat
    var stack: seq<Value>
    var locals: map<string, Value>
    const globals: Store
    const functions: map<string, CodeObject>

    constructor(code: CodeObject, globals: Store, functions: map<string, CodeObject>)
      ensures this.code == code && this.globals == globals && this.functions == functions
      ensures ip == 0 && stack == [] && locals == map[]
    {
      this.code := code;
      this.globals := globals;
      this.functions := functions;
      ip := 0;
      stack := [];
      locals := map[];
    }

    /** The binding loop of `CALL`, writing each argument into this frame's locals. */
    method BindArguments(params: seq<string>, args: seq<Value>)
      modifies this
      ensures locals == Bind(old(locals), params, args)
      ensures ip == old(ip) && stack == old(stack)
    {
      for i := 0 to |args|
        invariant locals == Bind(old(locals), params, args[..i])
        invariant ip == old(ip) && stack == old(stack)
      {
        assert args[..i + 1][..i] == args[..i];
        if i < |params| {
          locals := locals[params[i] := args[i]];
        } else {
          locals := locals[("arg" + Decimal(i)) := args[i]];
        }
      }
      assert args[..|args|] == args;
    }
  }

  class VM {
    const main: CodeObject
    const functions: map<string, CodeObject>
    const globals: Store

    constructor(main: CodeObject, functions: map<string, CodeObject>)
      ensures this.main == main && this.functions == functions
      ensures fresh(globals) && globals.vars == map[]
    {
      this.main := main;
      this.functions := functions;
      globals := new Store();
    }

    method Run(fuel: nat) returns (r: Result<Value, VmError>)
      modifies globals
      ensures var e := Exec(functions, main, map[], State(0, [], old(globals.vars)), fuel);
        r == e.result && globals.vars == e.state.globals
    {
      var frame := new Frame(main, globals, functions);
      r := RunFrame(frame, fuel);
    }

    method RunFrame(frame: Frame, fuel: nat) returns (r: Result<Value, VmError>)
      requires frame.globals == globals
      modifies frame, globals
      ensures frame.locals == old(frame.locals)
      ensures var e := Exec(functions, frame.code, frame.locals, State(old(frame.ip), old(frame.stack), old(globals.vars)), fuel);
        r == e.result && frame.ip == e.state.ip && frame.stack == e.state.stack && globals.vars == e.state.globals
      decreases fuel
    {
      var instrs := frame.code.instructions;
      var consts := frame.code.consts;
      while frame.ip < |instrs|
        invariant frame.locals == old(frame.locals)
        invariant Exec(functions, frame.code, frame.locals, State(old(frame.ip), old(frame.stack), old(globals.vars)), fuel)
          == Exec(functions, frame.code, frame.locals, State(frame.ip, frame.stack, globals.vars), fuel)
        decreases |instrs| - frame.ip
      {
        var ins := instrs[frame.ip];
        frame.ip := frame.ip + 1;
        if ins.CallFunction? {
          r := Call(frame, ins.fname, ins.argc, fuel);
          if r.Err? {
            return;
          }
        } else {
          r := Execute(frame, ins);
          if r.Err? || ins == Ret {
            return;
          }
        }
      }
      return Ok(NoneV);
    }

    /** One instruction other than `CALL`, on a frame whose `ip` has already moved past it:
        `Ok` with the value `RET` returns, or `Ok(None)` to carry on. */
    method Execute(frame: Frame, ins: Instr) returns (r: Result<Value, VmError>)
      requires frame.globals == globals && !ins.CallFunction?
      modifies frame, globals
      ensures frame.locals == old(frame.locals) && frame.ip == old(frame.ip)
      ensures var flow := Step(frame.code.consts, frame.locals, ins, State(old(frame.ip), old(frame.stack), old(globals.vars)));
        frame.stack == flow.state.stack && globals.vars == flow.state.globals &&
        match flow
        case Next(_) => r == Ok(NoneV) && ins != Ret
        case Return(v, _) => r == Ok(v) && ins == Ret
        case Raise(e, _) => r == Err(e)
    {
      var consts := frame.code.consts;
      match ins {
        case PushConst(idx) =>
          if idx >= |consts| {
            return Err(ConstIndexOutOfRange);
          }
          frame.stack := frame.stack + [consts[idx]];
        case LoadVar(x) =>
          if x in frame.locals {
            frame.stack := frame.stack + [frame.locals[x]];
          } else if x in frame.globals.vars {
            frame.stack := frame.stack + [frame.globals.vars[x]];
          } else {
            return Err(UndefinedVariable(x));
          }
        case StoreVar(x) =>
          if frame.stack == [] {
            return Err(StackUnderflow);
          }
          var v := Top(frame.stack);
          frame.stack := Below(frame.stack);
          frame.globals.vars := frame.globals.vars[x := v];
        case LoadLocal(x) =>
          if x !in frame.locals {
            return Err(UndefinedLocal(x));
          }
          frame.stack := frame.stack + [frame.locals[x]];
        case Pop =>
          if frame.stack == [] {
            return Err(StackUnderflow);
          }
          frame.stack := Below(frame.stack);
        case Ret =>
          if frame.stack == [] {
            return Ok(NoneV);
          }
          var v := Top(frame.stack);
          frame.stack := Below(frame.stack);
          return Ok(v);
        case Unrecognised(op) =>
          return Err(UnknownInstruction(op));
        case Add | Sub | Mul | Div | Pow =>
          r := ExecuteArith(frame, ins);
          return;
      }
      return Ok(NoneV);
    }

    /** The arithmetic branch of `run_frame`: pop the right operand, then the left, push the result. */
    method ExecuteArith(frame: Frame, ins: Instr) returns (r: Result<Value, VmError>)
      requires ArithInstr(ins).Some?
      modifies frame
      ensures frame.locals == old(frame.locals) && frame.ip == old(frame.ip)
      ensures var flow := Step(frame.code.consts, frame.locals, ins, State(old(frame.ip), old(frame.stack), globals.vars));
        frame.stack == flow.state.stack && flow.state.globals == globals.vars &&
        match flow
        case Next(_) => r == Ok(NoneV)
        case Return(_, _) => false
        case Raise(e, _) => r == Err(e)
    {
      ghost var n := |frame.stack|;
      ghost var before := frame.stack;
      if |frame.stack| < 2 {
        frame.stack := [];
        return Err(StackUnderflow);
      }
      var b := Top(frame.stack);
      frame.stack := Below(frame.stack);
      var a := Top(frame.stack);
      frame.stack := Below(frame.stack);
      assert a == before[n - 2] && b == before[n - 1] && frame.stack == before[..n - 2];
      var v := Arith(ArithInstr(ins).value, a, b);
      if v.Err? {
        return Err(ArithFailure(v.error));
      }
      frame.stack := frame.stack + [v.value];
      return Ok(NoneV);
    }

    /** `CALL fname argc` on a frame whose `ip` has already moved past it: `Ok(None)` once the
        callee's result is pushed, or the error that ends the caller. */
    method Call(frame: Frame, fname: string, argc: nat, fuel: nat) returns (r: Result<Value, VmError>)
      requires frame.globals == globals
      requires 0 < frame.ip <= |frame.code.instructions| && frame.code.instructions[frame.ip - 1] == CallFunction(fname, argc)
      modifies frame, globals
      ensures frame.locals == old(frame.locals) && frame.ip == old(frame.ip)
      ensures var e := Exec(functions, frame.code, frame.locals, State(frame.ip - 1, old(frame.stack), old(globals.vars)), fuel);
        var now := State(frame.ip, frame.stack, globals.vars);
        if r.Err? then e == End(r, now) else r == Ok(NoneV) && e == Exec(functions, frame.code, frame.locals, now, fuel)
      decreases fuel, 0
    {
      ghost var s := State(frame.ip - 1, frame.stack, globals.vars);
      assert Exec(functions, frame.code, frame.locals, s, fuel) == ExecCall(functions, frame.code, frame.locals, s, fuel);
      if argc > |frame.stack| {
        frame.stack := [];
        return Err(StackUnderflow);
      }
      var n := |frame.stack|;
      var args := frame.stack[n - argc..];
      frame.stack := frame.stack[..n - argc];
      if fname !in functions {
        return Err(UndefinedFunction(fname));
      }
      var co := functions[fname];
      var callee := new Frame(co, frame.globals, functions);
      callee.BindArguments(co.params, args);
      if fuel == 0 {
        return Err(RecursionLimit);
      }
      ghost var sub := Exec(functions, co, Bind(map[], co.params, args), State(0, [], s.globals), fuel - 1);
      assert callee.locals == Bind(map[], co.params, args) && callee.ip == 0 && callee.stack == [];
      var res := RunFrame(callee, fuel - 1);
      assert res == sub.result && globals.vars == sub.state.globals;
      if res.Err? {
        return res;
      }
      frame.stack := frame.stack + [res.value];
      return Ok(NoneV);
    }
  }

  // ---------------------------------------------------------------- properties of a run

  /** There are no jumps: a frame only moves forward and ends within its code. */
  lemma {:induction false} ExecRunsForward(functions: map<string, CodeObject>, code: CodeObject,
                                           locals: map<string, Value>, s: State, fuel: nat)
    requires s.ip <= |code.instructions|
    ensures s.ip <= Exec(functions, code, locals, s, fuel).state.ip <= |code.instructions|
    decreases |code.instructions| - s.ip, 1
  {
    if s.ip < |code.instructions| {
      if code.instructions[s.ip].CallFunction? {
        ExecRunsForwardCall(functions, code, locals, s, fuel);
      } else {
        var flow := Step(code.consts, locals, code.instructions[s.ip], s.(ip := s.ip + 1));
        if flow.Next? {
          ExecRunsForward(functions, code, locals, flow.state, fuel);
        }
      }
    }
  }

  lemma {:induction false} ExecRunsForwardCall(functions: map<string, CodeObject>, code: CodeObject,
                                               locals: map<string, Value>, s: State, fuel: nat)
    requires s.ip < |code.instructions| && code.instructions[s.ip].CallFunction?
    ensures s.ip < ExecCall(functions, code, locals, s, fuel).state.ip <= |code.instructions|
    decreases |code.instructions| - s.ip, 0
  {
    var ins := code.instructions[s.ip];
    var n := |s.stack|;
    if ins.argc <= n && ins.fname in functions && fuel > 0 {
      var co := functions[ins.fname];
      var callee := State(0, [], s.globals);
      var locals' := Bind(map[], co.params, s.stack[n - ins.argc..]);
      var sub := Exec(functions, co, locals', callee, fuel - 1);
      if sub.result.Ok? {
        var back := State(s.ip + 1, s.stack[..n - ins.argc] + [sub.result.value], sub.state.globals);
        ExecRunsForward(functions, code, locals, back, fuel);
      }
    }
  }

  /** A run that meets no `RET` falls off the end of its code and returns None. */
  lemma {:induction false} FallingOffReturnsNone(functions: map<string, CodeObject>, code: CodeObject,
                                                 locals: map<string, Value>, s: State, fuel: nat)
    requires s.ip <= |code.instructions|
    requires forall i :: s.ip <= i < |code.instructions| ==> code.instructions[i] != Ret
    requires Exec(functions, code, locals, s, fuel).result.Ok?
    ensures Exec(functions, code, locals, s, fuel).result == Ok(NoneV)
    ensures Exec(functions, code, locals, s, fuel).state.ip == |code.instructions|
    decreases |code.instructions| - s.ip, 1
  {
    if s.ip < |code.instructions| {
      if code.instructions[s.ip].CallFunction? {
        FallingOffReturnsNoneCall(functions, code, locals, s, fuel);
      } else {
        var flow := Step(code.consts, locals, code.instructions[s.ip], s.(ip := s.ip + 1));
        if flow.Next? {
          FallingOffReturnsNone(functions, code, locals, flow.state, fuel);
        }
      }
    }
  }

  lemma {:induction false} FallingOffReturnsNoneCall(functions: map<string, CodeObject>, code: CodeObject,
                                                     locals: map<string, Value>, s: State, fuel: nat)
    requires s.ip < |code.instructions| && code.instructions[s.ip].CallFunction?
    requires forall i :: s.ip <= i < |code.instructions| ==> code.instructions[i] != Ret
    requires ExecCall(functions, code, locals, s, fuel).result.Ok?
    ensures ExecCall(functions, code, locals, s, fuel).result == Ok(NoneV)
    ensures ExecCall(functions, code, locals, s, fuel).state.ip == |code.instructions|
    decreases |code.instructions| - s.ip, 0
  {
    var ins := code.instructions[s.ip];
    var n := |s.stack|;
    if ins.argc <= n && ins.fname in functions && fuel > 0 {
      var co := functions[ins.fname];
      var callee := State(0, [], s.globals);
      var locals' := Bind(map[], co.params, s.stack[n - ins.argc..]);
      var sub := Exec(functions, co, locals', callee, fuel - 1);
      if sub.result.Ok? {
        var back := State(s.ip + 1, s.stack[..n - ins.argc] + [sub.result.value], sub.state.globals);
        FallingOffReturnsNone(functions, code, locals, back, fuel);
      }
    }
  }

  /** The call-depth bound only ever adds the recursion-limit error: a run that does not hit
      it ends the same way with any larger bound. */
  lemma {:induction false} FuelMonotone(functions: map<string, CodeObject>, code: CodeObject,
                                        locals: map<string, Value>, s: State, fuel: nat, more: nat)
    requires fuel <= more
    requires Exec(functions, code, locals, s, fuel).result != Err(RecursionLimit)
    ensures Exec(functions, code, locals, s, more) == Exec(functions, code, locals, s, fuel)
    decreases fuel, |code.instructions| - s.ip, 1
  {
    if s.ip < |code.instructions| {
      if code.instructions[s.ip].CallFunction? {
        FuelMonotoneCall(functions, code, locals, s, fuel, more);
      } else {
        var flow := Step(code.consts, locals, code.instructions[s.ip], s.(ip := s.ip + 1));
        if flow.Next? {
          FuelMonotone(functions, code, locals, flow.state, fuel, more);
        }
      }
    }
  }

  lemma {:induction false} FuelMonotoneCall(functions: map<string, CodeObject>, code: CodeObject,
                                            locals: map<string, Value>, s: State, fuel: nat, more: nat)
    requires s.ip < |code.instructions| && code.instructions[s.ip].CallFunction?
    requires fuel <= more
    requires ExecCall(functions, code, locals, s, fuel).result != Err(RecursionLimit)
    ensures ExecCall(functions, code, locals, s, more) == ExecCall(functions, code, locals, s, fuel)
    decreases fuel, |code.instructions| - s.ip, 0
  {
    var ins := code.instructions[s.ip];
    var n := |s.stack|;
    if ins.argc <= n && ins.fname in functions && fuel > 0 {
      var co := functions[ins.fname];
      var callee := State(0, [], s.globals);
      var locals' := Bind(map[], co.params, s.stack[n - ins.argc..]);
      var caller := State(s.ip + 1, s.stack[..n - ins.argc], s.globals);
      var sub := Exec(functions, co, locals', callee, fuel - 1);
      var sub' := Exec(functions, co, locals', callee, more - 1);
      CallUnfolds(functions, code, locals, s, fuel, co, locals', caller, sub);
      CallUnfolds(functions, code, locals, s, more, co, locals', caller, sub');
      assert sub.result != Err(RecursionLimit);
      FuelMonotone(functions, co, locals', callee, fuel - 1, more - 1);
      assert sub' == sub;
      if sub.result.Ok? {
        var back := State(s.ip + 1, caller.stack + [sub.result.value], sub.state.globals);
        assert ExecCall(functions, code, locals, s, fuel) == Exec(functions, code, locals, back, fuel);
        assert ExecCall(functions, code, locals, s, more) == Exec(functions, code, locals, back, more);
        FuelMonotone(functions, code, locals, back, fuel, more);
      }
    } else if ins.argc > n {
      assert ExecCall(functions, code, locals, s, fuel) == End(Err(StackUnderflow), State(s.ip + 1, [], s.globals));
      assert ExecCall(functions, code, locals, s, more) == End(Err(StackUnderflow), State(s.ip + 1, [], s.globals));
    } else if ins.fname !in functions {
      var caller := State(s.ip + 1, s.stack[..n - ins.argc], s.globals);
      assert ExecCall(functions, code, locals, s, fuel) == End(Err(UndefinedFunction(ins.fname)), caller);
      assert ExecCall(functions, code, locals, s, more) == End(Err(UndefinedFunction(ins.fname)), caller);
    }
  }

  /** A call that finds its arguments and its function, with fuel left, runs the callee on
      `fuel - 1` and then the caller on from the next instruction. */
  lemma CallUnfolds(functions: map<string, CodeObject>, code: CodeObject, locals: map<string, Value>, s: State,
                    fuel: nat, co: CodeObject, locals': map<string, Value>, caller: State, sub: End)
    requires s.ip < |code.instructions| && code.instructions[s.ip].CallFunction?
    requires code.instructions[s.ip].argc <= |s.stack| && code.instructions[s.ip].fname in functions && fuel > 0
    requires co == functions[code.instructions[s.ip].fname]
    requires locals' == Bind(map[], co.params, s.stack[|s.stack| - code.instructions[s.ip].argc..])
    requires caller == State(s.ip + 1, s.stack[..|s.stack| - code.instructions[s.ip].argc], s.globals)
    requires sub == Exec(functions, co, locals', State(0, [], s.globals), fuel - 1)
    ensures ExecCall(functions, code, locals, s, fuel) ==
      if sub.result.Err? then End(sub.result, caller.(globals := sub.state.globals))
      else Exec(functions, code, locals, State(s.ip + 1, caller.stack + [sub.result.value], sub.state.globals), fuel)
  {
  }

  /** A function that calls itself before returning exhausts any call-depth bound. */
  lemma {:induction false} EndlessRecursionHitsLimit(g: map<string, Value>, fuel: nat)
    ensures var f := CodeObject([CallFunction("f", 0), Ret], [], []);
      Exec(map["f" := f], f, map[], State(0, [], g), fuel).result == Err(RecursionLimit)
    decreases fuel
  {
    var f := CodeObject([CallFunction("f", 0), Ret], [], []);
    if fuel > 0 {
      EndlessRecursionHitsLimit(g, fuel - 1);
      assert Bind(map[], [], []) == map[];
    }
  }

  // ---------------------------------------------------------------- examples

  /** The top of the stack is the right operand: 5 3 SUB gives 2. */
  lemma SubtractsTopFromBelow(code: CodeObject)
    requires code == CodeObject([PushConst(0), PushConst(1), Sub, Ret], [IntV(5), IntV(3)], [])
    ensures Exec(map[], code, map[], State(0, [], map[]), 0).result == Ok(IntV(2))
  {
    var s1, s2, s3 := State(1, [IntV(5)], map[]), State(2, [IntV(5), IntV(3)], map[]), State(3, [IntV(2)], map[]);
    assert Step(code.consts, map[], PushConst(0), State(1, [], map[])) == Next(s1);
    assert Step(code.consts, map[], PushConst(1), State(2, [IntV(5)], map[])) == Next(s2);
    assert Arith(SubOp, IntV(5), IntV(3)) == Ok(IntV(2));
    assert Step(code.consts, map[], Sub, State(3, [IntV(5), IntV(3)], map[])) == Next(s3);
    assert Exec(map[], code, map[], s3, 0).result == Ok(IntV(2));
    assert Exec(map[], code, map[], s2, 0) == Exec(map[], code, map[], s3, 0);
    assert Exec(map[], code, map[], s1, 0) == Exec(map[], code, map[], s2, 0);
  }

  /** `LOAD_VAR` looks in the frame's locals before the globals; `LOAD_LOCAL` never looks at
      the globals. */
  lemma LocalsShadowGlobals()
    ensures Exec(map[], CodeObject([LoadVar("x"), Ret], [], []),
                 map["x" := IntV(1)], State(0, [], map["x" := IntV(2)]), 0).result == Ok(IntV(1))
    ensures Exec(map[], CodeObject([LoadLocal("x"), Ret], [], []),
                 map[], State(0, [], map["x" := IntV(2)]), 0).result == Err(UndefinedLocal("x"))
  {
  }

  /** Arguments past the callee's parameters are bound under `arg{i}`. */
  lemma ExtraArgumentBoundByPosition(f: CodeObject, main: CodeObject)
    requires f == CodeObject([LoadLocal("arg1"), Ret], [], ["a"])
    requires main == CodeObject([PushConst(0), PushConst(1), CallFunction("f", 2), Ret], [IntV(7), IntV(8)], [])
    ensures Exec(map["f" := f], main, map[], State(0, [], map[]), 1).result == Ok(IntV(8))
  {
    var fns := map["f" := f];
    ExtraArgumentRead(fns, f);
    assert main.instructions[0] == PushConst(0) && main.consts[0] == IntV(7) && [] + [IntV(7)] == [IntV(7)];
    assert Exec(fns, main, map[], State(0, [], map[]), 1) == Exec(fns, main, map[], State(1, [IntV(7)], map[]), 1);
    assert main.instructions[1] == PushConst(1) && main.consts[1] == IntV(8) && [IntV(7)] + [IntV(8)] == [IntV(7), IntV(8)];
    assert Exec(fns, main, map[], State(1, [IntV(7)], map[]), 1) == Exec(fns, main, map[], State(2, [IntV(7), IntV(8)], map[]), 1);
    assert [IntV(7), IntV(8)][0..] == [IntV(7), IntV(8)] && [IntV(7), IntV(8)][..0] == [];
    assert ExecCall(fns, main, map[], State(2, [IntV(7), IntV(8)], map[]), 1)
      == Exec(fns, main, map[], State(3, [] + [IntV(8)], map[]), 1);
    assert Exec(fns, main, map[], State(3, [IntV(8)], map[]), 1) == End(Ok(IntV(8)), State(4, [], map[]));
  }

  /** The callee of the example above reads its second argument from `arg1`. */
  lemma ExtraArgumentRead(fns: map<string, CodeObject>, f: CodeObject)
    requires f == CodeObject([LoadLocal("arg1"), Ret], [], ["a"])
    ensures Exec(fns, f, Bind(map[], f.params, [IntV(7), IntV(8)]), State(0, [], map[]), 0) == End(Ok(IntV(8)), State(2, [], map[]))
  {
    var locals := map["a" := IntV(7), "arg1" := IntV(8)];
    SecondArgumentKey();
    assert Exec(fns, f, locals, State(0, [], map[]), 0) == Exec(fns, f, locals, State(1, [IntV(8)], map[]), 0);
  }

  /** Two arguments bound under one parameter: the second goes to `arg1`. */
  lemma SecondArgumentKey()
    ensures Bind(map[], ["a"], [IntV(7), IntV(8)]) == map["a" := IntV(7), "arg1" := IntV(8)]
  {
    assert Decimal(1) == "1";
    assert ArgKey(["a"], 1) == "arg1";
    assert [IntV(7), IntV(8)][..1] == [IntV(7)] && [IntV(7)][..0] == [];
    assert Bind(map[], ["a"], [IntV(7)]) == map["a" := IntV(7)];
  }

  /** A callee's `STORE_VAR` writes the globals its caller reads, and a callee that returns
      from an empty stack hands back None. */
  lemma CalleeSharesGlobals(f: CodeObject, main: CodeObject)
    requires f == CodeObject([PushConst(0), StoreVar("g"), Ret], [IntV(4)], [])
    requires main == CodeObject([CallFunction("f", 0), LoadVar("g"), Ret], [], [])
    ensures Exec(map["f" := f], main, map[], State(0, [], map[]), 1) == End(Ok(IntV(4)), State(3, [NoneV], map["g" := IntV(4)]))
  {
    var fns := map["f" := f];
    var g := map["g" := IntV(4)];
    assert Exec(fns, f, map[], State(0, [], map[]), 0) == Exec(fns, f, map[], State(1, [IntV(4)], map[]), 0);
    assert Exec(fns, f, map[], State(1, [IntV(4)], map[]), 0) == Exec(fns, f, map[], State(2, [], g), 0);
    assert Exec(fns, f, map[], State(2, [], g), 0) == End(Ok(NoneV), State(3, [], g));
    assert Bind(map[], [], []) == map[];
    assert Exec(fns, main, map[], State(0, [], map[]), 1) == Exec(fns, main, map[], State(1, [NoneV], g), 1);
    assert Exec(fns, main, map[], State(1, [NoneV], g), 1) == Exec(fns, main, map[], State(2, [NoneV, IntV(4)], g), 1);
  }

  /** `CALL` pops its arguments before it looks the callee up. */
  lemma UnknownCalleePopsArguments()
    ensures Exec(map[], CodeObject([PushConst(0), CallFunction("g", 1)], [IntV(1)], []), map[], State(0, [], map[]), 3)
      == End(Err(UndefinedFunction("g")), State(2, [], map[]))
  {
  }
}
