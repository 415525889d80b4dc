/**
 * Runtime values of the language and the host arithmetic the VM applies to them.
 *
 * The source runs on Python numbers: unbounded ints, floats and `None` (what `RET`
 * returns from an empty stack). Floats are held here as exact reals, so rounding is
 * not modelled; `**`-style powers are computed only where the result is exact.
 */
module Values {
  import opened Wrappers

  datatype Value = IntV(i: int) | FloatV(r: real) | NoneV

  predicate IsNumber(v: Value) { !v.NoneV? }

  /** The numeric meaning of a number, whatever its Python type. */
  function Num(v: Value): real
    requires IsNumber(v)
  {
    if v.IntV? then v.i as real else v.r
  }

  /** Python's `==` on values: numbers compare by value across int and float, None only equals None. */
  predicate PyEq(a: Value, b: Value) {
    if a.NoneV? || b.NoneV? then a.NoneV? && b.NoneV? else Num(a) == Num(b)
  }

  lemma PyEqIsEquivalence(a: Value, b: Value, c: Value)
    ensures PyEq(a, a)
    ensures PyEq(a, b) ==> PyEq(b, a)
    ensures PyEq(a, b) && PyEq(b, c) ==> PyEq(a, c)
  {
  }

  /** The five arithmetic instructions of the VM. */
  datatype ArithOp = AddOp | SubOp | MulOp | DivOp | PowOp

  /** What the host raises: TypeError on None, ZeroDivisionError, math domain ValueError,
      and results an exact-real model cannot hold (irrational powers). */
  datatype ArithError = TypeError | ZeroDivision | MathDomain | Unrepresentable

  function RealPow(x: real, k: nat): (p: real)
    ensures x != 0.0 ==> p != 0.0
  {
    if k == 0 then 1.0 else x * RealPow(x, k - 1)
  }

  /** `math.pow(x, y)`, always a float. */
  function MathPow(x: real, y: real): Result<Value, ArithError> {
    if y.Floor as real == y then
      if y >= 0.0 then Ok(FloatV(RealPow(x, y.Floor)))
      else if x == 0.0 then Err(MathDomain)
      else Ok(FloatV(1.0 / RealPow(x, -y.Floor)))
    else if x < 0.0 then Err(MathDomain)
    else if x == 0.0 then (if y > 0.0 then Ok(FloatV(0.0)) else Err(MathDomain))
    else if x == 1.0 then Ok(FloatV(1.0))
    else Err(Unrepresentable)
  }

  /** `a op b` with Python's promotion: int op int stays int for + - *, true division and
      `math.pow` always give floats, and None is not a number. */
  function Arith(op: ArithOp, a: Value, b: Value): Result<Value, ArithError> {
    if !IsNumber(a) || !IsNumber(b) then Err(TypeError)
    else match op
      case AddOp => if a.IntV? && b.IntV? then Ok(IntV(a.i + b.i)) else Ok(FloatV(Num(a) + Num(b)))
      case SubOp => if a.IntV? && b.IntV? then Ok(IntV(a.i - b.i)) else Ok(FloatV(Num(a) - Num(b)))
      case MulOp => if a.IntV? && b.IntV? then Ok(IntV(a.i * b.i)) else Ok(FloatV(Num(a) * Num(b)))
      case DivOp => if Num(b) == 0.0 then Err(ZeroDivision) else Ok(FloatV(Num(a) / Num(b)))
      case PowOp => MathPow(Num(a), Num(b))
  }

  /** Two results agree under Python `==`: the same error, or values that compare equal. */
  predicate ResultPyEq(x: Result<Value, ArithError>, y: Result<Value, ArithError>) {
    match x
    case Ok(u) => y.Ok? && PyEq(u, y.value)
    case Err(e) => y == Err(e)
  }

  /** The same arithmetic on numeric meanings alone. */
  function RealArith(op: ArithOp, x: real, y: real): Result<Value, ArithError> {
    match op
    case AddOp => Ok(FloatV(x + y))
    case SubOp => Ok(FloatV(x - y))
    case MulOp => Ok(FloatV(x * y))
    case DivOp => if y == 0.0 then Err(ZeroDivision) else Ok(FloatV(x / y))
    case PowOp => MathPow(x, y)
  }

  /** The result of an operation on two numbers is `==` to the one computed from their
      numeric meanings: only the int/float type of + - * results depends on the operand types. */
  lemma ArithMeaning(op: ArithOp, a: Value, b: Value)
    requires IsNumber(a) && IsNumber(b)
    ensures ResultPyEq(Arith(op, a, b), RealArith(op, Num(a), Num(b)))
  {
    if op == MulOp && a.IntV? && b.IntV? {
      IntProductAsReal(a.i, b.i);
    }
  }

  /** Arithmetic sees only the numeric meaning of its operands: replacing an operand by one
      that is `==` to it (2 for 2.0, as the constant pool does) gives an `==` result. */
  lemma ArithRespectsPyEq(op: ArithOp, a: Value, a': Value, b: Value, b': Value)
    requires PyEq(a, a') && PyEq(b, b')
    ensures ResultPyEq(Arith(op, a, b), Arith(op, a', b'))
  {
    if IsNumber(a) && IsNumber(b) {
      ArithMeaning(op, a, b);
      ArithMeaning(op, a', b');
    }
  }

  lemma {:induction false} IntProductAsReal(x: int, y: int)
    ensures (x * y) as real == (x as real) * (y as real)
    decreases if y < 0 then -y else y
  {
    if y > 0 {
      IntProductAsReal(x, y - 1);
      assert x * y == x * (y - 1) + x;
    } else if y < 0 {
      IntProductAsReal(x, y + 1);
      assert x * y == x * (y + 1) - x;
    }
  }
}
