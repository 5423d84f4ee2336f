/**
 * The Python values the evaluators compute with, Python's in-place arithmetic operators on them,
 * and the conversions `int(...)` and `float(...)` applied to the lexers' digit runs.
 * A Python `float` is idealised as a mathematical `real` (no IEEE rounding).
 */
module PyValues {
  import opened Common
  import opened Chars

  datatype Value = Int(i: int) | Flt(r: real) | Bool(b: bool) | NoneV | Str(s: string)

  /** The exception classes the modelled code can raise; `OutsideModel` marks an operation the model does not cover. */
  datatype ExcKind =
    | Exception | ValueError | TypeError | AttributeError | NameError | IndexError
    | ZeroDivisionError | SystemExit | OutsideModel

  /** A raised exception; `message` is what `str(e)` gives. */
  datatype Exc = Exc(kind: ExcKind, message: string)

  /** Reading `.token_type` of a parser whose `current_token` is `None`. */
  const NoneTokenType := Exc(AttributeError, "'NoneType' object has no attribute 'token_type'")

  /** `input_text[0]` on an empty string, raised by the cursor lexers' constructors. */
  const EmptyInput := Exc(IndexError, "string index out of range")

  /** `exit(1)` after printing "Invalid syntax". */
  const Exit1 := Exc(SystemExit, "1")

  function TypeName(v: Value): string
  {
    match v
    case Int(_) => "int"
    case Flt(_) => "float"
    case Bool(_) => "bool"
    case NoneV => "NoneType"
    case Str(_) => "str"
  }

  /** `bool` is a subclass of `int`: both take part in arithmetic. */
  predicate IsNumber(v: Value) { v.Int? || v.Flt? || v.Bool? }

  predicate IsIntegral(v: Value) { v.Int? || v.Bool? }

  function AsInt(v: Value): int
    requires IsIntegral(v)
  {
    if v.Int? then v.i else if v.b then 1 else 0
  }

  function AsReal(v: Value): real
    requires IsNumber(v)
  {
    if v.Flt? then v.r else AsInt(v) as real
  }

  /** Python truthiness (`bool(v)`). */
  predicate Truthy(v: Value)
  {
    match v
    case Int(i) => i != 0
    case Flt(r) => r != 0.0
    case Bool(b) => b
    case NoneV => false
    case Str(s) => s != []
  }

  /** The source's test `not (v != 0)`: only numeric zeros (and `False`) compare equal to 0. */
  predicate EqualsZero(v: Value)
  {
    IsNumber(v) && AsReal(v) == 0.0
  }

  /** Python's `a == b`: numbers compare by value across int, float and bool; other values by identity of content. */
  predicate PyEquals(a: Value, b: Value)
  {
    if IsNumber(a) && IsNumber(b) then AsReal(a) == AsReal(b) else a == b
  }

  /**
   * The entry of a dict that `d[v]` reaches. Keys that compare equal (`4`, `4.0`, `True` and `1`)
   * share one entry, which this model files under the int.
   */
  function DictKey(v: Value): (k: Value)
    ensures IsNumber(k) == IsNumber(v)
    ensures IsNumber(v) ==> AsReal(k) == AsReal(v)
    ensures !IsNumber(v) ==> k == v
  {
    if v.Bool? then Int(AsInt(v))
    else if v.Flt? && v.r.Floor as real == v.r then Int(v.r.Floor)
    else v
  }

  /** Two keys reach the same dict entry exactly when Python finds them equal. */
  lemma SameEntry(a: Value, b: Value)
    ensures DictKey(a) == DictKey(b) <==> PyEquals(a, b)
  {
  }

  datatype ArithOp = Add | Sub | Mul | Div | Mod | Pow

  function OpSymbol(op: ArithOp): string
  {
    match op
    case Add => "+"
    case Sub => "-"
    case Mul => "*"
    case Div => "/"
    case Mod => "%"
    case Pow => "**"
  }

  function Unsupported(op: ArithOp, a: Value, b: Value): Exc
  {
    Exc(TypeError, "unsupported operand type(s) for " + OpSymbol(op) + "=: '" + TypeName(a) + "' and '"
                   + TypeName(b) + "'")
  }

  /** `s * n` for a string and an integer: `n` copies, none when `n <= 0`. */
  function Repeat(s: string, n: int): (r: string)
    ensures n <= 0 ==> r == []
    ensures n > 0 ==> |r| == |s| * n
    decreases n
  {
    if n <= 0 then [] else s + Repeat(s, n - 1)
  }

  /** Python's `%` on integers: the result takes the sign of the divisor. */
  function FloorMod(a: int, b: int): (r: int)
    requires b != 0
    ensures b > 0 ==> 0 <= r < b
    ensures b < 0 ==> b < r <= 0
  {
    if b > 0 || a % b == 0 then a % b else a % b + b
  }

  /** Python's `%` on floats, idealised: `a - b * floor(a / b)`. */
  function RealFloorMod(a: real, b: real): real
    requires b != 0.0
  {
    a - b * (a / b).Floor as real
  }

  function IntPow(b: int, e: nat): (r: int)
    ensures b != 0 ==> r != 0
  {
    if e == 0 then 1 else b * IntPow(b, e - 1)
  }

  function RealPow(b: real, e: nat): (r: real)
    ensures b != 0.0 ==> r != 0.0
  {
    if e == 0 then 1.0 else b * RealPow(b, e - 1)
  }

  /** `a ** b` when the exponent is a whole number; other exponents are outside the model. */
  function Power(a: Value, b: Value): Result<Value, Exc>
    requires IsNumber(a) && IsNumber(b)
  {
    if AsReal(b) != AsReal(b).Floor as real then
      Err(Exc(OutsideModel, "fractional exponent"))
    else
      var e := AsReal(b).Floor;
      if e < 0 && AsReal(a) == 0.0 then
        Err(Exc(ZeroDivisionError, "0.0 cannot be raised to a negative power"))
      else if IsIntegral(a) && IsIntegral(b) then
        (if e >= 0 then Ok(Int(IntPow(AsInt(a), e))) else Ok(Flt(1.0 / IntPow(AsInt(a), -e) as real)))
      else
        (if e >= 0 then Ok(Flt(RealPow(AsReal(a), e))) else Ok(Flt(1.0 / RealPow(AsReal(a), -e))))
  }

  /** Python's in-place operator `a op= b` on two numbers (`bool` counting as `int`). */
  function NumArith(op: ArithOp, a: Value, b: Value): Result<Value, Exc>
    requires IsNumber(a) && IsNumber(b)
  {
    match op
    case Add =>
      if IsIntegral(a) && IsIntegral(b) then Ok(Int(AsInt(a) + AsInt(b))) else Ok(Flt(AsReal(a) + AsReal(b)))
    case Sub =>
      if IsIntegral(a) && IsIntegral(b) then Ok(Int(AsInt(a) - AsInt(b))) else Ok(Flt(AsReal(a) - AsReal(b)))
    case Mul =>
      if IsIntegral(a) && IsIntegral(b) then Ok(Int(AsInt(a) * AsInt(b))) else Ok(Flt(AsReal(a) * AsReal(b)))
    case Div =>
      if AsReal(b) == 0.0 then Err(Exc(ZeroDivisionError, "division by zero"))
      else Ok(Flt(AsReal(a) / AsReal(b)))
    case Mod =>
      if AsReal(b) == 0.0 then Err(Exc(ZeroDivisionError, "modulo by zero"))
      else if IsIntegral(a) && IsIntegral(b) then Ok(Int(FloorMod(AsInt(a), AsInt(b))))
      else Ok(Flt(RealFloorMod(AsReal(a), AsReal(b))))
    case Pow => Power(a, b)
  }

  /** `a op= b` when a string or `None` takes part: concatenation, repetition, or a TypeError. */
  function MixedArith(op: ArithOp, a: Value, b: Value): Result<Value, Exc>
  {
    if op == Add && a.Str? && b.Str? then
      Ok(Str(a.s + b.s))
    else if op == Add && a.Str? then
      Err(Exc(TypeError, "can only concatenate str (not \"" + TypeName(b) + "\") to str"))
    else if op == Mul && a.Str? && IsIntegral(b) then
      Ok(Str(Repeat(a.s, AsInt(b))))
    else if op == Mul && IsIntegral(a) && b.Str? then
      Ok(Str(Repeat(b.s, AsInt(a))))
    else if op == Mul && (a.Str? || b.Str?) then
      Err(Exc(TypeError, "can't multiply sequence by non-int of type '" + TypeName(if a.Str? then b else a) + "'"))
    else if op == Mod && a.Str? then
      Err(Exc(OutsideModel, "printf-style string formatting"))
    else
      Err(Unsupported(op, a, b))
  }

  /** Python's in-place operator `a op= b` on the values the evaluators produce. */
  function Arith(op: ArithOp, a: Value, b: Value): Result<Value, Exc>
  {
    if IsNumber(a) && IsNumber(b) then NumArith(op, a, b) else MixedArith(op, a, b)
  }

  /** `+`, `-` and `*` on ints (and bools) stay ints. */
  lemma ArithIntegral(a: Value, b: Value)
    requires IsIntegral(a) && IsIntegral(b)
    ensures Arith(Add, a, b) == Ok(Int(AsInt(a) + AsInt(b)))
    ensures Arith(Sub, a, b) == Ok(Int(AsInt(a) - AsInt(b)))
    ensures Arith(Mul, a, b) == Ok(Int(AsInt(a) * AsInt(b)))
  {
  }

  /** `/` is true division: a float even for two ints; a zero divisor raises ZeroDivisionError. */
  lemma ArithDivide(a: Value, b: Value)
    requires IsNumber(a) && IsNumber(b)
    ensures !EqualsZero(b) ==> Arith(Div, a, b) == Ok(Flt(AsReal(a) / AsReal(b)))
    ensures EqualsZero(b) ==> Arith(Div, a, b) == Err(Exc(ZeroDivisionError, "division by zero"))
  {
  }

  /** `%` on ints takes the sign of the divisor. */
  lemma ArithModulo(a: Value, b: Value)
    requires IsIntegral(a) && IsIntegral(b) && !EqualsZero(b)
    ensures Arith(Mod, a, b) == Ok(Int(FloorMod(AsInt(a), AsInt(b))))
  {
  }

  /**
   * `*` with a string repeats it by an int (or bool) on either side; any other operand, `None` and
   * another string included, raises TypeError naming that operand's type.
   */
  lemma ArithSequenceRepeat(s: string, v: Value)
    ensures IsIntegral(v) ==> Arith(Mul, Str(s), v) == Arith(Mul, v, Str(s)) == Ok(Str(Repeat(s, AsInt(v))))
    ensures !IsIntegral(v) ==>
              Arith(Mul, Str(s), v) == Arith(Mul, v, Str(s))
              == Err(Exc(TypeError, "can't multiply sequence by non-int of type '" + TypeName(v) + "'"))
  {
  }

  /** `None` takes part in no arithmetic. */
  lemma ArithNone(op: ArithOp, a: Value, b: Value)
    requires (a.NoneV? || b.NoneV?) && !a.Str? && !b.Str?
    ensures Arith(op, a, b).Err? && Arith(op, a, b).error.kind == TypeError
  {
  }

  // ---- int(...) and float(...) on digit runs ----

  function Pow10(n: nat): (r: nat)
    ensures r >= 1
  {
    if n == 0 then 1 else 10 * Pow10(n - 1)
  }

  function IndexOf(s: string, c: char): (k: nat)
    requires c in s
    ensures k < |s| && s[k] == c && c !in s[..k]
  {
    if s[0] == c then 0 else 1 + IndexOf(s[1..], c)
  }

  /** Python's `float(s)` on a digit/dot run that contains a dot: valid exactly when there is one dot and a digit. */
  function PyFloat(s: string): (r: Result<Value, Exc>)
    requires DigitsAndDots(s) && '.' in s
    ensures r.Ok? <==> Occurrences(s, '.') == 1 && |s| >= 2
    ensures r.Ok? ==> r.value.Flt? && r.value.r >= 0.0
  {
    if Occurrences(s, '.') == 1 && |s| >= 2 then
      var k := IndexOf(s, '.');
      OneDotSplit(s, k);
      Ok(Flt(DigitsValue(s[..k]) as real + DigitsValue(s[k + 1..]) as real / Pow10(|s| - k - 1) as real))
    else
      Err(Exc(ValueError, "could not convert string to float: '" + s + "'"))
  }

  lemma OneDotSplit(s: string, k: nat)
    requires DigitsAndDots(s) && k < |s| && s[k] == '.' && '.' !in s[..k] && Occurrences(s, '.') == 1
    ensures AllDigits(s[..k]) && AllDigits(s[k + 1..])
  {
    assert s == s[..k] + [s[k]] + s[k + 1..];
    OccurrencesAppend(s[..k] + [s[k]], s[k + 1..], '.');
    OccurrencesAppend(s[..k], [s[k]], '.');
    OccurrencesNone(s[k + 1..], '.');
    assert forall j :: 0 <= j < k ==> s[..k][j] == s[j];
    assert forall j :: k + 1 <= j < |s| ==> s[k + 1..][j - k - 1] == s[j];
  }

  /** Python's `int(s)` on a run of digits. */
  function PyInt(s: string): Value
    requires AllDigits(s)
  {
    Int(DigitsValue(s))
  }

  // ---- str(list) ----

  /** The items joined by ", ". */
  function Joined(items: seq<string>): string
  {
    if items == [] then "" else if |items| == 1 then items[0] else items[0] + ", " + Joined(items[1..])
  }

  /** `str(xs)` for a list whose items' reprs are `items`. */
  function ListStr(items: seq<string>): string
  {
    "[" + Joined(items) + "]"
  }
}
