/**
 * What First.cpp and Second.cpp take from C++ itself: 32-bit `int` arithmetic with truncating
 * division, `std::stoi` on a number lexeme, the `isalnum(c) || c == '_'` word run, and the ways
 * a run ends early (each `exit(1)` after its message on stderr, an escaping exception, or
 * undefined behaviour).
 */
module Cpp {
  import opened Common
  import opened Chars

  const IntMin: int := -0x8000_0000
  const IntMax: int := 0x7fff_ffff

  /** A value an `int` can hold. */
  predicate InInt(x: int) { IntMin <= x <= IntMax }

  /**
   * How a run ends early. The first six are the program's own messages followed by `exit(1)`;
   * token types appear as the enumerators' numbers, as `operator<<` prints them.
   */
  datatype Failure =
    | UnrecognizedCharacter(c: char)          // "Error: Unrecognized character 'c'"
    | ExpectedToken(expected: nat, got: nat)  // "Error: Expected token type E, but got G"
    | UnexpectedInStatement(got: nat)         // "Error: Unexpected token type G in statement"
    | UnexpectedInTerm(got: nat)              // "Error: Unexpected token type G in term"
    | NotDeclared(name: string)               // "Error: Variable 'name' not declared"
    | DivisionByZero                          // "Error: Division by zero"
    | StoiOutOfRange                          // std::stoi throws std::out_of_range, uncaught
    | StoiInvalidArgument                     // std::stoi throws std::invalid_argument, uncaught
    | IntOverflow                             // signed overflow: undefined behaviour

  function Abs(x: int): nat { if x < 0 then -x else x }

  /** C++ `a / b` on integers: the quotient truncated toward zero. */
  function TruncDiv(a: int, b: int): (q: int)
    requires b != 0
    ensures Abs(a - q * b) < Abs(b)
    ensures a - q * b == 0 || (a - q * b < 0 <==> a < 0)
  {
    var n := Abs(a) / Abs(b);
    TruncDivMagnitude(Abs(a), Abs(b));
    if (a < 0) == (b < 0) then
      assert a - n * b == (if a < 0 then -(Abs(a) - n * Abs(b)) else Abs(a) - n * Abs(b));
      n
    else
      assert a - (-n) * b == (if a < 0 then -(Abs(a) - n * Abs(b)) else Abs(a) - n * Abs(b));
      -n
  }

  /** Euclidean division on naturals leaves a remainder in [0, y). */
  lemma TruncDivMagnitude(x: nat, y: nat)
    requires y > 0
    ensures 0 <= x - (x / y) * y < y
  {
  }

  /** Truncation and Dafny's Euclidean division agree on a non-negative dividend and positive divisor. */
  lemma TruncDivNonNegative(a: int, b: int)
    requires a >= 0 && b > 0
    ensures TruncDiv(a, b) == a / b
  {
  }

  /** Truncation differs from flooring when the signs differ: -7 / 2 is -3 in C++. */
  lemma TruncDivTowardZero()
    ensures TruncDiv(-7, 2) == -3 && TruncDiv(7, -2) == -3 && TruncDiv(-7, -2) == 3
    ensures -7 / 2 == -4
  {
  }

  /**
   * `std::stoi` on a number lexeme: the value of its leading digits, which must fit an `int`.
   * Leading whitespace and a sign, which stoi would also accept, never occur in a lexeme.
   */
  function Stoi(w: string): (r: Result<int, Failure>)
    ensures r.Ok? ==> 0 <= r.value <= IntMax
    ensures DigitsEnd(w, 0) == 0 ==> r == Err(StoiInvalidArgument)
  {
    var e := DigitsEnd(w, 0);
    if e == 0 then Err(StoiInvalidArgument)
    else if DigitsValue(w[..e]) > IntMax then Err(StoiOutOfRange)
    else Ok(DigitsValue(w[..e]))
  }

  /** stoi stops at the dot: "2.5" is 2, and a digit run with no dot is its own value. */
  lemma StoiDropsFraction()
    ensures Stoi("2.5") == Ok(2)
    ensures Stoi("42") == Ok(42)
  {
    assert DigitsEnd("2.5", 0) == 1 && "2.5"[..1] == "2";
    assert DigitsEnd("42", 0) == 2 && "42"[..2] == "42";
  }

  /** A lexeme of digits only, small enough for an int, converts to its decimal value. */
  lemma StoiDigits(w: string)
    requires w != [] && AllDigits(w) && DigitsValue(w) <= IntMax
    ensures Stoi(w) == Ok(DigitsValue(w))
  {
    DigitsEndAll(w, 0);
    assert w[..|w|] == w;
  }

  /** The result of an `int` operation: its mathematical value when an `int` holds it. */
  function Checked(x: int): (r: Result<int, Failure>)
    ensures r.Ok? <==> InInt(x)
    ensures r.Ok? ==> r.value == x
  {
    if InInt(x) then Ok(x) else Err(IntOverflow)
  }
}
