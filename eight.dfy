/**
 * Eight.py: an arithmetic calculator over int and float literals. A cursor lexer produces
 * INT/FLOAT/PLUS/MINUS/MULTIPLY/DIVIDE/LPAREN/RPAREN tokens (no EOF token); a recursive-descent
 * parser pops tokens from the front of its list and evaluates while it parses.
 */
module Eight {
  import opened Common
  import opened Chars
  import opened PyValues

  /** The token types the lexer assigns. */
  datatype TokenType = INT | FLOAT | PLUS | MINUS | MULTIPLY | DIVIDE | LPAREN | RPAREN

  datatype Token = Token(ttype: TokenType, value: Value)

  // ---------------------------------------------------------------- lexer specification

  /** The outcome of `parse_number` on its maximal run: "Invalid number" at a second dot. */
  function NumberResult(lexeme: string): Result<Token, Exc>
    requires DigitsAndDots(lexeme)
  {
    if Occurrences(lexeme, '.') > 1 then Err(Exc(Exception, "Invalid number")) else NumberToken(lexeme)
  }

  /** The token for a digit/dot run with at most one dot: FLOAT when it has the dot, else INT. */
  function NumberToken(lexeme: string): (r: Result<Token, Exc>)
    requires DigitsAndDots(lexeme)
  {
    if '.' in lexeme then
      match PyFloat(lexeme)
      case Ok(v) => Ok(Token(FLOAT, v))
      case Err(x) => Err(x)
    else
      Ok(Token(INT, PyInt(lexeme)))
  }

  /** The single-character operators and their token types. */
  function CharTokenType(c: char): Option<TokenType>
  {
    match c
    case '+' => Some(PLUS)
    case '-' => Some(MINUS)
    case '*' => Some(MULTIPLY)
    case '/' => Some(DIVIDE)
    case '(' => Some(LPAREN)
    case ')' => Some(RPAREN)
    case _ => None
  }

  /** Where the lexeme at `i` ends: after its digit/dot run, or after the one character. */
  function ScanEnd(s: string, i: nat): (e: nat)
    requires i < |s|
    ensures i < e <= |s|
  {
    if IsDigit(s[i]) || s[i] == '.' then RunEnd(s, i) else i + 1
  }

  /** One round of `lex`'s loop at `i`: no token for a space, one token, or the exception raised. */
  function Scanned(s: string, i: nat): (r: Result<seq<Token>, Exc>)
    requires i < |s|
    ensures r.Ok? ==> |r.value| <= 1
    ensures PySpace(s[i]) ==> r == Ok([])
  {
    if PySpace(s[i]) then Ok([])
    else if IsDigit(s[i]) || s[i] == '.' then
      match NumberResult(Lexeme(s, i))
      case Ok(t) => Ok([t])
      case Err(x) => Err(x)
    else if CharTokenType(s[i]).Some? then Ok([Token(CharTokenType(s[i]).value, Str([s[i]]))])
    else Err(Exc(Exception, "Invalid character: " + [s[i]]))
  }

  /** What `lex` returns when started with the cursor at `i`. */
  function LexFrom(s: string, i: nat): Result<seq<Token>, Exc>
    decreases |s| - i
  {
    if i >= |s| then Ok([])
    else
      match Scanned(s, i)
      case Err(x) => Err(x)
      case Ok(ts) => Prefix(ts, LexFrom(s, ScanEnd(s, i)))
  }

  /** `Lexer(text).lex()`: the constructor reads `text[0]`, so empty text raises IndexError. */
  function Tokenize(text: string): Result<seq<Token>, Exc>
  {
    if text == [] then Err(EmptyInput) else LexFrom(text, 0)
  }

  // ---------------------------------------------------------------- lexer

  class Lexer {
    const input: string
    var position: nat
    var current: Option<char>

    ghost predicate Valid()
      reads this
    {
      current == CharAt(input, position)
    }

    constructor (text: string)
      requires text != []
      ensures Valid() && input == text && position == 0
    {
      input := text;
      position := 0;
      current := Some(text[0]);
    }

    method Advance()
      requires Valid()
      modifies this
      ensures Valid() && position == old(position) + 1
    {
      position := position + 1;
      current := if position < |input| then Some(input[position]) else None;
    }

    method Lex() returns (r: Result<seq<Token>, Exc>)
      requires Valid()
      modifies this
      ensures r == LexFrom(input, old(position))
    {
      ghost var whole := LexFrom(input, position);
      var tokens: seq<Token> := [];
      PrefixNil(whole);
      while current.Some?
        invariant Valid()
        invariant whole == Prefix(tokens, LexFrom(input, position))
        decreases |input| - position
      {
        var step := LexStep(whole, tokens);
        if step.Err? {
          return step;
        }
        tokens := step.value;
      }
      assert tokens + [] == tokens;
      return Ok(tokens);
    }

    /**
     * One round of `lex`'s loop: skips a space, appends a token, or raises. `whole`, what the
     * entire scan returns, is the tokens found so far before what `lex` returns from here.
     */
    method LexStep(ghost whole: Result<seq<Token>, Exc>, tokens: seq<Token>) returns (r: Result<seq<Token>, Exc>)
      requires Valid() && current.Some?
      requires whole == Prefix(tokens, LexFrom(input, position))
      modifies this
      ensures Valid() && (r.Ok? ==> position > old(position))
      ensures r.Err? ==> whole == Err(r.error)
      ensures r.Ok? ==> whole == Prefix(r.value, LexFrom(input, position))
    {
      var c := current.value;
      ghost var i := position;
      var found: seq<Token>;
      if PySpace(c) {
        Advance();
        found := [];
      } else if IsDigit(c) || c == '.' {
        var t := ParseNumber();
        if t.Err? {
          assert Scanned(input, i) == Err(t.error);
          return Err(t.error);
        }
        found := [t.value];
      } else if CharTokenType(c).Some? {
        Advance();
        found := [Token(CharTokenType(c).value, Str([c]))];
      } else {
        assert Scanned(input, i) == Err(Exc(Exception, "Invalid character: " + [c]));
        return Err(Exc(Exception, "Invalid character: " + [c]));
      }
      assert Scanned(input, i) == Ok(found) && ScanEnd(input, i) == position;
      PrefixPrefix(tokens, found, LexFrom(input, position));
      return Ok(tokens + found);
    }

    method ParseNumber() returns (r: Result<Token, Exc>)
      requires Valid() && current.Some? && (IsDigit(current.value) || current.value == '.')
      modifies this
      ensures Valid()
      ensures Occurrences(Lexeme(input, old(position)), '.') > 1 ==> r == Err(Exc(Exception, "Invalid number"))
      ensures Occurrences(Lexeme(input, old(position)), '.') <= 1 ==>
                r == NumberToken(Lexeme(input, old(position))) && position == RunEnd(input, old(position))
    {
      ghost var start := position;
      var result := "";
      var decimalCount := 0;
      while current.Some? && (IsDigit(current.value) || current.value == '.')
        invariant Valid()
        invariant start <= position <= RunEnd(input, start)
        invariant result == input[start..position]
        invariant decimalCount == Occurrences(result, '.') <= 1
        decreases |input| - position
      {
        ExtendRun(input, start, position);
        result := result + [current.value];
        if current.value == '.' {
          decimalCount := decimalCount + 1;
          if decimalCount > 1 {
            DotsOfPrefix(input, start, position + 1, RunEnd(input, start));
            assert Occurrences(Lexeme(input, start), '.') > 1;
            return Err(Exc(Exception, "Invalid number"));
          }
        }
        Advance();
      }
      RunStops(input, start, position);
      assert result == Lexeme(input, start);
      r := NumberToken(result);
    }
  }

  /** `Lexer(text).lex()` as the driver calls it. */
  method Run(text: string) returns (r: Result<seq<Token>, Exc>)
    ensures r == Tokenize(text)
  {
    if text == [] {
      return Err(EmptyInput);
    }
    var lexer := new Lexer(text);
    r := lexer.Lex();
  }

  // ---------------------------------------------------------------- parser specification

  /** The parser's state. */
  type PState = Stream<Token>

  /** The state `Parser(tokens)` starts in. */
  function Init(tokens: seq<Token>): PState
  {
    Pop(tokens)
  }

  /** A parse step's value and the state after it. */
  type Parsed = Result<(Value, PState), Exc>

  function ValueOf(p: Parsed): Result<Value, Exc>
  {
    match p
    case Ok((v, _)) => Ok(v)
    case Err(x) => Err(x)
  }

  /** The type of the current token; `None` has no `token_type`. */
  function CurrentType(st: PState): Result<TokenType, Exc>
  {
    if st.current.None? then Err(NoneTokenType) else Ok(st.current.value.ttype)
  }

  /** `eat`: a match pops the next token, a mismatch prints "Invalid syntax" and exits. */
  function EatSpec(st: PState, ttype: TokenType): (r: Result<PState, Exc>)
    ensures r.Ok? ==> Size(r.value) + 1 == Size(st)
  {
    match CurrentType(st)
    case Err(x) => Err(x)
    case Ok(t) => if t == ttype then Ok(Pop(st.rest)) else Err(Exit1)
  }

  /** The loop guard of `term` and `expr`: a current token of one of the given types. */
  predicate At(st: PState, types: set<TokenType>)
  {
    st.current.Some? && st.current.value.ttype in types
  }

  /** `factor`: a number, or a parenthesised expression; it always consumes at least one token. */
  function FactorSpec(st: PState): (r: Parsed)
    ensures r.Ok? ==> Size(r.value.1) < Size(st)
    decreases Size(st), 0
  {
    match CurrentType(st)
    case Err(x) => Err(x)
    case Ok(t) =>
      if t == INT || t == FLOAT then
        match EatSpec(st, t)
        case Err(x) => Err(x)
        case Ok(st1) => Ok((st.current.value.value, st1))
      else if t == LPAREN then
        match EatSpec(st, LPAREN)
        case Err(x) => Err(x)
        case Ok(st1) =>
          match ExprSpec(st1)
          case Err(x) => Err(x)
          case Ok((v, st2)) =>
            match EatSpec(st2, RPAREN)
            case Err(x) => Err(x)
            case Ok(st3) => Ok((v, st3))
      else
        Err(Exit1)
  }

  /** Arithmetic on a token value that is not a number, which the lexer never produces. */
  const NotANumber := Exc(OutsideModel, "non-numeric token value")

  /** One `*` or `/` step of `term`'s loop applied to the accumulated value. */
  function MulDiv(op: TokenType, acc: Value, rhs: Value): (r: Result<Value, Exc>)
    ensures op == MULTIPLY && acc.Int? && rhs.Int? ==> r == Ok(Int(acc.i * rhs.i))
    ensures op != MULTIPLY && IsNumber(acc) && IsNumber(rhs) && !EqualsZero(rhs) ==>
              r == Ok(Flt(AsReal(acc) / AsReal(rhs)))
    ensures op != MULTIPLY && EqualsZero(rhs) ==> r == Err(Exc(Exception, "Division by zero"))
  {
    if op != MULTIPLY && EqualsZero(rhs) then Err(Exc(Exception, "Division by zero"))
    else if !IsNumber(acc) || !IsNumber(rhs) then Err(NotANumber)
    else if op == MULTIPLY then NumArith(Mul, acc, rhs)
    else NumArith(Div, acc, rhs)
  }

  /** `term`'s loop, entered with `acc` as `result`. */
  function TermTail(acc: Value, st: PState): (r: Parsed)
    ensures r.Ok? ==> Size(r.value.1) <= Size(st)
    decreases Size(st), 1
  {
    if !At(st, {MULTIPLY, DIVIDE}) then Ok((acc, st))
    else
      var op := st.current.value.ttype;
      match EatSpec(st, op)
      case Err(x) => Err(x)
      case Ok(st1) =>
        match FactorSpec(st1)
        case Err(x) => Err(x)
        case Ok((f, st2)) =>
          match MulDiv(op, acc, f)
          case Err(x) => Err(x)
          case Ok(acc2) => TermTail(acc2, st2)
  }

  function TermSpec(st: PState): (r: Parsed)
    ensures r.Ok? ==> Size(r.value.1) < Size(st)
    decreases Size(st), 2
  {
    match FactorSpec(st)
    case Err(x) => Err(x)
    case Ok((v, st1)) => TermTail(v, st1)
  }

  /** One `+` or `-` step of `expr`'s loop. */
  function AddSub(op: TokenType, acc: Value, rhs: Value): (r: Result<Value, Exc>)
    ensures acc.Int? && rhs.Int? ==> r == Ok(Int(if op == PLUS then acc.i + rhs.i else acc.i - rhs.i))
  {
    if !IsNumber(acc) || !IsNumber(rhs) then Err(NotANumber)
    else if op == PLUS then NumArith(Add, acc, rhs) else NumArith(Sub, acc, rhs)
  }

  /** `expr`'s loop, entered with `acc` as `result`. */
  function ExprTail(acc: Value, st: PState): (r: Parsed)
    ensures r.Ok? ==> Size(r.value.1) <= Size(st)
    decreases Size(st), 3
  {
    if !At(st, {PLUS, MINUS}) then Ok((acc, st))
    else
      var op := st.current.value.ttype;
      match EatSpec(st, op)
      case Err(x) => Err(x)
      case Ok(st1) =>
        match TermSpec(st1)
        case Err(x) => Err(x)
        case Ok((t, st2)) =>
          match AddSub(op, acc, t)
          case Err(x) => Err(x)
          case Ok(acc2) => ExprTail(acc2, st2)
  }

  function ExprSpec(st: PState): (r: Parsed)
    ensures r.Ok? ==> Size(r.value.1) < Size(st)
    decreases Size(st), 4
  {
    match TermSpec(st)
    case Err(x) => Err(x)
    case Ok((v, st1)) => ExprTail(v, st1)
  }

  /** The driver: lex the text, then `Parser(tokens).expr()`; tokens after the expression are ignored. */
  function Evaluate(text: string): Result<Value, Exc>
  {
    match Tokenize(text)
    case Err(x) => Err(x)
    case Ok(ts) => ValueOf(ExprSpec(Init(ts)))
  }

  // ---------------------------------------------------------------- parser

  class Parser {
    var current: Option<Token>
    var tokens: seq<Token>

    function State(): PState
      reads this
    {
      Stream(current, tokens)
    }

    constructor (ts: seq<Token>)
      ensures State() == Init(ts)
    {
      if ts == [] {
        current := None;
        tokens := [];
      } else {
        current := Some(ts[0]);
        tokens := ts[1..];
      }
    }

    method Eat(ttype: TokenType) returns (r: Result<(), Exc>)
      modifies this
      ensures EatSpec(old(State()), ttype).Ok? ==> r.Ok? && State() == EatSpec(old(State()), ttype).value
      ensures EatSpec(old(State()), ttype).Err? ==> r == Err(EatSpec(old(State()), ttype).error)
    {
      if current.None? {
        return Err(NoneTokenType);
      }
      if current.value.ttype == ttype {
        if tokens == [] {
          current := None;
        } else {
          current := Some(tokens[0]);
          tokens := tokens[1..];
        }
        return Ok(());
      }
      return Err(Exit1);
    }

    method Factor() returns (r: Result<Value, Exc>)
      modifies this
      ensures r == ValueOf(FactorSpec(old(State())))
      ensures r.Ok? ==> State() == FactorSpec(old(State())).value.1
      decreases Size(State()), 0
    {
      if current.None? {
        return Err(NoneTokenType);
      }
      var t := current.value.ttype;
      if t == INT || t == FLOAT {
        var result := current.value.value;
        var _ := Eat(t);
        return Ok(result);
      } else if t == LPAREN {
        var _ := Eat(LPAREN);
        var result := Expr();
        if result.Err? {
          return result;
        }
        var e := Eat(RPAREN);
        if e.Err? {
          return Err(e.error);
        }
        return result;
      }
      return Err(Exit1);
    }

    method Term() returns (r: Result<Value, Exc>)
      modifies this
      ensures r == ValueOf(TermSpec(old(State())))
      ensures r.Ok? ==> State() == TermSpec(old(State())).value.1
      decreases Size(State()), 2
    {
      var first := Factor();
      if first.Err? {
        return first;
      }
      var result := first.value;
      while current.Some? && current.value.ttype in {MULTIPLY, DIVIDE}
        invariant TermSpec(old(State())) == TermTail(result, State())
        decreases Size(State())
      {
        var op := current.value.ttype;
        var _ := Eat(op);
        var f := Factor();
        if f.Err? {
          return f;
        }
        var m := MulDiv(op, result, f.value);
        if m.Err? {
          return Err(m.error);
        }
        result := m.value;
      }
      return Ok(result);
    }

    method Expr() returns (r: Result<Value, Exc>)
      modifies this
      ensures r == ValueOf(ExprSpec(old(State())))
      ensures r.Ok? ==> State() == ExprSpec(old(State())).value.1
      decreases Size(State()), 4
    {
      var first := Term();
      if first.Err? {
        return first;
      }
      var result := first.value;
      while current.Some? && current.value.ttype in {PLUS, MINUS}
        invariant ExprSpec(old(State())) == ExprTail(result, State())
        decreases Size(State())
      {
        var op := current.value.ttype;
        var _ := Eat(op);
        var t := Term();
        if t.Err? {
          return t;
        }
        var a := AddSub(op, result, t.value);
        if a.Err? {
          return Err(a.error);
        }
        result := a.value;
      }
      return Ok(result);
    }
  }

  /** The driver: `Lexer(text).lex()`, then `Parser(tokens.copy()).expr()`. */
  method Calculate(text: string) returns (r: Result<Value, Exc>)
    ensures r == Evaluate(text)
  {
    var tokens := Run(text);
    if tokens.Err? {
      return Err(tokens.error);
    }
    var parser := new Parser(tokens.value);
    r := parser.Expr();
  }

  // ---------------------------------------------------------------- lexer properties

  /** The outcome of lexing two pieces one after the other: the first error, or both token lists. */
  function Join(a: Result<seq<Token>, Exc>, b: Result<seq<Token>, Exc>): Result<seq<Token>, Exc>
  {
    match a
    case Err(x) => Err(x)
    case Ok(ts) => Prefix(ts, b)
  }

  /** Text in front of a position does not change how the run at that position ends. */
  lemma {:induction false} RunEndShift(p: string, b: string, j: nat)
    requires j <= |b|
    ensures RunEnd(p + b, |p| + j) == |p| + RunEnd(b, j)
    decreases |b| - j
  {
    assert forall k :: 0 <= k < |b| ==> (p + b)[|p| + k] == b[k];
    if j < |b| && (IsDigit(b[j]) || b[j] == '.') {
      RunEndShift(p, b, j + 1);
    }
  }

  /** A character that is neither a digit nor a dot ends every run before it. */
  lemma {:induction false} RunEndStop(a: string, c: char, b: string, i: nat)
    requires i <= |a| && !(IsDigit(c) || c == '.')
    ensures RunEnd(a + [c] + b, i) == RunEnd(a, i)
    decreases |a| - i
  {
    var s := a + [c] + b;
    assert s[|a|] == c;
    if i < |a| {
      assert s[i] == a[i];
      if IsDigit(a[i]) || a[i] == '.' {
        RunEndStop(a, c, b, i + 1);
      }
    }
  }

  /** Text in front of a position does not change the round of `lex` there. */
  lemma ScanShift(p: string, b: string, j: nat)
    requires j < |b|
    ensures Scanned(p + b, |p| + j) == Scanned(b, j)
    ensures ScanEnd(p + b, |p| + j) == |p| + ScanEnd(b, j)
  {
    assert (p + b)[|p| + j] == b[j];
    if IsDigit(b[j]) || b[j] == '.' {
      RunEndShift(p, b, j);
      assert (p + b)[|p| + j..|p| + RunEnd(b, j)] == b[j..RunEnd(b, j)];
    }
  }

  /** Lexing `b` behind any text `p` is lexing `b` on its own. */
  lemma {:induction false} LexShift(p: string, b: string, j: nat)
    requires j <= |b|
    ensures LexFrom(p + b, |p| + j) == LexFrom(b, j)
    decreases |b| - j
  {
    if j < |b| {
      ScanShift(p, b, j);
      LexShift(p, b, ScanEnd(b, j));
    }
  }

  /** A space after `a` does not change the round of `lex` at a position inside `a`. */
  lemma ScanStop(a: string, c: char, b: string, i: nat)
    requires i < |a| && PySpace(c)
    ensures Scanned(a + [c] + b, i) == Scanned(a, i)
    ensures ScanEnd(a + [c] + b, i) == ScanEnd(a, i)
  {
    var s := a + [c] + b;
    assert s[i] == a[i];
    if IsDigit(a[i]) || a[i] == '.' {
      RunEndStop(a, c, b, i);
      assert s[i..RunEnd(a, i)] == a[i..RunEnd(a, i)];
    }
  }

  lemma PrefixJoin(ts: seq<Token>, a: Result<seq<Token>, Exc>, b: Result<seq<Token>, Exc>)
    ensures Prefix(ts, Join(a, b)) == Join(Prefix(ts, a), b)
  {
    if a.Ok? {
      PrefixPrefix(ts, a.value, b);
    }
  }

  lemma {:induction false} LexSeparatedFrom(a: string, c: char, b: string, i: nat)
    requires PySpace(c) && i <= |a|
    ensures LexFrom(a + [c] + b, i) == Join(LexFrom(a, i), LexFrom(b, 0))
    decreases |a| - i
  {
    if i == |a| {
      var s := a + [c] + b;
      assert s == (a + [c]) + b && s[|a|] == c;
      LexShift(a + [c], b, 0);
      PrefixNil(LexFrom(b, 0));
    } else {
      ScanStop(a, c, b, i);
      if Scanned(a, i).Ok? {
        LexSeparatedFrom(a, c, b, ScanEnd(a, i));
        PrefixJoin(Scanned(a, i).value, LexFrom(a, ScanEnd(a, i)), LexFrom(b, 0));
      }
    }
  }

  /**
   * Whitespace separates tokens and yields none: lexing `a`, a space and `b` gives the tokens
   * of `a` followed by those of `b`, or the first error.
   */
  lemma LexSeparated(a: string, c: char, b: string)
    requires PySpace(c) && a != []
    ensures Tokenize(a + [c] + b) == Join(Tokenize(a), LexFrom(b, 0))
  {
    LexSeparatedFrom(a, c, b, 0);
  }

  /** A text that is one digit/dot run lexes to the single token parse_number makes of it. */
  lemma LexNumber(w: string)
    requires w != [] && DigitsAndDots(w)
    ensures Tokenize(w) == (match NumberResult(w) case Ok(t) => Ok([t]) case Err(x) => Err(x))
  {
    RunEndAll(w, 0);
    assert w[0..|w|] == w;
    assert Lexeme(w, 0) == w;
    if NumberResult(w).Ok? {
      var t := NumberResult(w).value;
      assert Scanned(w, 0) == Ok([t]) && ScanEnd(w, 0) == |w|;
      assert LexFrom(w, |w|) == Ok([]);
      assert [t] + [] == [t];
    }
  }

  /** A run of digits is one INT token with the digits' decimal value. */
  lemma LexInteger(w: string)
    requires w != [] && AllDigits(w)
    ensures Tokenize(w) == Ok([Token(INT, Int(DigitsValue(w)))])
  {
    LexNumber(w);
    OccurrencesNone(w, '.');
  }

  /** A run with a single dot and at least one digit is one FLOAT token; "." alone is a ValueError. */
  lemma LexFloat(w: string)
    requires w != [] && DigitsAndDots(w) && '.' in w && Occurrences(w, '.') == 1
    ensures |w| >= 2 ==> Tokenize(w) == Ok([Token(FLOAT, PyFloat(w).value)])
    ensures |w| == 1 ==> Tokenize(w).Err? && Tokenize(w).error.kind == ValueError
  {
    LexNumber(w);
    OccurrencesNone(w, '.');
  }

  /** A second dot in a run raises "Invalid number". */
  lemma LexTwoDots(w: string)
    requires w != [] && DigitsAndDots(w) && Occurrences(w, '.') >= 2
    ensures Tokenize(w) == Err(Exc(Exception, "Invalid number"))
  {
    LexNumber(w);
  }

  /** Every operator character is one token typed by the table and valued by the character itself. */
  lemma LexOperator(c: char)
    requires CharTokenType(c).Some?
    ensures Tokenize([c]) == Ok([Token(CharTokenType(c).value, Str([c]))])
  {
    assert !PySpace(c) && !IsDigit(c) && c != '.';
    var t := Token(CharTokenType(c).value, Str([c]));
    assert LexFrom([c], 1) == Ok([]);
    assert [t] + [] == [t];
  }

  /** Letters and every other unlisted character raise "Invalid character". */
  lemma LexInvalid(a: string, c: char, b: string)
    requires !PySpace(c) && !IsDigit(c) && c != '.' && CharTokenType(c).None?
    requires forall k :: 0 <= k < |a| ==> PySpace(a[k])
    ensures Tokenize(a + [c] + b) == Err(Exc(Exception, "Invalid character: " + [c]))
  {
    var s := a + [c] + b;
    assert s[|a|] == c;
    SkipSpaces(s, |a|, 0);
  }

  lemma {:induction false} SkipSpaces(s: string, n: nat, i: nat)
    requires i <= n < |s| && forall k :: i <= k < n ==> PySpace(s[k])
    ensures LexFrom(s, i) == LexFrom(s, n)
    decreases n - i
  {
    if i < n {
      SkipSpaces(s, n, i + 1);
      PrefixNil(LexFrom(s, i + 1));
    }
  }

  // ---------------------------------------------------------------- parser properties

  function IntToken(n: int): Token { Token(INT, Int(n)) }

  function OpToken(ttype: TokenType, c: char): Token { Token(ttype, Str([c])) }

  /** True for the token types that continue `term` or `expr`. */
  predicate IsOperator(t: Token)
  {
    t.ttype in {PLUS, MINUS, MULTIPLY, DIVIDE}
  }

  /** A factor is a number or a parenthesised expression; anything else exits, and no token is an AttributeError. */
  lemma FactorCases(st: PState)
    ensures st.current.None? ==> FactorSpec(st) == Err(NoneTokenType)
    ensures st.current.Some? && st.current.value.ttype in {INT, FLOAT} ==>
              FactorSpec(st) == Ok((st.current.value.value, Pop(st.rest)))
    ensures st.current.Some? && st.current.value.ttype !in {INT, FLOAT, LPAREN} ==> FactorSpec(st) == Err(Exit1)
  {
  }

  /** A number token as a whole term: the next token is not `*` or `/`. */
  lemma TermNumber(n: int, rest: seq<Token>)
    requires rest == [] || rest[0].ttype !in {MULTIPLY, DIVIDE}
    ensures TermSpec(Stream(Some(IntToken(n)), rest)) == Ok((Int(n), Pop(rest)))
  {
    var st := Stream(Some(IntToken(n)), rest);
    assert FactorSpec(st) == Ok((Int(n), Pop(rest)));
    if rest != [] {
      PopCons(rest[0], rest[1..]);
      assert rest == [rest[0]] + rest[1..];
    }
    assert TermTail(Int(n), Pop(rest)) == Ok((Int(n), Pop(rest)));
  }

  /** One `* n` or `/ n` round of `term`'s loop. */
  lemma TermTailStep(acc: Value, op: TokenType, c: char, n: int, rest: seq<Token>)
    requires op in {MULTIPLY, DIVIDE}
    ensures TermTail(acc, Stream(Some(OpToken(op, c)), [IntToken(n)] + rest))
            == (match MulDiv(op, acc, Int(n)) case Err(x) => Err(x) case Ok(acc2) => TermTail(acc2, Pop(rest)))
  {
    var st := Stream(Some(OpToken(op, c)), [IntToken(n)] + rest);
    PopCons(IntToken(n), rest);
    assert EatSpec(st, op) == Ok(Stream(Some(IntToken(n)), rest));
    assert FactorSpec(Stream(Some(IntToken(n)), rest)) == Ok((Int(n), Pop(rest)));
  }

  /** One `+ n` or `- n` round of `expr`'s loop when `n` is a whole term. */
  lemma ExprTailStep(acc: Value, op: TokenType, c: char, n: int, rest: seq<Token>)
    requires op in {PLUS, MINUS}
    requires rest == [] || rest[0].ttype !in {MULTIPLY, DIVIDE}
    ensures ExprTail(acc, Stream(Some(OpToken(op, c)), [IntToken(n)] + rest))
            == (match AddSub(op, acc, Int(n)) case Err(x) => Err(x) case Ok(acc2) => ExprTail(acc2, Pop(rest)))
  {
    var st := Stream(Some(OpToken(op, c)), [IntToken(n)] + rest);
    PopCons(IntToken(n), rest);
    assert EatSpec(st, op) == Ok(Stream(Some(IntToken(n)), rest));
    TermNumber(n, rest);
  }

  /** `term`'s loop ends at a token that is not `*` or `/`, or at the end of the tokens. */
  lemma TermTailStops(acc: Value, rest: seq<Token>)
    requires rest == [] || rest[0].ttype !in {MULTIPLY, DIVIDE}
    ensures TermTail(acc, Pop(rest)) == Ok((acc, Pop(rest)))
  {
    if rest != [] {
      PopCons(rest[0], rest[1..]);
      assert rest == [rest[0]] + rest[1..];
    }
  }

  /** `expr`'s loop ends at a token that is not `+` or `-`, or at the end of the tokens. */
  lemma ExprTailStops(acc: Value, rest: seq<Token>)
    requires rest == [] || rest[0].ttype !in {PLUS, MINUS}
    ensures ExprTail(acc, Pop(rest)) == Ok((acc, Pop(rest)))
  {
    if rest != [] {
      PopCons(rest[0], rest[1..]);
      assert rest == [rest[0]] + rest[1..];
    }
  }

  /** A term that starts with a number: the loop of `term` entered with that number. */
  lemma TermFromNumber(n: int, rest: seq<Token>)
    ensures TermSpec(Stream(Some(IntToken(n)), rest)) == TermTail(Int(n), Pop(rest))
  {
    assert FactorSpec(Stream(Some(IntToken(n)), rest)) == Ok((Int(n), Pop(rest)));
  }

  /**
   * `expr` stops at the first token that is not an operator and leaves it, and everything after
   * it, unconsumed: a number followed by such a token evaluates to the number.
   */
  lemma StopsAtNonOperator(n: int, ts: seq<Token>)
    requires ts == [] || !IsOperator(ts[0])
    ensures ExprSpec(Init([IntToken(n)] + ts)) == Ok((Int(n), Pop(ts)))
  {
    PopCons(IntToken(n), ts);
    TermNumber(n, ts);
    ExprTailStops(Int(n), ts);
  }

  /** "2 3" evaluates to 2. */
  lemma TrailingNumberIgnored()
    ensures Evaluate("2 3") == Ok(Int(2))
  {
    assert "2 3" == "2" + [' '] + "3";
    LexSeparated("2", ' ', "3");
    LexInteger("2");
    LexInteger("3");
    assert DigitsValue("2") == 2 && DigitsValue("3") == 3;
    assert Tokenize("2 3") == Ok([IntToken(2)] + [IntToken(3)]);
    StopsAtNonOperator(2, [IntToken(3)]);
  }

  /** The term `b * c`, followed by a token that is not `*` or `/`. */
  lemma ProductTerm(b: int, c: int, rest: seq<Token>)
    requires rest == [] || rest[0].ttype !in {MULTIPLY, DIVIDE}
    ensures TermSpec(Pop([IntToken(b)] + ([OpToken(MULTIPLY, '*')] + ([IntToken(c)] + rest)))) == Ok((Int(b * c), Pop(rest)))
  {
    var times := OpToken(MULTIPLY, '*');
    PopCons(IntToken(b), [times] + ([IntToken(c)] + rest));
    TermFromNumber(b, [times] + ([IntToken(c)] + rest));
    PopCons(times, [IntToken(c)] + rest);
    TermTailStep(Int(b), MULTIPLY, '*', c, rest);
    TermTailStops(Int(b * c), rest);
  }

  /** One round of `expr`'s loop at a `+` or `-` token, whatever term follows. */
  lemma ExprTailRound(acc: Value, op: TokenType, c: char, rest: seq<Token>, v: Value, q: PState)
    requires op in {PLUS, MINUS}
    requires TermSpec(Pop(rest)) == Ok((v, q))
    requires AddSub(op, acc, v).Ok?
    ensures ExprTail(acc, Stream(Some(OpToken(op, c)), rest)) == ExprTail(AddSub(op, acc, v).value, q)
  {
    assert EatSpec(Stream(Some(OpToken(op, c)), rest), op) == Ok(Pop(rest));
  }

  /** An expression of a number, a `+` or `-`, and one more term that the end of the expression follows. */
  lemma ExprNumberLast(a: int, op: TokenType, c: char, rest: seq<Token>, v: Value, after: seq<Token>)
    requires op in {PLUS, MINUS}
    requires TermSpec(Pop(rest)) == Ok((v, Pop(after)))
    requires AddSub(op, Int(a), v).Ok?
    requires after == [] || after[0].ttype !in {PLUS, MINUS}
    ensures ExprSpec(Stream(Some(IntToken(a)), [OpToken(op, c)] + rest)) == Ok((AddSub(op, Int(a), v).value, Pop(after)))
  {
    TermNumber(a, [OpToken(op, c)] + rest);
    PopCons(OpToken(op, c), rest);
    ExprTailRound(Int(a), op, c, rest, v, Pop(after));
    ExprTailStops(AddSub(op, Int(a), v).value, after);
  }

  /** `*` binds tighter than `+`: "a + b * c" is a + (b * c). */
  lemma ProductInsideSum(a: int, b: int, c: int, rest: seq<Token>)
    requires rest == [] || !IsOperator(rest[0])
    ensures ExprSpec(Stream(Some(IntToken(a)), [OpToken(PLUS, '+'), IntToken(b), OpToken(MULTIPLY, '*'), IntToken(c)] + rest))
            == Ok((Int(a + b * c), Pop(rest)))
  {
    var plus, times := OpToken(PLUS, '+'), OpToken(MULTIPLY, '*');
    Cons4(plus, IntToken(b), times, IntToken(c), rest);
    ProductTerm(b, c, rest);
    ExprNumberLast(a, PLUS, '+', [IntToken(b)] + ([times] + ([IntToken(c)] + rest)), Int(b * c), rest);
  }

  /** The term `a * b` that a `+` or `-` follows: the product enters `expr`'s loop. */
  lemma ProductThen(a: int, b: int, rest: seq<Token>)
    requires rest != [] && rest[0].ttype in {PLUS, MINUS}
    ensures ExprSpec(Stream(Some(IntToken(a)), [OpToken(MULTIPLY, '*')] + ([IntToken(b)] + rest))) == ExprTail(Int(a * b), Pop(rest))
  {
    var times := OpToken(MULTIPLY, '*');
    TermFromNumber(a, [times] + ([IntToken(b)] + rest));
    PopCons(times, [IntToken(b)] + rest);
    TermTailStep(Int(a), MULTIPLY, '*', b, rest);
    TermTailStops(Int(a * b), rest);
  }

  /** The last round `+ c` of `expr`'s loop, with integers. */
  lemma SumLast(acc: int, c: int, rest: seq<Token>)
    requires rest == [] || !IsOperator(rest[0])
    ensures ExprTail(Int(acc), Pop([OpToken(PLUS, '+')] + ([IntToken(c)] + rest))) == Ok((Int(acc + c), Pop(rest)))
  {
    PopCons(OpToken(PLUS, '+'), [IntToken(c)] + rest);
    ExprTailStep(Int(acc), PLUS, '+', c, rest);
    ExprTailStops(Int(acc + c), rest);
  }

  /** `*` binds tighter than `+`: "a * b + c" is (a * b) + c. */
  lemma ProductBeforeSum(a: int, b: int, c: int, rest: seq<Token>)
    requires rest == [] || !IsOperator(rest[0])
    ensures ExprSpec(Stream(Some(IntToken(a)), [OpToken(MULTIPLY, '*'), IntToken(b), OpToken(PLUS, '+'), IntToken(c)] + rest))
            == Ok((Int(a * b + c), Pop(rest)))
  {
    var plus, times := OpToken(PLUS, '+'), OpToken(MULTIPLY, '*');
    Cons4(times, IntToken(b), plus, IntToken(c), rest);
    ProductThen(a, b, [plus] + ([IntToken(c)] + rest));
    SumLast(a * b, c, rest);
  }

  /** True division: int / int is a float, and a zero divisor raises "Division by zero". */
  lemma Division(a: int, b: int)
    ensures b != 0 ==> ValueOf(ExprSpec(Init([IntToken(a), OpToken(DIVIDE, '/'), IntToken(b)])))
                       == Ok(Flt(a as real / b as real))
    ensures b == 0 ==> ValueOf(ExprSpec(Init([IntToken(a), OpToken(DIVIDE, '/'), IntToken(b)])))
                       == Err(Exc(Exception, "Division by zero"))
  {
    PopCons(IntToken(a), [OpToken(DIVIDE, '/'), IntToken(b)]);
    PopCons(OpToken(DIVIDE, '/'), [IntToken(b)]);
    var st := Stream(Some(IntToken(a)), [OpToken(DIVIDE, '/'), IntToken(b)]);
    TermFromNumber(a, [OpToken(DIVIDE, '/'), IntToken(b)]);
    TermTailStep(Int(a), DIVIDE, '/', b, []);
    if b != 0 {
      var q := Flt(a as real / b as real);
      assert MulDiv(DIVIDE, Int(a), Int(b)) == Ok(q);
      TermTailStops(q, []);
      ExprTailStops(q, []);
      assert TermSpec(st) == Ok((q, Pop([])));
    } else {
      assert MulDiv(DIVIDE, Int(a), Int(b)) == Err(Exc(Exception, "Division by zero"));
      assert TermSpec(st) == Err(Exc(Exception, "Division by zero"));
    }
  }

  /** The divisor is parsed before it is tested: "a / (0" fails at the missing ")", not at the zero. */
  lemma DivisorParsedFirst(a: int)
    ensures ValueOf(ExprSpec(Init([IntToken(a), OpToken(DIVIDE, '/'), OpToken(LPAREN, '('), IntToken(0)])))
            == Err(NoneTokenType)
  {
    var lp := OpToken(LPAREN, '(');
    PopCons(IntToken(a), [OpToken(DIVIDE, '/'), lp, IntToken(0)]);
    PopCons(OpToken(DIVIDE, '/'), [lp, IntToken(0)]);
    PopCons(lp, [IntToken(0)]);
    PopCons(IntToken(0), []);
    TermNumber(0, []);
    ExprTailStops(Int(0), []);
    assert ExprSpec(Stream(Some(IntToken(0)), [])) == Ok((Int(0), Stream(None, [])));
    assert FactorSpec(Stream(Some(lp), [IntToken(0)])) == Err(NoneTokenType);
    var st := Stream(Some(IntToken(a)), [OpToken(DIVIDE, '/'), lp, IntToken(0)]);
    TermFromNumber(a, [OpToken(DIVIDE, '/'), lp, IntToken(0)]);
    assert TermTail(Int(a), Stream(Some(OpToken(DIVIDE, '/')), [lp, IntToken(0)])) == Err(NoneTokenType);
    assert TermSpec(st) == Err(NoneTokenType);
  }

  /** Subtracting a list of numbers from `acc` from left to right. */
  function SubAll(acc: int, ns: seq<int>): int
    decreases |ns|
  {
    if ns == [] then acc else SubAll(acc - ns[0], ns[1..])
  }

  /** The tokens `- n1 - n2 ...`. */
  function MinusChain(ns: seq<int>): (ts: seq<Token>)
    ensures |ts| == 2 * |ns|
    ensures ns != [] ==> ts[0] == OpToken(MINUS, '-')
  {
    if ns == [] then [] else [OpToken(MINUS, '-'), IntToken(ns[0])] + MinusChain(ns[1..])
  }

  /** The parser state at a chain `- n ...` followed by `ts`. */
  lemma MinusChainPop(n: int, ns: seq<int>, ts: seq<Token>)
    ensures Pop(MinusChain([n] + ns) + ts) == Stream(Some(OpToken(MINUS, '-')), [IntToken(n)] + (MinusChain(ns) + ts))
  {
    var rest := MinusChain(ns) + ts;
    assert ([n] + ns)[1..] == ns;
    assert MinusChain([n] + ns) + ts == [OpToken(MINUS, '-')] + ([IntToken(n)] + rest);
    PopCons(OpToken(MINUS, '-'), [IntToken(n)] + rest);
  }

  /** What follows the first `- n` of a chain is another `-` or what follows the chain. */
  lemma MinusChainNext(ns: seq<int>, ts: seq<Token>)
    requires ts == [] || !IsOperator(ts[0])
    ensures var rest := MinusChain(ns) + ts; rest == [] || rest[0].ttype !in {MULTIPLY, DIVIDE}
  {
    if ns == [] {
      assert MinusChain(ns) + ts == ts;
    }
  }

  /** One `- n` round of `expr`'s loop on integers. */
  lemma ExprTailMinus(acc: int, n: int, rest: seq<Token>)
    requires rest == [] || rest[0].ttype !in {MULTIPLY, DIVIDE}
    ensures ExprTail(Int(acc), Stream(Some(OpToken(MINUS, '-')), [IntToken(n)] + rest)) == ExprTail(Int(acc - n), Pop(rest))
  {
    ExprTailStep(Int(acc), MINUS, '-', n, rest);
  }

  /** The first `- n` of a chain is one round of `expr`'s loop. */
  lemma MinusChainStep(acc: int, n: int, ns: seq<int>, ts: seq<Token>)
    requires ts == [] || !IsOperator(ts[0])
    ensures ExprTail(Int(acc), Pop(MinusChain([n] + ns) + ts)) == ExprTail(Int(acc - n), Pop(MinusChain(ns) + ts))
  {
    MinusChainPop(n, ns, ts);
    MinusChainNext(ns, ts);
    ExprTailMinus(acc, n, MinusChain(ns) + ts);
  }

  /** An empty chain leaves `expr`'s loop at once. */
  lemma MinusChainEnd(acc: int, ts: seq<Token>)
    requires ts == [] || !IsOperator(ts[0])
    ensures ExprTail(Int(acc), Pop(MinusChain([]) + ts)) == Ok((Int(SubAll(acc, [])), Pop(ts)))
  {
    assert MinusChain([]) + ts == ts;
    ExprTailStops(Int(acc), ts);
  }

  lemma {:induction false} MinusChainTail(acc: int, ns: seq<int>, ts: seq<Token>)
    requires ts == [] || !IsOperator(ts[0])
    ensures ExprTail(Int(acc), Pop(MinusChain(ns) + ts)) == Ok((Int(SubAll(acc, ns)), Pop(ts)))
    decreases |ns|
  {
    if ns == [] {
      MinusChainEnd(acc, ts);
    } else {
      var n, tail := ns[0], ns[1..];
      assert ns == [n] + tail && SubAll(acc, ns) == SubAll(acc - n, tail);
      MinusChainStep(acc, n, tail, ts);
      MinusChainTail(acc - n, tail, ts);
    }
  }

  /** `+` and `-` associate to the left: "n0 - n1 - n2 ..." is ((n0 - n1) - n2) - ... */
  lemma MinusLeftAssociative(n0: int, ns: seq<int>)
    ensures ValueOf(ExprSpec(Init([IntToken(n0)] + MinusChain(ns)))) == Ok(Int(SubAll(n0, ns)))
  {
    PopCons(IntToken(n0), MinusChain(ns));
    TermFromNumber(n0, MinusChain(ns));
    TermTailStops(Int(n0), MinusChain(ns));
    assert MinusChain(ns) + [] == MinusChain(ns);
    MinusChainTail(n0, ns, []);
  }
}
