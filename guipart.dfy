/**
 * guipart.py: a calculator with `%`, booleans and the words `not`, `and`, `or`. The cursor lexer
 * produces INT/FLOAT/BOOL and operator tokens (no EOF token); the recursive-descent parser pops
 * tokens from the front of its list, evaluates while it parses and, unlike Eight.py, only prints
 * on a syntax error and carries on.
 */
module Guipart {
  import opened Common
  import opened Chars
  import opened PyValues

  /** The token types the source names; POWER is named but never produced. */
  datatype TokenType =
    | INT | FLOAT | BOOL | PLUS | MINUS | MULTIPLY | DIVIDE | MODULO | LPAREN | RPAREN | POWER
    | AND | OR | NOT

  datatype Token = Token(ttype: TokenType, value: Value)

  // ---------------------------------------------------------------- lexer specification

  /** The outcome of `parse_number` on its maximal run: "Invalid number" at a second dot. */
  function NumberResult(lexeme: string): Result<Token, Exc>
    requires DigitsAndDots(lexeme)
  {
    if Occurrences(lexeme, '.') > 1 then Err(Exc(Exception, "Invalid number")) else NumberToken(lexeme)
  }

  /** The token for a digit/dot run with at most one dot: FLOAT when it has the dot, else INT. */
  function NumberToken(lexeme: string): Result<Token, Exc>
    requires DigitsAndDots(lexeme)
  {
    if '.' in lexeme then
      match PyFloat(lexeme)
      case Ok(v) => Ok(Token(FLOAT, v))
      case Err(x) => Err(x)
    else
      Ok(Token(INT, PyInt(lexeme)))
  }

  /** The characters `parse_logical` takes. */
  predicate WordChar(c: char) { IsAlpha(c) || c == '_' }

  /** The end of the maximal run of letters and underscores that starts at `i`. */
  function LogicalEnd(s: string, i: nat): (e: nat)
    requires i <= |s|
    ensures i <= e <= |s|
    ensures forall k :: i <= k < e ==> WordChar(s[k])
    ensures e < |s| ==> !WordChar(s[e])
    decreases |s| - i
  {
    if i < |s| && WordChar(s[i]) then LogicalEnd(s, i + 1) else i
  }

  /** `parse_logical` on its word: the five words, in any case, and an error for every other word. */
  function LogicalToken(word: string): Result<Token, Exc>
  {
    var w := LowerString(word);
    if w == "true" then Ok(Token(BOOL, Bool(true)))
    else if w == "false" then Ok(Token(BOOL, Bool(false)))
    else if w == "and" then Ok(Token(AND, Str("and")))
    else if w == "or" then Ok(Token(OR, Str("or")))
    else if w == "not" then Ok(Token(NOT, Str("not")))
    else Err(Exc(Exception, "Invalid logical operator: " + word))
  }

  /**
   * The single-character operators and their token types. The source also compares the current
   * character with "**", which a single character never equals, so POWER is absent here.
   */
  function CharTokenType(c: char): Option<TokenType>
  {
    match c
    case '+' => Some(PLUS)
    case '-' => Some(MINUS)
    case '*' => Some(MULTIPLY)
    case '/' => Some(DIVIDE)
    case '%' => Some(MODULO)
    case '(' => Some(LPAREN)
    case ')' => Some(RPAREN)
    case _ => None
  }

  /** Where the lexeme at `i` ends: after its digit/dot run, after its word, or after the one character. */
  function ScanEnd(s: string, i: nat): (e: nat)
    requires i < |s|
    ensures i < e <= |s|
  {
    if IsDigit(s[i]) || s[i] == '.' then RunEnd(s, i)
    else if CharTokenType(s[i]).None? && IsAlpha(s[i]) then LogicalEnd(s, i)
    else i + 1
  }

  /** True when no token is a POWER token. */
  predicate NoPower(ts: seq<Token>)
  {
    forall k :: 0 <= k < |ts| ==> ts[k].ttype != POWER
  }

  /** One round of `lex`'s loop at `i`: no token for a space, one token, or the exception raised. */
  function Scanned(s: string, i: nat): (r: Result<seq<Token>, Exc>)
    requires i < |s|
    ensures r.Ok? ==> |r.value| <= 1 && NoPower(r.value)
    ensures PySpace(s[i]) ==> r == Ok([])
  {
    if PySpace(s[i]) then Ok([])
    else if IsDigit(s[i]) || s[i] == '.' then
      match NumberResult(Lexeme(s, i))
      case Ok(t) => Ok([t])
      case Err(x) => Err(x)
    else if CharTokenType(s[i]).Some? then Ok([Token(CharTokenType(s[i]).value, Str([s[i]]))])
    else if IsAlpha(s[i]) then
      match LogicalToken(s[i..LogicalEnd(s, i)])
      case Ok(t) => Ok([t])
      case Err(x) => Err(x)
    else Err(Exc(Exception, "Invalid character: " + [s[i]]))
  }

  /** What `lex` returns when started with the cursor at `i`. */
  function LexFrom(s: string, i: nat): Result<seq<Token>, Exc>
    decreases |s| - i
  {
    if i >= |s| then Ok([])
    else
      match Scanned(s, i)
      case Err(x) => Err(x)
      case Ok(ts) => Prefix(ts, LexFrom(s, ScanEnd(s, i)))
  }

  /** `Lexer(text).lex()`: the constructor reads `text[0]`, so empty text raises IndexError. */
  function Tokenize(text: string): Result<seq<Token>, Exc>
  {
    if text == [] then Err(EmptyInput) else LexFrom(text, 0)
  }

  // ---------------------------------------------------------------- lexer

  class Lexer {
    const input: string
    var position: nat
    var current: Option<char>

    ghost predicate Valid()
      reads this
    {
      current == CharAt(input, position)
    }

    constructor (text: string)
      requires text != []
      ensures Valid() && input == text && position == 0
    {
      input := text;
      position := 0;
      current := Some(text[0]);
    }

    method Advance()
      requires Valid()
      modifies this
      ensures Valid() && position == old(position) + 1
    {
      position := position + 1;
      current := if position < |input| then Some(input[position]) else None;
    }

    method Lex() returns (r: Result<seq<Token>, Exc>)
      requires Valid()
      modifies this
      ensures r == LexFrom(input, old(position))
    {
      ghost var whole := LexFrom(input, position);
      var tokens: seq<Token> := [];
      PrefixNil(whole);
      while current.Some?
        invariant Valid()
        invariant whole == Prefix(tokens, LexFrom(input, position))
        decreases |input| - position
      {
        var step := LexStep(whole, tokens);
        if step.Err? {
          return step;
        }
        tokens := step.value;
      }
      assert tokens + [] == tokens;
      return Ok(tokens);
    }

    /**
     * One round of `lex`'s loop: skips a space, appends a token, or raises. `whole`, what the
     * entire scan returns, is the tokens found so far before what `lex` returns from here.
     */
    method LexStep(ghost whole: Result<seq<Token>, Exc>, tokens: seq<Token>) returns (r: Result<seq<Token>, Exc>)
      requires Valid() && current.Some?
      requires whole == Prefix(tokens, LexFrom(input, position))
      modifies this
      ensures Valid() && (r.Ok? ==> position > old(position))
      ensures r.Err? ==> whole == Err(r.error)
      ensures r.Ok? ==> whole == Prefix(r.value, LexFrom(input, position))
    {
      var c := current.value;
      ghost var i := position;
      var found: seq<Token>;
      if PySpace(c) {
        Advance();
        found := [];
      } else if IsDigit(c) || c == '.' {
        var t := ParseNumber();
        if t.Err? {
          assert Scanned(input, i) == Err(t.error);
          return Err(t.error);
        }
        found := [t.value];
      } else if CharTokenType(c).Some? {
        Advance();
        found := [Token(CharTokenType(c).value, Str([c]))];
      } else if IsAlpha(c) {
        var t := ParseLogical();
        if t.Err? {
          assert Scanned(input, i) == Err(t.error);
          return Err(t.error);
        }
        found := [t.value];
      } else {
        assert Scanned(input, i) == Err(Exc(Exception, "Invalid character: " + [c]));
        return Err(Exc(Exception, "Invalid character: " + [c]));
      }
      assert Scanned(input, i) == Ok(found) && ScanEnd(input, i) == position;
      PrefixPrefix(tokens, found, LexFrom(input, position));
      return Ok(tokens + found);
    }

    method ParseNumber() returns (r: Result<Token, Exc>)
      requires Valid() && current.Some? && (IsDigit(current.value) || current.value == '.')
      modifies this
      ensures Valid()
      ensures Occurrences(Lexeme(input, old(position)), '.') > 1 ==> r == Err(Exc(Exception, "Invalid number"))
      ensures Occurrences(Lexeme(input, old(position)), '.') <= 1 ==>
                r == NumberToken(Lexeme(input, old(position))) && position == RunEnd(input, old(position))
    {
      ghost var start := position;
      var result := "";
      var decimalCount := 0;
      while current.Some? && (IsDigit(current.value) || current.value == '.')
        invariant Valid()
        invariant start <= position <= RunEnd(input, start)
        invariant result == input[start..position]
        invariant decimalCount == Occurrences(result, '.') <= 1
        decreases |input| - position
      {
        ExtendRun(input, start, position);
        result := result + [current.value];
        if current.value == '.' {
          decimalCount := decimalCount + 1;
          if decimalCount > 1 {
            DotsOfPrefix(input, start, position + 1, RunEnd(input, start));
            assert Occurrences(Lexeme(input, start), '.') > 1;
            return Err(Exc(Exception, "Invalid number"));
          }
        }
        Advance();
      }
      RunStops(input, start, position);
      assert result == Lexeme(input, start);
      r := NumberToken(result);
    }

    method ParseLogical() returns (r: Result<Token, Exc>)
      requires Valid() && current.Some? && IsAlpha(current.value)
      modifies this
      ensures Valid() && old(position) < position == LogicalEnd(input, old(position))
      ensures r == LogicalToken(input[old(position)..position])
    {
      ghost var start := position;
      var result := "";
      while current.Some? && WordChar(current.value)
        invariant Valid()
        invariant start <= position <= LogicalEnd(input, start)
        invariant result == input[start..position]
        decreases |input| - position
      {
        result := result + [current.value];
        Advance();
      }
      r := LogicalToken(result);
    }
  }

  /** `Lexer(text).lex()` as the driver calls it. */
  method Run(text: string) returns (r: Result<seq<Token>, Exc>)
    ensures r == Tokenize(text)
  {
    if text == [] {
      return Err(EmptyInput);
    }
    var lexer := new Lexer(text);
    r := lexer.Lex();
  }

  // ---------------------------------------------------------------- parser specification

  /** The parser's state. */
  type PState = Stream<Token>

  /** The state `Parser(tokens)` starts in. */
  function Init(tokens: seq<Token>): PState
  {
    Pop(tokens)
  }

  /** A parse step's value and the state after it. */
  type Parsed = Result<(Value, PState), Exc>

  function ValueOf(p: Parsed): Result<Value, Exc>
  {
    match p
    case Ok((v, _)) => Ok(v)
    case Err(x) => Err(x)
  }

  /** The loop guards: a current token of one of the given types. */
  predicate At(st: PState, types: set<TokenType>)
  {
    st.current.Some? && st.current.value.ttype in types
  }

  /**
   * `eat`: a match pops the next token; a mismatch prints "Invalid syntax" and leaves the state
   * as it was; with no current token, reading its type raises AttributeError.
   */
  function EatSpec(st: PState, ttype: TokenType): (r: Result<PState, Exc>)
    ensures r.Ok? ==> Size(r.value) <= Size(st)
    ensures At(st, {ttype}) ==> r == Ok(Pop(st.rest))
  {
    if st.current.None? then Err(NoneTokenType)
    else if st.current.value.ttype == ttype then Ok(Pop(st.rest))
    else Ok(st)
  }

  /**
   * `factor`: a literal, `( expr )` or `NOT factor`; any other token prints "Invalid syntax" and
   * yields `None` without consuming anything.
   */
  function FactorSpec(st: PState): (r: Parsed)
    ensures r.Ok? ==> Size(r.value.1) <= Size(st)
    decreases Size(st), 0
  {
    if st.current.None? then Err(NoneTokenType)
    else
      var t := st.current.value.ttype;
      if t in {INT, FLOAT, BOOL} then
        Ok((st.current.value.value, Pop(st.rest)))
      else if t == LPAREN then
        match ExprSpec(Pop(st.rest))
        case Err(x) => Err(x)
        case Ok((v, st2)) =>
          match EatSpec(st2, RPAREN)
          case Err(x) => Err(x)
          case Ok(st3) => Ok((v, st3))
      else if t == NOT then
        match FactorSpec(Pop(st.rest))
        case Err(x) => Err(x)
        case Ok((v, st2)) => Ok((Bool(!Truthy(v)), st2))
      else
        Ok((NoneV, st))
  }

  /** `power`'s loop, entered with `acc` as `result`: `result **= factor()` at each POWER. */
  function PowerTail(acc: Value, st: PState): (r: Parsed)
    ensures r.Ok? ==> Size(r.value.1) <= Size(st)
    decreases Size(st), 1
  {
    if !At(st, {POWER}) then Ok((acc, st))
    else
      match FactorSpec(Pop(st.rest))
      case Err(x) => Err(x)
      case Ok((f, st2)) =>
        match Arith(Pow, acc, f)
        case Err(x) => Err(x)
        case Ok(acc2) => PowerTail(acc2, st2)
  }

  function PowerSpec(st: PState): (r: Parsed)
    ensures r.Ok? ==> Size(r.value.1) <= Size(st)
    decreases Size(st), 2
  {
    match FactorSpec(st)
    case Err(x) => Err(x)
    case Ok((v, st1)) => PowerTail(v, st1)
  }

  /** One `*`, `/` or `%` step of `term`'s loop; a divisor equal to 0 raises before dividing. */
  function MulDivMod(op: TokenType, acc: Value, rhs: Value): (r: Result<Value, Exc>)
    ensures op == DIVIDE && EqualsZero(rhs) ==> r == Err(Exc(Exception, "Division by zero"))
    ensures op == MODULO && EqualsZero(rhs) ==> r == Err(Exc(Exception, "Modulo by zero"))
    ensures op == MULTIPLY && acc.Int? && rhs.Int? ==> r == Ok(Int(acc.i * rhs.i))
  {
    if op == MULTIPLY then Arith(Mul, acc, rhs)
    else if op == DIVIDE then
      (if EqualsZero(rhs) then Err(Exc(Exception, "Division by zero")) else Arith(Div, acc, rhs))
    else
      (if EqualsZero(rhs) then Err(Exc(Exception, "Modulo by zero")) else Arith(Mod, acc, rhs))
  }

  /** `term`'s loop, entered with `acc` as `result`. */
  function TermTail(acc: Value, st: PState): (r: Parsed)
    ensures r.Ok? ==> Size(r.value.1) <= Size(st)
    decreases Size(st), 3
  {
    if !At(st, {MULTIPLY, DIVIDE, MODULO}) then Ok((acc, st))
    else
      var op := st.current.value.ttype;
      match PowerSpec(Pop(st.rest))
      case Err(x) => Err(x)
      case Ok((p, st2)) =>
        match MulDivMod(op, acc, p)
        case Err(x) => Err(x)
        case Ok(acc2) => TermTail(acc2, st2)
  }

  function TermSpec(st: PState): (r: Parsed)
    ensures r.Ok? ==> Size(r.value.1) <= Size(st)
    decreases Size(st), 4
  {
    match PowerSpec(st)
    case Err(x) => Err(x)
    case Ok((v, st1)) => TermTail(v, st1)
  }

  /** One `+` or `-` step of `expr`'s loop. */
  function AddSub(op: TokenType, acc: Value, rhs: Value): (r: Result<Value, Exc>)
    ensures acc.Int? && rhs.Int? ==> r == Ok(Int(if op == PLUS then acc.i + rhs.i else acc.i - rhs.i))
  {
    if op == PLUS then Arith(Add, acc, rhs) else Arith(Sub, acc, rhs)
  }

  /** `expr`'s loop, entered with `acc` as `result`. */
  function ExprTail(acc: Value, st: PState): (r: Parsed)
    ensures r.Ok? ==> Size(r.value.1) <= Size(st)
    decreases Size(st), 5
  {
    if !At(st, {PLUS, MINUS}) then Ok((acc, st))
    else
      var op := st.current.value.ttype;
      match TermSpec(Pop(st.rest))
      case Err(x) => Err(x)
      case Ok((t, st2)) =>
        match AddSub(op, acc, t)
        case Err(x) => Err(x)
        case Ok(acc2) => ExprTail(acc2, st2)
  }

  function ExprSpec(st: PState): (r: Parsed)
    ensures r.Ok? ==> Size(r.value.1) <= Size(st)
    decreases Size(st), 6
  {
    match TermSpec(st)
    case Err(x) => Err(x)
    case Ok((v, st1)) => ExprTail(v, st1)
  }

  /** `logical_and`'s loop: `result = result and self.expr()`, which skips `expr` when `result` is falsy. */
  function AndTail(acc: Value, st: PState): (r: Parsed)
    ensures r.Ok? ==> Size(r.value.1) <= Size(st)
    decreases Size(st)
  {
    if !At(st, {AND}) then Ok((acc, st))
    else if !Truthy(acc) then AndTail(acc, Pop(st.rest))
    else
      match ExprSpec(Pop(st.rest))
      case Err(x) => Err(x)
      case Ok((e, st2)) => AndTail(e, st2)
  }

  function AndSpec(st: PState): (r: Parsed)
    ensures r.Ok? ==> Size(r.value.1) <= Size(st)
  {
    match ExprSpec(st)
    case Err(x) => Err(x)
    case Ok((v, st1)) => AndTail(v, st1)
  }

  /** `logical_or`'s loop: `result = result or self.logical_and()`, which skips the operand when `result` is truthy. */
  function OrTail(acc: Value, st: PState): (r: Parsed)
    ensures r.Ok? ==> Size(r.value.1) <= Size(st)
    decreases Size(st)
  {
    if !At(st, {OR}) then Ok((acc, st))
    else if Truthy(acc) then OrTail(acc, Pop(st.rest))
    else
      match AndSpec(Pop(st.rest))
      case Err(x) => Err(x)
      case Ok((a, st2)) => OrTail(a, st2)
  }

  function OrSpec(st: PState): (r: Parsed)
    ensures r.Ok? ==> Size(r.value.1) <= Size(st)
  {
    match AndSpec(st)
    case Err(x) => Err(x)
    case Ok((v, st1)) => OrTail(v, st1)
  }

  /** `compile_expression`: lex the text, then `Parser(tokens.copy()).expr()`. */
  function Evaluate(text: string): Result<Value, Exc>
  {
    match Tokenize(text)
    case Err(x) => Err(x)
    case Ok(ts) => ValueOf(ExprSpec(Init(ts)))
  }

  // ---------------------------------------------------------------- parser

  class Parser {
    var current: Option<Token>
    var tokens: seq<Token>

    function State(): PState
      reads this
    {
      Stream(current, tokens)
    }

    constructor (ts: seq<Token>)
      ensures State() == Init(ts)
    {
      if ts == [] {
        current := None;
        tokens := [];
      } else {
        current := Some(ts[0]);
        tokens := ts[1..];
      }
    }

    method Eat(ttype: TokenType) returns (r: Result<(), Exc>)
      modifies this
      ensures EatSpec(old(State()), ttype).Ok? ==> r.Ok? && State() == EatSpec(old(State()), ttype).value
      ensures EatSpec(old(State()), ttype).Err? ==> r == Err(EatSpec(old(State()), ttype).error)
    {
      if current.None? {
        return Err(NoneTokenType);
      }
      if current.value.ttype == ttype {
        if tokens == [] {
          current := None;
        } else {
          current := Some(tokens[0]);
          tokens := tokens[1..];
        }
      }
      return Ok(());
    }

    method Factor() returns (r: Result<Value, Exc>)
      modifies this
      ensures r == ValueOf(FactorSpec(old(State())))
      ensures r.Ok? ==> State() == FactorSpec(old(State())).value.1
      decreases Size(State()), 0
    {
      if current.None? {
        return Err(NoneTokenType);
      }
      var t := current.value.ttype;
      if t == INT || t == FLOAT || t == BOOL {
        var result := current.value.value;
        var _ := Eat(t);
        return Ok(result);
      } else if t == LPAREN {
        var _ := Eat(LPAREN);
        var result := Expr();
        if result.Err? {
          return result;
        }
        var e := Eat(RPAREN);
        if e.Err? {
          return Err(e.error);
        }
        return result;
      } else if t == NOT {
        var _ := Eat(NOT);
        var f := Factor();
        if f.Err? {
          return f;
        }
        return Ok(Bool(!Truthy(f.value)));
      }
      return Ok(NoneV);
    }

    method Power() returns (r: Result<Value, Exc>)
      modifies this
      ensures r == ValueOf(PowerSpec(old(State())))
      ensures r.Ok? ==> State() == PowerSpec(old(State())).value.1
      decreases Size(State()), 2
    {
      var first := Factor();
      if first.Err? {
        return first;
      }
      var result := first.value;
      while current.Some? && current.value.ttype == POWER
        invariant PowerSpec(old(State())) == PowerTail(result, State())
        decreases Size(State())
      {
        var _ := Eat(POWER);
        var f := Factor();
        if f.Err? {
          return f;
        }
        var p := Arith(Pow, result, f.value);
        if p.Err? {
          return Err(p.error);
        }
        result := p.value;
      }
      return Ok(result);
    }

    method Term() returns (r: Result<Value, Exc>)
      modifies this
      ensures r == ValueOf(TermSpec(old(State())))
      ensures r.Ok? ==> State() == TermSpec(old(State())).value.1
      decreases Size(State()), 4
    {
      var first := Power();
      if first.Err? {
        return first;
      }
      var result := first.value;
      while current.Some? && current.value.ttype in {MULTIPLY, DIVIDE, MODULO}
        invariant TermSpec(old(State())) == TermTail(result, State())
        decreases Size(State())
      {
        var op := current.value.ttype;
        var _ := Eat(op);
        var p := Power();
        if p.Err? {
          return p;
        }
        var m := MulDivMod(op, result, p.value);
        if m.Err? {
          return Err(m.error);
        }
        result := m.value;
      }
      return Ok(result);
    }

    method Expr() returns (r: Result<Value, Exc>)
      modifies this
      ensures r == ValueOf(ExprSpec(old(State())))
      ensures r.Ok? ==> State() == ExprSpec(old(State())).value.1
      decreases Size(State()), 6
    {
      var first := Term();
      if first.Err? {
        return first;
      }
      var result := first.value;
      while current.Some? && current.value.ttype in {PLUS, MINUS}
        invariant ExprSpec(old(State())) == ExprTail(result, State())
        decreases Size(State())
      {
        var op := current.value.ttype;
        var _ := Eat(op);
        var t := Term();
        if t.Err? {
          return t;
        }
        var a := AddSub(op, result, t.value);
        if a.Err? {
          return Err(a.error);
        }
        result := a.value;
      }
      return Ok(result);
    }

    method LogicalAnd() returns (r: Result<Value, Exc>)
      modifies this
      ensures r == ValueOf(AndSpec(old(State())))
      ensures r.Ok? ==> State() == AndSpec(old(State())).value.1
    {
      var first := Expr();
      if first.Err? {
        return first;
      }
      var result := first.value;
      while current.Some? && current.value.ttype == AND
        invariant AndSpec(old(State())) == AndTail(result, State())
        decreases Size(State())
      {
        var _ := Eat(AND);
        if Truthy(result) {
          var e := Expr();
          if e.Err? {
            return e;
          }
          result := e.value;
        }
      }
      return Ok(result);
    }

    method LogicalOr() returns (r: Result<Value, Exc>)
      modifies this
      ensures r == ValueOf(OrSpec(old(State())))
      ensures r.Ok? ==> State() == OrSpec(old(State())).value.1
    {
      var first := LogicalAnd();
      if first.Err? {
        return first;
      }
      var result := first.value;
      while current.Some? && current.value.ttype == OR
        invariant OrSpec(old(State())) == OrTail(result, State())
        decreases Size(State())
      {
        var _ := Eat(OR);
        if !Truthy(result) {
          var a := LogicalAnd();
          if a.Err? {
            return a;
          }
          result := a.value;
        }
      }
      return Ok(result);
    }
  }

  /** `compile_expression` without its display: lex, then evaluate with `expr`. */
  method Compile(text: string) returns (r: Result<Value, Exc>)
    ensures r == Evaluate(text)
  {
    var tokens := Run(text);
    if tokens.Err? {
      return Err(tokens.error);
    }
    var parser := new Parser(tokens.value);
    r := parser.Expr();
  }

  // ---------------------------------------------------------------- lexer properties

  /** A text that is one digit/dot run lexes to the single token parse_number makes of it. */
  lemma LexNumber(w: string)
    requires w != [] && DigitsAndDots(w)
    ensures Tokenize(w) == (match NumberResult(w) case Ok(t) => Ok([t]) case Err(x) => Err(x))
  {
    RunEndAll(w, 0);
    assert w[0..|w|] == w;
    assert Lexeme(w, 0) == w;
    if NumberResult(w).Ok? {
      var t := NumberResult(w).value;
      assert Scanned(w, 0) == Ok([t]) && ScanEnd(w, 0) == |w|;
      assert LexFrom(w, |w|) == Ok([]);
      assert [t] + [] == [t];
    }
  }

  /** A run is FLOAT exactly when it has a dot, INT otherwise, and "Invalid number" at a second dot. */
  lemma NumberKinds(w: string)
    requires DigitsAndDots(w)
    ensures Occurrences(w, '.') > 1 ==> NumberResult(w) == Err(Exc(Exception, "Invalid number"))
    ensures '.' !in w ==> NumberResult(w) == Ok(Token(INT, Int(DigitsValue(w))))
    ensures NumberResult(w).Ok? ==> (NumberResult(w).value.ttype == FLOAT <==> '.' in w)
    ensures NumberResult(w).Ok? ==> NumberResult(w).value.ttype in {INT, FLOAT}
  {
    OccurrencesNone(w, '.');
  }

  /** The end of a run of letters and underscores that fills the rest of the text. */
  lemma {:induction false} LogicalEndAll(s: string, i: nat)
    requires i <= |s| && forall k :: i <= k < |s| ==> WordChar(s[k])
    ensures LogicalEnd(s, i) == |s|
    decreases |s| - i
  {
    if i < |s| {
      LogicalEndAll(s, i + 1);
    }
  }

  /** The round of `lex` at a letter reads the word that starts there. */
  lemma AlphaRound(s: string, i: nat)
    requires i < |s| && IsAlpha(s[i])
    ensures ScanEnd(s, i) == LogicalEnd(s, i)
    ensures LogicalToken(s[i..LogicalEnd(s, i)]).Ok? ==> Scanned(s, i) == Ok([LogicalToken(s[i..LogicalEnd(s, i)]).value])
  {
    assert !PySpace(s[i]) && !IsDigit(s[i]) && s[i] != '.' && CharTokenType(s[i]).None?;
  }

  /** A text that is one word lexes to the single token parse_logical makes of it. */
  lemma LexWord(w: string)
    requires w != [] && IsAlpha(w[0]) && forall k :: 0 <= k < |w| ==> WordChar(w[k])
    ensures Tokenize(w) == (match LogicalToken(w) case Ok(t) => Ok([t]) case Err(x) => Err(x))
  {
    LogicalEndAll(w, 0);
    assert w[0..|w|] == w;
    AlphaRound(w, 0);
    if LogicalToken(w).Ok? {
      var t := LogicalToken(w).value;
      assert LexFrom(w, |w|) == Ok([]);
      assert [t] + [] == [t];
    }
  }

  /** The word table ignores case: a word and its lower-case form are the same token. */
  lemma LogicalIgnoresCase(w: string)
    ensures LogicalToken(w).Ok? <==> LowerString(w) in {"true", "false", "and", "or", "not"}
    ensures LogicalToken(w).Ok? ==> LogicalToken(w) == LogicalToken(LowerString(w))
    ensures LogicalToken(w).Err? ==> LogicalToken(w).error == Exc(Exception, "Invalid logical operator: " + w)
  {
    LowerIdempotent(w);
  }

  /** "TRUE" is the boolean True: the word table ignores case. */
  lemma UpperCaseTrue()
    ensures Tokenize("TRUE") == Ok([Token(BOOL, Bool(true))])
  {
    assert LowerString("TRUE") == "true";
    LexWord("TRUE");
  }

  /** "x" is a word but not a logical word, so lexing it raises. */
  lemma UnknownWord()
    ensures Tokenize("x") == Err(Exc(Exception, "Invalid logical operator: x"))
  {
    assert LowerString("x") == "x";
    LexWord("x");
    assert "Invalid logical operator: " + "x" == "Invalid logical operator: x";
  }

  /** POWER is never produced: no single character equals "**". */
  lemma {:induction false} NoPowerToken(s: string, i: nat)
    ensures LexFrom(s, i).Ok? ==> NoPower(LexFrom(s, i).value)
    decreases |s| - i
  {
    if i < |s| && Scanned(s, i).Ok? {
      NoPowerToken(s, ScanEnd(s, i));
      NoPowerPrefix(Scanned(s, i).value, LexFrom(s, ScanEnd(s, i)));
    }
  }

  lemma NoPowerPrefix(ts: seq<Token>, r: Result<seq<Token>, Exc>)
    requires NoPower(ts) && (r.Ok? ==> NoPower(r.value))
    ensures Prefix(ts, r).Ok? ==> NoPower(Prefix(ts, r).value)
  {
    if r.Ok? {
      var all := ts + r.value;
      assert forall k :: |ts| <= k < |all| ==> all[k] == r.value[k - |ts|];
    }
  }

  /** "**" is two MULTIPLY tokens. */
  lemma DoubleStar()
    ensures Tokenize("**") == Ok([Token(MULTIPLY, Str("*")), Token(MULTIPLY, Str("*"))])
  {
    var t := Token(MULTIPLY, Str("*"));
    assert "**"[0] == '*' && "**"[1] == '*';
    assert LexFrom("**", 2) == Ok([]);
    assert [t] + [] == [t];
    assert LexFrom("**", 1) == Ok([t]);
    assert [t] + [t] == [t, t];
  }

  // ---------------------------------------------------------------- parser properties

  function IntToken(n: int): Token { Token(INT, Int(n)) }

  function OpToken(ttype: TokenType, c: char): Token { Token(ttype, Str([c])) }

  function BoolToken(b: bool): Token { Token(BOOL, Bool(b)) }

  const AndToken := Token(AND, Str("and"))

  const OrToken := Token(OR, Str("or"))

  const NotToken := Token(NOT, Str("not"))

  /** `power`'s loop ends at a token that is not POWER, or at the end of the tokens. */
  lemma PowerTailStops(acc: Value, rest: seq<Token>)
    requires rest == [] || rest[0].ttype != POWER
    ensures PowerTail(acc, Pop(rest)) == Ok((acc, Pop(rest)))
  {
    if rest != [] {
      PopCons(rest[0], rest[1..]);
      assert rest == [rest[0]] + rest[1..];
    }
  }

  /** A literal is a whole `power` when no POWER follows it. */
  lemma PowerLiteral(t: Token, rest: seq<Token>)
    requires t.ttype in {INT, FLOAT, BOOL}
    requires rest == [] || rest[0].ttype != POWER
    ensures PowerSpec(Stream(Some(t), rest)) == Ok((t.value, Pop(rest)))
  {
    assert FactorSpec(Stream(Some(t), rest)) == Ok((t.value, Pop(rest)));
    PowerTailStops(t.value, rest);
  }

  /** `term`'s loop ends at a token that is not `*`, `/` or `%`, or at the end of the tokens. */
  lemma TermTailStops(acc: Value, rest: seq<Token>)
    requires rest == [] || rest[0].ttype !in {MULTIPLY, DIVIDE, MODULO}
    ensures TermTail(acc, Pop(rest)) == Ok((acc, Pop(rest)))
  {
    if rest != [] {
      PopCons(rest[0], rest[1..]);
      assert rest == [rest[0]] + rest[1..];
    }
  }

  /** `expr`'s loop ends at a token that is not `+` or `-`, or at the end of the tokens. */
  lemma ExprTailStops(acc: Value, rest: seq<Token>)
    requires rest == [] || rest[0].ttype !in {PLUS, MINUS}
    ensures ExprTail(acc, Pop(rest)) == Ok((acc, Pop(rest)))
  {
    if rest != [] {
      PopCons(rest[0], rest[1..]);
      assert rest == [rest[0]] + rest[1..];
    }
  }

  /** A literal is a whole term when what follows continues neither `power` nor `term`. */
  lemma TermLiteral(t: Token, rest: seq<Token>)
    requires t.ttype in {INT, FLOAT, BOOL}
    requires rest == [] || rest[0].ttype !in {POWER, MULTIPLY, DIVIDE, MODULO}
    ensures TermSpec(Stream(Some(t), rest)) == Ok((t.value, Pop(rest)))
  {
    PowerLiteral(t, rest);
    TermTailStops(t.value, rest);
  }

  /** A literal is a whole expression when what follows is no arithmetic operator. */
  lemma ExprLiteral(t: Token, rest: seq<Token>)
    requires t.ttype in {INT, FLOAT, BOOL}
    requires rest == [] || rest[0].ttype !in {POWER, MULTIPLY, DIVIDE, MODULO, PLUS, MINUS}
    ensures ExprSpec(Stream(Some(t), rest)) == Ok((t.value, Pop(rest)))
  {
    TermLiteral(t, rest);
    ExprTailStops(t.value, rest);
  }

  /** An unexpected token is a factor of value None, and nothing is consumed. */
  lemma FactorUnexpected(st: PState)
    requires st.current.Some? && st.current.value.ttype !in {INT, FLOAT, BOOL, LPAREN, NOT}
    ensures FactorSpec(st) == Ok((NoneV, st))
  {
  }

  /** One `*`, `/` or `%` round of `term`'s loop with a number as the right operand. */
  lemma TermTailStep(acc: Value, op: TokenType, c: char, n: int, rest: seq<Token>)
    requires op in {MULTIPLY, DIVIDE, MODULO}
    requires rest == [] || rest[0].ttype != POWER
    ensures TermTail(acc, Stream(Some(OpToken(op, c)), [IntToken(n)] + rest))
            == (match MulDivMod(op, acc, Int(n)) case Err(x) => Err(x) case Ok(acc2) => TermTail(acc2, Pop(rest)))
  {
    PopCons(IntToken(n), [] + rest);
    assert [IntToken(n)] + rest == [IntToken(n)] + ([] + rest);
    PowerLiteral(IntToken(n), rest);
  }

  /** One round of `expr`'s loop at a `+` or `-` token, whatever term follows. */
  lemma ExprTailRound(acc: Value, op: TokenType, c: char, rest: seq<Token>, v: Value, q: PState)
    requires op in {PLUS, MINUS}
    requires TermSpec(Pop(rest)) == Ok((v, q))
    requires AddSub(op, acc, v).Ok?
    ensures ExprTail(acc, Stream(Some(OpToken(op, c)), rest)) == ExprTail(AddSub(op, acc, v).value, q)
  {
  }

  /** The term `b * c`, followed by a token that continues neither `power` nor `term`. */
  lemma ProductTerm(b: int, c: int, rest: seq<Token>)
    requires rest == [] || rest[0].ttype !in {POWER, MULTIPLY, DIVIDE, MODULO}
    ensures TermSpec(Pop([IntToken(b)] + ([OpToken(MULTIPLY, '*')] + ([IntToken(c)] + rest)))) == Ok((Int(b * c), Pop(rest)))
  {
    var times := OpToken(MULTIPLY, '*');
    PopCons(IntToken(b), [times] + ([IntToken(c)] + rest));
    PowerLiteral(IntToken(b), [times] + ([IntToken(c)] + rest));
    PopCons(times, [IntToken(c)] + rest);
    TermTailStep(Int(b), MULTIPLY, '*', c, rest);
    TermTailStops(Int(b * c), rest);
  }

  /** An expression of a literal, a `+` or `-`, and one more term that the end of the expression follows. */
  lemma ExprLiteralLast(a: Token, op: TokenType, c: char, rest: seq<Token>, v: Value, after: seq<Token>)
    requires a.ttype in {INT, FLOAT, BOOL} && op in {PLUS, MINUS}
    requires TermSpec(Pop(rest)) == Ok((v, Pop(after)))
    requires AddSub(op, a.value, v).Ok?
    requires after == [] || after[0].ttype !in {PLUS, MINUS}
    ensures ExprSpec(Stream(Some(a), [OpToken(op, c)] + rest)) == Ok((AddSub(op, a.value, v).value, Pop(after)))
  {
    TermLiteral(a, [OpToken(op, c)] + rest);
    PopCons(OpToken(op, c), rest);
    ExprTailRound(a.value, op, c, rest, v, Pop(after));
    ExprTailStops(AddSub(op, a.value, v).value, after);
  }

  /** `a + b * c` is a + (b * c). */
  lemma ProductInsideSum(a: int, b: int, c: int, rest: seq<Token>)
    requires rest == [] || rest[0].ttype !in {POWER, MULTIPLY, DIVIDE, MODULO, PLUS, MINUS}
    ensures ExprSpec(Stream(Some(IntToken(a)), [OpToken(PLUS, '+'), IntToken(b), OpToken(MULTIPLY, '*'), IntToken(c)] + rest))
            == Ok((Int(a + b * c), Pop(rest)))
  {
    var plus, times := OpToken(PLUS, '+'), OpToken(MULTIPLY, '*');
    Cons4(plus, IntToken(b), times, IntToken(c), rest);
    ProductTerm(b, c, rest);
    ExprLiteralLast(IntToken(a), PLUS, '+', [IntToken(b)] + ([times] + ([IntToken(c)] + rest)), Int(b * c), rest);
  }

  /** `%` is Python's floor modulo, and a zero right operand raises "Modulo by zero". */
  lemma Modulo(a: int, b: int)
    ensures b != 0 ==> ValueOf(ExprSpec(Init([IntToken(a), OpToken(MODULO, '%'), IntToken(b)]))) == Ok(Int(FloorMod(a, b)))
    ensures b == 0 ==> ValueOf(ExprSpec(Init([IntToken(a), OpToken(MODULO, '%'), IntToken(b)])))
                       == Err(Exc(Exception, "Modulo by zero"))
  {
    var m := OpToken(MODULO, '%');
    PopCons(IntToken(a), [m, IntToken(b)]);
    PowerLiteral(IntToken(a), [m, IntToken(b)]);
    PopCons(m, [IntToken(b)]);
    assert [IntToken(b)] + [] == [IntToken(b)];
    TermTailStep(Int(a), MODULO, '%', b, []);
    if b != 0 {
      ArithModulo(Int(a), Int(b));
      assert MulDivMod(MODULO, Int(a), Int(b)) == Ok(Int(FloorMod(a, b)));
      TermTailStops(Int(FloorMod(a, b)), []);
      ExprTailStops(Int(FloorMod(a, b)), []);
    }
  }

  /** "2 ** 3" lexes to `2 * * 3`; the second `*` is an unexpected factor, so `2 * None` raises TypeError. */
  lemma DoubleStarEvaluates()
    ensures var r := ValueOf(ExprSpec(Init([IntToken(2), OpToken(MULTIPLY, '*'), OpToken(MULTIPLY, '*'), IntToken(3)])));
            r.Err? && r.error.kind == TypeError
  {
    var times := OpToken(MULTIPLY, '*');
    PopCons(IntToken(2), [times, times, IntToken(3)]);
    PopCons(times, [times, IntToken(3)]);
    PopCons(times, [IntToken(3)]);
    assert PowerSpec(Pop([IntToken(2), times, times, IntToken(3)])) == Ok((Int(2), Pop([times, times, IntToken(3)])));
    assert PowerSpec(Pop([times, IntToken(3)])) == Ok((NoneV, Pop([times, IntToken(3)])));
    ArithNone(Mul, Int(2), NoneV);
  }

  /** The term `not 0`, which is True, followed by a token that continues neither `power` nor `term`. */
  lemma NotZeroTerm(rest: seq<Token>)
    requires rest == [] || rest[0].ttype !in {POWER, MULTIPLY, DIVIDE, MODULO}
    ensures TermSpec(Stream(Some(NotToken), [IntToken(0)] + rest)) == Ok((Bool(true), Pop(rest)))
  {
    PopCons(IntToken(0), rest);
    assert FactorSpec(Stream(Some(IntToken(0)), rest)) == Ok((Int(0), Pop(rest)));
    assert FactorSpec(Stream(Some(NotToken), [IntToken(0)] + rest)) == Ok((Bool(true), Pop(rest)));
    PowerTailStops(Bool(true), rest);
    TermTailStops(Bool(true), rest);
  }

  /** The last round `+ n` of `expr`'s loop. */
  lemma SumLast(acc: Value, n: int, rest: seq<Token>)
    requires rest == [] || rest[0].ttype !in {POWER, MULTIPLY, DIVIDE, MODULO, PLUS, MINUS}
    requires AddSub(PLUS, acc, Int(n)).Ok?
    ensures ExprTail(acc, Pop([OpToken(PLUS, '+')] + ([IntToken(n)] + rest))) == Ok((AddSub(PLUS, acc, Int(n)).value, Pop(rest)))
  {
    PopCons(OpToken(PLUS, '+'), [IntToken(n)] + rest);
    PopCons(IntToken(n), rest);
    TermLiteral(IntToken(n), rest);
    ExprTailRound(acc, PLUS, '+', [IntToken(n)] + rest, Int(n), Pop(rest));
    ExprTailStops(AddSub(PLUS, acc, Int(n)).value, rest);
  }

  /** `not` takes one factor: "not 0 + 1" is (not 0) + 1, which is True + 1 = 2. */
  lemma NotBindsToFactor(rest: seq<Token>)
    requires rest == [] || rest[0].ttype !in {POWER, MULTIPLY, DIVIDE, MODULO, PLUS, MINUS}
    ensures ExprSpec(Stream(Some(NotToken), [IntToken(0), OpToken(PLUS, '+'), IntToken(1)] + rest)) == Ok((Int(2), Pop(rest)))
  {
    var plus := OpToken(PLUS, '+');
    Cons3(IntToken(0), plus, IntToken(1), rest);
    NotZeroTerm([plus] + ([IntToken(1)] + rest));
    assert Arith(Add, Bool(true), Int(1)) == Ok(Int(2));
    SumLast(Bool(true), 1, rest);
  }

  /** Parentheses hold an arithmetic `expr` only: in "(true or false)" the `)` is not found at `or`, which stays current. */
  lemma ParenthesesHoldNoLogic()
    ensures FactorSpec(Init([OpToken(LPAREN, '('), BoolToken(true), OrToken, BoolToken(false), OpToken(RPAREN, ')')]))
            == Ok((Bool(true), Stream(Some(OrToken), [BoolToken(false), OpToken(RPAREN, ')')])))
  {
    var rest := [OrToken, BoolToken(false), OpToken(RPAREN, ')')];
    PopCons(OpToken(LPAREN, '('), [BoolToken(true)] + rest);
    PopCons(BoolToken(true), rest);
    ExprLiteral(BoolToken(true), rest);
    PopCons(OrToken, rest[1..]);
  }

  /** A falsy left side skips the `and` operand: only the AND token is consumed, and the loop ends at the operand. */
  lemma AndSkipsOperand(acc: Value, rest: seq<Token>)
    requires !Truthy(acc) && (rest == [] || rest[0].ttype != AND)
    ensures AndTail(acc, Stream(Some(AndToken), rest)) == Ok((acc, Pop(rest)))
  {
    if rest != [] {
      PopCons(rest[0], rest[1..]);
      assert rest == [rest[0]] + rest[1..];
    }
  }

  /** A truthy left side skips the `or` operand: only the OR token is consumed, and the loop ends at the operand. */
  lemma OrSkipsOperand(acc: Value, rest: seq<Token>)
    requires Truthy(acc) && (rest == [] || rest[0].ttype != OR)
    ensures OrTail(acc, Stream(Some(OrToken), rest)) == Ok((acc, Pop(rest)))
  {
    if rest != [] {
      PopCons(rest[0], rest[1..]);
      assert rest == [rest[0]] + rest[1..];
    }
  }

  /** "false and true or true" is False: the skipped operand `true` ends both loops, and "or true" stays unread. */
  lemma ShortCircuitLeavesTokens()
    ensures OrSpec(Init([BoolToken(false), AndToken, BoolToken(true), OrToken, BoolToken(true)]))
            == Ok((Bool(false), Stream(Some(BoolToken(true)), [OrToken, BoolToken(true)])))
  {
    var rest := [BoolToken(true), OrToken, BoolToken(true)];
    assert [BoolToken(false), AndToken, BoolToken(true), OrToken, BoolToken(true)] == [BoolToken(false)] + ([AndToken] + rest);
    PopCons(BoolToken(false), [AndToken] + rest);
    ExprLiteral(BoolToken(false), [AndToken] + rest);
    PopCons(AndToken, rest);
    AndSkipsOperand(Bool(false), rest);
    PopCons(BoolToken(true), [OrToken, BoolToken(true)]);
    assert AndSpec(Init([BoolToken(false)] + ([AndToken] + rest))) == Ok((Bool(false), Pop(rest)));
  }
}
