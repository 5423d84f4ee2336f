/**
 * Six.py: a cursor lexer that raises on an invalid character and names its brackets, and a
 * parser that pops tokens from the front of a list. It evaluates `return` expressions and
 * recognises function declarations with their parameter lists and braced bodies. Its `eat`
 * only prints on a mismatch, its `term` loops on token types the lexer never produces, and
 * its `statement` falls back to a `variable_declaration` method the class does not have.
 */
module Six {
  import opened Common
  import opened Chars
  import opened PyValues
  import SixGui

  /**
   * The token types. `+ - * /` are typed by the character itself (`Char(c)`); PLUS, MINUS,
   * MULTIPLY and DIVIDE are the names `term` asks for, which the lexer never produces.
   */
  datatype TokenType =
    | NUMBER | IDENTIFIER | TYPE | RETURN | IF | ELSE | WHILE | FOR
    | ASSIGNMENT | SEMICOLON | COMMA | Char(c: char)
    | LEFT_PAREN | RIGHT_PAREN | LEFT_BRACE | RIGHT_BRACE
    | PLUS | MINUS | MULTIPLY | DIVIDE

  datatype Token = Token(ttype: TokenType, value: Value)

  // ---------------------------------------------------------------- lexer specification

  /** The token for a digit/dot run that starts with a digit: `float(result)` when it has a dot, else `int(result)`. */
  function NumberToken(lexeme: string): Result<Token, Exc>
    requires DigitsAndDots(lexeme)
  {
    if '.' in lexeme then
      match PyFloat(lexeme)
      case Ok(v) => Ok(Token(NUMBER, v))
      case Err(x) => Err(x)
    else
      Ok(Token(NUMBER, PyInt(lexeme)))
  }

  /** `parse_keyword`'s table: the type names, the control words, and IDENTIFIER for every other word. */
  function KeywordType(word: string): TokenType
  {
    if word in {"int", "float", "double", "char", "void"} then TYPE
    else if word == "return" then RETURN
    else if word == "if" then IF
    else if word == "else" then ELSE
    else if word == "while" then WHILE
    else if word == "for" then FOR
    else IDENTIFIER
  }

  /** The type of the one-character tokens, or `None` for a character that starts no token. */
  function CharTokenType(c: char): Option<TokenType>
  {
    if c in "+-*/" then Some(Char(c))
    else if c == '=' then Some(ASSIGNMENT)
    else if c == ';' then Some(SEMICOLON)
    else if c == '{' then Some(LEFT_BRACE)
    else if c == '}' then Some(RIGHT_BRACE)
    else if c == '(' then Some(LEFT_PAREN)
    else if c == ')' then Some(RIGHT_PAREN)
    else if c == ',' then Some(COMMA)
    else None
  }

  /** A one-character token carries the character as its value. */
  function CharToken(c: char): Option<Token>
  {
    match CharTokenType(c)
    case None => None
    case Some(t) => Some(Token(t, Str([c])))
  }

  /** Where the lexeme at `i` ends: after its digit/dot run, after its word, or after the one character. */
  function ScanEnd(s: string, i: nat): (e: nat)
    requires i < |s|
    ensures i < e <= |s|
  {
    if IsDigit(s[i]) then RunEnd(s, i)
    else if IsAlpha(s[i]) then WordEnd(s, i)
    else i + 1
  }

  /** The token types `term` loops on. */
  const NamedOperators: set<TokenType> := {PLUS, MINUS, MULTIPLY, DIVIDE}

  /**
   * One round of `lex`'s loop at `i`: nothing for whitespace, one token, or the exception raised
   * by `float()` or by an invalid character. A round never produces the named operators.
   */
  function Scanned(s: string, i: nat): (r: Result<seq<Token>, Exc>)
    requires i < |s|
    ensures r.Ok? ==> |r.value| <= 1 && forall t :: t in r.value ==> t.ttype !in NamedOperators
  {
    if PySpace(s[i]) then Ok([])
    else if IsDigit(s[i]) then
      match NumberToken(Lexeme(s, i))
      case Err(x) => Err(x)
      case Ok(t) => Ok([t])
    else if IsAlpha(s[i]) then
      var e := WordEnd(s, i);
      Ok([Token(KeywordType(s[i..e]), Str(s[i..e]))])
    else if CharToken(s[i]).Some? then Ok([CharToken(s[i]).value])
    else Err(Exc(Exception, SixGui.InvalidCharacter(s[i])))
  }

  /** What `lex` returns when started with the cursor at `i`: the tokens, with no end marker, or the exception. */
  function LexFrom(s: string, i: nat): Result<seq<Token>, Exc>
    decreases |s| - i
  {
    if i >= |s| then Ok([])
    else
      match Scanned(s, i)
      case Err(x) => Err(x)
      case Ok(ts) => Prefix(ts, LexFrom(s, ScanEnd(s, i)))
  }

  /** `Lexer(text).lex()`: the constructor reads `text[0]`, so empty text raises IndexError. */
  function Tokenize(text: string): Result<seq<Token>, Exc>
  {
    if text == [] then Err(EmptyInput) else LexFrom(text, 0)
  }

  // ---------------------------------------------------------------- lexer

  class Lexer {
    const input: string
    var position: nat
    var current: Option<char>

    ghost predicate Valid()
      reads this
    {
      current == CharAt(input, position)
    }

    constructor (text: string)
      requires text != []
      ensures Valid() && input == text && position == 0
    {
      input := text;
      position := 0;
      current := Some(text[0]);
    }

    method Advance()
      requires Valid()
      modifies this
      ensures Valid() && position == old(position) + 1
    {
      position := position + 1;
      current := if position < |input| then Some(input[position]) else None;
    }

    method Lex() returns (r: Result<seq<Token>, Exc>)
      requires Valid()
      modifies this
      ensures r == LexFrom(input, old(position))
    {
      ghost var whole := LexFrom(input, position);
      var tokens: seq<Token> := [];
      PrefixNil(whole);
      while current.Some?
        invariant Valid()
        invariant whole == Prefix(tokens, LexFrom(input, position))
        decreases |input| - position
      {
        var step := LexStep(whole, tokens);
        if step.Err? {
          return step;
        }
        tokens := step.value;
      }
      assert tokens + [] == tokens;
      return Ok(tokens);
    }

    /**
     * One round of `lex`'s loop: skips whitespace, appends a token, or raises. `whole`, what the
     * entire scan returns, is the tokens so far before what `lex` returns from here.
     */
    method LexStep(ghost whole: Result<seq<Token>, Exc>, tokens: seq<Token>) returns (r: Result<seq<Token>, Exc>)
      requires Valid() && current.Some?
      requires whole == Prefix(tokens, LexFrom(input, position))
      modifies this
      ensures Valid() && (r.Ok? ==> position > old(position))
      ensures r.Err? ==> whole == Err(r.error)
      ensures r.Ok? ==> whole == Prefix(r.value, LexFrom(input, position))
    {
      var c := current.value;
      ghost var i := position;
      var found: seq<Token>;
      if PySpace(c) {
        Advance();
        found := [];
      } else if IsDigit(c) {
        var t := ParseNumber();
        if t.Err? {
          return Err(t.error);
        }
        found := [t.value];
      } else if IsAlpha(c) {
        var t := ParseKeyword();
        found := [t];
      } else if CharToken(c).Some? {
        found := [CharToken(c).value];
        Advance();
      } else {
        assert Scanned(input, i) == Err(Exc(Exception, SixGui.InvalidCharacter(c)));
        return Err(Exc(Exception, SixGui.InvalidCharacter(c)));
      }
      assert Scanned(input, i) == Ok(found) && ScanEnd(input, i) == position;
      PrefixPrefix(tokens, found, LexFrom(input, position));
      return Ok(tokens + found);
    }

    method ParseNumber() returns (r: Result<Token, Exc>)
      requires Valid() && current.Some? && IsDigit(current.value)
      modifies this
      ensures Valid() && position == RunEnd(input, old(position))
      ensures r == NumberToken(Lexeme(input, old(position)))
    {
      ghost var start := position;
      var result := "";
      while current.Some? && (IsDigit(current.value) || current.value == '.')
        invariant Valid()
        invariant start <= position <= RunEnd(input, start)
        invariant result == input[start..position]
        decreases |input| - position
      {
        ExtendRun(input, start, position);
        result := result + [current.value];
        Advance();
      }
      RunStops(input, start, position);
      r := NumberToken(result);
    }

    method ParseKeyword() returns (t: Token)
      requires Valid() && current.Some? && IsAlpha(current.value)
      modifies this
      ensures Valid() && old(position) < position == WordEnd(input, old(position))
      ensures t == Token(KeywordType(input[old(position)..position]), Str(input[old(position)..position]))
    {
      ghost var start := position;
      var result := "";
      while current.Some? && (IsAlnum(current.value) || current.value == '_')
        invariant Valid()
        invariant start <= position <= WordEnd(input, start)
        invariant result == input[start..position]
        decreases |input| - position
      {
        result := result + [current.value];
        Advance();
      }
      t := Token(KeywordType(result), Str(result));
    }
  }

  /** `Lexer(text).lex()` as `main` calls it. */
  method Run(text: string) returns (r: Result<seq<Token>, Exc>)
    ensures r == Tokenize(text)
  {
    if text == [] {
      return Err(EmptyInput);
    }
    var lexer := new Lexer(text);
    r := lexer.Lex();
  }

  // ---------------------------------------------------------------- parser specification

  /** The token queue. */
  type PState = Stream<Token>

  predicate At(q: PState, types: set<TokenType>)
  {
    q.current.Some? && q.current.value.ttype in types
  }

  /** How a parse step can fail to return: it raises, or it repeats forever without consuming a token. */
  datatype Halt = Raised(exc: Exc) | Spins

  /** The outcome of a parse step and the queue afterwards (an exception does not undo the tokens already popped). */
  datatype Step<T> = Step(out: Result<T, Halt>, q: PState)

  function Raise<T>(x: Exc, q: PState): Step<T>
  {
    Step(Err(Raised(x)), q)
  }

  /** `self.variable_declaration()`, which the class does not define. */
  const NoVariableDeclaration := Exc(AttributeError, "'Parser' object has no attribute 'variable_declaration'")

  /**
   * `eat`: a match pops the next token and a mismatch only prints "Invalid syntax"; with no
   * current token it raises AttributeError.
   */
  function EatSpec(q: PState, ttype: TokenType): (r: Step<()>)
    ensures r.out.Ok? <==> q.current.Some?
    ensures r.out.Ok? ==> (Size(r.q) < Size(q) <==> At(q, {ttype}))
    ensures Size(r.q) <= Size(q) && (Size(r.q) == Size(q) ==> r.q == q)
  {
    if q.current.None? then Raise(NoneTokenType, q)
    else if q.current.value.ttype == ttype then Step(Ok(()), Pop(q.rest))
    else Step(Ok(()), q)
  }

  /**
   * `factor`: a NUMBER's value, an IDENTIFIER's name, or `( expr )`; any other token makes
   * `error()` print and `factor` return None without consuming.
   */
  function FactorSpec(q: PState): (r: Step<Value>)
    ensures Size(r.q) <= Size(q) && (Size(r.q) == Size(q) ==> r.q == q)
    decreases Size(q), 0
  {
    if q.current.None? then Raise(NoneTokenType, q)
    else
      var t := q.current.value;
      if t.ttype == NUMBER || t.ttype == IDENTIFIER then Step(Ok(t.value), Pop(q.rest))
      else if t.ttype == LEFT_PAREN then
        var e := ExprSpec(Pop(q.rest));
        if e.out.Err? then e
        else
          var c := EatSpec(e.q, RIGHT_PAREN);
          if c.out.Err? then Step(Err(c.out.error), c.q) else Step(e.out, c.q)
      else Step(Ok(NoneV), q)
  }

  /** One round of `term`'s loop: `*=`, `/=` unless the divisor equals 0, `+=` or `-=`. */
  function TermOp(op: TokenType, acc: Value, rhs: Value): (r: Result<Value, Exc>)
    requires op in NamedOperators
    ensures op == DIVIDE && EqualsZero(rhs) ==> r == Err(Exc(Exception, "Division by zero"))
    ensures op == DIVIDE && !EqualsZero(rhs) ==> r == Arith(Div, acc, rhs)
  {
    match op
    case MULTIPLY => Arith(Mul, acc, rhs)
    case DIVIDE => if EqualsZero(rhs) then Err(Exc(Exception, "Division by zero")) else Arith(Div, acc, rhs)
    case PLUS => Arith(Add, acc, rhs)
    case MINUS => Arith(Sub, acc, rhs)
  }

  /** `term`'s loop, entered with `acc` as `result`. */
  function TermTail(acc: Value, q: PState): (r: Step<Value>)
    ensures Size(r.q) <= Size(q) && (Size(r.q) == Size(q) ==> r.q == q && r.out == Ok(acc))
    decreases Size(q), 1
  {
    if !At(q, NamedOperators) then Step(Ok(acc), q)
    else
      var op := q.current.value.ttype;
      var f := FactorSpec(Pop(q.rest));
      if f.out.Err? then f
      else
        match TermOp(op, acc, f.out.value)
        case Err(x) => Raise(x, f.q)
        case Ok(acc2) => TermTail(acc2, f.q)
  }

  function TermSpec(q: PState): (r: Step<Value>)
    ensures Size(r.q) <= Size(q) && (Size(r.q) == Size(q) ==> r.q == q)
    decreases Size(q), 2
  {
    var f := FactorSpec(q);
    if f.out.Err? then f else TermTail(f.out.value, f.q)
  }

  /** `expr`'s loop, entered with `acc` as `result`: `+=` or `-=` with the next term. */
  function ExprTail(acc: Value, q: PState): (r: Step<Value>)
    ensures Size(r.q) <= Size(q) && (Size(r.q) == Size(q) ==> r.q == q && r.out == Ok(acc))
    decreases Size(q), 3
  {
    if !At(q, {Char('+'), Char('-')}) then Step(Ok(acc), q)
    else
      var op := if q.current.value.ttype == Char('+') then Add else Sub;
      var t := TermSpec(Pop(q.rest));
      if t.out.Err? then t
      else
        match Arith(op, acc, t.out.value)
        case Err(x) => Raise(x, t.q)
        case Ok(acc2) => ExprTail(acc2, t.q)
  }

  function ExprSpec(q: PState): (r: Step<Value>)
    ensures Size(r.q) <= Size(q) && (Size(r.q) == Size(q) ==> r.q == q)
    decreases Size(q), 4
  {
    var t := TermSpec(q);
    if t.out.Err? then t else ExprTail(t.out.value, t.q)
  }

  /** `eat(TYPE)` then `eat(IDENTIFIER)`, the pair `parameter` reads for each parameter. */
  function TypedNameSpec(q: PState): (r: Step<()>)
    ensures Size(r.q) <= Size(q)
  {
    var e := EatSpec(q, TYPE);
    if e.out.Err? then e else EatSpec(e.q, IDENTIFIER)
  }

  /** `parameter`'s loop: each COMMA is followed by a type and a name. */
  function CommaParams(q: PState): (r: Step<()>)
    ensures Size(r.q) <= Size(q)
    ensures r.out.Ok? ==> !At(r.q, {COMMA})
    decreases Size(q)
  {
    if !At(q, {COMMA}) then Step(Ok(()), q)
    else
      var p := TypedNameSpec(Pop(q.rest));
      if p.out.Err? then p else CommaParams(p.q)
  }

  /** `parameter`: a type and a name, then further `, TYPE IDENTIFIER` groups. */
  function ParameterSpec(q: PState): (r: Step<()>)
    ensures Size(r.q) <= Size(q)
    ensures r.out.Ok? ==> !At(r.q, {COMMA})
  {
    var p := TypedNameSpec(q);
    if p.out.Err? then p else CommaParams(p.q)
  }

  /**
   * The parameter loop of `function_declaration`, up to RIGHT_PAREN or the end of the tokens. A
   * round that consumes nothing (a token that is neither TYPE, IDENTIFIER nor COMMA) repeats
   * forever. The loop's own COMMA check after `parameter()` is left out: `parameter` returns only
   * at a token that is not a COMMA.
   */
  function ParamsSpec(q: PState): (r: Step<()>)
    ensures Size(r.q) <= Size(q)
    ensures r.out.Ok? ==> r.q.current.None? || r.q.current.value.ttype == RIGHT_PAREN
    decreases Size(q)
  {
    if q.current.None? || q.current.value.ttype == RIGHT_PAREN then Step(Ok(()), q)
    else
      var p := ParameterSpec(q);
      if p.out.Err? then p
      else if Size(p.q) == Size(q) then Step(Err(Spins), p.q)
      else ParamsSpec(p.q)
  }

  /**
   * `function_declaration`: `TYPE IDENT ( params )` then a braced statement list or a SEMICOLON.
   * The name is read with `.value`, which raises when the tokens run out after the TYPE.
   */
  function FunctionDeclarationSpec(q: PState): (r: Step<()>)
    requires At(q, {TYPE})
    ensures Size(r.q) < Size(q)
    decreases Size(q), 0
  {
    var q1 := Pop(q.rest);
    if q1.current.None? then Raise(SixGui.NoneValue, q1)
    else
      var e1 := EatSpec(q1, IDENTIFIER);
      var e2 := EatSpec(e1.q, LEFT_PAREN);
      if e2.out.Err? then e2
      else
        var p := ParamsSpec(e2.q);
        if p.out.Err? then p else DeclarationRestSpec(p.q)
  }

  /** The rest of `function_declaration` after its parameter loop: `)`, then a braced statement list or a SEMICOLON. */
  function DeclarationRestSpec(q: PState): (r: Step<()>)
    ensures Size(r.q) <= Size(q)
    decreases Size(q), 0
  {
    var e := EatSpec(q, RIGHT_PAREN);
    if e.out.Err? then e
    else if At(e.q, {LEFT_BRACE}) then
      var b := StatementsSpec(Pop(e.q.rest));
      if b.out.Err? then b else EatSpec(b.q, RIGHT_BRACE)
    else EatSpec(e.q, SEMICOLON)
  }

  /**
   * `statement`: `RETURN expr ;` gives the expression's value, a TYPE starts a function
   * declaration, and anything else calls the missing `variable_declaration`.
   */
  function StatementSpec(q: PState): (r: Step<Option<Value>>)
    ensures Size(r.q) <= Size(q)
    ensures r.out.Ok? ==> Size(r.q) < Size(q)
    decreases Size(q), 1
  {
    if q.current.None? then Raise(NoneTokenType, q)
    else if q.current.value.ttype == RETURN then
      var x := ExprSpec(Pop(q.rest));
      if x.out.Err? then Step(Err(x.out.error), x.q)
      else
        var e := EatSpec(x.q, SEMICOLON);
        if e.out.Err? then Step(Err(e.out.error), e.q) else Step(Ok(Some(x.out.value)), e.q)
    else if q.current.value.ttype == TYPE then
      var d := FunctionDeclarationSpec(q);
      if d.out.Err? then Step(Err(d.out.error), d.q) else Step(Ok(None), d.q)
    else Raise(NoVariableDeclaration, q)
  }

  /** The statement loop of `block` and of a function body: statements up to RIGHT_BRACE or the end of the tokens. */
  function StatementsSpec(q: PState): (r: Step<()>)
    ensures Size(r.q) <= Size(q)
    ensures r.out.Ok? ==> r.q.current.None? || r.q.current.value.ttype == RIGHT_BRACE
    decreases Size(q), 2
  {
    if q.current.None? || q.current.value.ttype == RIGHT_BRACE then Step(Ok(()), q)
    else
      var s := StatementSpec(q);
      if s.out.Err? then Step(Err(s.out.error), s.q) else StatementsSpec(s.q)
  }

  /** `block`: `{ statements }`; at any other token it only prints "Invalid syntax". */
  function BlockSpec(q: PState): (r: Step<()>)
    ensures Size(r.q) <= Size(q)
  {
    if q.current.None? then Raise(NoneTokenType, q)
    else if q.current.value.ttype == LEFT_BRACE then
      var b := StatementsSpec(Pop(q.rest));
      if b.out.Err? then b else EatSpec(b.q, RIGHT_BRACE)
    else Step(Ok(()), q)
  }

  /** `main` without its display: lex, then `Parser(tokens.copy()).block()`. */
  function Compile(text: string): Result<(seq<Token>, Step<()>), Exc>
  {
    match Tokenize(text)
    case Err(x) => Err(x)
    case Ok(ts) => Ok((ts, BlockSpec(Pop(ts))))
  }

  // ---------------------------------------------------------------- parser

  class Parser {
    var current: Option<Token>
    var tokens: seq<Token>

    function State(): PState
      reads this
    {
      Stream(current, tokens)
    }

    constructor (ts: seq<Token>)
      ensures State() == Pop(ts)
    {
      if ts == [] {
        current := None;
        tokens := [];
      } else {
        current := Some(ts[0]);
        tokens := ts[1..];
      }
    }

    /** `self.current_token = self.tokens.pop(0) if self.tokens else None`. */
    method Next()
      modifies this
      ensures State() == Pop(old(tokens))
    {
      if tokens == [] {
        current := None;
      } else {
        current := Some(tokens[0]);
        tokens := tokens[1..];
      }
    }

    method Eat(ttype: TokenType) returns (r: Result<(), Halt>)
      modifies this
      ensures Step(r, State()) == EatSpec(old(State()), ttype)
    {
      if current.None? {
        return Err(Raised(NoneTokenType));
      }
      if current.value.ttype == ttype {
        Next();
      }
      return Ok(());
    }

    method Factor() returns (r: Result<Value, Halt>)
      modifies this
      ensures Step(r, State()) == FactorSpec(old(State()))
      decreases Size(State()), 0
    {
      if current.None? {
        return Err(Raised(NoneTokenType));
      }
      var t := current.value;
      if t.ttype == NUMBER || t.ttype == IDENTIFIER {
        Next();
        return Ok(t.value);
      } else if t.ttype == LEFT_PAREN {
        Next();
        var result := Expr();
        if result.Err? {
          return result;
        }
        var c := Eat(RIGHT_PAREN);
        if c.Err? {
          return Err(c.error);
        }
        return result;
      }
      return Ok(NoneV);
    }

    method Term() returns (r: Result<Value, Halt>)
      modifies this
      ensures Step(r, State()) == TermSpec(old(State()))
      decreases Size(State()), 2
    {
      var first := Factor();
      if first.Err? {
        return first;
      }
      var result := first.value;
      while current.Some? && current.value.ttype in NamedOperators
        invariant TermSpec(old(State())) == TermTail(result, State())
        decreases Size(State())
      {
        var op := current.value.ttype;
        Next();
        var operand := Factor();
        if operand.Err? {
          return operand;
        }
        var m := TermOp(op, result, operand.value);
        if m.Err? {
          return Err(Raised(m.error));
        }
        result := m.value;
      }
      return Ok(result);
    }

    method Expr() returns (r: Result<Value, Halt>)
      modifies this
      ensures Step(r, State()) == ExprSpec(old(State()))
      decreases Size(State()), 4
    {
      var first := Term();
      if first.Err? {
        return first;
      }
      var result := first.value;
      while current.Some? && current.value.ttype in {Char('+'), Char('-')}
        invariant ExprSpec(old(State())) == ExprTail(result, State())
        decreases Size(State())
      {
        var op := if current.value.ttype == Char('+') then Add else Sub;
        Next();
        var operand := Term();
        if operand.Err? {
          return operand;
        }
        var a := Arith(op, result, operand.value);
        if a.Err? {
          return Err(Raised(a.error));
        }
        result := a.value;
      }
      return Ok(result);
    }

    method Parameter() returns (r: Result<(), Halt>)
      modifies this
      ensures Step(r, State()) == ParameterSpec(old(State()))
    {
      r := TypedName();
      if r.Err? {
        return;
      }
      while current.Some? && current.value.ttype == COMMA
        invariant r == Ok(())
        invariant ParameterSpec(old(State())) == CommaParams(State())
        decreases Size(State())
      {
        Next();
        r := TypedName();
        if r.Err? {
          return;
        }
      }
    }

    method TypedName() returns (r: Result<(), Halt>)
      modifies this
      ensures Step(r, State()) == TypedNameSpec(old(State()))
    {
      r := Eat(TYPE);
      if r.Err? {
        return;
      }
      r := Eat(IDENTIFIER);
    }

    /**
     * `function_declaration`. The parameter loop repeats forever when a round consumes nothing;
     * the method reports that as `Spins` instead of looping.
     */
    method FunctionDeclaration() returns (r: Result<(), Halt>)
      requires At(State(), {TYPE})
      modifies this
      ensures Step(r, State()) == FunctionDeclarationSpec(old(State()))
      decreases Size(State()), 0
    {
      Next();
      if current.None? {
        return Err(Raised(SixGui.NoneValue));
      }
      var e := Eat(IDENTIFIER);
      r := Eat(LEFT_PAREN);
      if r.Err? {
        return;
      }
      r := Params();
      if r.Err? {
        return;
      }
      r := DeclarationRest();
    }

    /**
     * The parameter loop of `function_declaration`. It repeats forever when a round consumes
     * nothing; the method reports that as `Spins` instead of looping.
     */
    method Params() returns (r: Result<(), Halt>)
      modifies this
      ensures Step(r, State()) == ParamsSpec(old(State()))
    {
      while current.Some? && current.value.ttype != RIGHT_PAREN
        invariant ParamsSpec(old(State())) == ParamsSpec(State())
        decreases Size(State())
      {
        var size := Size(State());
        r := Parameter();
        if r.Err? {
          return;
        }
        if Size(State()) == size {
          return Err(Spins);
        }
      }
      return Ok(());
    }

    /** The rest of `function_declaration`: `)`, then a braced body of statements or a SEMICOLON. */
    method DeclarationRest() returns (r: Result<(), Halt>)
      modifies this
      ensures Step(r, State()) == DeclarationRestSpec(old(State()))
      decreases Size(State()), 0
    {
      r := Eat(RIGHT_PAREN);
      if r.Err? {
        return;
      }
      if current.Some? && current.value.ttype == LEFT_BRACE {
        Next();
        ghost var body := State();
        while current.Some? && current.value.ttype != RIGHT_BRACE
          invariant StatementsSpec(body) == StatementsSpec(State())
          invariant Size(State()) < Size(old(State()))
          decreases Size(State())
        {
          var s := Statement();
          if s.Err? {
            return Err(s.error);
          }
        }
        r := Eat(RIGHT_BRACE);
      } else {
        r := Eat(SEMICOLON);
      }
    }

    method Statement() returns (r: Result<Option<Value>, Halt>)
      modifies this
      ensures Step(r, State()) == StatementSpec(old(State()))
      decreases Size(State()), 1
    {
      if current.None? {
        return Err(Raised(NoneTokenType));
      }
      if current.value.ttype == RETURN {
        Next();
        var result := Expr();
        if result.Err? {
          return Err(result.error);
        }
        var e := Eat(SEMICOLON);
        if e.Err? {
          return Err(e.error);
        }
        return Ok(Some(result.value));
      } else if current.value.ttype == TYPE {
        var d := FunctionDeclaration();
        if d.Err? {
          return Err(d.error);
        }
        return Ok(None);
      }
      return Err(Raised(NoVariableDeclaration));
    }

    method Block() returns (r: Result<(), Halt>)
      modifies this
      ensures Step(r, State()) == BlockSpec(old(State()))
    {
      if current.None? {
        return Err(Raised(NoneTokenType));
      }
      if current.value.ttype == LEFT_BRACE {
        Next();
        ghost var body := State();
        while current.Some? && current.value.ttype != RIGHT_BRACE
          invariant StatementsSpec(body) == StatementsSpec(State())
          decreases Size(State())
        {
          var s := Statement();
          if s.Err? {
            return Err(s.error);
          }
        }
        r := Eat(RIGHT_BRACE);
      } else {
        r := Ok(());
      }
    }
  }

  /** `main` without its display: the tokens, then what `Parser(tokens.copy()).block()` does and the tokens it leaves. */
  method CompileProgram(text: string) returns (r: Result<(seq<Token>, Step<()>), Exc>)
    ensures r == Compile(text)
  {
    var lexed := Run(text);
    if lexed.Err? {
      return Err(lexed.error);
    }
    var parser := new Parser(lexed.value);
    var out := parser.Block();
    return Ok((lexed.value, Step(out, parser.State())));
  }

  // ---------------------------------------------------------------- lexer properties

  /** The tokens carry none of the types `term` loops on. */
  predicate Clean(ts: seq<Token>)
  {
    forall k :: 0 <= k < |ts| ==> ts[k].ttype !in NamedOperators
  }

  /** Whatever the lexer returns is clean: `term`'s operator loop can never fire on lexed input. */
  lemma {:induction false} LexClean(s: string, i: nat)
    requires LexFrom(s, i).Ok?
    ensures Clean(LexFrom(s, i).value)
    decreases |s| - i
  {
    if i < |s| {
      var ts := Scanned(s, i).value;
      LexClean(s, ScanEnd(s, i));
      assert LexFrom(s, i).value == ts + LexFrom(s, ScanEnd(s, i)).value;
    }
  }

  /** A lexing exception is the exception of one round of the loop, at some position at or after `i`. */
  lemma {:induction false} LexErrorIsScanned(s: string, i: nat)
    requires LexFrom(s, i).Err?
    ensures exists p :: i <= p < |s| && Scanned(s, p) == LexFrom(s, i)
    decreases |s| - i
  {
    if Scanned(s, i).Err? {
      assert Scanned(s, i) == LexFrom(s, i);
    } else {
      LexErrorIsScanned(s, ScanEnd(s, i));
    }
  }

  /** Whitespace contributes no tokens. */
  lemma {:induction false} SkipBlanks(s: string, i: nat, j: nat)
    requires i <= j <= |s| && forall k :: i <= k < j ==> PySpace(s[k])
    ensures LexFrom(s, i) == LexFrom(s, j)
    decreases j - i
  {
    if i < j {
      SkipBlanks(s, i + 1, j);
      PrefixNil(LexFrom(s, i + 1));
    }
  }

  /** An invalid character raises instead of being skipped. */
  lemma PercentRaises()
    ensures Tokenize("%") == Err(Exc(Exception, "Invalid character: %"))
  {
    var s := "%";
    assert s[0] == '%' && !PySpace('%') && !IsDigit('%') && !IsAlpha('%') && CharToken('%').None?;
    assert SixGui.InvalidCharacter('%') == "Invalid character: %";
    assert Scanned(s, 0) == Err(Exc(Exception, "Invalid character: %"));
  }

  /** Brackets and commas are lexed under their own names, with the character as the value. */
  lemma BracketsNamed()
    ensures Tokenize("(},") == Ok([Named(LEFT_PAREN, '('), Named(RIGHT_BRACE, '}'), Named(COMMA, ',')])
  {
    var s := "(},";
    assert s[0] == '(' && s[1] == '}' && s[2] == ',';
    var lp, rb, cm := Named(LEFT_PAREN, '('), Named(RIGHT_BRACE, '}'), Named(COMMA, ',');
    assert CharToken('(') == Some(lp) && CharToken('}') == Some(rb) && CharToken(',') == Some(cm);
    assert Scanned(s, 2) == Ok([cm]) && ScanEnd(s, 2) == 3;
    assert LexFrom(s, 3) == Ok([]);
    assert [cm] + [] == [cm];
    assert LexFrom(s, 2) == Ok([cm]);
    assert Scanned(s, 1) == Ok([rb]) && ScanEnd(s, 1) == 2;
    assert [rb] + [cm] == [rb, cm];
    assert LexFrom(s, 1) == Ok([rb, cm]);
    assert Scanned(s, 0) == Ok([lp]) && ScanEnd(s, 0) == 1;
    assert [lp] + [rb, cm] == [lp, rb, cm];
  }

  // ---------------------------------------------------------------- parser properties

  /** A queue whose current token and remaining tokens are clean. */
  predicate CleanQueue(q: PState)
  {
    (q.current.Some? ==> q.current.value.ttype !in NamedOperators) && Clean(q.rest)
  }

  lemma PopClean(ts: seq<Token>)
    requires Clean(ts)
    ensures CleanQueue(Pop(ts))
  {
    if ts != [] {
      assert ts[0].ttype !in NamedOperators;
    }
  }

  lemma EatClean(q: PState, ttype: TokenType)
    requires CleanQueue(q)
    ensures CleanQueue(EatSpec(q, ttype).q)
  {
    if q.current.Some? {
      PopClean(q.rest);
    }
  }

  /** `factor` leaves a clean queue clean. */
  lemma {:induction false} FactorClean(q: PState)
    requires CleanQueue(q)
    ensures CleanQueue(FactorSpec(q).q)
    decreases Size(q), 0
  {
    if q.current.Some? {
      var t := q.current.value;
      PopClean(q.rest);
      if t.ttype == LEFT_PAREN {
        var e := ExprSpec(Pop(q.rest));
        ExprClean(Pop(q.rest));
        if e.out.Ok? {
          EatClean(e.q, RIGHT_PAREN);
        }
      }
    }
  }

  /** On a clean queue `term` is `factor`: its operator loop never runs. */
  lemma {:induction false} TermIsFactor(q: PState)
    requires CleanQueue(q)
    ensures TermSpec(q) == FactorSpec(q) && CleanQueue(TermSpec(q).q)
    decreases Size(q), 2
  {
    FactorClean(q);
  }

  lemma {:induction false} ExprTailClean(acc: Value, q: PState)
    requires CleanQueue(q)
    ensures CleanQueue(ExprTail(acc, q).q)
    decreases Size(q), 3
  {
    if At(q, {Char('+'), Char('-')}) {
      PopClean(q.rest);
      var t := TermSpec(Pop(q.rest));
      TermIsFactor(Pop(q.rest));
      if t.out.Ok? {
        var op := if q.current.value.ttype == Char('+') then Add else Sub;
        if Arith(op, acc, t.out.value).Ok? {
          ExprTailClean(Arith(op, acc, t.out.value).value, t.q);
        }
      }
    }
  }

  lemma {:induction false} ExprClean(q: PState)
    requires CleanQueue(q)
    ensures CleanQueue(ExprSpec(q).q)
    decreases Size(q), 4
  {
    TermIsFactor(q);
    var t := TermSpec(q);
    if t.out.Ok? {
      ExprTailClean(t.out.value, t.q);
    }
  }

  /** On lexed text, `term` at the first token is `factor`: MULTIPLY, DIVIDE, PLUS and MINUS never occur. */
  lemma TermIsFactorOnLexedText(text: string)
    requires Tokenize(text).Ok?
    ensures TermSpec(Pop(Tokenize(text).value)) == FactorSpec(Pop(Tokenize(text).value))
  {
    LexClean(text, 0);
    PopClean(Tokenize(text).value);
    TermIsFactor(Pop(Tokenize(text).value));
  }

  // ---------------------------------------------------------------- worked parses

  function NumTok(n: int): Token { Token(NUMBER, Int(n)) }

  function IdentTok(w: string): Token { Token(IDENTIFIER, Str(w)) }

  function OpTok(c: char): Token { Token(Char(c), Str([c])) }

  function Named(t: TokenType, c: char): Token { Token(t, Str([c])) }

  const IntTok := Token(TYPE, Str("int"))

  const ReturnTok := Token(RETURN, Str("return"))

  /** The tokens `factor` reads without recursing; their value is the token's own value. */
  predicate IsAtom(t: Token)
  {
    t.ttype in {NUMBER, IDENTIFIER}
  }

  /** `term`'s loop ends at a token that is not one of the named operators, or at the end of the tokens. */
  lemma TermTailStops(acc: Value, rest: seq<Token>)
    requires rest == [] || rest[0].ttype !in NamedOperators
    ensures TermTail(acc, Pop(rest)) == Step(Ok(acc), Pop(rest))
  {
    if rest != [] {
      PopCons(rest[0], rest[1..]);
      assert rest == [rest[0]] + rest[1..];
    }
  }

  /** `expr`'s loop ends at a token that is not `+` or `-`, or at the end of the tokens. */
  lemma ExprTailStops(acc: Value, rest: seq<Token>)
    requires rest == [] || rest[0].ttype !in {Char('+'), Char('-')}
    ensures ExprTail(acc, Pop(rest)) == Step(Ok(acc), Pop(rest))
  {
    if rest != [] {
      PopCons(rest[0], rest[1..]);
      assert rest == [rest[0]] + rest[1..];
    }
  }

  /** An atom is a whole term when no named operator follows it. */
  lemma TermAtom(t: Token, rest: seq<Token>)
    requires IsAtom(t)
    requires rest == [] || rest[0].ttype !in NamedOperators
    ensures TermSpec(Stream(Some(t), rest)) == Step(Ok(t.value), Pop(rest))
  {
    TermTailStops(t.value, rest);
  }

  /** One round of `expr`'s loop whose term is a lone atom. */
  lemma ExprTailAtom(acc: Value, c: char, t: Token, rest: seq<Token>)
    requires c == '+' || c == '-'
    requires IsAtom(t)
    requires rest == [] || rest[0].ttype !in NamedOperators
    requires Arith(if c == '+' then Add else Sub, acc, t.value).Ok?
    ensures ExprTail(acc, Pop([OpTok(c)] + ([t] + rest)))
            == ExprTail(Arith(if c == '+' then Add else Sub, acc, t.value).value, Pop(rest))
  {
    PopCons(OpTok(c), [t] + rest);
    PopCons(t, rest);
    TermAtom(t, rest);
  }

  /** One round of `expr`'s loop on integers: `+ z` or `- z` applied to the running value. */
  lemma NumberRound(acc: int, c: char, z: int, rest: seq<Token>)
    requires c == '+' || c == '-'
    requires rest == [] || rest[0].ttype !in NamedOperators
    ensures ExprTail(Int(acc), Pop([OpTok(c)] + ([NumTok(z)] + rest))) == ExprTail(Int(if c == '+' then acc + z else acc - z), Pop(rest))
  {
    var op := if c == '+' then Add else Sub;
    assert Arith(op, Int(acc), Int(z)) == Ok(Int(if c == '+' then acc + z else acc - z));
    ExprTailAtom(Int(acc), c, NumTok(z), rest);
  }

  /**
   * `x + y - z` over numbers: the running value starts at `x`, and each `+` or `-` combines it
   * with the next number, from left to right, until a token that is not `+` or `-`.
   */
  lemma SumThenDifference(x: int, y: int, z: int, rest: seq<Token>)
    requires rest == [] || rest[0].ttype !in NamedOperators + {Char('+'), Char('-')}
    ensures ExprSpec(Stream(Some(NumTok(x)), [OpTok('+')] + ([NumTok(y)] + ([OpTok('-')] + ([NumTok(z)] + rest)))))
            == Step(Ok(Int(x + y - z)), Pop(rest))
  {
    var after := [OpTok('-')] + ([NumTok(z)] + rest);
    assert ExprSpec(Stream(Some(NumTok(x)), [OpTok('+')] + ([NumTok(y)] + after))) == ExprTail(Int(x + y), Pop(after)) by {
      SumFirst(x, y, after);
    }
    assert ExprTail(Int(x + y), Pop(after)) == ExprTail(Int(x + y - z), Pop(rest)) by {
      NumberRound(x + y, '-', z, rest);
    }
    ExprTailStops(Int(x + y - z), rest);
  }

  /** The first round of `x + y ...`: `expr`'s loop goes on with x + y as its running value. */
  lemma SumFirst(x: int, y: int, rest: seq<Token>)
    requires rest == [] || rest[0].ttype !in NamedOperators
    ensures ExprSpec(Stream(Some(NumTok(x)), [OpTok('+')] + ([NumTok(y)] + rest))) == ExprTail(Int(x + y), Pop(rest))
  {
    TermAtom(NumTok(x), [OpTok('+')] + ([NumTok(y)] + rest));
    NumberRound(x, '+', y, rest);
  }

  /** `1 + 2 - 4` is -1 and consumes every token. */
  lemma SumExample()
    ensures ExprSpec(Pop([NumTok(1), OpTok('+'), NumTok(2), OpTok('-'), NumTok(4)])) == Step(Ok(Int(-1)), Stream(None, []))
  {
    var ts := [NumTok(1), OpTok('+'), NumTok(2), OpTok('-'), NumTok(4)];
    var after := [OpTok('+')] + ([NumTok(2)] + ([OpTok('-')] + ([NumTok(4)] + [])));
    assert ts == [NumTok(1)] + after;
    PopCons(NumTok(1), after);
    SumThenDifference(1, 2, 4, []);
  }

  /** `a * b` as an expression is `a`: `term` does not loop on the lexed `*`, and the parse stops in front of it. */
  lemma ProductStops(a: Token, rest: seq<Token>)
    requires IsAtom(a)
    ensures ExprSpec(Stream(Some(a), [OpTok('*')] + rest)) == Step(Ok(a.value), Stream(Some(OpTok('*')), rest))
  {
    TermAtom(a, [OpTok('*')] + rest);
    ExprTailStops(a.value, [OpTok('*')] + rest);
    PopCons(OpTok('*'), rest);
  }

  /** `return e;` gives the value of `e`. */
  lemma ReturnStatement(rest: seq<Token>, v: Value, after: seq<Token>)
    requires ExprSpec(Pop(rest)) == Step(Ok(v), Stream(Some(Named(SEMICOLON, ';')), after))
    ensures StatementSpec(Stream(Some(ReturnTok), rest)) == Step(Ok(Some(v)), Pop(after))
  {
  }

  /** `return x + y;` adds the identifiers' names, which are strings: the result is their concatenation. */
  lemma ReturnConcatenatesNames(x: string, y: string, after: seq<Token>)
    ensures StatementSpec(Stream(Some(ReturnTok), [IdentTok(x), OpTok('+'), IdentTok(y), Named(SEMICOLON, ';')] + after))
         == Step(Ok(Some(Str(x + y))), Pop(after))
  {
    var semi := [Named(SEMICOLON, ';')] + after;
    var rest := [IdentTok(x)] + ([OpTok('+')] + ([IdentTok(y)] + semi));
    Cons4(IdentTok(x), OpTok('+'), IdentTok(y), Named(SEMICOLON, ';'), after);
    PopCons(IdentTok(x), [OpTok('+')] + ([IdentTok(y)] + semi));
    TermAtom(IdentTok(x), [OpTok('+')] + ([IdentTok(y)] + semi));
    assert MixedArith(Add, Str(x), Str(y)) == Ok(Str(x + y));
    ExprTailAtom(Str(x), '+', IdentTok(y), semi);
    ExprTailStops(Str(x + y), semi);
    PopCons(Named(SEMICOLON, ';'), after);
    ReturnStatement(rest, Str(x + y), after);
  }

  /** A DIVIDE token followed by 0 raises "Division by zero" once the 0 has been consumed. */
  lemma DivideByZeroTail(acc: Value, rest: seq<Token>)
    ensures TermTail(acc, Pop([Named(DIVIDE, '/')] + ([NumTok(0)] + rest))) == Raise(Exc(Exception, "Division by zero"), Pop(rest))
  {
    PopCons(Named(DIVIDE, '/'), [NumTok(0)] + rest);
    PopCons(NumTok(0), rest);
    assert FactorSpec(Stream(Some(NumTok(0)), rest)) == Step(Ok(Int(0)), Pop(rest));
  }

  /** `a / 0` with a DIVIDE token raises "Division by zero" (reachable only on hand-built tokens). */
  lemma DivisionByZero(a: Token, rest: seq<Token>)
    requires IsAtom(a)
    ensures TermSpec(Stream(Some(a), [Named(DIVIDE, '/'), NumTok(0)] + rest)) == Raise(Exc(Exception, "Division by zero"), Pop(rest))
  {
    assert [Named(DIVIDE, '/'), NumTok(0)] + rest == [Named(DIVIDE, '/')] + ([NumTok(0)] + rest);
    DivideByZeroTail(a.value, rest);
  }

  /** The header `int f(` in front of `rest`: `function_declaration` goes on with its parameter loop at `rest`. */
  lemma Header(rest: seq<Token>)
    ensures FunctionDeclarationSpec(Stream(Some(IntTok), [IdentTok("f"), Named(LEFT_PAREN, '(')] + rest))
         == var p := ParamsSpec(Pop(rest)); if p.out.Err? then p else DeclarationRestSpec(p.q)
  {
    var lp := Named(LEFT_PAREN, '(');
    assert [IdentTok("f"), lp] + rest == [IdentTok("f")] + ([lp] + rest);
    PopCons(IdentTok("f"), [lp] + rest);
    PopCons(lp, rest);
  }

  /** `parameter` reads `TYPE IDENT` and then the `, TYPE IDENT` groups that follow. */
  lemma ParameterPair(n: string, rest: seq<Token>)
    ensures ParameterSpec(Stream(Some(IntTok), [IdentTok(n)] + rest)) == CommaParams(Pop(rest))
  {
    TypedName(n, rest);
  }

  /** `int n` is one type-and-name pair. */
  lemma TypedName(n: string, rest: seq<Token>)
    ensures TypedNameSpec(Stream(Some(IntTok), [IdentTok(n)] + rest)) == Step(Ok(()), Pop(rest))
  {
    PopCons(IdentTok(n), rest);
  }

  /** One `, TYPE IDENT` group of `parameter`'s loop. */
  lemma CommaPair(n: string, rest: seq<Token>)
    ensures CommaParams(Stream(Some(Named(COMMA, ',')), [IntTok] + ([IdentTok(n)] + rest))) == CommaParams(Pop(rest))
  {
    PopCons(IntTok, [IdentTok(n)] + rest);
    TypedName(n, rest);
  }

  /** A round of the parameter loop that consumes something is followed by the next round. */
  lemma ParamsRound(q: PState, p: PState)
    requires q.current.Some? && q.current.value.ttype != RIGHT_PAREN
    requires ParameterSpec(q) == Step(Ok(()), p) && Size(p) < Size(q)
    ensures ParamsSpec(q) == ParamsSpec(p)
  {
  }

  /** The parameter list `int a, int b` in front of `)`. */
  lemma TwoParameters(rest: seq<Token>)
    ensures ParamsSpec(Pop([IntTok, IdentTok("a"), Named(COMMA, ','), IntTok, IdentTok("b"), Named(RIGHT_PAREN, ')')] + rest))
         == Step(Ok(()), Stream(Some(Named(RIGHT_PAREN, ')')), rest))
  {
    var rp := Stream(Some(Named(RIGHT_PAREN, ')')), rest);
    var tail := [Named(RIGHT_PAREN, ')')] + rest;
    var group := [IntTok] + ([IdentTok("b")] + tail);
    var second := [Named(COMMA, ',')] + group;
    var all := [IntTok] + ([IdentTok("a")] + second);
    assert [IntTok, IdentTok("a"), Named(COMMA, ','), IntTok, IdentTok("b"), Named(RIGHT_PAREN, ')')] + rest == all;
    PopCons(IntTok, [IdentTok("a")] + second);
    ParameterPair("a", second);
    PopCons(Named(COMMA, ','), group);
    CommaPair("b", tail);
    PopCons(Named(RIGHT_PAREN, ')'), rest);
    assert CommaParams(rp) == Step(Ok(()), rp);
    ParamsRound(Pop(all), rp);
  }

  /** After the parameter loop, `) ;` completes a prototype. */
  lemma SemicolonRest()
    ensures DeclarationRestSpec(Stream(Some(Named(RIGHT_PAREN, ')')), [Named(SEMICOLON, ';')])) == Step(Ok(()), Stream(None, []))
  {
    assert EatSpec(Stream(Some(Named(RIGHT_PAREN, ')')), [Named(SEMICOLON, ';')]), RIGHT_PAREN)
        == Step(Ok(()), Stream(Some(Named(SEMICOLON, ';')), []));
  }

  /** `int f(` followed by parameters that the loop reads up to `) ;` is a consumed prototype. */
  lemma PrototypeShape(params: seq<Token>)
    requires ParamsSpec(Pop(params)) == Step(Ok(()), Stream(Some(Named(RIGHT_PAREN, ')')), [Named(SEMICOLON, ';')]))
    ensures FunctionDeclarationSpec(Stream(Some(IntTok), [IdentTok("f"), Named(LEFT_PAREN, '(')] + params)) == Step(Ok(()), Stream(None, []))
  {
    Header(params);
    SemicolonRest();
  }

  /** A prototype `int f(int a, int b);` is accepted and consumed. */
  lemma Prototype()
    ensures FunctionDeclarationSpec(Stream(Some(IntTok), [IdentTok("f"), Named(LEFT_PAREN, '('), IntTok, IdentTok("a"), Named(COMMA, ','),
                                         IntTok, IdentTok("b"), Named(RIGHT_PAREN, ')'), Named(SEMICOLON, ';')]))
         == Step(Ok(()), Stream(None, []))
  {
    var semi := [Named(SEMICOLON, ';')];
    var params := [IntTok, IdentTok("a"), Named(COMMA, ','), IntTok, IdentTok("b"), Named(RIGHT_PAREN, ')')] + semi;
    assert [IdentTok("f"), Named(LEFT_PAREN, '('), IntTok, IdentTok("a"), Named(COMMA, ','), IntTok, IdentTok("b"), Named(RIGHT_PAREN, ')'), Named(SEMICOLON, ';')]
        == [IdentTok("f"), Named(LEFT_PAREN, '(')] + params;
    TwoParameters(semi);
    PrototypeShape(params);
  }

  /** A parameter list at a token that is none of TYPE, IDENTIFIER, COMMA and `)` repeats forever. */
  lemma StuckParameter(t: Token, rest: seq<Token>)
    requires t.ttype !in {TYPE, IDENTIFIER, COMMA, RIGHT_PAREN}
    ensures ParamsSpec(Stream(Some(t), rest)) == Step(Err(Spins), Stream(Some(t), rest))
  {
    var q := Stream(Some(t), rest);
    assert ParameterSpec(q) == Step(Ok(()), q);
  }

  /** `int f(5)`: no parameter round consumes the 5, so `function_declaration` never returns. */
  lemma NumberParameterSpins()
    ensures FunctionDeclarationSpec(Stream(Some(IntTok), [IdentTok("f"), Named(LEFT_PAREN, '('), NumTok(5), Named(RIGHT_PAREN, ')')])).out
         == Err(Spins)
  {
    var rest := [NumTok(5)] + [Named(RIGHT_PAREN, ')')];
    assert [IdentTok("f"), Named(LEFT_PAREN, '('), NumTok(5), Named(RIGHT_PAREN, ')')] == [IdentTok("f"), Named(LEFT_PAREN, '(')] + rest;
    Header(rest);
    PopCons(NumTok(5), [Named(RIGHT_PAREN, ')')]);
    StuckParameter(NumTok(5), [Named(RIGHT_PAREN, ')')]);
  }

  /** The body `return v; }` for an atom `v`: one statement, up to the closing brace. */
  lemma ReturnBody(v: Token)
    requires IsAtom(v)
    ensures StatementsSpec(Pop([ReturnTok, v, Named(SEMICOLON, ';'), Named(RIGHT_BRACE, '}')]))
         == Step(Ok(()), Stream(Some(Named(RIGHT_BRACE, '}')), []))
  {
    var rb := [Named(RIGHT_BRACE, '}')];
    var semi := [Named(SEMICOLON, ';')] + rb;
    assert [ReturnTok, v, Named(SEMICOLON, ';'), Named(RIGHT_BRACE, '}')] == [ReturnTok] + ([v] + semi);
    PopCons(ReturnTok, [v] + semi);
    PopCons(v, semi);
    TermAtom(v, semi);
    ExprTailStops(v.value, semi);
    PopCons(Named(SEMICOLON, ';'), rb);
    ReturnStatement([v] + semi, v.value, rb);
    PopCons(Named(RIGHT_BRACE, '}'), []);
  }

  /** After the parameter loop, `) {` and a statement list that stops at a final `}` complete the declaration. */
  lemma BracedRest(body: seq<Token>)
    requires StatementsSpec(Pop(body)) == Step(Ok(()), Stream(Some(Named(RIGHT_BRACE, '}')), []))
    ensures DeclarationRestSpec(Stream(Some(Named(RIGHT_PAREN, ')')), [Named(LEFT_BRACE, '{')] + body)) == Step(Ok(()), Stream(None, []))
  {
    PopCons(Named(LEFT_BRACE, '{'), body);
  }

  /** `int f() { return 1; }` is accepted and consumed. */
  lemma DefinitionWithBody()
    ensures FunctionDeclarationSpec(Stream(Some(IntTok), [IdentTok("f"), Named(LEFT_PAREN, '('), Named(RIGHT_PAREN, ')'), Named(LEFT_BRACE, '{'),
                                         ReturnTok, NumTok(1), Named(SEMICOLON, ';'), Named(RIGHT_BRACE, '}')]))
         == Step(Ok(()), Stream(None, []))
  {
    var body := [ReturnTok, NumTok(1), Named(SEMICOLON, ';'), Named(RIGHT_BRACE, '}')];
    var rest := [Named(RIGHT_PAREN, ')')] + ([Named(LEFT_BRACE, '{')] + body);
    assert [IdentTok("f"), Named(LEFT_PAREN, '('), Named(RIGHT_PAREN, ')'), Named(LEFT_BRACE, '{'),
            ReturnTok, NumTok(1), Named(SEMICOLON, ';'), Named(RIGHT_BRACE, '}')]
        == [IdentTok("f"), Named(LEFT_PAREN, '(')] + rest;
    Header(rest);
    PopCons(Named(RIGHT_PAREN, ')'), [Named(LEFT_BRACE, '{')] + body);
    ReturnBody(NumTok(1));
    BracedRest(body);
  }

  /** A body holding an assignment reaches the missing `variable_declaration` and raises AttributeError. */
  lemma AssignmentInBodyRaises()
    ensures BlockSpec(Pop([Named(LEFT_BRACE, '{'), IdentTok("x"), Named(ASSIGNMENT, '='), NumTok(1), Named(SEMICOLON, ';'), Named(RIGHT_BRACE, '}')])).out
         == Err(Raised(NoVariableDeclaration))
  {
    var q := Stream(Some(IdentTok("x")), [Named(ASSIGNMENT, '='), NumTok(1), Named(SEMICOLON, ';'), Named(RIGHT_BRACE, '}')]);
    assert StatementSpec(q) == Raise(NoVariableDeclaration, q);
  }

  /** `int` followed by a non-word character lexes, after leading whitespace, to a TYPE token first. */
  lemma {:induction false} LeadingInt(pad: string, rest: string)
    requires forall k :: 0 <= k < |pad| ==> PySpace(pad[k])
    requires rest != [] && !IsWord(rest[0])
    requires Tokenize(pad + "int" + rest).Ok?
    ensures Tokenize(pad + "int" + rest).value != [] && Tokenize(pad + "int" + rest).value[0] == IntTok
  {
    var s := pad + "int" + rest;
    var p := |pad|;
    assert s[p] == 'i' && s[p + 1] == 'n' && s[p + 2] == 't' && s[p + 3] == rest[0];
    SkipBlanks(s, 0, p);
    assert WordEnd(s, p + 3) == p + 3;
    assert WordEnd(s, p) == p + 3;
    assert s[p..p + 3] == "int";
    assert Scanned(s, p) == Ok([IntTok]);
  }

  /**
   * The program `main` parses starts (after whitespace) with `int`, so the `block` it calls finds no
   * LEFT_BRACE: it only prints "Invalid syntax" and returns without consuming a token.
   */
  lemma MainBlockIdle(pad: string, rest: string)
    requires forall k :: 0 <= k < |pad| ==> PySpace(pad[k])
    requires rest != [] && !IsWord(rest[0])
    requires Compile(pad + "int" + rest).Ok?
    ensures var ts := Compile(pad + "int" + rest).value.0;
            Compile(pad + "int" + rest).value.1 == Step(Ok(()), Pop(ts))
  {
    LeadingInt(pad, rest);
  }
}

