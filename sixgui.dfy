/**
 * sixgui.py: a statement interpreter. The cursor lexer returns its tokens together with a list of
 * "Invalid character" messages; the parser pops tokens from the front of its list, evaluates
 * expressions on the fly, binds variables in a dictionary, and records each failing statement's
 * message instead of stopping.
 */
module SixGui {
  import opened Common
  import opened Chars
  import opened PyValues

  /**
   * The token types. Operators, braces and parentheses are typed by the character itself
   * (`Char(c)`); LEFT_PAREN, RIGHT_PAREN, LEFT_BRACE and RIGHT_BRACE are the names the parser
   * asks for, which the lexer never produces.
   */
  datatype TokenType =
    | NUMBER | IDENTIFIER | TYPE | RETURN | IF | ELSE | WHILE | FOR
    | ASSIGNMENT | SEMICOLON | COMMA | Char(c: char)
    | LEFT_PAREN | RIGHT_PAREN | LEFT_BRACE | RIGHT_BRACE

  /** The type's name as the source spells it in messages. */
  function Name(t: TokenType): string
  {
    match t
    case NUMBER => "NUMBER"
    case IDENTIFIER => "IDENTIFIER"
    case TYPE => "TYPE"
    case RETURN => "RETURN"
    case IF => "IF"
    case ELSE => "ELSE"
    case WHILE => "WHILE"
    case FOR => "FOR"
    case ASSIGNMENT => "ASSIGNMENT"
    case SEMICOLON => "SEMICOLON"
    case COMMA => "COMMA"
    case Char(c) => [c]
    case LEFT_PAREN => "LEFT_PAREN"
    case RIGHT_PAREN => "RIGHT_PAREN"
    case LEFT_BRACE => "LEFT_BRACE"
    case RIGHT_BRACE => "RIGHT_BRACE"
  }

  datatype Token = Token(ttype: TokenType, value: Value)

  // ---------------------------------------------------------------- lexer specification

  /** The token for a digit/dot run that starts with a digit: `float(result)` when it has a dot, else `int(result)`. */
  function NumberToken(lexeme: string): Result<Token, Exc>
    requires DigitsAndDots(lexeme)
  {
    if '.' in lexeme then
      match PyFloat(lexeme)
      case Ok(v) => Ok(Token(NUMBER, v))
      case Err(x) => Err(x)
    else
      Ok(Token(NUMBER, PyInt(lexeme)))
  }

  /** `parse_keyword`'s table: the type names, the control words, and IDENTIFIER for every other word. */
  function KeywordType(word: string): TokenType
  {
    if word in {"int", "float", "double", "char", "void"} then TYPE
    else if word == "return" then RETURN
    else if word == "if" then IF
    else if word == "else" then ELSE
    else if word == "while" then WHILE
    else if word == "for" then FOR
    else IDENTIFIER
  }

  /** The type of the one-character tokens, or `None` for a character that starts no token. */
  function CharTokenType(c: char): Option<TokenType>
  {
    if c in "+-*/%" then Some(Char(c))
    else if c == '=' then Some(ASSIGNMENT)
    else if c == ';' then Some(SEMICOLON)
    else if c in "{}()" then Some(Char(c))
    else if c == ',' then Some(COMMA)
    else None
  }

  /** The value of a one-character token: the character, except "=" and ";" and "," which are the same anyway. */
  function CharToken(c: char): Option<Token>
  {
    match CharTokenType(c)
    case None => None
    case Some(t) => Some(Token(t, Str([c])))
  }

  /** What `lex` returns: the tokens and the "Invalid character" messages. */
  datatype Lexed = Lexed(tokens: seq<Token>, errors: seq<string>)

  /** Puts tokens and messages found so far in front of the outcome of the rest of the scan. */
  function Join(ts: seq<Token>, es: seq<string>, r: Result<Lexed, Exc>): Result<Lexed, Exc>
  {
    match r
    case Ok(l) => Ok(Lexed(ts + l.tokens, es + l.errors))
    case Err(x) => Err(x)
  }

  function InvalidCharacter(c: char): string
  {
    "Invalid character: " + [c]
  }

  /** Where the lexeme at `i` ends: after its digit/dot run, after its word, or after the one character. */
  function ScanEnd(s: string, i: nat): (e: nat)
    requires i < |s|
    ensures i < e <= |s|
  {
    if IsDigit(s[i]) then RunEnd(s, i)
    else if IsAlpha(s[i]) then WordEnd(s, i)
    else i + 1
  }

  /**
   * What one round of `lex`'s loop adds for the lexeme at `i`: nothing for whitespace, one token,
   * or one "Invalid character" message; or the exception `float()` raises. A round never produces
   * the bracket names the parser asks for.
   */
  function Scanned(s: string, i: nat): (r: Result<Lexed, Exc>)
    requires i < |s|
    ensures r.Ok? ==> |r.value.tokens| + |r.value.errors| <= 1
    ensures r.Ok? && PySpace(s[i]) ==> r.value == Lexed([], [])
    ensures r.Ok? ==> NoNamedBracket(r.value.tokens)
  {
    if PySpace(s[i]) then Ok(Lexed([], []))
    else if IsDigit(s[i]) then
      match NumberToken(Lexeme(s, i))
      case Err(x) => Err(x)
      case Ok(t) => Ok(Lexed([t], []))
    else if IsAlpha(s[i]) then
      var e := WordEnd(s, i);
      Ok(Lexed([Token(KeywordType(s[i..e]), Str(s[i..e]))], []))
    else if CharToken(s[i]).Some? then Ok(Lexed([CharToken(s[i]).value], []))
    else Ok(Lexed([], [InvalidCharacter(s[i])]))
  }

  /** The token types the parser names but the lexer never produces. */
  predicate NoNamedBracket(ts: seq<Token>)
  {
    forall k :: 0 <= k < |ts| ==> ts[k].ttype !in {LEFT_PAREN, RIGHT_PAREN, LEFT_BRACE, RIGHT_BRACE}
  }

  /** What `lex` returns when started with the cursor at `i`. */
  function LexFrom(s: string, i: nat): Result<Lexed, Exc>
    decreases |s| - i
  {
    if i >= |s| then Ok(Lexed([], []))
    else
      match Scanned(s, i)
      case Err(x) => Err(x)
      case Ok(l) => Join(l.tokens, l.errors, LexFrom(s, ScanEnd(s, i)))
  }

  /** `Lexer(text).lex()`: the constructor reads `text[0]`, so empty text raises IndexError. */
  function Tokenize(text: string): Result<Lexed, Exc>
  {
    if text == [] then Err(EmptyInput) else LexFrom(text, 0)
  }

  lemma JoinNil(r: Result<Lexed, Exc>)
    ensures Join([], [], r) == r
  {
    if r.Ok? {
      assert [] + r.value.tokens == r.value.tokens;
      assert [] + r.value.errors == r.value.errors;
    }
  }

  lemma JoinJoin(ts: seq<Token>, es: seq<string>, us: seq<Token>, fs: seq<string>, r: Result<Lexed, Exc>)
    ensures Join(ts, es, Join(us, fs, r)) == Join(ts + us, es + fs, r)
  {
    if r.Ok? {
      assert ts + (us + r.value.tokens) == (ts + us) + r.value.tokens;
      assert es + (fs + r.value.errors) == (es + fs) + r.value.errors;
    }
  }

  // ---------------------------------------------------------------- lexer

  class Lexer {
    const input: string
    var position: nat
    var current: Option<char>

    ghost predicate Valid()
      reads this
    {
      current == CharAt(input, position)
    }

    constructor (text: string)
      requires text != []
      ensures Valid() && input == text && position == 0
    {
      input := text;
      position := 0;
      current := Some(text[0]);
    }

    method Advance()
      requires Valid()
      modifies this
      ensures Valid() && position == old(position) + 1
    {
      position := position + 1;
      current := if position < |input| then Some(input[position]) else None;
    }

    method Lex() returns (r: Result<Lexed, Exc>)
      requires Valid()
      modifies this
      ensures r == LexFrom(input, old(position))
    {
      ghost var whole := LexFrom(input, position);
      var tokens: seq<Token> := [];
      var errors: seq<string> := [];
      JoinNil(whole);
      while current.Some?
        invariant Valid()
        invariant whole == Join(tokens, errors, LexFrom(input, position))
        decreases |input| - position
      {
        var step := LexStep(whole, tokens, errors);
        if step.Err? {
          return step;
        }
        tokens, errors := step.value.tokens, step.value.errors;
      }
      assert tokens + [] == tokens && errors + [] == errors;
      return Ok(Lexed(tokens, errors));
    }

    /**
     * One round of `lex`'s loop: skips a space, appends a token or a message, or raises. `whole`,
     * what the entire scan returns, is what was found so far before what `lex` returns from here.
     */
    method LexStep(ghost whole: Result<Lexed, Exc>, tokens: seq<Token>, errors: seq<string>) returns (r: Result<Lexed, Exc>)
      requires Valid() && current.Some?
      requires whole == Join(tokens, errors, LexFrom(input, position))
      modifies this
      ensures Valid() && (r.Ok? ==> position > old(position))
      ensures r.Err? ==> whole == Err(r.error)
      ensures r.Ok? ==> whole == Join(r.value.tokens, r.value.errors, LexFrom(input, position))
    {
      var c := current.value;
      ghost var i := position;
      var found: Lexed;
      if PySpace(c) {
        Advance();
        found := Lexed([], []);
      } else if IsDigit(c) {
        var t := ParseNumber();
        if t.Err? {
          return Err(t.error);
        }
        found := Lexed([t.value], []);
      } else if IsAlpha(c) {
        var t := ParseKeyword();
        found := Lexed([t], []);
      } else if CharToken(c).Some? {
        Advance();
        found := Lexed([CharToken(c).value], []);
      } else {
        Advance();
        found := Lexed([], [InvalidCharacter(c)]);
      }
      assert Scanned(input, i) == Ok(found) && ScanEnd(input, i) == position;
      JoinJoin(tokens, errors, found.tokens, found.errors, LexFrom(input, position));
      return Ok(Lexed(tokens + found.tokens, errors + found.errors));
    }

    method ParseNumber() returns (r: Result<Token, Exc>)
      requires Valid() && current.Some? && IsDigit(current.value)
      modifies this
      ensures Valid() && position == RunEnd(input, old(position))
      ensures r == NumberToken(Lexeme(input, old(position)))
    {
      ghost var start := position;
      var result := "";
      while current.Some? && (IsDigit(current.value) || current.value == '.')
        invariant Valid()
        invariant start <= position <= RunEnd(input, start)
        invariant result == input[start..position]
        decreases |input| - position
      {
        ExtendRun(input, start, position);
        result := result + [current.value];
        Advance();
      }
      RunStops(input, start, position);
      r := NumberToken(result);
    }

    method ParseKeyword() returns (t: Token)
      requires Valid() && current.Some? && IsAlpha(current.value)
      modifies this
      ensures Valid() && old(position) < position == WordEnd(input, old(position))
      ensures t == Token(KeywordType(input[old(position)..position]), Str(input[old(position)..position]))
    {
      ghost var start := position;
      var result := "";
      while current.Some? && (IsAlnum(current.value) || current.value == '_')
        invariant Valid()
        invariant start <= position <= WordEnd(input, start)
        invariant result == input[start..position]
        decreases |input| - position
      {
        result := result + [current.value];
        Advance();
      }
      t := Token(KeywordType(result), Str(result));
    }
  }

  /** `Lexer(text).lex()` as the driver calls it. */
  method Run(text: string) returns (r: Result<Lexed, Exc>)
    ensures r == Tokenize(text)
  {
    if text == [] {
      return Err(EmptyInput);
    }
    var lexer := new Lexer(text);
    r := lexer.Lex();
  }

  // ---------------------------------------------------------------- parser specification

  /** The token queue. */
  type PState = Stream<Token>

  /** The `variables` dictionary. */
  type Vars = map<Value, Value>

  /** `self.variables.get(name)`. */
  function Lookup(vars: Vars, name: Value): Value
  {
    if name in vars then vars[name] else NoneV
  }

  /** The state `Parser(tokens)` starts in. */
  function Init(tokens: seq<Token>): PState
  {
    Pop(tokens)
  }

  predicate At(q: PState, types: set<TokenType>)
  {
    q.current.Some? && q.current.value.ttype in types
  }

  /**
   * The outcome of a parse step that does not bind variables: its value or the exception it
   * raised, and the queue as it is afterwards (exceptions do not undo the tokens already popped).
   */
  datatype Step<T> = Step(out: Result<T, Exc>, q: PState)

  /** Reading `.value` of a parser whose `current_token` is `None`. */
  const NoneValue := Exc(AttributeError, "'NoneType' object has no attribute 'value'")

  /** The first loop of `eat`, run when SEMICOLON is expected: ASSIGNMENT tokens are popped. */
  function SkipAssignments(q: PState): (r: PState)
    ensures Size(r) <= Size(q) && (Size(r) == Size(q) ==> r == q)
    ensures !At(r, {ASSIGNMENT})
    decreases Size(q)
  {
    if At(q, {ASSIGNMENT}) then SkipAssignments(Pop(q.rest)) else q
  }

  /**
   * The token types before which a missing SEMICOLON is tolerated. The source also accepts an
   * ASSIGNMENT followed by "%", which cannot be current once the ASSIGNMENT tokens are skipped.
   */
  predicate Tolerated(t: TokenType)
  {
    t in {IDENTIFIER, NUMBER, Char('+'), Char('-'), Char('*'), Char('/')}
  }

  /**
   * `eat`: a match pops the next token; an expected SEMICOLON first skips ASSIGNMENT tokens and
   * is excused before the tolerated types; anything else raises "Expected X, but got Y".
   */
  function EatSpec(q: PState, ttype: TokenType): (r: Step<()>)
    ensures Size(r.q) <= Size(q) && (Size(r.q) == Size(q) ==> r.q == q)
  {
    var q1 := if ttype == SEMICOLON then SkipAssignments(q) else q;
    if q1.current.Some? && q1.current.value.ttype == ttype then Step(Ok(()), Pop(q1.rest))
    else if q1.current.None? then Step(Err(NoneTokenType), q1)
    else if ttype == SEMICOLON && Tolerated(q1.current.value.ttype) then Step(Ok(()), q1)
    else Step(Err(Exc(Exception, "Expected " + Name(ttype) + ", but got " + Name(q1.current.value.ttype))), q1)
  }

  /** `factor`: a number, a variable's value (None when unbound), `( expr )` or a TYPE word's own text. */
  function FactorSpec(vars: Vars, q: PState): (r: Step<Value>)
    ensures Size(r.q) <= Size(q) && (Size(r.q) == Size(q) ==> r.q == q)
    ensures r.out.Ok? ==> Size(r.q) < Size(q)
    decreases Size(q), 0
  {
    if q.current.None? then Step(Err(NoneTokenType), q)
    else
      var t := q.current.value;
      if t.ttype == NUMBER || t.ttype == TYPE then Step(Ok(t.value), Pop(q.rest))
      else if t.ttype == IDENTIFIER then Step(Ok(Lookup(vars, t.value)), Pop(q.rest))
      else if t.ttype == LEFT_PAREN then
        var e := ExprSpec(vars, Pop(q.rest));
        if e.out.Err? then e
        else
          var c := EatSpec(e.q, RIGHT_PAREN);
          if c.out.Err? then Step(Err(c.out.error), c.q) else Step(e.out, c.q)
      else Step(Err(Exc(Exception, "Unexpected token: " + Name(t.ttype))), q)
  }

  /** One `*` or `/` step of `term`'s loop; a divisor equal to 0 raises "Division by zero". */
  function MulDiv(op: char, acc: Value, rhs: Value): (r: Result<Value, Exc>)
    ensures op != '*' && EqualsZero(rhs) ==> r == Err(Exc(Exception, "Division by zero"))
    ensures op == '*' && acc.Int? && rhs.Int? ==> r == Ok(Int(acc.i * rhs.i))
  {
    if op == '*' then Arith(Mul, acc, rhs)
    else if EqualsZero(rhs) then Err(Exc(Exception, "Division by zero"))
    else Arith(Div, acc, rhs)
  }

  /** `term`'s loop, entered with `acc` as `result`. */
  function TermTail(vars: Vars, acc: Value, q: PState): (r: Step<Value>)
    ensures Size(r.q) <= Size(q) && (Size(r.q) == Size(q) ==> r.q == q && r.out == Ok(acc))
    decreases Size(q), 1
  {
    if !At(q, {Char('*'), Char('/')}) then Step(Ok(acc), q)
    else
      var op := q.current.value.ttype.c;
      var f := FactorSpec(vars, Pop(q.rest));
      if f.out.Err? then f
      else
        match MulDiv(op, acc, f.out.value)
        case Err(x) => Step(Err(x), f.q)
        case Ok(acc2) => TermTail(vars, acc2, f.q)
  }

  function TermSpec(vars: Vars, q: PState): (r: Step<Value>)
    ensures Size(r.q) <= Size(q) && (Size(r.q) == Size(q) ==> r.q == q && r.out.Err?)
    decreases Size(q), 2
  {
    var f := FactorSpec(vars, q);
    if f.out.Err? then f else TermTail(vars, f.out.value, f.q)
  }

  /** One `+` or `-` step of `expr`'s loop. */
  function AddSub(op: char, acc: Value, rhs: Value): (r: Result<Value, Exc>)
    ensures acc.Int? && rhs.Int? ==> r == Ok(Int(if op == '+' then acc.i + rhs.i else acc.i - rhs.i))
  {
    if op == '+' then Arith(Add, acc, rhs) else Arith(Sub, acc, rhs)
  }

  /** `expr`'s loop, entered with `acc` as `result`. */
  function ExprTail(vars: Vars, acc: Value, q: PState): (r: Step<Value>)
    ensures Size(r.q) <= Size(q) && (Size(r.q) == Size(q) ==> r.q == q && r.out == Ok(acc))
    decreases Size(q), 3
  {
    if !At(q, {Char('+'), Char('-')}) then Step(Ok(acc), q)
    else
      var op := q.current.value.ttype.c;
      var t := TermSpec(vars, Pop(q.rest));
      if t.out.Err? then t
      else
        match AddSub(op, acc, t.out.value)
        case Err(x) => Step(Err(x), t.q)
        case Ok(acc2) => ExprTail(vars, acc2, t.q)
  }

  function ExprSpec(vars: Vars, q: PState): (r: Step<Value>)
    ensures Size(r.q) <= Size(q) && (Size(r.q) == Size(q) ==> r.q == q && r.out.Err?)
    decreases Size(q), 4
  {
    var t := TermSpec(vars, q);
    if t.out.Err? then t else ExprTail(vars, t.out.value, t.q)
  }

  /** The outcome of a statement: the exception it raised, if any, the queue, and the variables. */
  datatype SStep = SStep(out: Result<(), Exc>, q: PState, vars: Vars)

  /** `eat` inside a statement: the variables are unchanged. */
  function EatIn(vars: Vars, q: PState, ttype: TokenType): SStep
  {
    var e := EatSpec(q, ttype);
    SStep(e.out, e.q, vars)
  }

  /**
   * `variable_declaration`: `TYPE IDENT = expr ;` binds IDENT to the value and `TYPE IDENT ;`
   * binds it to None; the binding is made before the closing SEMICOLON is eaten.
   */
  function DeclarationSpec(vars: Vars, q: PState): (r: SStep)
    requires At(q, {TYPE})
    ensures Size(r.q) < Size(q)
  {
    var q1 := Pop(q.rest);
    if q1.current.None? then SStep(Err(NoneValue), q1, vars)
    else
      var name := q1.current.value.value;
      var e := EatSpec(q1, IDENTIFIER);
      if e.out.Err? then SStep(e.out, e.q, vars)
      else if e.q.current.None? then SStep(Err(NoneTokenType), e.q, vars)
      else if e.q.current.value.ttype == ASSIGNMENT then
        var x := ExprSpec(vars, Pop(e.q.rest));
        if x.out.Err? then SStep(Err(x.out.error), x.q, vars)
        else EatIn(vars[name := x.out.value], x.q, SEMICOLON)
      else if e.q.current.value.ttype == SEMICOLON then
        EatIn(vars[name := NoneV], e.q, SEMICOLON)
      else SStep(Err(Exc(Exception, "Invalid syntax")), e.q, vars)
  }

  /**
   * `statement`: a lone SEMICOLON, a declaration, or `expr IDENT ;`, which binds the value of the
   * token after the expression before checking that it is an IDENTIFIER (a number there reaches the
   * dict entry of every number equal to it).
   */
  function StatementSpec(vars: Vars, q: PState): (r: SStep)
    ensures Size(r.q) <= Size(q)
    ensures Size(r.q) == Size(q) ==> r.q == q && r.vars == vars && r.out.Err?
  {
    if q.current.None? then SStep(Err(NoneTokenType), q, vars)
    else if q.current.value.ttype == SEMICOLON then EatIn(vars, q, SEMICOLON)
    else if q.current.value.ttype == TYPE then DeclarationSpec(vars, q)
    else
      var x := ExprSpec(vars, q);
      if x.out.Err? then SStep(Err(x.out.error), x.q, vars)
      else if x.q.current.None? then SStep(Err(NoneValue), x.q, vars)
      else
        var vars1 := vars[DictKey(x.q.current.value.value) := x.out.value];
        var e := EatSpec(x.q, IDENTIFIER);
        if e.out.Err? then SStep(e.out, e.q, vars1) else EatIn(vars1, e.q, SEMICOLON)
  }

  /**
   * What `parse` does: `Finished` with the variables and the collected messages, or `Diverges`
   * when a statement raises without consuming a token, after which the loop repeats that
   * statement forever.
   */
  datatype ParseOutcome = Finished(vars: Vars, errors: seq<string>) | Diverges

  /** Puts the messages collected so far in front of the outcome of the rest of the loop. */
  function Collect(es: seq<string>, r: ParseOutcome): ParseOutcome
  {
    match r
    case Finished(v, es2) => Finished(v, es + es2)
    case Diverges => Diverges
  }

  /** The message a failed statement contributes: `str(e)`. */
  function Messages(out: Result<(), Exc>): seq<string>
  {
    if out.Err? then [out.error.message] else []
  }

  function ParseSpec(vars: Vars, q: PState): (r: ParseOutcome)
    ensures r.Finished? ==> |r.errors| <= Size(q)
    decreases Size(q)
  {
    if q.current.None? then Finished(vars, [])
    else
      var s := StatementSpec(vars, q);
      if Size(s.q) == Size(q) then Diverges
      else Collect(Messages(s.out), ParseSpec(s.vars, s.q))
  }

  /** `compile_program` without its display: lex, then `Parser(tokens.copy()).parse()`. */
  function Compile(text: string): Result<(Lexed, ParseOutcome), Exc>
  {
    match Tokenize(text)
    case Err(x) => Err(x)
    case Ok(l) => Ok((l, ParseSpec(map[], Init(l.tokens))))
  }

  // ---------------------------------------------------------------- parser

  class Parser {
    var current: Option<Token>
    var tokens: seq<Token>
    var variables: Vars

    function State(): PState
      reads this
    {
      Stream(current, tokens)
    }

    constructor (ts: seq<Token>)
      ensures State() == Init(ts) && variables == map[]
    {
      if ts == [] {
        current := None;
        tokens := [];
      } else {
        current := Some(ts[0]);
        tokens := ts[1..];
      }
      variables := map[];
    }

    /** `self.current_token = self.tokens.pop(0) if self.tokens else None`. */
    method Next()
      modifies this
      ensures State() == Pop(old(tokens)) && variables == old(variables)
    {
      if tokens == [] {
        current := None;
      } else {
        current := Some(tokens[0]);
        tokens := tokens[1..];
      }
    }

    method Eat(ttype: TokenType) returns (r: Result<(), Exc>)
      modifies this
      ensures r == EatSpec(old(State()), ttype).out && State() == EatSpec(old(State()), ttype).q
      ensures variables == old(variables)
    {
      while current.Some? && current.value.ttype == ASSIGNMENT && ttype == SEMICOLON
        invariant variables == old(variables)
        invariant EatSpec(old(State()), ttype) == EatSpec(State(), ttype)
        decreases Size(State())
      {
        Next();
      }
      if current.Some? && current.value.ttype == ttype {
        Next();
        return Ok(());
      } else if current.None? {
        return Err(NoneTokenType);
      } else if ttype == SEMICOLON && Tolerated(current.value.ttype) {
        return Ok(());
      }
      return Err(Exc(Exception, "Expected " + Name(ttype) + ", but got " + Name(current.value.ttype)));
    }

    method Factor() returns (r: Result<Value, Exc>)
      modifies this
      ensures r == FactorSpec(old(variables), old(State())).out && State() == FactorSpec(old(variables), old(State())).q
      ensures variables == old(variables)
      decreases Size(State()), 0
    {
      if current.None? {
        return Err(NoneTokenType);
      }
      var t := current.value;
      if t.ttype == NUMBER || t.ttype == TYPE {
        Next();
        return Ok(t.value);
      } else if t.ttype == IDENTIFIER {
        var result := Lookup(variables, t.value);
        Next();
        return Ok(result);
      } else if t.ttype == LEFT_PAREN {
        Next();
        var result := Expr();
        if result.Err? {
          return result;
        }
        var c := Eat(RIGHT_PAREN);
        if c.Err? {
          return Err(c.error);
        }
        return result;
      }
      return Err(Exc(Exception, "Unexpected token: " + Name(t.ttype)));
    }

    method Term() returns (r: Result<Value, Exc>)
      modifies this
      ensures r == TermSpec(old(variables), old(State())).out && State() == TermSpec(old(variables), old(State())).q
      ensures variables == old(variables)
      decreases Size(State()), 2
    {
      var first := Factor();
      if first.Err? {
        return first;
      }
      var result := first.value;
      while current.Some? && current.value.ttype in {Char('*'), Char('/')}
        invariant variables == old(variables)
        invariant TermSpec(old(variables), old(State())) == TermTail(variables, result, State())
        decreases Size(State())
      {
        var op := current.value.ttype.c;
        Next();
        var operand := Factor();
        if operand.Err? {
          return operand;
        }
        var m := MulDiv(op, result, operand.value);
        if m.Err? {
          return Err(m.error);
        }
        result := m.value;
      }
      return Ok(result);
    }

    method Expr() returns (r: Result<Value, Exc>)
      modifies this
      ensures r == ExprSpec(old(variables), old(State())).out && State() == ExprSpec(old(variables), old(State())).q
      ensures variables == old(variables)
      decreases Size(State()), 4
    {
      var first := Term();
      if first.Err? {
        return first;
      }
      var result := first.value;
      while current.Some? && current.value.ttype in {Char('+'), Char('-')}
        invariant variables == old(variables)
        invariant ExprSpec(old(variables), old(State())) == ExprTail(variables, result, State())
        decreases Size(State())
      {
        var op := current.value.ttype.c;
        Next();
        var operand := Term();
        if operand.Err? {
          return operand;
        }
        var a := AddSub(op, result, operand.value);
        if a.Err? {
          return Err(a.error);
        }
        result := a.value;
      }
      return Ok(result);
    }

    method VariableDeclaration() returns (r: Result<(), Exc>)
      requires At(State(), {TYPE})
      modifies this
      ensures var s := DeclarationSpec(old(variables), old(State())); r == s.out && State() == s.q && variables == s.vars
    {
      Next();
      if current.None? {
        return Err(NoneValue);
      }
      var name := current.value.value;
      var e := Eat(IDENTIFIER);
      if e.Err? {
        return e;
      }
      if current.None? {
        return Err(NoneTokenType);
      }
      if current.value.ttype == ASSIGNMENT {
        Next();
        var x := Expr();
        if x.Err? {
          return Err(x.error);
        }
        variables := variables[name := x.value];
        r := Eat(SEMICOLON);
      } else if current.value.ttype == SEMICOLON {
        variables := variables[name := NoneV];
        r := Eat(SEMICOLON);
      } else {
        r := Err(Exc(Exception, "Invalid syntax"));
      }
    }

    method Statement() returns (r: Result<(), Exc>)
      modifies this
      ensures var s := StatementSpec(old(variables), old(State())); r == s.out && State() == s.q && variables == s.vars
    {
      if current.None? {
        return Err(NoneTokenType);
      }
      if current.value.ttype == SEMICOLON {
        r := Eat(SEMICOLON);
      } else if current.value.ttype == TYPE {
        r := VariableDeclaration();
      } else {
        var x := Expr();
        if x.Err? {
          return Err(x.error);
        }
        if current.None? {
          return Err(NoneValue);
        }
        variables := variables[DictKey(current.value.value) := x.value];
        r := Eat(IDENTIFIER);
        if r.Ok? {
          r := Eat(SEMICOLON);
        }
      }
    }

    /**
     * `parse`: runs statements while tokens remain, collecting each failing statement's message.
     * A statement that consumes nothing would be repeated forever; the method reports that as
     * `Diverges` instead of looping.
     */
    method Parse() returns (r: ParseOutcome)
      modifies this
      ensures r == ParseSpec(old(variables), old(State()))
      ensures r.Finished? ==> variables == r.vars
    {
      var errors: seq<string> := [];
      while current.Some?
        invariant ParseSpec(old(variables), old(State())) == Collect(errors, ParseSpec(variables, State()))
        decreases Size(State())
      {
        var size := Size(State());
        var e := Statement();
        if Size(State()) == size {
          return Diverges;
        }
        CollectCollect(errors, Messages(e), ParseSpec(variables, State()));
        errors := errors + Messages(e);
      }
      assert errors + [] == errors;
      return Finished(variables, errors);
    }
  }

  lemma CollectCollect(es: seq<string>, fs: seq<string>, r: ParseOutcome)
    ensures Collect(es, Collect(fs, r)) == Collect(es + fs, r)
  {
    if r.Finished? {
      assert es + (fs + r.errors) == (es + fs) + r.errors;
    }
  }

  // ---------------------------------------------------------------- lexer properties

  /**
   * A reference scan for text with no digits and no letters: whitespace gives nothing, each
   * one-character token character gives its token, and every other character gives its message.
   */
  function SymbolScan(s: string): Lexed
  {
    if s == [] then Lexed([], [])
    else
      var r := SymbolScan(s[1..]);
      if PySpace(s[0]) then r
      else if CharToken(s[0]).Some? then Lexed([CharToken(s[0]).value] + r.tokens, r.errors)
      else Lexed(r.tokens, [InvalidCharacter(s[0])] + r.errors)
  }

  /** Away from numbers and words, `lex` is the character-by-character scan: no character stops it. */
  lemma {:induction false} LexSymbols(s: string, i: nat)
    requires i <= |s| && forall k :: i <= k < |s| ==> !IsDigit(s[k]) && !IsAlpha(s[k])
    ensures LexFrom(s, i) == Ok(SymbolScan(s[i..]))
    decreases |s| - i
  {
    if i < |s| {
      LexSymbols(s, i + 1);
      assert s[i..][1..] == s[i + 1..];
      var r := SymbolScan(s[i + 1..]);
      assert [] + r.tokens == r.tokens && [] + r.errors == r.errors;
    }
  }

  /** "+ @;" gives the tokens `+` and SEMICOLON and one message for `@`. */
  lemma InvalidCharacterSkipped()
    ensures Tokenize("+ @;") == Ok(Lexed([Token(Char('+'), Str("+")), Token(SEMICOLON, Str(";"))], ["Invalid character: @"]))
  {
    var text := "+ @;";
    assert forall k :: 0 <= k < |text| ==> text[k] in {'+', ' ', '@', ';'};
    LexSymbols(text, 0);
    assert text[0..] == text;
    SymbolExample();
  }

  lemma SymbolExample()
    ensures SymbolScan("+ @;") == Lexed([Token(Char('+'), Str("+")), Token(SEMICOLON, Str(";"))], ["Invalid character: @"])
  {
    assert "+ @;"[1..] == " @;" && " @;"[1..] == "@;" && "@;"[1..] == ";" && ";"[1..] == [];
    var semi := Token(SEMICOLON, Str(";"));
    assert SymbolScan(";") == Lexed([semi], []);
    assert "@;"[0] == '@' && !PySpace('@') && CharToken('@').None?;
    assert InvalidCharacter('@') == "Invalid character: @";
    assert SymbolScan("@;") == Lexed([semi], ["Invalid character: @"]);
    assert " @;"[0] == ' ' && PySpace(' ');
    assert SymbolScan(" @;") == Lexed([semi], ["Invalid character: @"]);
    var plus := Token(Char('+'), Str("+"));
    assert "+ @;"[0] == '+' && !PySpace('+') && CharToken('+') == Some(plus);
    assert SymbolScan("+ @;") == Lexed([plus] + [semi], ["Invalid character: @"]);
  }

  /** Every token and every message takes at least one character of the text. */
  lemma {:induction false} LexBound(s: string, i: nat)
    requires i <= |s|
    ensures LexFrom(s, i).Ok? ==> |LexFrom(s, i).value.tokens| + |LexFrom(s, i).value.errors| <= |s| - i
    decreases |s| - i
  {
    if i < |s| && Scanned(s, i).Ok? {
      LexBound(s, ScanEnd(s, i));
    }
  }

  /** Tokens put in front of a scan's outcome. */
  lemma NoNamedBracketJoin(l: Lexed, r: Result<Lexed, Exc>)
    requires NoNamedBracket(l.tokens)
    requires r.Ok? ==> NoNamedBracket(r.value.tokens)
    ensures Join(l.tokens, l.errors, r).Ok? ==> NoNamedBracket(Join(l.tokens, l.errors, r).value.tokens)
  {
    if r.Ok? {
      var ts := l.tokens + r.value.tokens;
      assert forall k :: |l.tokens| <= k < |ts| ==> ts[k] == r.value.tokens[k - |l.tokens|];
    }
  }

  /** The lexer never produces the LEFT_PAREN, RIGHT_PAREN, LEFT_BRACE and RIGHT_BRACE types the parser names. */
  lemma {:induction false} NoNamedBrackets(s: string, i: nat)
    ensures LexFrom(s, i).Ok? ==> NoNamedBracket(LexFrom(s, i).value.tokens)
    decreases |s| - i
  {
    if i < |s| && Scanned(s, i).Ok? {
      NoNamedBrackets(s, ScanEnd(s, i));
      NoNamedBracketJoin(Scanned(s, i).value, LexFrom(s, ScanEnd(s, i)));
    }
  }

  /** A run is an int NUMBER without a dot and a float NUMBER with one; two dots make `float()` raise ValueError. */
  lemma NumberKinds(w: string)
    requires DigitsAndDots(w)
    ensures '.' !in w ==> NumberToken(w) == Ok(Token(NUMBER, Int(DigitsValue(w))))
    ensures Occurrences(w, '.') > 1 ==> NumberToken(w).Err? && NumberToken(w).error.kind == ValueError
    ensures NumberToken(w).Ok? ==> NumberToken(w).value.ttype == NUMBER && (NumberToken(w).value.value.Flt? <==> '.' in w)
  {
    OccurrencesNone(w, '.');
  }

  /** A text that is one digit/dot run starting with a digit lexes to its one NUMBER, or raises what `float()` raises. */
  lemma LexNumber(w: string)
    requires w != [] && IsDigit(w[0]) && DigitsAndDots(w)
    ensures Tokenize(w) == (match NumberToken(w) case Ok(t) => Ok(Lexed([t], [])) case Err(x) => Err(x))
  {
    RunEndAll(w, 0);
    assert w[0..|w|] == w;
    if NumberToken(w).Ok? {
      var t := NumberToken(w).value;
      assert LexFrom(w, |w|) == Ok(Lexed([], []));
      assert [t] + [] == [t];
      var none: seq<string> := [];
      assert none + none == none;
    }
  }

  /** "1.2.3" is not lexed: `float("1.2.3")` raises ValueError out of `lex`. */
  lemma TwoDots()
    ensures Tokenize("1.2.3").Err? && Tokenize("1.2.3").error.kind == ValueError
  {
    LexNumber("1.2.3");
    assert Occurrences("1.2.3", '.') == 2 by {
      assert "1.2.3"[1..] == ".2.3" && ".2.3"[1..] == "2.3" && "2.3"[1..] == ".3" && ".3"[1..] == "3" && "3"[1..] == [];
    }
    NumberKinds("1.2.3");
  }

  /** The end of a run of word characters that fills the rest of the text. */
  /** A text that is one word lexes to one token typed by the keyword table and valued by the word itself. */
  lemma LexWord(w: string)
    requires w != [] && IsAlpha(w[0]) && forall k :: 0 <= k < |w| ==> IsWord(w[k])
    ensures Tokenize(w) == Ok(Lexed([Token(KeywordType(w), Str(w))], []))
  {
    WordEndAll(w, 0);
    assert w[0..|w|] == w;
    var t := Token(KeywordType(w), Str(w));
    assert LexFrom(w, |w|) == Ok(Lexed([], []));
    assert [t] + [] == [t];
    var none: seq<string> := [];
    assert none + none == none;
  }

  /** Keywords are whole words: "integer" is an identifier although it starts with "int". */
  lemma KeywordsAreWholeWords()
    ensures Tokenize("integer") == Ok(Lexed([Token(IDENTIFIER, Str("integer"))], []))
  {
    LexWord("integer");
  }

  /** "int_x" is one identifier: the underscore continues the word. */
  lemma UnderscoreContinuesWord()
    ensures Tokenize("int_x") == Ok(Lexed([Token(IDENTIFIER, Str("int_x"))], []))
  {
    LexWord("int_x");
  }

  /** "void" is a TYPE word, as are "int", "float", "double" and "char". */
  lemma VoidIsType()
    ensures Tokenize("void") == Ok(Lexed([Token(TYPE, Str("void"))], []))
  {
    LexWord("void");
  }

  // ---------------------------------------------------------------- parser properties

  function NumTok(n: int): Token { Token(NUMBER, Int(n)) }

  function IdentTok(w: string): Token { Token(IDENTIFIER, Str(w)) }

  function TypeTok(w: string): Token { Token(TYPE, Str(w)) }

  function OpTok(c: char): Token { Token(Char(c), Str([c])) }

  const AssignTok := Token(ASSIGNMENT, Str("="))

  const SemiTok := Token(SEMICOLON, Str(";"))

  /** `n` ASSIGNMENT tokens. */
  function Assigns(n: nat): (ts: seq<Token>)
    ensures |ts| == n
  {
    if n == 0 then [] else [AssignTok] + Assigns(n - 1)
  }

  /** The skipping loop of `eat(SEMICOLON)` passes over any run of ASSIGNMENT tokens. */
  lemma {:induction false} SkipRun(n: nat, rest: seq<Token>)
    requires rest == [] || rest[0].ttype != ASSIGNMENT
    ensures SkipAssignments(Pop(Assigns(n) + rest)) == Pop(rest)
  {
    if n > 0 {
      assert Assigns(n) + rest == [AssignTok] + (Assigns(n - 1) + rest);
      PopCons(AssignTok, Assigns(n - 1) + rest);
      SkipRun(n - 1, rest);
    } else {
      assert Assigns(n) + rest == rest;
      if rest != [] {
        PopCons(rest[0], rest[1..]);
        assert rest == [rest[0]] + rest[1..];
      }
    }
  }

  /**
   * `eat(SEMICOLON)` after a run of ASSIGNMENT tokens: a SEMICOLON is consumed, a tolerated token
   * is accepted without being consumed, and the end of the tokens raises AttributeError.
   */
  lemma EatSemicolon(n: nat, rest: seq<Token>)
    requires rest == [] || rest[0].ttype != ASSIGNMENT
    ensures rest == [] ==> EatSpec(Pop(Assigns(n) + rest), SEMICOLON) == Step(Err(NoneTokenType), Pop([]))
    ensures rest != [] && rest[0].ttype == SEMICOLON ==> EatSpec(Pop(Assigns(n) + rest), SEMICOLON) == Step(Ok(()), Pop(rest[1..]))
    ensures rest != [] && Tolerated(rest[0].ttype) ==> EatSpec(Pop(Assigns(n) + rest), SEMICOLON) == Step(Ok(()), Pop(rest))
  {
    SkipRun(n, rest);
    if rest != [] {
      PopCons(rest[0], rest[1..]);
      assert rest == [rest[0]] + rest[1..];
    }
  }

  /** `term`'s loop ends at a token that is not `*` or `/`, or at the end of the tokens. */
  lemma TermTailStops(vars: Vars, acc: Value, rest: seq<Token>)
    requires rest == [] || rest[0].ttype !in {Char('*'), Char('/')}
    ensures TermTail(vars, acc, Pop(rest)) == Step(Ok(acc), Pop(rest))
  {
    if rest != [] {
      PopCons(rest[0], rest[1..]);
      assert rest == [rest[0]] + rest[1..];
    }
  }

  /** `expr`'s loop ends at a token that is not `+` or `-`, or at the end of the tokens. */
  lemma ExprTailStops(vars: Vars, acc: Value, rest: seq<Token>)
    requires rest == [] || rest[0].ttype !in {Char('+'), Char('-')}
    ensures ExprTail(vars, acc, Pop(rest)) == Step(Ok(acc), Pop(rest))
  {
    if rest != [] {
      PopCons(rest[0], rest[1..]);
      assert rest == [rest[0]] + rest[1..];
    }
  }

  /** The tokens `factor` reads without recursing: NUMBER, TYPE and IDENTIFIER. */
  predicate IsAtom(t: Token)
  {
    t.ttype in {NUMBER, TYPE, IDENTIFIER}
  }

  /** The value `factor` gives an atom: a variable's value (None when unbound), or the token's own value. */
  function AtomValue(vars: Vars, t: Token): Value
  {
    if t.ttype == IDENTIFIER then Lookup(vars, t.value) else t.value
  }

  /** An atom is a whole term when no `*` or `/` follows it. */
  lemma TermAtom(vars: Vars, t: Token, rest: seq<Token>)
    requires IsAtom(t)
    requires rest == [] || rest[0].ttype !in {Char('*'), Char('/')}
    ensures TermSpec(vars, Stream(Some(t), rest)) == Step(Ok(AtomValue(vars, t)), Pop(rest))
  {
    TermTailStops(vars, AtomValue(vars, t), rest);
  }

  /** An atom is a whole expression when no arithmetic operator follows it. */
  lemma ExprAtom(vars: Vars, t: Token, rest: seq<Token>)
    requires IsAtom(t)
    requires rest == [] || rest[0].ttype !in {Char('*'), Char('/'), Char('+'), Char('-')}
    ensures ExprSpec(vars, Stream(Some(t), rest)) == Step(Ok(AtomValue(vars, t)), Pop(rest))
  {
    TermAtom(vars, t, rest);
    ExprTailStops(vars, AtomValue(vars, t), rest);
  }

  /** One `*` or `/` round of `term`'s loop with an atom as the right operand. */
  lemma TermTailStep(vars: Vars, acc: Value, c: char, t: Token, rest: seq<Token>)
    requires c == '*' || c == '/'
    requires IsAtom(t)
    ensures TermTail(vars, acc, Stream(Some(OpTok(c)), [t] + rest))
            == if MulDiv(c, acc, AtomValue(vars, t)).Err? then Step(Err(MulDiv(c, acc, AtomValue(vars, t)).error), Pop(rest))
               else TermTail(vars, MulDiv(c, acc, AtomValue(vars, t)).value, Pop(rest))
  {
    PopCons(t, rest);
  }

  /** One round of `expr`'s loop at a `+` or `-` token: its term, then the running value combined with it. */
  lemma ExprTailRound(vars: Vars, acc: Value, c: char, rest: seq<Token>, v: Value, q: PState)
    requires c == '+' || c == '-'
    requires TermSpec(vars, Pop(rest)) == Step(Ok(v), q)
    requires AddSub(c, acc, v).Ok?
    ensures ExprTail(vars, acc, Stream(Some(OpTok(c)), rest)) == ExprTail(vars, AddSub(c, acc, v).value, q)
  {
  }

  /** One round of `expr`'s loop whose term is a lone atom. */
  lemma ExprTailAtom(vars: Vars, acc: Value, c: char, t: Token, rest: seq<Token>)
    requires c == '+' || c == '-'
    requires IsAtom(t)
    requires rest == [] || rest[0].ttype !in {Char('*'), Char('/')}
    requires AddSub(c, acc, AtomValue(vars, t)).Ok?
    ensures ExprTail(vars, acc, Stream(Some(OpTok(c)), [t] + rest))
            == ExprTail(vars, AddSub(c, acc, AtomValue(vars, t)).value, Pop(rest))
  {
    PopCons(t, rest);
    TermAtom(vars, t, rest);
    ExprTailRound(vars, acc, c, [t] + rest, AtomValue(vars, t), Pop(rest));
  }

  /** The last round of `expr`'s loop, whose term is a lone atom that the end of the expression follows. */
  lemma ExprTailAtomLast(vars: Vars, acc: Value, c: char, t: Token, rest: seq<Token>)
    requires c == '+' || c == '-'
    requires IsAtom(t) && AddSub(c, acc, AtomValue(vars, t)).Ok?
    requires rest == [] || rest[0].ttype !in {Char('*'), Char('/'), Char('+'), Char('-')}
    ensures ExprTail(vars, acc, Pop([OpTok(c)] + ([t] + rest))) == Step(AddSub(c, acc, AtomValue(vars, t)), Pop(rest))
  {
    PopCons(OpTok(c), [t] + rest);
    ExprTailAtom(vars, acc, c, t, rest);
    ExprTailStops(vars, AddSub(c, acc, AtomValue(vars, t)).value, rest);
  }

  /** `b * c` is a whole term when no `*` or `/` follows it. */
  lemma ProductTerm(vars: Vars, b: Token, c: Token, rest: seq<Token>)
    requires IsAtom(b) && IsAtom(c) && AtomValue(vars, b).Int? && AtomValue(vars, c).Int?
    requires rest == [] || rest[0].ttype !in {Char('*'), Char('/')}
    ensures TermSpec(vars, Pop([b] + ([OpTok('*')] + ([c] + rest)))) == Step(Ok(Int(AtomValue(vars, b).i * AtomValue(vars, c).i)), Pop(rest))
  {
    var y, z := AtomValue(vars, b).i, AtomValue(vars, c).i;
    PopCons(b, [OpTok('*')] + ([c] + rest));
    PopCons(OpTok('*'), [c] + rest);
    TermTailStep(vars, Int(y), '*', c, rest);
    TermTailStops(vars, Int(y * z), rest);
  }

  /** An expression that starts with an atom and a `+` or `-`: the atom's value enters `expr`'s loop combined with the next term. */
  lemma ExprAtomThen(vars: Vars, a: Token, c: char, rest: seq<Token>, v: Value, q: PState)
    requires IsAtom(a) && (c == '+' || c == '-')
    requires TermSpec(vars, Pop(rest)) == Step(Ok(v), q)
    requires AddSub(c, AtomValue(vars, a), v).Ok?
    ensures ExprSpec(vars, Stream(Some(a), [OpTok(c)] + rest)) == ExprTail(vars, AddSub(c, AtomValue(vars, a), v).value, q)
  {
    TermAtom(vars, a, [OpTok(c)] + rest);
    PopCons(OpTok(c), rest);
    ExprTailRound(vars, AtomValue(vars, a), c, rest, v, q);
  }

  /** An expression of an atom, a `+` or `-`, and one more term that the end of the expression follows. */
  lemma ExprAtomLast(vars: Vars, a: Token, c: char, rest: seq<Token>, v: Value, after: seq<Token>)
    requires IsAtom(a) && (c == '+' || c == '-')
    requires TermSpec(vars, Pop(rest)) == Step(Ok(v), Pop(after))
    requires AddSub(c, AtomValue(vars, a), v).Ok?
    requires after == [] || after[0].ttype !in {Char('+'), Char('-')}
    ensures ExprSpec(vars, Stream(Some(a), [OpTok(c)] + rest)) == Step(AddSub(c, AtomValue(vars, a), v), Pop(after))
  {
    ExprAtomThen(vars, a, c, rest, v, Pop(after));
    ExprTailStops(vars, AddSub(c, AtomValue(vars, a), v).value, after);
  }

  /** `a + b * c` is a + (b * c), for atoms with integer values. */
  lemma ProductInsideSum(vars: Vars, a: Token, b: Token, c: Token, rest: seq<Token>)
    requires IsAtom(a) && IsAtom(b) && IsAtom(c)
    requires AtomValue(vars, a).Int? && AtomValue(vars, b).Int? && AtomValue(vars, c).Int?
    requires rest == [] || rest[0].ttype !in {Char('*'), Char('/'), Char('+'), Char('-')}
    ensures ExprSpec(vars, Stream(Some(a), [OpTok('+'), b, OpTok('*'), c] + rest))
            == Step(Ok(Int(AtomValue(vars, a).i + AtomValue(vars, b).i * AtomValue(vars, c).i)), Pop(rest))
  {
    Cons4(OpTok('+'), b, OpTok('*'), c, rest);
    ProductTerm(vars, b, c, rest);
    ExprAtomLast(vars, a, '+', [b] + ([OpTok('*')] + ([c] + rest)), Int(AtomValue(vars, b).i * AtomValue(vars, c).i), rest);
  }

  /** `a - b - c` is (a - b) - c, for atoms with integer values. */
  lemma DifferenceLeftAssociative(vars: Vars, a: Token, b: Token, c: Token, rest: seq<Token>)
    requires IsAtom(a) && IsAtom(b) && IsAtom(c)
    requires AtomValue(vars, a).Int? && AtomValue(vars, b).Int? && AtomValue(vars, c).Int?
    requires rest == [] || rest[0].ttype !in {Char('*'), Char('/'), Char('+'), Char('-')}
    ensures ExprSpec(vars, Stream(Some(a), [OpTok('-'), b, OpTok('-'), c] + rest))
            == Step(Ok(Int((AtomValue(vars, a).i - AtomValue(vars, b).i) - AtomValue(vars, c).i)), Pop(rest))
  {
    var x, y, z := AtomValue(vars, a).i, AtomValue(vars, b).i, AtomValue(vars, c).i;
    var minus := OpTok('-');
    var r2 := [minus] + ([c] + rest);
    Cons4(minus, b, minus, c, rest);
    PopCons(b, r2);
    TermAtom(vars, b, r2);
    ExprAtomThen(vars, a, '-', [b] + r2, Int(y), Pop(r2));
    ExprTailAtomLast(vars, Int(x - y), '-', c, rest);
  }

  /**
   * `x * int` with `x` unbound multiplies None by the string "int": Python's TypeError names the
   * left operand's type.
   */
  lemma UnboundTimesTypeWord(vars: Vars, name: string)
    requires Str(name) !in vars
    ensures MulDiv('*', AtomValue(vars, IdentTok(name)), AtomValue(vars, TypeTok("int")))
            == Err(Exc(TypeError, "can't multiply sequence by non-int of type 'NoneType'"))
  {
    ArithSequenceRepeat("int", NoneV);
    assert "can't multiply sequence by non-int of type '" + TypeName(NoneV) + "'"
        == "can't multiply sequence by non-int of type 'NoneType'";
  }

  /** A term whose divisor is 0 raises "Division by zero" once the divisor has been consumed. */
  lemma TermDivisionByZero(vars: Vars, a: int, rest: seq<Token>)
    ensures TermSpec(vars, Stream(Some(NumTok(a)), [OpTok('/')] + ([NumTok(0)] + rest)))
            == Step(Err(Exc(Exception, "Division by zero")), Pop(rest))
  {
    PopCons(OpTok('/'), [NumTok(0)] + rest);
    TermTailStep(vars, Int(a), '/', NumTok(0), rest);
    assert EqualsZero(Int(0));
  }

  /** A zero divisor raises "Division by zero" once the divisor has been consumed. */
  lemma DivisionByZero(vars: Vars, a: int, rest: seq<Token>)
    ensures ExprSpec(vars, Init([NumTok(a), OpTok('/'), NumTok(0)] + rest)) == Step(Err(Exc(Exception, "Division by zero")), Pop(rest))
  {
    Cons3(NumTok(a), OpTok('/'), NumTok(0), rest);
    PopCons(NumTok(a), [OpTok('/')] + ([NumTok(0)] + rest));
    TermDivisionByZero(vars, a, rest);
  }

  /** Reading an unbound identifier yields None. */
  lemma UnboundIsNone(vars: Vars, name: string, rest: seq<Token>)
    requires Str(name) !in vars
    ensures FactorSpec(vars, Init([IdentTok(name)] + rest)) == Step(Ok(NoneV), Pop(rest))
  {
    PopCons(IdentTok(name), rest);
  }

  /** `TYPE IDENT = e ;` binds IDENT to the value of `e` once `e` is parsed up to the SEMICOLON. */
  lemma DeclareWith(vars: Vars, ty: string, name: string, body: seq<Token>, v: Value, rest: seq<Token>)
    requires ExprSpec(vars, Pop(body + ([SemiTok] + rest))) == Step(Ok(v), Stream(Some(SemiTok), rest))
    ensures StatementSpec(vars, Stream(Some(TypeTok(ty)), [IdentTok(name), AssignTok] + body + ([SemiTok] + rest)))
            == SStep(Ok(()), Pop(rest), vars[Str(name) := v])
  {
    var tail := body + ([SemiTok] + rest);
    assert [IdentTok(name), AssignTok] + body + ([SemiTok] + rest) == [IdentTok(name)] + ([AssignTok] + tail);
    PopCons(IdentTok(name), [AssignTok] + tail);
    PopCons(AssignTok, tail);
    assert EatSpec(Stream(Some(SemiTok), rest), SEMICOLON) == Step(Ok(()), Pop(rest));
  }

  /** `TYPE IDENT = a ;` binds IDENT to the atom's value: a number, another variable's value, or a TYPE word's own text. */
  lemma DeclareWithValue(vars: Vars, ty: string, name: string, t: Token, rest: seq<Token>)
    requires IsAtom(t)
    ensures StatementSpec(vars, Init([TypeTok(ty), IdentTok(name), AssignTok, t, SemiTok] + rest))
            == SStep(Ok(()), Pop(rest), vars[Str(name) := AtomValue(vars, t)])
  {
    assert [TypeTok(ty), IdentTok(name), AssignTok, t, SemiTok] + rest == [TypeTok(ty)] + ([IdentTok(name), AssignTok] + [t] + ([SemiTok] + rest));
    PopCons(TypeTok(ty), [IdentTok(name), AssignTok] + [t] + ([SemiTok] + rest));
    PopCons(t, [SemiTok] + rest);
    PopCons(SemiTok, rest);
    ExprAtom(vars, t, [SemiTok] + rest);
    DeclareWith(vars, ty, name, [t], AtomValue(vars, t), rest);
  }

  /** `TYPE IDENT ;` binds IDENT to None. */
  lemma DeclareWithoutValue(vars: Vars, ty: string, name: string, rest: seq<Token>)
    ensures StatementSpec(vars, Init([TypeTok(ty), IdentTok(name), SemiTok] + rest))
            == SStep(Ok(()), Pop(rest), vars[Str(name) := NoneV])
  {
    assert [TypeTok(ty), IdentTok(name), SemiTok] + rest == [TypeTok(ty)] + ([IdentTok(name)] + ([SemiTok] + rest));
    PopCons(TypeTok(ty), [IdentTok(name)] + ([SemiTok] + rest));
    PopCons(IdentTok(name), [SemiTok] + rest);
    PopCons(SemiTok, rest);
  }

  /** "int x = int;" binds x to the string "int". */
  lemma TypeWordAsValue()
    ensures StatementSpec(map[], Init([TypeTok("int"), IdentTok("x"), AssignTok, TypeTok("int"), SemiTok]))
            == SStep(Ok(()), Pop([]), map[Str("x") := Str("int")])
  {
    DeclareWithValue(map[], "int", "x", TypeTok("int"), []);
    assert [TypeTok("int"), IdentTok("x"), AssignTok, TypeTok("int"), SemiTok] + [] == [TypeTok("int"), IdentTok("x"), AssignTok, TypeTok("int"), SemiTok];
  }

  /** A statement that is not a declaration binds the IDENTIFIER after its expression, then eats a SEMICOLON. */
  lemma StatementBinds(vars: Vars, q: PState, v: Value, name: string, rest: seq<Token>)
    requires q.current.Some? && q.current.value.ttype !in {SEMICOLON, TYPE}
    requires ExprSpec(vars, q) == Step(Ok(v), Stream(Some(IdentTok(name)), rest))
    ensures StatementSpec(vars, q) == EatIn(vars[Str(name) := v], Pop(rest), SEMICOLON)
  {
    assert EatSpec(Stream(Some(IdentTok(name)), rest), IDENTIFIER) == Step(Ok(()), Pop(rest));
  }

  /** `a IDENT ;` binds IDENT to the atom's value. */
  lemma ExpressionBinds(vars: Vars, t: Token, name: string, rest: seq<Token>)
    requires IsAtom(t) && t.ttype != TYPE
    ensures StatementSpec(vars, Init([t, IdentTok(name), SemiTok] + rest))
            == SStep(Ok(()), Pop(rest), vars[Str(name) := AtomValue(vars, t)])
  {
    Cons3(t, IdentTok(name), SemiTok, rest);
    PopCons(t, [IdentTok(name)] + ([SemiTok] + rest));
    ExprAtom(vars, t, [IdentTok(name)] + ([SemiTok] + rest));
    PopCons(IdentTok(name), [SemiTok] + rest);
    StatementBinds(vars, Stream(Some(t), [IdentTok(name)] + ([SemiTok] + rest)), AtomValue(vars, t), name, [SemiTok] + rest);
    PopCons(SemiTok, rest);
    assert EatSpec(Stream(Some(SemiTok), rest), SEMICOLON) == Step(Ok(()), Pop(rest));
  }

  /**
   * A statement that is not a declaration, whose expression is followed by a token other than an
   * IDENTIFIER, binds that token's value before `eat(IDENTIFIER)` raises, and leaves the token unread.
   */
  lemma StatementWithoutIdentifier(vars: Vars, q: PState, v: Value, t: Token, rest: seq<Token>)
    requires q.current.Some? && q.current.value.ttype !in {SEMICOLON, TYPE}
    requires ExprSpec(vars, q) == Step(Ok(v), Stream(Some(t), rest))
    requires t.ttype != IDENTIFIER
    ensures StatementSpec(vars, q)
            == SStep(Err(Exc(Exception, "Expected IDENTIFIER, but got " + Name(t.ttype))), Stream(Some(t), rest), vars[DictKey(t.value) := v])
  {
    assert "Expected " + Name(IDENTIFIER) + ", but got " == "Expected IDENTIFIER, but got ";
  }

  /** The statement "5;" binds ";" to 5 and then fails the IDENTIFIER check, leaving the SEMICOLON unread. */
  lemma BareNumberStatement()
    ensures StatementSpec(map[], Init([NumTok(5), SemiTok]))
            == SStep(Err(Exc(Exception, "Expected IDENTIFIER, but got SEMICOLON")), Stream(Some(SemiTok), []), map[Str(";") := Int(5)])
  {
    PopCons(NumTok(5), [SemiTok]);
    ExprAtom(map[], NumTok(5), [SemiTok]);
    PopCons(SemiTok, []);
    StatementWithoutIdentifier(map[], Init([NumTok(5), SemiTok]), Int(5), SemiTok, []);
    assert "Expected IDENTIFIER, but got " + Name(SEMICOLON) == "Expected IDENTIFIER, but got SEMICOLON";
  }

  /** "5;" binds ";" to 5 before the IDENTIFIER check fails; the SEMICOLON left over is then a statement of its own. */
  lemma BareNumber()
    ensures ParseSpec(map[], Init([NumTok(5), SemiTok])) == Finished(map[Str(";") := Int(5)], ["Expected IDENTIFIER, but got SEMICOLON"])
  {
    BareNumberStatement();
    var s := StatementSpec(map[], Init([NumTok(5), SemiTok]));
    PopCons(SemiTok, []);
    EatSemicolon(0, [SemiTok]);
    assert ParseSpec(s.vars, s.q) == Finished(s.vars, []);
  }

  /**
   * "5 4.0;" after a statement that bound the number 4 overwrites that entry: 4.0 == 4, so the dict
   * gains no key. The IDENTIFIER check then fails at `4.0`.
   */
  lemma EqualNumberKeysShareEntry(vars: Vars, rest: seq<Token>)
    requires Int(4) in vars
    ensures var r := StatementSpec(vars, Stream(Some(NumTok(5)), [Token(NUMBER, Flt(4.0))] + rest));
            r.vars == vars[Int(4) := Int(5)] && r.vars.Keys == vars.Keys
  {
    var t := Token(NUMBER, Flt(4.0));
    PopCons(t, rest);
    ExprAtom(vars, NumTok(5), [t] + rest);
    StatementWithoutIdentifier(vars, Stream(Some(NumTok(5)), [t] + rest), Int(5), t, rest);
    assert DictKey(t.value) == Int(4);
  }

  /** A statement at `(` fails without consuming it, so `parse` repeats that statement forever. */
  lemma ParenthesisDiverges(vars: Vars, rest: seq<Token>)
    ensures ParseSpec(vars, Stream(Some(OpTok('(')), rest)) == Diverges
  {
    var q := Stream(Some(OpTok('(')), rest);
    assert FactorSpec(vars, q).out.Err? && FactorSpec(vars, q).q == q;
    assert ExprSpec(vars, q).q == q;
  }

  /** Every program that starts with `(` and lexes makes `parse` loop forever. */
  lemma ParenthesisProgramDiverges(text: string)
    requires text != [] && text[0] == '('
    ensures Compile(text).Ok? ==> Compile(text).value.1 == Diverges
  {
    if Tokenize(text).Ok? {
      var l := LexFrom(text, 1);
      assert LexFrom(text, 0) == Join([OpTok('(')], [], l);
      var ts := Tokenize(text).value.tokens;
      assert ts == [OpTok('(')] + l.value.tokens;
      PopCons(OpTok('('), l.value.tokens);
      ParenthesisDiverges(map[], l.value.tokens);
    }
  }
}
