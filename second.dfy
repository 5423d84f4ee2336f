/**
 * Second.cpp: statements `TYPE NAME = expr ;` and `NAME = expr ;` over 32-bit integers. The
 * lexer is lazy: the parser asks for one token at a time, so lexing stays one token ahead of
 * parsing. `+ - * /` share one precedence level and apply strictly left to right. Every error
 * prints a message and calls `exit(1)`. The parser keeps every token it consumes in `tokens`.
 */
module Second {
  import opened Common
  import opened Chars
  import opened Cpp

  datatype TokenType =
    | INTEGER | FLOAT | DOUBLE | IDENTIFIER | PLUS | MINUS | MULTIPLY | DIVIDE | EQUAL | SEMICOLON
    | KEYWORD | EOF_TOKEN

  /** The number `operator<<` prints for a token type: its position in the enumeration. */
  function Ordinal(t: TokenType): nat
  {
    match t
    case INTEGER => 0 case FLOAT => 1 case DOUBLE => 2 case IDENTIFIER => 3 case PLUS => 4
    case MINUS => 5 case MULTIPLY => 6 case DIVIDE => 7 case EQUAL => 8 case SEMICOLON => 9
    case KEYWORD => 10 case EOF_TOKEN => 11
  }

  datatype Token = Token(ttype: TokenType, name: string, value: string)

  const EofToken := Token(EOF_TOKEN, "EOF", "")

  // ---------------------------------------------------------------- lexer specification

  /** isKeyword: the three type names. */
  predicate IsKeyword(w: string)
  {
    w in {"int", "float", "double"}
  }

  /** parseNumber on its digit/dot run: DOUBLE when the run has a dot, INTEGER otherwise. */
  function NumberToken(w: string): (t: Token)
    ensures t.ttype in {INTEGER, DOUBLE} && t.value == w
  {
    if '.' in w then Token(DOUBLE, "DOUBLE", w) else Token(INTEGER, "INTEGER", w)
  }

  /** parseIdentifierOrKeyword on its word: a keyword is named by itself. */
  function WordToken(w: string): (t: Token)
    ensures t.ttype in {KEYWORD, IDENTIFIER} && t.value == w
  {
    if IsKeyword(w) then Token(KEYWORD, w, w) else Token(IDENTIFIER, "IDENTIFIER", w)
  }

  /** The one-character tokens. */
  function OperatorToken(c: char): (r: Option<Token>)
    ensures r.Some? ==> r.value.value == [c]
  {
    match c
    case '+' => Some(Token(PLUS, "PLUS", "+"))
    case '-' => Some(Token(MINUS, "MINUS", "-"))
    case '*' => Some(Token(MULTIPLY, "MULTIPLY", "*"))
    case '/' => Some(Token(DIVIDE, "DIVIDE", "/"))
    case '=' => Some(Token(EQUAL, "EQUAL", "="))
    case ';' => Some(Token(SEMICOLON, "SEMICOLON", ";"))
    case _ => None
  }

  /** getNextToken with the cursor at `i`: the token and where the cursor stops, or the exit. */
  function NextAt(s: string, i: nat): (r: Result<(Token, nat), Failure>)
    ensures r.Ok? ==> i <= r.value.1 && (r.value.1 <= |s| || r.value.1 == i)
    ensures r.Ok? && r.value.0.ttype != EOF_TOKEN ==> i < r.value.1 <= |s|
    ensures r.Ok? && r.value.0.ttype == EOF_TOKEN ==> r.value.0 == EofToken && r.value.1 >= |s|
    decreases |s| - i
  {
    if i >= |s| then Ok((EofToken, i))
    else if IsDigit(s[i]) then Ok((NumberToken(Lexeme(s, i)), RunEnd(s, i)))
    else if IsAlpha(s[i]) || s[i] == '_' then Ok((WordToken(s[i..WordEnd(s, i)]), WordEnd(s, i)))
    else if OperatorToken(s[i]).Some? then Ok((OperatorToken(s[i]).value, i + 1))
    else if CSpace(s[i]) then NextAt(s, i + 1)
    else Err(UnrecognizedCharacter(s[i]))
  }

  // ---------------------------------------------------------------- lexer

  class Lexer {
    const input: string
    var currentPos: nat

    constructor (text: string)
      ensures input == text && currentPos == 0
    {
      input := text;
      currentPos := 0;
    }

    method GetNextToken() returns (r: Result<Token, Failure>)
      modifies this
      ensures r.Ok? ==> NextAt(input, old(currentPos)) == Ok((r.value, currentPos))
      ensures r.Err? ==> NextAt(input, old(currentPos)) == Err(r.error)
    {
      while currentPos < |input|
        invariant NextAt(input, old(currentPos)) == NextAt(input, currentPos)
        decreases |input| - currentPos
      {
        var c := input[currentPos];
        if IsDigit(c) {
          var t := ParseNumber();
          return Ok(t);
        } else if IsAlpha(c) || c == '_' {
          var t := ParseIdentifierOrKeyword();
          return Ok(t);
        } else if c == '+' {
          currentPos := currentPos + 1;
          return Ok(Token(PLUS, "PLUS", "+"));
        } else if c == '-' {
          currentPos := currentPos + 1;
          return Ok(Token(MINUS, "MINUS", "-"));
        } else if c == '*' {
          currentPos := currentPos + 1;
          return Ok(Token(MULTIPLY, "MULTIPLY", "*"));
        } else if c == '/' {
          currentPos := currentPos + 1;
          return Ok(Token(DIVIDE, "DIVIDE", "/"));
        } else if c == '=' {
          currentPos := currentPos + 1;
          return Ok(Token(EQUAL, "EQUAL", "="));
        } else if c == ';' {
          currentPos := currentPos + 1;
          return Ok(Token(SEMICOLON, "SEMICOLON", ";"));
        } else if CSpace(c) {
          currentPos := currentPos + 1;
        } else {
          return Err(UnrecognizedCharacter(c));
        }
      }
      return Ok(EofToken);
    }

    method ParseNumber() returns (t: Token)
      requires currentPos < |input| && IsDigit(input[currentPos])
      modifies this
      ensures currentPos == RunEnd(input, old(currentPos))
      ensures t == NumberToken(Lexeme(input, old(currentPos)))
    {
      ghost var start := currentPos;
      var value := "";
      while currentPos < |input| && (IsDigit(input[currentPos]) || input[currentPos] == '.')
        invariant start <= currentPos <= RunEnd(input, start)
        invariant value == input[start..currentPos]
        decreases |input| - currentPos
      {
        ExtendRun(input, start, currentPos);
        value := value + [input[currentPos]];
        currentPos := currentPos + 1;
      }
      RunStops(input, start, currentPos);
      if '.' in value {
        t := Token(DOUBLE, "DOUBLE", value);
      } else {
        t := Token(INTEGER, "INTEGER", value);
      }
    }

    method ParseIdentifierOrKeyword() returns (t: Token)
      requires currentPos <= |input|
      modifies this
      ensures currentPos == WordEnd(input, old(currentPos))
      ensures t == WordToken(input[old(currentPos)..currentPos])
    {
      ghost var start := currentPos;
      var identifier := "";
      while currentPos < |input| && (IsAlnum(input[currentPos]) || input[currentPos] == '_')
        invariant start <= currentPos <= WordEnd(input, start)
        invariant identifier == input[start..currentPos]
        decreases |input| - currentPos
      {
        identifier := identifier + [input[currentPos]];
        currentPos := currentPos + 1;
      }
      if IsKeyword(identifier) {
        t := Token(KEYWORD, identifier, identifier);
      } else {
        t := Token(IDENTIFIER, "IDENTIFIER", identifier);
      }
    }
  }

  // ---------------------------------------------------------------- parser specification

  /** The declared variables: name to (declared type, value). */
  type Vars = map<string, (string, int)>

  /**
   * The parser's state over the input: the lexer's cursor, `currentToken`, `variables` and
   * `tokens`, the list of every token consumed so far.
   */
  datatype PState = PState(pos: nat, cur: Token, vars: Vars, seen: seq<Token>)

  /** A measure that every `eat` of a token other than EOF_TOKEN decreases. */
  function Measure(s: string, st: PState): nat
  {
    (if st.pos <= |s| then 2 * (|s| - st.pos) else 0) + (if st.cur.ttype == EOF_TOKEN then 0 else 1)
  }

  /** `eat`: a match records the token and lexes the next one; a mismatch exits. */
  function EatSpec(s: string, st: PState, ttype: TokenType): (r: Result<PState, Failure>)
    ensures r.Ok? && ttype != EOF_TOKEN ==> Measure(s, r.value) < Measure(s, st)
    ensures r.Ok? ==> r.value.vars == st.vars
  {
    if st.cur.ttype != ttype then Err(ExpectedToken(Ordinal(ttype), Ordinal(st.cur.ttype)))
    else
      match NextAt(s, st.pos)
      case Err(x) => Err(x)
      case Ok((t, p)) => Ok(PState(p, t, st.vars, st.seen + [st.cur]))
  }

  /** `parseTerm`: a number converted by stoi before it is eaten, or a declared variable's value after it is eaten. */
  function TermSpec(s: string, st: PState): (r: Result<(int, PState), Failure>)
    ensures r.Ok? ==> Measure(s, r.value.1) < Measure(s, st) && r.value.1.vars == st.vars
  {
    var t := st.cur;
    if t.ttype in {INTEGER, FLOAT, DOUBLE} then
      match Stoi(t.value)
      case Err(x) => Err(x)
      case Ok(v) =>
        match EatSpec(s, st, t.ttype)
        case Err(x) => Err(x)
        case Ok(st1) => Ok((v, st1))
    else if t.ttype == IDENTIFIER then
      match EatSpec(s, st, IDENTIFIER)
      case Err(x) => Err(x)
      case Ok(st1) =>
        if t.value in st.vars then Ok((st.vars[t.value].1, st1)) else Err(NotDeclared(t.value))
    else
      Err(UnexpectedInTerm(Ordinal(t.ttype)))
  }

  /** One `result op= termValue` of `parseExpression`'s loop; a zero divisor exits before dividing. */
  function Apply(op: TokenType, acc: int, v: int): (r: Result<int, Failure>)
    requires op in {PLUS, MINUS, MULTIPLY, DIVIDE}
    ensures r.Ok? ==> InInt(r.value)
    ensures op == DIVIDE && v == 0 <==> r == Err(DivisionByZero)
  {
    match op
    case PLUS => Checked(acc + v)
    case MINUS => Checked(acc - v)
    case MULTIPLY => Checked(acc * v)
    case DIVIDE => if v == 0 then Err(DivisionByZero) else Checked(TruncDiv(acc, v))
  }

  predicate IsOperator(t: TokenType)
  {
    t in {PLUS, MINUS, MULTIPLY, DIVIDE}
  }

  /** `parseExpression`'s loop, entered with `acc` as `result`. */
  function ExprTail(s: string, acc: int, st: PState): (r: Result<(int, PState), Failure>)
    ensures r.Ok? ==> Measure(s, r.value.1) <= Measure(s, st) && r.value.1.vars == st.vars
    decreases Measure(s, st)
  {
    var op := st.cur.ttype;
    if !IsOperator(op) then Ok((acc, st))
    else
      match EatSpec(s, st, op)
      case Err(x) => Err(x)
      case Ok(st1) =>
        match TermSpec(s, st1)
        case Err(x) => Err(x)
        case Ok((v, st2)) =>
          match Apply(op, acc, v)
          case Err(x) => Err(x)
          case Ok(acc2) => ExprTail(s, acc2, st2)
  }

  function ExprSpec(s: string, st: PState): (r: Result<(int, PState), Failure>)
    ensures r.Ok? ==> Measure(s, r.value.1) < Measure(s, st) && r.value.1.vars == st.vars
  {
    match TermSpec(s, st)
    case Err(x) => Err(x)
    case Ok((v, st1)) => ExprTail(s, v, st1)
  }

  /** The `= expr ;` that ends both kinds of statement: the expression's value and the state after the `;`. */
  function AssignedValue(s: string, st: PState): (r: Result<(int, PState), Failure>)
    ensures r.Ok? ==> Measure(s, r.value.1) < Measure(s, st) && r.value.1.vars == st.vars
  {
    match EatSpec(s, st, EQUAL)
    case Err(x) => Err(x)
    case Ok(st1) =>
      match ExprSpec(s, st1)
      case Err(x) => Err(x)
      case Ok((v, st2)) =>
        match EatSpec(s, st2, SEMICOLON)
        case Err(x) => Err(x)
        case Ok(st3) => Ok((v, st3))
  }

  /** `parseVariableDeclaration`: `KEYWORD NAME = expr ;` stores (type, value) under NAME, replacing any entry. */
  function DeclarationSpec(s: string, st: PState): (r: Result<PState, Failure>)
    ensures r.Ok? ==> Measure(s, r.value) < Measure(s, st)
  {
    var variableType := st.cur.value;
    match EatSpec(s, st, KEYWORD)
    case Err(x) => Err(x)
    case Ok(st1) =>
      var name := st1.cur.value;
      match EatSpec(s, st1, IDENTIFIER)
      case Err(x) => Err(x)
      case Ok(st2) =>
        match AssignedValue(s, st2)
        case Err(x) => Err(x)
        case Ok((v, st3)) => Ok(st3.(vars := st3.vars[name := (variableType, v)]))
  }

  /** `parseAssignment`: `NAME = expr ;` replaces the value of a declared NAME and keeps its type. */
  function AssignmentSpec(s: string, st: PState): (r: Result<PState, Failure>)
    ensures r.Ok? ==> Measure(s, r.value) < Measure(s, st)
  {
    var name := st.cur.value;
    match EatSpec(s, st, IDENTIFIER)
    case Err(x) => Err(x)
    case Ok(st1) =>
      match AssignedValue(s, st1)
      case Err(x) => Err(x)
      case Ok((v, st2)) =>
        if name in st2.vars then Ok(st2.(vars := st2.vars[name := (st2.vars[name].0, v)]))
        else Err(NotDeclared(name))
  }

  /** `parseStatement`: a declaration after KEYWORD, an assignment after IDENTIFIER, else exit. */
  function StatementSpec(s: string, st: PState): (r: Result<PState, Failure>)
    ensures r.Ok? ==> Measure(s, r.value) < Measure(s, st)
  {
    if st.cur.ttype == KEYWORD then DeclarationSpec(s, st)
    else if st.cur.ttype == IDENTIFIER then AssignmentSpec(s, st)
    else Err(UnexpectedInStatement(Ordinal(st.cur.ttype)))
  }

  /** `parseProgram`: statements until the current token is EOF_TOKEN. */
  function ProgramSpec(s: string, st: PState): (r: Result<PState, Failure>)
    ensures r.Ok? ==> r.value.cur.ttype == EOF_TOKEN
    decreases Measure(s, st)
  {
    if st.cur.ttype == EOF_TOKEN then Ok(st)
    else
      match StatementSpec(s, st)
      case Err(x) => Err(x)
      case Ok(st1) => ProgramSpec(s, st1)
  }

  /** The parser's constructor: the first token is lexed before any parsing. */
  function Start(s: string): Result<PState, Failure>
  {
    match NextAt(s, 0)
    case Err(x) => Err(x)
    case Ok((t, p)) => Ok(PState(p, t, map[], []))
  }

  /** `Lexer lexer(input); Parser parser(lexer); parser.parseProgram();` */
  function Run(s: string): Result<PState, Failure>
  {
    match Start(s)
    case Err(x) => Err(x)
    case Ok(st) => ProgramSpec(s, st)
  }

  /** A parse step's value with the state after it, or the exit; the state after an exit does not matter. */
  function Lift(r: Result<int, Failure>, st: PState): Result<(int, PState), Failure>
  {
    match r
    case Ok(v) => Ok((v, st))
    case Err(x) => Err(x)
  }

  /** A statement's outcome with the state after it. */
  function Done(r: Result<(), Failure>, st: PState): Result<PState, Failure>
  {
    match r
    case Ok(_) => Ok(st)
    case Err(x) => Err(x)
  }

  // ---------------------------------------------------------------- parser

  class Parser {
    const lexer: Lexer
    var currentToken: Token
    var variables: Vars
    var tokens: seq<Token>

    function State(): PState
      reads this, lexer
    {
      PState(lexer.currentPos, currentToken, variables, tokens)
    }

    constructor (lexer: Lexer, first: Token)
      ensures this.lexer == lexer && currentToken == first && variables == map[] && tokens == []
    {
      this.lexer := lexer;
      currentToken := first;
      variables := map[];
      tokens := [];
    }

    method Eat(expectedType: TokenType) returns (r: Result<(), Failure>)
      modifies this, lexer
      ensures Done(r, State()) == EatSpec(lexer.input, old(State()), expectedType)
    {
      if currentToken.ttype == expectedType {
        tokens := tokens + [currentToken];
        var next := lexer.GetNextToken();
        if next.Err? {
          return Err(next.error);
        }
        currentToken := next.value;
        return Ok(());
      }
      return Err(ExpectedToken(Ordinal(expectedType), Ordinal(currentToken.ttype)));
    }

    method ParseStatement() returns (r: Result<(), Failure>)
      modifies this, lexer
      ensures Done(r, State()) == StatementSpec(lexer.input, old(State()))
    {
      if currentToken.ttype == KEYWORD {
        r := ParseVariableDeclaration();
      } else if currentToken.ttype == IDENTIFIER {
        r := ParseAssignment();
      } else {
        r := Err(UnexpectedInStatement(Ordinal(currentToken.ttype)));
      }
    }

    method ParseVariableDeclaration() returns (r: Result<(), Failure>)
      modifies this, lexer
      ensures Done(r, State()) == DeclarationSpec(lexer.input, old(State()))
    {
      var variableType := currentToken.value;
      var e := Eat(KEYWORD);
      if e.Err? {
        return e;
      }
      var identifierToken := currentToken;
      e := Eat(IDENTIFIER);
      if e.Err? {
        return e;
      }
      e := Eat(EQUAL);
      if e.Err? {
        return e;
      }
      var value := ParseExpression();
      if value.Err? {
        return Err(value.error);
      }
      e := Eat(SEMICOLON);
      if e.Err? {
        return e;
      }
      variables := variables[identifierToken.value := (variableType, value.value)];
      return Ok(());
    }

    method ParseAssignment() returns (r: Result<(), Failure>)
      modifies this, lexer
      ensures Done(r, State()) == AssignmentSpec(lexer.input, old(State()))
    {
      var identifierToken := currentToken;
      var e := Eat(IDENTIFIER);
      if e.Err? {
        return e;
      }
      e := Eat(EQUAL);
      if e.Err? {
        return e;
      }
      var value := ParseExpression();
      if value.Err? {
        return Err(value.error);
      }
      e := Eat(SEMICOLON);
      if e.Err? {
        return e;
      }
      if identifierToken.value in variables {
        variables := variables[identifierToken.value := (variables[identifierToken.value].0, value.value)];
        return Ok(());
      }
      return Err(NotDeclared(identifierToken.value));
    }

    method ParseExpression() returns (r: Result<int, Failure>)
      modifies this, lexer
      ensures Lift(r, State()) == ExprSpec(lexer.input, old(State()))
    {
      var first := ParseTerm();
      if first.Err? {
        return first;
      }
      var result := first.value;
      while IsOperator(currentToken.ttype)
        invariant ExprSpec(lexer.input, old(State())) == ExprTail(lexer.input, result, State())
        decreases Measure(lexer.input, State())
      {
        var op := currentToken;
        var e := Eat(op.ttype);
        if e.Err? {
          return Err(e.error);
        }
        var termValue := ParseTerm();
        if termValue.Err? {
          return termValue;
        }
        var a := Apply(op.ttype, result, termValue.value);
        if a.Err? {
          return Err(a.error);
        }
        result := a.value;
      }
      return Ok(result);
    }

    method ParseTerm() returns (r: Result<int, Failure>)
      modifies this, lexer
      ensures Lift(r, State()) == TermSpec(lexer.input, old(State()))
    {
      var t := currentToken;
      if t.ttype == INTEGER || t.ttype == FLOAT || t.ttype == DOUBLE {
        var result := Stoi(t.value);
        if result.Err? {
          return result;
        }
        var e := Eat(t.ttype);
        if e.Err? {
          return Err(e.error);
        }
        return result;
      } else if t.ttype == IDENTIFIER {
        var identifier := t.value;
        var e := Eat(IDENTIFIER);
        if e.Err? {
          return Err(e.error);
        }
        if identifier in variables {
          return Ok(variables[identifier].1);
        }
        return Err(NotDeclared(identifier));
      }
      return Err(UnexpectedInTerm(Ordinal(t.ttype)));
    }

    method ParseProgram() returns (r: Result<(), Failure>)
      modifies this, lexer
      ensures Done(r, State()) == ProgramSpec(lexer.input, old(State()))
    {
      while currentToken.ttype != EOF_TOKEN
        invariant ProgramSpec(lexer.input, old(State())) == ProgramSpec(lexer.input, State())
        decreases Measure(lexer.input, State())
      {
        var s := ParseStatement();
        if s.Err? {
          return s;
        }
      }
      return Ok(());
    }
  }

  /** The driver: builds the lexer and the parser over the program text and parses it. */
  method Execute(text: string) returns (r: Result<PState, Failure>)
    ensures r == Run(text)
  {
    var lexer := new Lexer(text);
    var first := lexer.GetNextToken();
    if first.Err? {
      return Err(first.error);
    }
    var parser := new Parser(lexer, first.value);
    var p := parser.ParseProgram();
    if p.Err? {
      return Err(p.error);
    }
    return Ok(parser.State());
  }

  // ---------------------------------------------------------------- lexer properties

  /** getNextToken skips whitespace: a run of spaces before `j` does not change the next token. */
  lemma {:induction false} SpacesSkipped(s: string, i: nat, j: nat)
    requires i <= j <= |s| && forall k :: i <= k < j ==> CSpace(s[k])
    ensures NextAt(s, i) == NextAt(s, j)
    decreases j - i
  {
    if i < j {
      assert !IsDigit(s[i]) && !IsAlpha(s[i]) && s[i] != '_' && OperatorToken(s[i]).None?;
      SpacesSkipped(s, i + 1, j);
    }
  }

  /** Text that is all whitespace from `i` on yields EOF_TOKEN, with an empty value, at the end of the input. */
  lemma OnlySpacesLeft(s: string, i: nat)
    requires i <= |s| && forall k :: i <= k < |s| ==> CSpace(s[k])
    ensures NextAt(s, i) == Ok((Token(EOF_TOKEN, "EOF", ""), |s|))
  {
    SpacesSkipped(s, i, |s|);
  }

  /** A character that starts no token and is no whitespace ends the run, after any whitespace before it. */
  lemma UnrecognizedExits(s: string, i: nat, j: nat)
    requires i <= j < |s| && forall k :: i <= k < j ==> CSpace(s[k])
    requires !IsDigit(s[j]) && !IsAlpha(s[j]) && s[j] != '_' && !CSpace(s[j])
    requires s[j] !in {'+', '-', '*', '/', '=', ';'}
    ensures NextAt(s, i) == Err(UnrecognizedCharacter(s[j]))
  {
    SpacesSkipped(s, i, j);
  }

  /**
   * A token's value is the text just before where the cursor stops, and only whitespace lies
   * between the old cursor and the token: lexing drops whitespace and nothing else.
   */
  lemma {:induction false} TokenIsText(s: string, i: nat)
    requires NextAt(s, i).Ok? && NextAt(s, i).value.0.ttype != EOF_TOKEN
    ensures var (t, p) := NextAt(s, i).value;
            |t.value| <= p - i && s[p - |t.value|..p] == t.value
            && forall k :: i <= k < p - |t.value| ==> CSpace(s[k])
    decreases |s| - i
  {
    var (t, p) := NextAt(s, i).value;
    if IsDigit(s[i]) || IsAlpha(s[i]) || s[i] == '_' {
      assert t.value == s[i..p];
    } else if OperatorToken(s[i]).Some? {
      assert t.value == [s[i]] == s[i..p];
    } else {
      TokenIsText(s, i + 1);
    }
  }

  /** Numbers start with a digit and take the maximal digit/dot run; a dot makes DOUBLE, and FLOAT never occurs. */
  lemma NumberTokens(s: string, i: nat)
    requires i < |s| && IsDigit(s[i])
    ensures NextAt(s, i) == Ok((NumberToken(s[i..RunEnd(s, i)]), RunEnd(s, i)))
    ensures NumberToken(s[i..RunEnd(s, i)]).ttype == DOUBLE <==> '.' in s[i..RunEnd(s, i)]
    ensures NumberToken(s[i..RunEnd(s, i)]).ttype != FLOAT
  {
  }

  /** FLOAT is never produced. */
  lemma {:induction false} NoFloatToken(s: string, i: nat)
    ensures NextAt(s, i).Ok? ==> NextAt(s, i).value.0.ttype != FLOAT
    decreases |s| - i
  {
    if i < |s| && CSpace(s[i]) {
      NoFloatToken(s, i + 1);
    }
  }

  /** Only int, float and double are keywords, each named by itself; every other word is an IDENTIFIER. */
  lemma KeywordTable(w: string)
    ensures WordToken(w).ttype == KEYWORD <==> w == "int" || w == "float" || w == "double"
    ensures WordToken(w).ttype == KEYWORD ==> WordToken(w).name == w
    ensures WordToken(w).ttype == IDENTIFIER ==> WordToken(w).name == "IDENTIFIER"
  {
  }

  // ---------------------------------------------------------------- the tokens record

  /** The tokens getNextToken yields from cursor `i` up to EOF_TOKEN, or the exit that stops it. */
  function TokensFrom(s: string, i: nat): Result<seq<Token>, Failure>
    decreases |s| - i
  {
    match NextAt(s, i)
    case Err(x) => Err(x)
    case Ok((t, p)) => if t.ttype == EOF_TOKEN then Ok([]) else Prefix([t], TokensFrom(s, p))
  }

  /** The current token unless it is EOF_TOKEN, which `tokens` never receives. */
  function Pending(t: Token): seq<Token>
  {
    if t.ttype == EOF_TOKEN then [] else [t]
  }

  /**
   * What `tokens` holds at every step: the consumed tokens, then the current one, then whatever
   * the lexer has not reached yet, make up the whole input's token sequence.
   */
  predicate Recorded(s: string, st: PState)
  {
    (st.cur.ttype == EOF_TOKEN ==> st.pos >= |s|)
    && Prefix(st.seen + Pending(st.cur), TokensFrom(s, st.pos)) == TokensFrom(s, 0)
  }

  lemma NoTokensLeft(s: string, i: nat)
    requires i >= |s|
    ensures TokensFrom(s, i) == Ok([])
  {
    assert NextAt(s, i) == Ok((EofToken, i));
  }

  /** eat keeps the record: the token it appends is the one the lexer produced next. */
  lemma EatKeepsRecord(s: string, st: PState, ttype: TokenType)
    requires Recorded(s, st) && ttype != EOF_TOKEN
    ensures EatSpec(s, st, ttype).Ok? ==> Recorded(s, EatSpec(s, st, ttype).value)
  {
    if st.cur.ttype == ttype && NextAt(s, st.pos).Ok? {
      var (t, p) := NextAt(s, st.pos).value;
      assert Pending(st.cur) == [st.cur];
      if t.ttype == EOF_TOKEN {
        NoTokensLeft(s, p);
        assert st.seen + [st.cur] + Pending(t) == st.seen + [st.cur];
      } else {
        PrefixPrefix(st.seen + [st.cur], [t], TokensFrom(s, p));
      }
    }
  }

  lemma TermKeepsRecord(s: string, st: PState)
    requires Recorded(s, st)
    ensures TermSpec(s, st).Ok? ==> Recorded(s, TermSpec(s, st).value.1)
  {
    if st.cur.ttype in {INTEGER, FLOAT, DOUBLE, IDENTIFIER} {
      EatKeepsRecord(s, st, st.cur.ttype);
    }
  }

  lemma {:induction false} ExprTailKeepsRecord(s: string, acc: int, st: PState)
    requires Recorded(s, st)
    ensures ExprTail(s, acc, st).Ok? ==> Recorded(s, ExprTail(s, acc, st).value.1)
    decreases Measure(s, st)
  {
    var op := st.cur.ttype;
    if IsOperator(op) && EatSpec(s, st, op).Ok? {
      var st1 := EatSpec(s, st, op).value;
      EatKeepsRecord(s, st, op);
      TermKeepsRecord(s, st1);
      if TermSpec(s, st1).Ok? && Apply(op, acc, TermSpec(s, st1).value.0).Ok? {
        var (v, st2) := TermSpec(s, st1).value;
        ExprTailKeepsRecord(s, Apply(op, acc, v).value, st2);
      }
    }
  }

  lemma AssignedKeepsRecord(s: string, st: PState)
    requires Recorded(s, st)
    ensures AssignedValue(s, st).Ok? ==> Recorded(s, AssignedValue(s, st).value.1)
  {
    EatKeepsRecord(s, st, EQUAL);
    if EatSpec(s, st, EQUAL).Ok? {
      var st1 := EatSpec(s, st, EQUAL).value;
      TermKeepsRecord(s, st1);
      if TermSpec(s, st1).Ok? {
        ExprTailKeepsRecord(s, TermSpec(s, st1).value.0, TermSpec(s, st1).value.1);
      }
      if ExprSpec(s, st1).Ok? {
        EatKeepsRecord(s, ExprSpec(s, st1).value.1, SEMICOLON);
      }
    }
  }

  lemma StatementKeepsRecord(s: string, st: PState)
    requires Recorded(s, st)
    ensures StatementSpec(s, st).Ok? ==> Recorded(s, StatementSpec(s, st).value)
  {
    if st.cur.ttype == KEYWORD {
      EatKeepsRecord(s, st, KEYWORD);
      if EatSpec(s, st, KEYWORD).Ok? {
        var st1 := EatSpec(s, st, KEYWORD).value;
        EatKeepsRecord(s, st1, IDENTIFIER);
        if EatSpec(s, st1, IDENTIFIER).Ok? {
          AssignedKeepsRecord(s, EatSpec(s, st1, IDENTIFIER).value);
        }
      }
    } else if st.cur.ttype == IDENTIFIER {
      EatKeepsRecord(s, st, IDENTIFIER);
      if EatSpec(s, st, IDENTIFIER).Ok? {
        AssignedKeepsRecord(s, EatSpec(s, st, IDENTIFIER).value);
      }
    }
  }

  lemma {:induction false} ProgramKeepsRecord(s: string, st: PState)
    requires Recorded(s, st)
    ensures ProgramSpec(s, st).Ok? ==> Recorded(s, ProgramSpec(s, st).value)
    decreases Measure(s, st)
  {
    if st.cur.ttype != EOF_TOKEN && StatementSpec(s, st).Ok? {
      StatementKeepsRecord(s, st);
      ProgramKeepsRecord(s, StatementSpec(s, st).value);
    }
  }

  /**
   * A run that parses to the end has consumed, in `tokens`, exactly the tokens of the whole
   * input in order, without EOF_TOKEN.
   */
  lemma RunRecordsTokens(s: string)
    ensures Run(s).Ok? ==> TokensFrom(s, 0) == Ok(Run(s).value.seen)
  {
    if Start(s).Ok? {
      var st := Start(s).value;
      var none: seq<Token> := [];
      if st.cur.ttype == EOF_TOKEN {
        NoTokensLeft(s, st.pos);
        assert TokensFrom(s, 0) == Ok([]) && st.seen + Pending(st.cur) == none;
      } else {
        assert TokensFrom(s, 0) == Prefix([st.cur], TokensFrom(s, st.pos));
        assert st.seen + Pending(st.cur) == [st.cur];
      }
      assert Recorded(s, st);
      ProgramKeepsRecord(s, st);
      if Run(s).Ok? {
        var fin := Run(s).value;
        NoTokensLeft(s, fin.pos);
        assert fin.seen + Pending(fin.cur) == fin.seen;
      }
    }
  }

  // ---------------------------------------------------------------- parser properties

  /** A successful eat consumes the current token and lexes the next one. */
  lemma EatStep(s: string, st: PState, ttype: TokenType, t: Token, p: nat)
    requires st.cur.ttype == ttype && NextAt(s, st.pos) == Ok((t, p))
    ensures EatSpec(s, st, ttype) == Ok(PState(p, t, st.vars, st.seen + [st.cur]))
  {
  }

  /** An integer literal as a term: its stoi value, and the cursor moves past it. */
  lemma NumberStep(s: string, st: PState, n: int, t: Token, p: nat)
    requires st.cur.ttype == INTEGER && Stoi(st.cur.value) == Ok(n) && NextAt(s, st.pos) == Ok((t, p))
    ensures TermSpec(s, st) == Ok((n, PState(p, t, st.vars, st.seen + [st.cur])))
  {
    EatStep(s, st, INTEGER, t, p);
  }

  /**
   * One round of parseExpression's loop over an operator and an integer literal: the operator
   * is applied to the running result, whatever operator came before, so evaluation is left to right.
   */
  lemma OperandStep(s: string, acc: int, st: PState, num: Token, p1: nat, n: int, next: Token, p2: nat)
    requires IsOperator(st.cur.ttype) && NextAt(s, st.pos) == Ok((num, p1)) && NextAt(s, p1) == Ok((next, p2))
    requires num.ttype == INTEGER && Stoi(num.value) == Ok(n) && Apply(st.cur.ttype, acc, n).Ok?
    ensures ExprTail(s, acc, st)
         == ExprTail(s, Apply(st.cur.ttype, acc, n).value, PState(p2, next, st.vars, st.seen + [st.cur, num]))
  {
    var st1 := PState(p1, num, st.vars, st.seen + [st.cur]);
    EatStep(s, st, st.cur.ttype, num, p1);
    NumberStep(s, st1, n, next, p2);
    assert st1.seen + [num] == st.seen + [st.cur, num];
  }

  /** A zero literal after `/` exits with the division-by-zero message, whatever the running result. */
  lemma ZeroDivisorExits(s: string, acc: int, st: PState, num: Token, p1: nat, next: Token, p2: nat)
    requires st.cur.ttype == DIVIDE && NextAt(s, st.pos) == Ok((num, p1)) && NextAt(s, p1) == Ok((next, p2))
    requires num.ttype == INTEGER && Stoi(num.value) == Ok(0)
    ensures ExprTail(s, acc, st) == Err(DivisionByZero)
  {
    var st1 := PState(p1, num, st.vars, st.seen + [st.cur]);
    EatStep(s, st, DIVIDE, num, p1);
    NumberStep(s, st1, 0, next, p2);
  }

  /** Any other divisor truncates toward zero, as C++ `int` division does. */
  lemma DivisionTruncates(acc: int, v: int)
    requires v != 0 && InInt(TruncDiv(acc, v))
    ensures Apply(DIVIDE, acc, v) == Ok(TruncDiv(acc, v))
    ensures Apply(DIVIDE, -7, 2) == Ok(-3)
  {
  }

  /** A DOUBLE literal enters the arithmetic through stoi: "2.5" counts as 2. */
  lemma DoubleLiteralTruncated(s: string, st: PState, t: Token, p: nat)
    requires st.cur == Token(DOUBLE, "DOUBLE", "2.5") && NextAt(s, st.pos) == Ok((t, p))
    ensures TermSpec(s, st) == Ok((2, PState(p, t, st.vars, st.seen + [st.cur])))
  {
    StoiDropsFraction();
    EatStep(s, st, DOUBLE, t, p);
  }

  /** Reading an undeclared name exits once the name has been eaten. */
  lemma UndeclaredRead(s: string, st: PState)
    requires st.cur.ttype == IDENTIFIER && st.cur.value !in st.vars && NextAt(s, st.pos).Ok?
    ensures TermSpec(s, st) == Err(NotDeclared(st.cur.value))
  {
  }

  /** A declared name reads as its stored value. */
  lemma DeclaredRead(s: string, st: PState)
    requires st.cur.ttype == IDENTIFIER && st.cur.value in st.vars && NextAt(s, st.pos).Ok?
    ensures TermSpec(s, st).Ok? && TermSpec(s, st).value.0 == st.vars[st.cur.value].1
  {
  }

  /**
   * A declaration binds its name to the keyword and the value, replacing any earlier entry, and
   * leaves every other variable as it was.
   */
  lemma DeclarationBinds(s: string, st: PState)
    requires DeclarationSpec(s, st).Ok?
    ensures var st1 := EatSpec(s, st, KEYWORD).value;
            var name := st1.cur.value;
            var v := AssignedValue(s, EatSpec(s, st1, IDENTIFIER).value).value.0;
            var vars := DeclarationSpec(s, st).value.vars;
            name in vars && vars[name] == (st.cur.value, v)
            && (forall x :: x != name ==> (x in vars <==> x in st.vars))
            && (forall x :: x != name && x in st.vars ==> vars[x] == st.vars[x])
  {
  }

  /**
   * An assignment succeeds only on a declared name; it replaces that name's value, keeps its
   * declared type, and leaves the set of variables and every other entry as they were.
   */
  lemma AssignmentUpdates(s: string, st: PState)
    requires AssignmentSpec(s, st).Ok?
    ensures var name := st.cur.value;
            var v := AssignedValue(s, EatSpec(s, st, IDENTIFIER).value).value.0;
            var vars := AssignmentSpec(s, st).value.vars;
            name in st.vars && vars.Keys == st.vars.Keys
            && vars[name] == (st.vars[name].0, v)
            && (forall x :: x != name && x in st.vars ==> vars[x] == st.vars[x])
  {
  }

  /** Assigning to an undeclared name exits, but only after the whole `= expr ;` has been parsed. */
  lemma AssignmentUndeclared(s: string, st: PState)
    requires st.cur.ttype == IDENTIFIER && st.cur.value !in st.vars
    requires EatSpec(s, st, IDENTIFIER).Ok? && AssignedValue(s, EatSpec(s, st, IDENTIFIER).value).Ok?
    ensures AssignmentSpec(s, st) == Err(NotDeclared(st.cur.value))
    ensures StatementSpec(s, st) == Err(NotDeclared(st.cur.value))
  {
  }

  /** A statement that starts with neither KEYWORD nor IDENTIFIER exits, naming the token's type number. */
  lemma StatementStart(s: string, st: PState)
    requires st.cur.ttype != KEYWORD && st.cur.ttype != IDENTIFIER
    ensures StatementSpec(s, st) == Err(UnexpectedInStatement(Ordinal(st.cur.ttype)))
  {
  }

  // ---------------------------------------------------------------- worked examples

  const Two := Token(INTEGER, "INTEGER", "2")
  const Three := Token(INTEGER, "INTEGER", "3")
  const Four := Token(INTEGER, "INTEGER", "4")
  const Plus := Token(PLUS, "PLUS", "+")
  const Times := Token(MULTIPLY, "MULTIPLY", "*")

  /** The tokens getNextToken yields on "2+3*4", cursor by cursor. */
  predicate LexedAsSum(s: string)
  {
    NextAt(s, 0) == Ok((Two, 1)) && NextAt(s, 1) == Ok((Plus, 2))
    && NextAt(s, 2) == Ok((Three, 3)) && NextAt(s, 3) == Ok((Times, 4))
    && NextAt(s, 4) == Ok((Four, 5)) && NextAt(s, 5) == Ok((EofToken, 5))
  }

  lemma LexesSumLeft()
    ensures NextAt("2+3*4", 0) == Ok((Two, 1)) && NextAt("2+3*4", 1) == Ok((Plus, 2))
    ensures NextAt("2+3*4", 2) == Ok((Three, 3))
  {
    var s := "2+3*4";
    assert RunEnd(s, 0) == 1 && Lexeme(s, 0) == "2";
    assert RunEnd(s, 2) == 3 && Lexeme(s, 2) == "3";
  }

  lemma LexesSumRight()
    ensures NextAt("2+3*4", 3) == Ok((Times, 4))
    ensures NextAt("2+3*4", 4) == Ok((Four, 5)) && NextAt("2+3*4", 5) == Ok((EofToken, 5))
  {
    var s := "2+3*4";
    assert RunEnd(s, 4) == 5 && Lexeme(s, 4) == "4";
  }

  lemma SmallLiterals()
    ensures Stoi("2") == Ok(2) && Stoi("3") == Ok(3) && Stoi("4") == Ok(4)
  {
    StoiDigits("2");
    StoiDigits("3");
    StoiDigits("4");
  }

  /** 2 + 3: the first round of the loop. */
  lemma SumFirst(s: string)
    requires LexedAsSum(s)
    ensures ExprSpec(s, PState(1, Two, map[], []))
         == ExprTail(s, 5, PState(4, Times, map[], [Two] + [Plus, Three]))
  {
    SmallLiterals();
    var st0 := PState(1, Two, map[], []);
    var st1 := PState(2, Plus, map[], [Two]);
    NumberStep(s, st0, 2, Plus, 2);
    assert st0.seen + [Two] == [Two];
    OperandStep(s, 2, st1, Three, 3, 3, Times, 4);
  }

  /** (2 + 3) * 4: the second round, then the loop stops at EOF_TOKEN. */
  lemma ProductSecond(s: string, seen: seq<Token>)
    requires LexedAsSum(s)
    ensures ExprTail(s, 5, PState(4, Times, map[], seen))
         == Ok((20, PState(5, EofToken, map[], seen + [Times, Four])))
  {
    SmallLiterals();
    OperandStep(s, 5, PState(4, Times, map[], seen), Four, 5, 4, EofToken, 5);
  }

  /** With one precedence level, "2+3*4" is (2 + 3) * 4 = 20, not 14. */
  lemma LeftToRight()
    ensures Start("2+3*4") == Ok(PState(1, Two, map[], []))
    ensures var r := ExprSpec("2+3*4", PState(1, Two, map[], []));
            r.Ok? && r.value.0 == 20 && r.value.1.cur == EofToken
  {
    LexesSumLeft();
    LexesSumRight();
    SumFirst("2+3*4");
    ProductSecond("2+3*4", [Two] + [Plus, Three]);
  }

  /**
   * Lexing stays one token ahead of parsing: in "5 $" the statement error at `5` ends the run
   * before the lexer reaches the bad `$`.
   */
  lemma LazyLexing()
    ensures NextAt("5 $", 2) == Err(UnrecognizedCharacter('$'))
    ensures Run("5 $") == Err(UnexpectedInStatement(Ordinal(INTEGER)))
  {
    var s := "5 $";
    assert RunEnd(s, 0) == 1 && Lexeme(s, 0) == "5";
    assert NextAt(s, 0) == Ok((Token(INTEGER, "INTEGER", "5"), 1));
  }
}
