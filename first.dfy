/**
 * First.cpp: statements `TYPE NAME = expr ;` and `NAME = expr ;` where an expression is a sum
 * of terms. The only operator characters are `+`, `=` and `;`; every other non-blank character
 * that starts no number or word ends the run. The lexer is lazy, one token ahead of the parser,
 * and every error prints a message and calls `exit(1)`.
 */
module First {
  import opened Common
  import opened Chars
  import opened Cpp

  datatype TokenType =
    | INTEGER | FLOAT | DOUBLE | IDENTIFIER | PLUS | EQUAL | SEMICOLON | KEYWORD | EOF_TOKEN

  /** The number `operator<<` prints for a token type: its position in the enumeration. */
  function Ordinal(t: TokenType): nat
  {
    match t
    case INTEGER => 0 case FLOAT => 1 case DOUBLE => 2 case IDENTIFIER => 3 case PLUS => 4
    case EQUAL => 5 case SEMICOLON => 6 case KEYWORD => 7 case EOF_TOKEN => 8
  }

  datatype Token = Token(ttype: TokenType, value: string)

  const EofToken := Token(EOF_TOKEN, "")

  // ---------------------------------------------------------------- lexer specification

  /** isKeyword: the three type names. */
  predicate IsKeyword(w: string)
  {
    w in {"int", "float", "double"}
  }

  /** parseNumber on its digit/dot run: DOUBLE when the run has a dot, INTEGER otherwise. */
  function NumberToken(w: string): (t: Token)
    ensures t.ttype in {INTEGER, DOUBLE} && t.value == w
  {
    if '.' in w then Token(DOUBLE, w) else Token(INTEGER, w)
  }

  /** parseIdentifierOrKeyword on its word. */
  function WordToken(w: string): (t: Token)
    ensures t.ttype in {KEYWORD, IDENTIFIER} && t.value == w
  {
    if IsKeyword(w) then Token(KEYWORD, w) else Token(IDENTIFIER, w)
  }

  /** The three one-character tokens. */
  function OperatorToken(c: char): (r: Option<Token>)
    ensures r.Some? ==> r.value.value == [c]
  {
    match c
    case '+' => Some(Token(PLUS, "+"))
    case '=' => Some(Token(EQUAL, "="))
    case ';' => Some(Token(SEMICOLON, ";"))
    case _ => None
  }

  /** getNextToken with the cursor at `i`: the token and where the cursor stops, or the exit. */
  function NextAt(s: string, i: nat): (r: Result<(Token, nat), Failure>)
    ensures r.Ok? ==> i <= r.value.1 && (r.value.1 <= |s| || r.value.1 == i)
    ensures r.Ok? && r.value.0.ttype != EOF_TOKEN ==> i < r.value.1 <= |s|
    ensures r.Ok? && r.value.0.ttype == EOF_TOKEN ==> r.value.0 == EofToken && r.value.1 >= |s|
    decreases |s| - i
  {
    if i >= |s| then Ok((EofToken, i))
    else if IsDigit(s[i]) then Ok((NumberToken(Lexeme(s, i)), RunEnd(s, i)))
    else if IsAlpha(s[i]) || s[i] == '_' then Ok((WordToken(s[i..WordEnd(s, i)]), WordEnd(s, i)))
    else if OperatorToken(s[i]).Some? then Ok((OperatorToken(s[i]).value, i + 1))
    else if CSpace(s[i]) then NextAt(s, i + 1)
    else Err(UnrecognizedCharacter(s[i]))
  }

  // ---------------------------------------------------------------- lexer

  class Lexer {
    const input: string
    var currentPos: nat

    constructor (text: string)
      ensures input == text && currentPos == 0
    {
      input := text;
      currentPos := 0;
    }

    method GetNextToken() returns (r: Result<Token, Failure>)
      modifies this
      ensures r.Ok? ==> NextAt(input, old(currentPos)) == Ok((r.value, currentPos))
      ensures r.Err? ==> NextAt(input, old(currentPos)) == Err(r.error)
    {
      while currentPos < |input|
        invariant NextAt(input, old(currentPos)) == NextAt(input, currentPos)
        decreases |input| - currentPos
      {
        var c := input[currentPos];
        if IsDigit(c) {
          var t := ParseNumber();
          return Ok(t);
        } else if IsAlpha(c) || c == '_' {
          var t := ParseIdentifierOrKeyword();
          return Ok(t);
        } else if c == '+' {
          currentPos := currentPos + 1;
          return Ok(Token(PLUS, "+"));
        } else if c == '=' {
          currentPos := currentPos + 1;
          return Ok(Token(EQUAL, "="));
        } else if c == ';' {
          currentPos := currentPos + 1;
          return Ok(Token(SEMICOLON, ";"));
        } else if CSpace(c) {
          currentPos := currentPos + 1;
        } else {
          return Err(UnrecognizedCharacter(c));
        }
      }
      return Ok(EofToken);
    }

    method ParseNumber() returns (t: Token)
      requires currentPos < |input| && IsDigit(input[currentPos])
      modifies this
      ensures currentPos == RunEnd(input, old(currentPos))
      ensures t == NumberToken(Lexeme(input, old(currentPos)))
    {
      ghost var start := currentPos;
      var value := "";
      while currentPos < |input| && (IsDigit(input[currentPos]) || input[currentPos] == '.')
        invariant start <= currentPos <= RunEnd(input, start)
        invariant value == input[start..currentPos]
        decreases |input| - currentPos
      {
        ExtendRun(input, start, currentPos);
        value := value + [input[currentPos]];
        currentPos := currentPos + 1;
      }
      RunStops(input, start, currentPos);
      if '.' in value {
        t := Token(DOUBLE, value);
      } else {
        t := Token(INTEGER, value);
      }
    }

    method ParseIdentifierOrKeyword() returns (t: Token)
      requires currentPos <= |input|
      modifies this
      ensures currentPos == WordEnd(input, old(currentPos))
      ensures t == WordToken(input[old(currentPos)..currentPos])
    {
      ghost var start := currentPos;
      var identifier := "";
      while currentPos < |input| && (IsAlnum(input[currentPos]) || input[currentPos] == '_')
        invariant start <= currentPos <= WordEnd(input, start)
        invariant identifier == input[start..currentPos]
        decreases |input| - currentPos
      {
        identifier := identifier + [input[currentPos]];
        currentPos := currentPos + 1;
      }
      if IsKeyword(identifier) {
        t := Token(KEYWORD, identifier);
      } else {
        t := Token(IDENTIFIER, identifier);
      }
    }
  }

  // ---------------------------------------------------------------- parser specification

  /** The declared variables: name to (declared type, value). */
  type Vars = map<string, (string, int)>

  /** The parser's state over the input: the lexer's cursor, `currentToken` and `variables`. */
  datatype PState = PState(pos: nat, cur: Token, vars: Vars)

  /** A measure that every `eat` of a token other than EOF_TOKEN decreases. */
  function Measure(s: string, st: PState): nat
  {
    (if st.pos <= |s| then 2 * (|s| - st.pos) else 0) + (if st.cur.ttype == EOF_TOKEN then 0 else 1)
  }

  /** `eat`: a match lexes the next token; a mismatch exits. */
  function EatSpec(s: string, st: PState, ttype: TokenType): (r: Result<PState, Failure>)
    ensures r.Ok? && ttype != EOF_TOKEN ==> Measure(s, r.value) < Measure(s, st)
    ensures r.Ok? ==> r.value.vars == st.vars
  {
    if st.cur.ttype != ttype then Err(ExpectedToken(Ordinal(ttype), Ordinal(st.cur.ttype)))
    else
      match NextAt(s, st.pos)
      case Err(x) => Err(x)
      case Ok((t, p)) => Ok(PState(p, t, st.vars))
  }

  /** `parseTerm`: a number converted by stoi before it is eaten, or a declared variable's value after it is eaten. */
  function TermSpec(s: string, st: PState): (r: Result<(int, PState), Failure>)
    ensures r.Ok? ==> Measure(s, r.value.1) < Measure(s, st) && r.value.1.vars == st.vars
  {
    var t := st.cur;
    if t.ttype in {INTEGER, FLOAT, DOUBLE} then
      match Stoi(t.value)
      case Err(x) => Err(x)
      case Ok(v) =>
        match EatSpec(s, st, t.ttype)
        case Err(x) => Err(x)
        case Ok(st1) => Ok((v, st1))
    else if t.ttype == IDENTIFIER then
      match EatSpec(s, st, IDENTIFIER)
      case Err(x) => Err(x)
      case Ok(st1) =>
        if t.value in st.vars then Ok((st.vars[t.value].1, st1)) else Err(NotDeclared(t.value))
    else
      Err(UnexpectedInTerm(Ordinal(t.ttype)))
  }

  /** `result += parseTerm()` on 32-bit `int`. */
  function AddTerm(acc: int, v: int): (r: Result<int, Failure>)
    ensures r.Ok? <==> InInt(acc + v)
    ensures r.Ok? ==> r.value == acc + v
  {
    Checked(acc + v)
  }

  /** `parseExpression`'s loop, entered with `acc` as `result`: one `+ term` per round. */
  function ExprTail(s: string, acc: int, st: PState): (r: Result<(int, PState), Failure>)
    ensures r.Ok? ==> Measure(s, r.value.1) <= Measure(s, st) && r.value.1.vars == st.vars
    decreases Measure(s, st), 1
  {
    if st.cur.ttype != PLUS then Ok((acc, st)) else ExprRound(s, acc, st)
  }

  /** One round of that loop, on a `+`, and the rounds after it. */
  function ExprRound(s: string, acc: int, st: PState): (r: Result<(int, PState), Failure>)
    requires st.cur.ttype == PLUS
    ensures r.Ok? ==> Measure(s, r.value.1) <= Measure(s, st) && r.value.1.vars == st.vars
    decreases Measure(s, st), 0
  {
    match EatSpec(s, st, PLUS)
    case Err(x) => Err(x)
    case Ok(st1) =>
      match TermSpec(s, st1)
      case Err(x) => Err(x)
      case Ok((v, st2)) =>
        match AddTerm(acc, v)
        case Err(x) => Err(x)
        case Ok(acc2) => ExprTail(s, acc2, st2)
  }

  function ExprSpec(s: string, st: PState): (r: Result<(int, PState), Failure>)
    ensures r.Ok? ==> Measure(s, r.value.1) < Measure(s, st) && r.value.1.vars == st.vars
  {
    match TermSpec(s, st)
    case Err(x) => Err(x)
    case Ok((v, st1)) => ExprTail(s, v, st1)
  }

  /** The `= expr ;` that ends both kinds of statement: the expression's value and the state after the `;`. */
  function AssignedValue(s: string, st: PState): (r: Result<(int, PState), Failure>)
    ensures r.Ok? ==> Measure(s, r.value.1) < Measure(s, st) && r.value.1.vars == st.vars
  {
    match EatSpec(s, st, EQUAL)
    case Err(x) => Err(x)
    case Ok(st1) =>
      match ExprSpec(s, st1)
      case Err(x) => Err(x)
      case Ok((v, st2)) =>
        match EatSpec(s, st2, SEMICOLON)
        case Err(x) => Err(x)
        case Ok(st3) => Ok((v, st3))
  }

  /** `parseVariableDeclaration`: `KEYWORD NAME = expr ;` stores (type, value) under NAME, replacing any entry. */
  function DeclarationSpec(s: string, st: PState): (r: Result<PState, Failure>)
    ensures r.Ok? ==> Measure(s, r.value) < Measure(s, st)
  {
    var variableType := st.cur.value;
    match EatSpec(s, st, KEYWORD)
    case Err(x) => Err(x)
    case Ok(st1) =>
      var name := st1.cur.value;
      match EatSpec(s, st1, IDENTIFIER)
      case Err(x) => Err(x)
      case Ok(st2) =>
        match AssignedValue(s, st2)
        case Err(x) => Err(x)
        case Ok((v, st3)) => Ok(st3.(vars := st3.vars[name := (variableType, v)]))
  }

  /** `parseAssignment`: `NAME = expr ;` replaces the value of a declared NAME and keeps its type. */
  function AssignmentSpec(s: string, st: PState): (r: Result<PState, Failure>)
    ensures r.Ok? ==> Measure(s, r.value) < Measure(s, st)
  {
    var name := st.cur.value;
    match EatSpec(s, st, IDENTIFIER)
    case Err(x) => Err(x)
    case Ok(st1) =>
      match AssignedValue(s, st1)
      case Err(x) => Err(x)
      case Ok((v, st2)) =>
        if name in st2.vars then Ok(st2.(vars := st2.vars[name := (st2.vars[name].0, v)]))
        else Err(NotDeclared(name))
  }

  /** `parseStatement`: a declaration after KEYWORD, an assignment after IDENTIFIER, else exit. */
  function StatementSpec(s: string, st: PState): (r: Result<PState, Failure>)
    ensures r.Ok? ==> Measure(s, r.value) < Measure(s, st)
  {
    if st.cur.ttype == KEYWORD then DeclarationSpec(s, st)
    else if st.cur.ttype == IDENTIFIER then AssignmentSpec(s, st)
    else Err(UnexpectedInStatement(Ordinal(st.cur.ttype)))
  }

  /** `parseProgram`: statements until the current token is EOF_TOKEN. */
  function ProgramSpec(s: string, st: PState): (r: Result<PState, Failure>)
    ensures r.Ok? ==> r.value.cur.ttype == EOF_TOKEN
    decreases Measure(s, st)
  {
    if st.cur.ttype == EOF_TOKEN then Ok(st)
    else
      match StatementSpec(s, st)
      case Err(x) => Err(x)
      case Ok(st1) => ProgramSpec(s, st1)
  }

  /** The parser's constructor: the first token is lexed before any parsing. */
  function Start(s: string): Result<PState, Failure>
  {
    match NextAt(s, 0)
    case Err(x) => Err(x)
    case Ok((t, p)) => Ok(PState(p, t, map[]))
  }

  /** `Lexer lexer(input); Parser parser(lexer); parser.parseProgram();` */
  function Run(s: string): Result<PState, Failure>
  {
    match Start(s)
    case Err(x) => Err(x)
    case Ok(st) => ProgramSpec(s, st)
  }

  /** A parse step's value with the state after it, or the exit; the state after an exit does not matter. */
  function Lift(r: Result<int, Failure>, st: PState): Result<(int, PState), Failure>
  {
    match r
    case Ok(v) => Ok((v, st))
    case Err(x) => Err(x)
  }

  /** A statement's outcome with the state after it. */
  function Done(r: Result<(), Failure>, st: PState): Result<PState, Failure>
  {
    match r
    case Ok(_) => Ok(st)
    case Err(x) => Err(x)
  }

  // ---------------------------------------------------------------- parser

  class Parser {
    const lexer: Lexer
    var currentToken: Token
    var variables: Vars

    function State(): PState
      reads this, lexer
    {
      PState(lexer.currentPos, currentToken, variables)
    }

    constructor (lexer: Lexer, first: Token)
      ensures this.lexer == lexer && currentToken == first && variables == map[]
    {
      this.lexer := lexer;
      currentToken := first;
      variables := map[];
    }

    method Eat(expectedType: TokenType) returns (r: Result<(), Failure>)
      modifies this, lexer
      ensures Done(r, State()) == EatSpec(lexer.input, old(State()), expectedType)
    {
      if currentToken.ttype == expectedType {
        var next := lexer.GetNextToken();
        if next.Err? {
          return Err(next.error);
        }
        currentToken := next.value;
        return Ok(());
      }
      return Err(ExpectedToken(Ordinal(expectedType), Ordinal(currentToken.ttype)));
    }

    method ParseStatement() returns (r: Result<(), Failure>)
      modifies this, lexer
      ensures Done(r, State()) == StatementSpec(lexer.input, old(State()))
    {
      if currentToken.ttype == KEYWORD {
        r := ParseVariableDeclaration();
      } else if currentToken.ttype == IDENTIFIER {
        r := ParseAssignment();
      } else {
        r := Err(UnexpectedInStatement(Ordinal(currentToken.ttype)));
      }
    }

    method ParseVariableDeclaration() returns (r: Result<(), Failure>)
      modifies this, lexer
      ensures Done(r, State()) == DeclarationSpec(lexer.input, old(State()))
    {
      var variableType := currentToken.value;
      var e := Eat(KEYWORD);
      if e.Err? {
        return e;
      }
      var identifierToken := currentToken;
      e := Eat(IDENTIFIER);
      if e.Err? {
        return e;
      }
      e := Eat(EQUAL);
      if e.Err? {
        return e;
      }
      var value := ParseExpression();
      if value.Err? {
        return Err(value.error);
      }
      e := Eat(SEMICOLON);
      if e.Err? {
        return e;
      }
      variables := variables[identifierToken.value := (variableType, value.value)];
      return Ok(());
    }

    method ParseAssignment() returns (r: Result<(), Failure>)
      modifies this, lexer
      ensures Done(r, State()) == AssignmentSpec(lexer.input, old(State()))
    {
      var identifierToken := currentToken;
      var e := Eat(IDENTIFIER);
      if e.Err? {
        return e;
      }
      e := Eat(EQUAL);
      if e.Err? {
        return e;
      }
      var value := ParseExpression();
      if value.Err? {
        return Err(value.error);
      }
      e := Eat(SEMICOLON);
      if e.Err? {
        return e;
      }
      if identifierToken.value in variables {
        variables := variables[identifierToken.value := (variables[identifierToken.value].0, value.value)];
        return Ok(());
      }
      return Err(NotDeclared(identifierToken.value));
    }

    method ParseExpression() returns (r: Result<int, Failure>)
      modifies this, lexer
      ensures Lift(r, State()) == ExprSpec(lexer.input, old(State()))
    {
      var first := ParseTerm();
      if first.Err? {
        return first;
      }
      var result := first.value;
      while currentToken.ttype == PLUS
        invariant ExprSpec(lexer.input, old(State())) == ExprTail(lexer.input, result, State())
        decreases Measure(lexer.input, State())
      {
        var e := Eat(PLUS);
        if e.Err? {
          return Err(e.error);
        }
        var termValue := ParseTerm();
        if termValue.Err? {
          return termValue;
        }
        var sum := AddTerm(result, termValue.value);
        if sum.Err? {
          return Err(sum.error);
        }
        result := sum.value;
      }
      return Ok(result);
    }

    method ParseTerm() returns (r: Result<int, Failure>)
      modifies this, lexer
      ensures Lift(r, State()) == TermSpec(lexer.input, old(State()))
    {
      var t := currentToken;
      if t.ttype == INTEGER || t.ttype == FLOAT || t.ttype == DOUBLE {
        var result := Stoi(t.value);
        if result.Err? {
          return result;
        }
        var e := Eat(t.ttype);
        if e.Err? {
          return Err(e.error);
        }
        return result;
      } else if t.ttype == IDENTIFIER {
        var identifier := t.value;
        var e := Eat(IDENTIFIER);
        if e.Err? {
          return Err(e.error);
        }
        if identifier in variables {
          return Ok(variables[identifier].1);
        }
        return Err(NotDeclared(identifier));
      }
      return Err(UnexpectedInTerm(Ordinal(t.ttype)));
    }

    method ParseProgram() returns (r: Result<(), Failure>)
      modifies this, lexer
      ensures Done(r, State()) == ProgramSpec(lexer.input, old(State()))
    {
      while currentToken.ttype != EOF_TOKEN
        invariant ProgramSpec(lexer.input, old(State())) == ProgramSpec(lexer.input, State())
        decreases Measure(lexer.input, State())
      {
        var s := ParseStatement();
        if s.Err? {
          return s;
        }
      }
      return Ok(());
    }
  }

  /** The driver: builds the lexer and the parser over the program text and parses it. */
  method Execute(text: string) returns (r: Result<PState, Failure>)
    ensures r == Run(text)
  {
    var lexer := new Lexer(text);
    var first := lexer.GetNextToken();
    if first.Err? {
      return Err(first.error);
    }
    var parser := new Parser(lexer, first.value);
    var p := parser.ParseProgram();
    if p.Err? {
      return Err(p.error);
    }
    return Ok(parser.State());
  }

  // ---------------------------------------------------------------- lexer properties

  /** getNextToken skips whitespace: a run of spaces before `j` does not change the next token. */
  lemma {:induction false} SpacesSkipped(s: string, i: nat, j: nat)
    requires i <= j <= |s| && forall k :: i <= k < j ==> CSpace(s[k])
    ensures NextAt(s, i) == NextAt(s, j)
    decreases j - i
  {
    if i < j {
      assert !IsDigit(s[i]) && !IsAlpha(s[i]) && s[i] != '_' && OperatorToken(s[i]).None?;
      SpacesSkipped(s, i + 1, j);
    }
  }

  /** Text that is all whitespace from `i` on yields EOF_TOKEN, with an empty value, at the end of the input. */
  lemma OnlySpacesLeft(s: string, i: nat)
    requires i <= |s| && forall k :: i <= k < |s| ==> CSpace(s[k])
    ensures NextAt(s, i) == Ok((Token(EOF_TOKEN, ""), |s|))
  {
    SpacesSkipped(s, i, |s|);
  }

  /**
   * Only `+`, `=`, `;`, whitespace, digits, letters and `_` are accepted: any other character,
   * `-`, `*` and `(` among them, ends the run once the lexer reaches it.
   */
  lemma UnrecognizedExits(s: string, i: nat, j: nat)
    requires i <= j < |s| && forall k :: i <= k < j ==> CSpace(s[k])
    requires !IsDigit(s[j]) && !IsAlpha(s[j]) && s[j] != '_' && !CSpace(s[j])
    requires s[j] !in {'+', '=', ';'}
    ensures NextAt(s, i) == Err(UnrecognizedCharacter(s[j]))
  {
    SpacesSkipped(s, i, j);
  }

  /** Subtraction, multiplication and parentheses are not part of this language. */
  lemma OtherOperatorsFatal()
    ensures NextAt("-", 0) == Err(UnrecognizedCharacter('-'))
    ensures NextAt("*", 0) == Err(UnrecognizedCharacter('*'))
    ensures NextAt("(", 0) == Err(UnrecognizedCharacter('('))
  {
  }

  /**
   * A token's value is the text just before where the cursor stops, and only whitespace lies
   * between the old cursor and the token: lexing drops whitespace and nothing else.
   */
  lemma {:induction false} TokenIsText(s: string, i: nat)
    requires NextAt(s, i).Ok? && NextAt(s, i).value.0.ttype != EOF_TOKEN
    ensures var (t, p) := NextAt(s, i).value;
            |t.value| <= p - i && s[p - |t.value|..p] == t.value
            && forall k :: i <= k < p - |t.value| ==> CSpace(s[k])
    decreases |s| - i
  {
    var (t, p) := NextAt(s, i).value;
    if IsDigit(s[i]) || IsAlpha(s[i]) || s[i] == '_' {
      assert t.value == s[i..p];
    } else if OperatorToken(s[i]).Some? {
      assert t.value == [s[i]] == s[i..p];
    } else {
      TokenIsText(s, i + 1);
    }
  }

  /** Numbers start with a digit and take the maximal digit/dot run; a dot makes DOUBLE. */
  lemma NumberTokens(s: string, i: nat)
    requires i < |s| && IsDigit(s[i])
    ensures NextAt(s, i) == Ok((NumberToken(s[i..RunEnd(s, i)]), RunEnd(s, i)))
    ensures NumberToken(s[i..RunEnd(s, i)]).ttype == DOUBLE <==> '.' in s[i..RunEnd(s, i)]
  {
  }

  /** FLOAT is never produced. */
  lemma {:induction false} NoFloatToken(s: string, i: nat)
    ensures NextAt(s, i).Ok? ==> NextAt(s, i).value.0.ttype != FLOAT
    decreases |s| - i
  {
    if i < |s| && CSpace(s[i]) {
      NoFloatToken(s, i + 1);
    }
  }

  /** Only int, float and double are keywords; every other word is an IDENTIFIER. */
  lemma KeywordTable(w: string)
    ensures WordToken(w).ttype == KEYWORD <==> w == "int" || w == "float" || w == "double"
  {
  }

  // ---------------------------------------------------------------- parser properties

  /** A successful eat lexes the next token. */
  lemma EatStep(s: string, st: PState, ttype: TokenType, t: Token, p: nat)
    requires st.cur.ttype == ttype && NextAt(s, st.pos) == Ok((t, p))
    ensures EatSpec(s, st, ttype) == Ok(PState(p, t, st.vars))
  {
  }

  /** A number literal as a term: its stoi value, and the cursor moves past it. */
  lemma NumberStep(s: string, st: PState, n: int, t: Token, p: nat)
    requires st.cur.ttype in {INTEGER, DOUBLE} && Stoi(st.cur.value) == Ok(n) && NextAt(s, st.pos) == Ok((t, p))
    ensures TermSpec(s, st) == Ok((n, PState(p, t, st.vars)))
  {
    EatStep(s, st, st.cur.ttype, t, p);
  }

  /** One round of parseExpression's loop over `+` and a number literal adds the literal's stoi value. */
  lemma PlusStep(s: string, acc: int, st: PState, num: Token, p1: nat, n: int, next: Token, p2: nat)
    requires st.cur.ttype == PLUS && NextAt(s, st.pos) == Ok((num, p1)) && NextAt(s, p1) == Ok((next, p2))
    requires num.ttype in {INTEGER, DOUBLE} && Stoi(num.value) == Ok(n) && AddTerm(acc, n).Ok?
    ensures ExprTail(s, acc, st) == ExprTail(s, acc + n, PState(p2, next, st.vars))
  {
    EatStep(s, st, PLUS, num, p1);
    NumberStep(s, PState(p1, num, st.vars), n, next, p2);
    assert AddTerm(acc, n) == Ok(acc + n);
    assert ExprTail(s, acc, st) == ExprRound(s, acc, st);
  }

  /** Reading an undeclared name exits once the name has been eaten. */
  lemma UndeclaredRead(s: string, st: PState)
    requires st.cur.ttype == IDENTIFIER && st.cur.value !in st.vars && NextAt(s, st.pos).Ok?
    ensures TermSpec(s, st) == Err(NotDeclared(st.cur.value))
  {
  }

  /** A declared name reads as its stored value. */
  lemma DeclaredRead(s: string, st: PState)
    requires st.cur.ttype == IDENTIFIER && st.cur.value in st.vars && NextAt(s, st.pos).Ok?
    ensures TermSpec(s, st).Ok? && TermSpec(s, st).value.0 == st.vars[st.cur.value].1
  {
  }

  /**
   * A declaration binds its name to the keyword and the value, replacing any earlier entry, and
   * leaves every other variable as it was.
   */
  lemma DeclarationBinds(s: string, st: PState)
    requires DeclarationSpec(s, st).Ok?
    ensures var st1 := EatSpec(s, st, KEYWORD).value;
            var name := st1.cur.value;
            var v := AssignedValue(s, EatSpec(s, st1, IDENTIFIER).value).value.0;
            var vars := DeclarationSpec(s, st).value.vars;
            name in vars && vars[name] == (st.cur.value, v)
            && (forall x :: x != name ==> (x in vars <==> x in st.vars))
            && (forall x :: x != name && x in st.vars ==> vars[x] == st.vars[x])
  {
  }

  /**
   * An assignment succeeds only on a declared name; it replaces that name's value, keeps its
   * declared type, and leaves the set of variables and every other entry as they were.
   */
  lemma AssignmentUpdates(s: string, st: PState)
    requires AssignmentSpec(s, st).Ok?
    ensures var name := st.cur.value;
            var v := AssignedValue(s, EatSpec(s, st, IDENTIFIER).value).value.0;
            var vars := AssignmentSpec(s, st).value.vars;
            name in st.vars && vars.Keys == st.vars.Keys
            && vars[name] == (st.vars[name].0, v)
            && (forall x :: x != name && x in st.vars ==> vars[x] == st.vars[x])
  {
  }

  /** Assigning to an undeclared name exits, but only after the whole `= expr ;` has been parsed. */
  lemma AssignmentUndeclared(s: string, st: PState)
    requires st.cur.ttype == IDENTIFIER && st.cur.value !in st.vars
    requires EatSpec(s, st, IDENTIFIER).Ok? && AssignedValue(s, EatSpec(s, st, IDENTIFIER).value).Ok?
    ensures AssignmentSpec(s, st) == Err(NotDeclared(st.cur.value))
    ensures StatementSpec(s, st) == Err(NotDeclared(st.cur.value))
  {
  }

  /** A statement that starts with neither KEYWORD nor IDENTIFIER exits, naming the token's type number. */
  lemma StatementStart(s: string, st: PState)
    requires st.cur.ttype != KEYWORD && st.cur.ttype != IDENTIFIER
    ensures StatementSpec(s, st) == Err(UnexpectedInStatement(Ordinal(st.cur.ttype)))
  {
  }

  // ---------------------------------------------------------------- worked example

  const Half := Token(DOUBLE, "2.5")
  const One := Token(INTEGER, "1")
  const Plus := Token(PLUS, "+")

  /** The tokens getNextToken yields on "2.5+1", cursor by cursor. */
  predicate LexedAsHalfPlusOne(s: string)
  {
    NextAt(s, 0) == Ok((Half, 3)) && NextAt(s, 3) == Ok((Plus, 4))
    && NextAt(s, 4) == Ok((One, 5)) && NextAt(s, 5) == Ok((EofToken, 5))
  }

  lemma LexesHalfPlusOne()
    ensures LexedAsHalfPlusOne("2.5+1")
  {
    var s := "2.5+1";
    assert RunEnd(s, 0) == 3 && Lexeme(s, 0) == "2.5";
    assert RunEnd(s, 4) == 5 && Lexeme(s, 4) == "1";
  }

  lemma HalfPlusOneOver(s: string)
    requires LexedAsHalfPlusOne(s)
    ensures ExprSpec(s, PState(3, Half, map[])) == Ok((3, PState(5, EofToken, map[])))
  {
    StoiDropsFraction();
    StoiDigits("1");
    NumberStep(s, PState(3, Half, map[]), 2, Plus, 4);
    PlusStep(s, 2, PState(4, Plus, map[]), One, 5, 1, EofToken, 5);
  }

  /** A decimal literal is cut to its integer prefix by stoi before it is added: "2.5+1" is 3. */
  lemma DecimalTruncatedInSum()
    ensures Start("2.5+1") == Ok(PState(3, Half, map[]))
    ensures ExprSpec("2.5+1", PState(3, Half, map[])) == Ok((3, PState(5, EofToken, map[])))
  {
    LexesHalfPlusOne();
    HalfPlusOneOver("2.5+1");
  }
}
