/**
 * Seven.py: a lexer that records where each number starts and ends, and a recursive-descent
 * parser that builds a tree of NumberNode/OperationNode values, reporting failures through
 * ParseResult objects instead of raising.
 *
 * Two defects stop the file as written; both are modelled as written and then corrected.
 *   - `Token` is a four-field namedtuple, yet operators and EOF are built with two arguments,
 *     which raises TypeError: here positions are optional.
 *   - `expr` names an undefined `TTDIV`, which raises NameError: here expr's operators are
 *     the stated set `ExprOps`.
 */
module Seven {
  import opened Common
  import opened Chars
  import opened PyValues

  datatype TokenType = INT | FLOAT | PLUS | MINUS | MUL | DIV | LPAREN | RPAREN | EOF

  /** A token; only numbers carry positions, as only `make_number` passes them. */
  datatype Token = Token(ttype: TokenType, value: Value, posStart: Option<nat>, posEnd: Option<nat>)

  /** `Exception(message, pos_start, pos_end)`, returned rather than raised. */
  datatype Error = Error(message: string, posStart: Option<nat>, posEnd: Option<nat>)

  // ---------------------------------------------------------------- lexer specification

  /** The one-character tokens, built without positions. */
  function CharToken(c: char): (r: Option<Token>)
    ensures r.Some? ==> r.value.value == Str([c]) && r.value.posStart.None? && r.value.ttype != EOF
  {
    match c
    case '+' => Some(Token(PLUS, Str("+"), None, None))
    case '-' => Some(Token(MINUS, Str("-"), None, None))
    case '*' => Some(Token(MUL, Str("*"), None, None))
    case '/' => Some(Token(DIV, Str("/"), None, None))
    case '(' => Some(Token(LPAREN, Str("("), None, None))
    case ')' => Some(Token(RPAREN, Str(")"), None, None))
    case _ => None
  }

  /** The characters `make_tokens` skips: space and tab only. */
  predicate Blank(c: char) { c == ' ' || c == '\t' }

  /**
   * Where `make_number` stops, having seen `dots` dots already: at the first character that is
   * neither a digit nor a dot, or at a second dot, which it leaves unread without an error.
   */
  function NumberEnd(s: string, i: nat, dots: nat): (e: nat)
    requires i <= |s| && dots <= 1
    ensures i <= e <= |s| && DigitsAndDots(s[i..e])
    ensures Occurrences(s[i..e], '.') + dots <= 1
    ensures e < |s| ==> !IsDigit(s[e]) && (s[e] == '.' ==> Occurrences(s[i..e], '.') + dots == 1)
    decreases |s| - i
  {
    if i < |s| && (IsDigit(s[i]) || (s[i] == '.' && dots == 0)) then
      var e := NumberEnd(s, i + 1, if s[i] == '.' then dots + 1 else dots);
      assert s[i..e] == [s[i]] + s[i + 1..e];
      assert s[i..e][1..] == s[i + 1..e];
      e
    else i
  }

  /** The value of a number lexeme: `int` without a dot, `float` with one. */
  function NumberValue(w: string): (v: Value)
    requires DigitsAndDots(w) && Occurrences(w, '.') <= 1 && w != [] && IsDigit(w[0])
    ensures '.' in w ==> v.Flt?
    ensures '.' !in w ==> v == Int(DigitsValue(w))
  {
    OccurrencesNone(w, '.');
    if '.' in w then PyFloat(w).value else PyInt(w)
  }

  /** `make_number` at `i`: INT or FLOAT, with the start and end of the lexeme. */
  function NumberToken(s: string, i: nat): (t: Token)
    requires i < |s| && IsDigit(s[i])
    ensures t.ttype in {INT, FLOAT} && t.posStart == Some(i) && t.posEnd == Some(NumberEnd(s, i, 0))
  {
    var e := NumberEnd(s, i, 0);
    var w := s[i..e];
    Token(if '.' in w then FLOAT else INT, NumberValue(w), Some(i), Some(e))
  }

  /** Where the lexeme at `i` ends. */
  function ScanEnd(s: string, i: nat): (e: nat)
    requires i < |s|
    ensures i < e <= |s|
  {
    if IsDigit(s[i]) then NumberEnd(s, i, 0) else i + 1
  }

  /** One round of `make_tokens`' loop at `i`: no token for a blank, one token, or the error it returns. */
  function Scanned(s: string, i: nat): (r: Result<seq<Token>, Error>)
    requires i < |s|
    ensures r.Ok? ==> |r.value| <= 1 && forall t :: t in r.value ==> t.ttype != EOF
    ensures r.Err? ==> r.error.posStart == Some(i) && r.error.posEnd == Some(i + 1)
  {
    if Blank(s[i]) then Ok([])
    else if IsDigit(s[i]) then Ok([NumberToken(s, i)])
    else if CharToken(s[i]).Some? then Ok([CharToken(s[i]).value])
    else Err(Error("Illegal character '" + [s[i]] + "'", Some(i), Some(i + 1)))
  }

  const EofToken := Token(EOF, NoneV, None, None)

  /** What `make_tokens` returns when started at `i`: the tokens ending in EOF, or the error. */
  function LexFrom(s: string, i: nat): Result<seq<Token>, Error>
    decreases |s| - i
  {
    if i >= |s| then Ok([EofToken])
    else
      match Scanned(s, i)
      case Err(x) => Err(x)
      case Ok(ts) => Prefix(ts, LexFrom(s, ScanEnd(s, i)))
  }

  /** The pair `make_tokens` returns: `(tokens, None)` or `([], error)`. */
  function Returned(r: Result<seq<Token>, Error>): (seq<Token>, Option<Error>)
  {
    match r
    case Ok(ts) => (ts, None)
    case Err(e) => ([], Some(e))
  }

  // ---------------------------------------------------------------- lexer

  class Lexer {
    const text: string
    var pos: int
    var currentChar: Option<char>

    ghost predicate Valid()
      reads this
    {
      pos >= 0 && currentChar == CharAt(text, pos)
    }

    constructor (text: string)
      ensures Valid() && this.text == text && pos == 0
    {
      this.text := text;
      pos := -1;
      currentChar := None;
      new;
      Advance();
    }

    method Advance()
      requires pos >= -1
      modifies this
      ensures pos == old(pos) + 1 && Valid()
    {
      pos := pos + 1;
      if pos < |text| {
        currentChar := Some(text[pos]);
      } else {
        currentChar := None;
      }
    }

    method MakeTokens() returns (tokens: seq<Token>, error: Option<Error>)
      requires Valid()
      modifies this
      ensures (tokens, error) == Returned(LexFrom(text, old(pos)))
    {
      ghost var whole := LexFrom(text, pos);
      tokens := [];
      PrefixNil(whole);
      while currentChar.Some?
        invariant Valid()
        invariant whole == Prefix(tokens, LexFrom(text, pos))
        decreases |text| - pos
      {
        var step := MakeTokensStep(whole, tokens);
        if step.Err? {
          return [], Some(step.error);
        }
        tokens := step.value;
      }
      tokens := tokens + [EofToken];
      return tokens, None;
    }

    /**
     * One round of `make_tokens`' loop: skips a blank, appends a token, or stops with the error.
     * `whole`, what the entire scan returns, is the tokens so far before what is left to scan.
     */
    method MakeTokensStep(ghost whole: Result<seq<Token>, Error>, tokens: seq<Token>)
      returns (r: Result<seq<Token>, Error>)
      requires Valid() && currentChar.Some?
      requires whole == Prefix(tokens, LexFrom(text, pos))
      modifies this
      ensures Valid() && (r.Ok? ==> pos > old(pos))
      ensures r.Err? ==> whole == Err(r.error)
      ensures r.Ok? ==> whole == Prefix(r.value, LexFrom(text, pos))
    {
      var c := currentChar.value;
      ghost var i := pos;
      var found: seq<Token>;
      if Blank(c) {
        Advance();
        found := [];
      } else if IsDigit(c) {
        var t := MakeNumber();
        found := [t];
      } else if CharToken(c).Some? {
        found := [CharToken(c).value];
        Advance();
      } else {
        var posStart := pos;
        Advance();
        var e := Error("Illegal character '" + [c] + "'", Some(posStart), Some(pos));
        assert Scanned(text, i) == Err(e);
        return Err(e);
      }
      assert Scanned(text, i) == Ok(found) && ScanEnd(text, i) == pos;
      PrefixPrefix(tokens, found, LexFrom(text, pos));
      return Ok(tokens + found);
    }

    method MakeNumber() returns (t: Token)
      requires Valid() && currentChar.Some? && IsDigit(currentChar.value)
      modifies this
      ensures Valid() && pos == NumberEnd(text, old(pos), 0)
      ensures t == NumberToken(text, old(pos))
    {
      var numStr := "";
      var dotCount := 0;
      var posStart := pos;
      while currentChar.Some? && (IsDigit(currentChar.value) || currentChar.value == '.')
        invariant Valid() && posStart <= pos <= |text|
        invariant NumberSoFar(text, posStart, pos, numStr, dotCount)
        decreases |text| - pos
      {
        if currentChar.value == '.' && dotCount == 1 {
          break;
        }
        NumberGrows(text, posStart, pos, numStr, dotCount);
        if currentChar.value == '.' {
          dotCount := dotCount + 1;
        }
        numStr := numStr + [currentChar.value];
        Advance();
      }
      NumberRead(text, posStart, pos, numStr, dotCount);
      t := Token(if dotCount == 0 then INT else FLOAT, NumberValue(numStr), Some(posStart), Some(pos));
    }
  }

  /** `make_number`'s state after reading `s[i..p]`: the text so far, its dots, and where it will stop. */
  ghost predicate NumberSoFar(s: string, i: nat, p: nat, numStr: string, dots: nat)
  {
    i <= p <= |s| && numStr == s[i..p] && dots == Occurrences(numStr, '.') && dots <= 1
    && NumberEnd(s, i, 0) == NumberEnd(s, p, dots)
  }

  /** Reading one more digit, or a first dot, keeps `NumberSoFar`. */
  lemma NumberGrows(s: string, i: nat, p: nat, numStr: string, dots: nat)
    requires NumberSoFar(s, i, p, numStr, dots) && p < |s|
    requires IsDigit(s[p]) || (s[p] == '.' && dots == 0)
    ensures NumberSoFar(s, i, p + 1, numStr + [s[p]], if s[p] == '.' then dots + 1 else dots)
  {
    assert s[i..p + 1] == s[i..p] + [s[p]];
    OccurrencesAppend(s[i..p], [s[p]], '.');
    assert [s[p]][1..] == [];
  }

  /** Where the loop stops, the text read is the lexeme `NumberToken` takes. */
  lemma NumberRead(s: string, i: nat, p: nat, numStr: string, dots: nat)
    requires NumberSoFar(s, i, p, numStr, dots) && i < p && IsDigit(s[i])
    requires p < |s| ==> !IsDigit(s[p]) && (s[p] == '.' ==> dots == 1)
    ensures p == NumberEnd(s, i, 0) && DigitsAndDots(numStr) && IsDigit(numStr[0])
    ensures Occurrences(numStr, '.') <= 1 && ('.' in numStr <==> dots == 1)
    ensures NumberToken(s, i) == Token(if dots == 0 then INT else FLOAT, NumberValue(numStr), Some(i), Some(p))
  {
    OccurrencesNone(numStr, '.');
    assert numStr[0] == s[i];
  }

  // ---------------------------------------------------------------- the lexer as written

  /** The TypeError a two-argument `Token(...)` call raises. */
  const MissingPositions := Exc(TypeError, "Token.__new__() missing 2 required positional arguments: 'pos_start' and 'pos_end'")

  /**
   * `make_tokens` exactly as written: building an operator or the EOF token raises, so the
   * only way to return is through an illegal character before any operator.
   */
  function MakeTokensAsWritten(s: string, i: nat): Result<(seq<Token>, Option<Error>), Exc>
    decreases |s| - i
  {
    if i >= |s| then Err(MissingPositions)
    else if Blank(s[i]) then MakeTokensAsWritten(s, i + 1)
    else if IsDigit(s[i]) then MakeTokensAsWritten(s, NumberEnd(s, i, 0))
    else if CharToken(s[i]).Some? then Err(MissingPositions)
    else Ok(([], Some(Error("Illegal character '" + [s[i]] + "'", Some(i), Some(i + 1)))))
  }

  /** Whenever the corrected lexer succeeds the lexer as written raises; otherwise it raises or returns the same error. */
  lemma {:induction false} AsWrittenRaises(s: string, i: nat)
    ensures LexFrom(s, i).Ok? ==> MakeTokensAsWritten(s, i) == Err(MissingPositions)
    ensures MakeTokensAsWritten(s, i).Ok? ==> MakeTokensAsWritten(s, i) == Ok(Returned(LexFrom(s, i)))
    decreases |s| - i
  {
    if i < |s| {
      if Blank(s[i]) {
        AsWrittenRaises(s, i + 1);
        assert LexFrom(s, i) == Prefix([], LexFrom(s, i + 1));
        PrefixNil(LexFrom(s, i + 1));
      } else if IsDigit(s[i]) {
        var e := NumberEnd(s, i, 0);
        AsWrittenRaises(s, e);
        assert LexFrom(s, i) == Prefix([NumberToken(s, i)], LexFrom(s, e));
      }
    }
  }

  // ---------------------------------------------------------------- lexer properties

  /** The shape every token list handed to the parser has: exactly one EOF, at the end. */
  ghost predicate WellFormed(ts: seq<Token>)
  {
    |ts| > 0 && ts[|ts| - 1].ttype == EOF && forall j :: 0 <= j < |ts| - 1 ==> ts[j].ttype != EOF
  }

  /** A successful scan ends in the single EOF token. */
  lemma {:induction false} LexWellFormed(s: string, i: nat)
    ensures LexFrom(s, i).Ok? ==> WellFormed(LexFrom(s, i).value) && LexFrom(s, i).value[|LexFrom(s, i).value| - 1] == EofToken
    decreases |s| - i
  {
    if i < |s| && Scanned(s, i).Ok? {
      LexWellFormed(s, ScanEnd(s, i));
    }
  }

  /** A scan fails exactly at an illegal character, reported with its own position and the next. */
  lemma {:induction false} LexErrorIsIllegal(s: string, i: nat)
    ensures LexFrom(s, i).Err? ==>
      var e := LexFrom(s, i).error;
      exists p :: i <= p < |s| && !Blank(s[p]) && !IsDigit(s[p]) && CharToken(s[p]).None?
        && e == Error("Illegal character '" + [s[p]] + "'", Some(p), Some(p + 1))
    decreases |s| - i
  {
    if i < |s| {
      if Scanned(s, i).Ok? {
        LexErrorIsIllegal(s, ScanEnd(s, i));
      } else {
        assert LexFrom(s, i).error == Error("Illegal character '" + [s[i]] + "'", Some(i), Some(i + 1));
      }
    }
  }

  /** Blanks, then a character no branch accepts (a newline, a letter, a leading dot): that character's error. */
  lemma {:induction false} BlanksThenIllegal(s: string, i: nat, j: nat)
    requires i <= j < |s| && forall p :: i <= p < j ==> Blank(s[p])
    requires !Blank(s[j]) && !IsDigit(s[j]) && CharToken(s[j]).None?
    ensures LexFrom(s, i) == Err(Error("Illegal character '" + [s[j]] + "'", Some(j), Some(j + 1)))
    decreases j - i
  {
    if i < j {
      BlanksThenIllegal(s, i + 1, j);
    }
  }

  /** A second dot ends the number, and is then rejected on its own: "1.." fails at offset 2. */
  lemma SecondDotRejected()
    ensures LexFrom("1..", 0) == Err(Error("Illegal character '.'", Some(2), Some(3)))
  {
    var s := "1..";
    assert s[0] == '1' && s[1] == '.' && s[2] == '.';
    assert NumberEnd(s, 2, 1) == 2;
    assert NumberEnd(s, 1, 0) == 2;
    assert NumberEnd(s, 0, 0) == 2;
    assert "Illegal character '" + [s[2]] + "'" == "Illegal character '.'";
    assert s[2] == '.' && Scanned(s, 0) == Ok([NumberToken(s, 0)]) && ScanEnd(s, 0) == 2;
    BlanksThenIllegal(s, 2, 2);
    assert LexFrom(s, 0) == Prefix([NumberToken(s, 0)], LexFrom(s, 2));
  }

  // ---------------------------------------------------------------- parser specification

  /**
   * A node of the tree: a number, or an operation with its operator token; a unary
   * operation has no right operand.
   */
  datatype Node = NumberNode(value: Value) | OperationNode(left: Node, op: Token, right: Option<Node>)

  /** The two precedence levels `bin_op` is used at: `term` over `factor`, `expr` over `term`. */
  datatype Level = TermLevel | ExprLevel

  /** The operators `expr` folds, taken to be plus and minus. */
  const ExprOps: set<TokenType> := {PLUS, MINUS}

  function Ops(l: Level): set<TokenType>
  {
    if l.TermLevel? then {MUL, DIV} else ExprOps
  }

  function Rank(l: Level): nat
  {
    if l.TermLevel? then 1 else 2
  }

  /** A parse step: the node and the index of the token after it, or the error. */
  type Parsed = Result<(Node, nat), Error>

  const ExpectedFactor := "Expected int, float, '+', '-', or '('"
  const ExpectedRParen := "Expected ')'"
  const ExpectedEof := "Expected EOF"

  /** The error for a token, at that token's positions. */
  function ErrorAt(message: string, t: Token): Error
  {
    Error(message, t.posStart, t.posEnd)
  }

  /** `factor` at token `k`: a signed factor, a number, or a parenthesised expression. */
  function FactorSpec(ts: seq<Token>, k: nat): (r: Parsed)
    requires WellFormed(ts) && k < |ts|
    ensures r.Ok? ==> k < r.value.1 < |ts|
    decreases |ts| - k, 0, 0
  {
    var t := ts[k];
    if t.ttype == PLUS || t.ttype == MINUS then
      match FactorSpec(ts, k + 1)
      case Err(e) => Err(e)
      case Ok((n, j)) => Ok((OperationNode(n, t, None), j))
    else if t.ttype == INT || t.ttype == FLOAT then
      Ok((NumberNode(t.value), k + 1))
    else if t.ttype == LPAREN then
      match BinOpSpec(ts, k + 1, ExprLevel)
      case Err(e) => Err(e)
      case Ok((n, j)) =>
        if ts[j].ttype == RPAREN then Ok((n, j + 1)) else Err(ErrorAt(ExpectedRParen, ts[j]))
    else Err(ErrorAt(ExpectedFactor, t))
  }

  /** `func()` of `bin_op` at level `l`: `factor` under `term`, `term` under `expr`. */
  function OperandSpec(ts: seq<Token>, k: nat, l: Level): (r: Parsed)
    requires WellFormed(ts) && k < |ts|
    ensures r.Ok? ==> k < r.value.1 < |ts|
    decreases |ts| - k, Rank(l), 0
  {
    if l.TermLevel? then FactorSpec(ts, k) else BinOpSpec(ts, k, TermLevel)
  }

  /** `bin_op` at level `l`: one operand, then the left-nested fold over the level's operators. */
  function BinOpSpec(ts: seq<Token>, k: nat, l: Level): (r: Parsed)
    requires WellFormed(ts) && k < |ts|
    ensures r.Ok? ==> k < r.value.1 < |ts|
    decreases |ts| - k, Rank(l), 1
  {
    match OperandSpec(ts, k, l)
    case Err(e) => Err(e)
    case Ok((n, j)) => BinOpTail(ts, j, l, n)
  }

  /** The loop of `bin_op` from token `k` with `left` built so far. */
  function BinOpTail(ts: seq<Token>, k: nat, l: Level, left: Node): (r: Parsed)
    requires WellFormed(ts) && k < |ts|
    ensures r.Ok? ==> k <= r.value.1 < |ts|
    decreases |ts| - k, Rank(l), 0
  {
    if ts[k].ttype in Ops(l) then
      match OperandSpec(ts, k + 1, l)
      case Err(e) => Err(e)
      case Ok((n, j)) => BinOpTail(ts, j, l, OperationNode(left, ts[k], Some(n)))
    else Ok((left, k))
  }

  /** `factor` on a sign: the signed factor after it, as a unary operation. */
  lemma FactorSigned(ts: seq<Token>, k: nat)
    requires WellFormed(ts) && k < |ts| && ts[k].ttype in {PLUS, MINUS}
    ensures k + 1 < |ts|
    ensures FactorSpec(ts, k + 1).Err? ==> FactorSpec(ts, k) == FactorSpec(ts, k + 1)
    ensures FactorSpec(ts, k + 1).Ok? ==>
      FactorSpec(ts, k) == Ok((OperationNode(FactorSpec(ts, k + 1).value.0, ts[k], None), FactorSpec(ts, k + 1).value.1))
  {
  }

  /** `factor` on `(`: the expression after it, which must be closed by `)`. */
  lemma FactorParen(ts: seq<Token>, k: nat)
    requires WellFormed(ts) && k < |ts| && ts[k].ttype == LPAREN
    ensures k + 1 < |ts|
    ensures BinOpSpec(ts, k + 1, ExprLevel).Err? ==> FactorSpec(ts, k) == BinOpSpec(ts, k + 1, ExprLevel)
    ensures BinOpSpec(ts, k + 1, ExprLevel).Ok? ==>
      var (n, j) := BinOpSpec(ts, k + 1, ExprLevel).value;
      FactorSpec(ts, k) == if ts[j].ttype == RPAREN then Ok((n, j + 1)) else Err(ErrorAt(ExpectedRParen, ts[j]))
  {
  }

  /** What a `ParseResult` holds when it is returned: its error and its node. */
  datatype ParseOutcome = ParseOutcome(error: Option<Error>, node: Option<Node>)

  /** The result a parse step hands back: the error and no node, or the node and no error. */
  function Reported(r: Parsed): ParseOutcome
  {
    match r
    case Err(e) => ParseOutcome(Some(e), None)
    case Ok((n, _)) => ParseOutcome(None, Some(n))
  }

  /** `parse` from token `k`: an expression that must be followed by EOF; that error keeps the node. */
  function ParseSpec(ts: seq<Token>, k: nat): ParseOutcome
    requires WellFormed(ts) && k < |ts|
  {
    match BinOpSpec(ts, k, ExprLevel)
    case Err(e) => ParseOutcome(Some(e), None)
    case Ok((n, j)) =>
      if ts[j].ttype != EOF then ParseOutcome(Some(ErrorAt(ExpectedEof, ts[j])), Some(n))
      else ParseOutcome(None, Some(n))
  }

  /** What `run` returns: the lexer's error, or the parse result with its error. */
  datatype RunOutcome = LexFailed(error: Error) | Parsed(outcome: ParseOutcome)

  function RunSpec(text: string): (r: RunOutcome)
  {
    LexWellFormed(text, 0);
    match LexFrom(text, 0)
    case Err(e) => LexFailed(e)
    case Ok(ts) => Parsed(ParseSpec(ts, 0))
  }

  // ---------------------------------------------------------------- parse results and parser

  class ParseResult {
    var error: Option<Error>
    var node: Option<Node>

    constructor ()
      ensures error == None && node == None
    {
      error := None;
      node := None;
    }

    /** Takes over another result's error, if it has one, and hands back its node. */
    method Register(res: ParseResult) returns (n: Option<Node>)
      modifies this
      ensures error == (if old(res.error).Some? then old(res.error) else old(error))
      ensures node == old(node) && n == old(res.node)
    {
      if res.error.Some? {
        error := res.error;
      }
      n := res.node;
    }

    method Success(n: Node)
      modifies this
      ensures node == Some(n) && error == old(error)
    {
      node := Some(n);
    }

    method Failure(e: Error)
      modifies this
      ensures error == Some(e) && node == old(node)
    {
      error := Some(e);
    }
  }

  class Parser {
    const tokens: seq<Token>
    var tokenIndex: nat
    var currentToken: Token

    /** The token list is a scan's, and the current token is the one at the index, or EOF past the end. */
    ghost predicate Valid()
      reads this
    {
      WellFormed(tokens) && currentToken == tokens[Cursor()]
    }

    /** The index of the current token: past the end, the current token stays the last one. */
    ghost function Cursor(): nat
      reads this
      requires |tokens| > 0
    {
      if tokenIndex < |tokens| then tokenIndex else |tokens| - 1
    }

    /** The result `res` gives and where the parser stands agree with the specification's step `r`. */
    ghost predicate Delivers(res: ParseResult, r: Parsed)
      reads this, res
      requires |tokens| > 0
    {
      ParseOutcome(res.error, res.node) == Reported(r) && (r.Ok? ==> Cursor() == r.value.1)
    }

    constructor (tokens: seq<Token>)
      requires WellFormed(tokens)
      ensures Valid() && this.tokens == tokens && Cursor() == 0
    {
      this.tokens := tokens;
      tokenIndex := 0;
      currentToken := tokens[0];
    }

    method Advance()
      requires Valid()
      modifies this
      ensures Valid() && tokenIndex == old(tokenIndex) + 1
    {
      tokenIndex := tokenIndex + 1;
      if tokenIndex < |tokens| {
        currentToken := tokens[tokenIndex];
      }
    }

    method Parse() returns (res: ParseResult)
      requires Valid()
      modifies this
      ensures Valid() && fresh(res)
      ensures ParseOutcome(res.error, res.node) == ParseSpec(tokens, old(Cursor()))
    {
      res := Expr();
      if res.error.None? && currentToken.ttype != EOF {
        res.Failure(ErrorAt(ExpectedEof, currentToken));
      }
    }

    method Factor() returns (res: ParseResult)
      requires Valid()
      modifies this
      ensures Valid() && fresh(res) && Delivers(res, FactorSpec(tokens, old(Cursor())))
      decreases |tokens| - Cursor(), 0, 0
    {
      ghost var k := Cursor();
      res := new ParseResult();
      var token := currentToken;
      if token.ttype == PLUS || token.ttype == MINUS {
        Advance();
        var sub := Factor();
        var factor := res.Register(sub);
        FactorSigned(tokens, k);
        if res.error.Some? {
          return;
        }
        res.Success(OperationNode(factor.value, token, None));
      } else if token.ttype == INT || token.ttype == FLOAT {
        Advance();
        res.Success(NumberNode(token.value));
      } else if token.ttype == LPAREN {
        Advance();
        var sub := Expr();
        var expr := res.Register(sub);
        FactorParen(tokens, k);
        if res.error.Some? {
          return;
        }
        if currentToken.ttype == RPAREN {
          Advance();
          res.Success(expr.value);
        } else {
          res.Failure(ErrorAt(ExpectedRParen, currentToken));
        }
      } else {
        res.Failure(ErrorAt(ExpectedFactor, token));
      }
    }

    method Term() returns (res: ParseResult)
      requires Valid()
      modifies this
      ensures Valid() && fresh(res) && Delivers(res, BinOpSpec(tokens, old(Cursor()), TermLevel))
      decreases |tokens| - Cursor(), 1, 2
    {
      res := BinOp(TermLevel);
    }

    method Expr() returns (res: ParseResult)
      requires Valid()
      modifies this
      ensures Valid() && fresh(res) && Delivers(res, BinOpSpec(tokens, old(Cursor()), ExprLevel))
      decreases |tokens| - Cursor(), 2, 2
    {
      res := BinOp(ExprLevel);
    }

    /** The `func()` that `bin_op` is handed at level `l`. */
    method Operand(l: Level) returns (res: ParseResult)
      requires Valid()
      modifies this
      ensures Valid() && fresh(res) && Delivers(res, OperandSpec(tokens, old(Cursor()), l))
      decreases |tokens| - Cursor(), Rank(l), 0
    {
      if l.TermLevel? {
        res := Factor();
      } else {
        res := Term();
      }
    }

    method BinOp(l: Level) returns (res: ParseResult)
      requires Valid()
      modifies this
      ensures Valid() && fresh(res) && Delivers(res, BinOpSpec(tokens, old(Cursor()), l))
      decreases |tokens| - Cursor(), Rank(l), 1
    {
      ghost var k := Cursor();
      res := new ParseResult();
      var sub := Operand(l);
      var left := res.Register(sub);
      if res.error.Some? {
        return;
      }
      while currentToken.ttype in Ops(l)
        invariant Valid() && fresh(res) && res.error.None? && res.node.None? && left.Some?
        invariant k < Cursor()
        invariant BinOpSpec(tokens, k, l) == BinOpTail(tokens, Cursor(), l, left.value)
        decreases |tokens| - Cursor()
      {
        var opToken := currentToken;
        Advance();
        sub := Operand(l);
        var right := res.Register(sub);
        if res.error.Some? {
          return;
        }
        left := Some(OperationNode(left.value, opToken, right));
      }
      res.Success(left.value);
    }
  }

  /** `run`: lex, and on success parse; the parse result comes back with its own error. */
  method Run(text: string) returns (ast: ParseResult?, error: Option<Error>)
    ensures RunSpec(text).LexFailed? ==> ast == null && error == Some(RunSpec(text).error)
    ensures RunSpec(text).Parsed? ==>
      ast != null && fresh(ast) && ParseOutcome(ast.error, ast.node) == RunSpec(text).outcome
      && error == RunSpec(text).outcome.error
  {
    var lexer := new Lexer(text);
    var tokens, lexError := lexer.MakeTokens();
    LexWellFormed(text, 0);
    if lexError.Some? {
      return null, lexError;
    }
    var parser := new Parser(tokens);
    ast := parser.Parse();
    error := ast.error;
  }

  // ---------------------------------------------------------------- parser properties

  /** `bin_op`'s loop stops only at a token outside its level's operators. */
  lemma {:induction false} TailStops(ts: seq<Token>, k: nat, l: Level, left: Node)
    requires WellFormed(ts) && k < |ts|
    requires l.ExprLevel? ==> ts[k].ttype !in {MUL, DIV}
    ensures BinOpTail(ts, k, l, left).Ok? ==>
      var j := BinOpTail(ts, k, l, left).value.1;
      ts[j].ttype !in Ops(l) && (l.ExprLevel? ==> ts[j].ttype !in {MUL, DIV})
    decreases |ts| - k, 0
  {
    if ts[k].ttype in Ops(l) {
      var r := OperandSpec(ts, k + 1, l);
      if r.Ok? {
        if l.ExprLevel? {
          TermStops(ts, k + 1);
        }
        TailStops(ts, r.value.1, l, OperationNode(left, ts[k], Some(r.value.0)));
      }
    }
  }

  /** A `term` ends at a token that is neither `*` nor `/`. */
  lemma TermStops(ts: seq<Token>, k: nat)
    requires WellFormed(ts) && k < |ts|
    ensures BinOpSpec(ts, k, TermLevel).Ok? ==> ts[BinOpSpec(ts, k, TermLevel).value.1].ttype !in {MUL, DIV}
    decreases |ts| - k, 1
  {
    var r := FactorSpec(ts, k);
    if r.Ok? {
      TailStops(ts, r.value.1, TermLevel, r.value.0);
    }
  }

  /** An `expr` ends at a token no operator level takes, so "Expected EOF" reports a number or parenthesis. */
  lemma ExprStops(ts: seq<Token>, k: nat)
    requires WellFormed(ts) && k < |ts|
    ensures BinOpSpec(ts, k, ExprLevel).Ok? ==>
      ts[BinOpSpec(ts, k, ExprLevel).value.1].ttype !in {PLUS, MINUS, MUL, DIV}
  {
    var r := BinOpSpec(ts, k, TermLevel);
    if r.Ok? {
      TermStops(ts, k);
      TailStops(ts, r.value.1, ExprLevel, r.value.0);
    }
  }

  /** A parse without error has a tree; a parse with one has a tree only when all but the EOF check succeeded. */
  lemma ParseOutcomes(ts: seq<Token>, k: nat)
    requires WellFormed(ts) && k < |ts|
    ensures ParseSpec(ts, k).error.None? ==> ParseSpec(ts, k).node.Some?
    ensures ParseSpec(ts, k).node.Some? ==>
      BinOpSpec(ts, k, ExprLevel).Ok? && ParseSpec(ts, k).node.value == BinOpSpec(ts, k, ExprLevel).value.0
    ensures ParseSpec(ts, k).error.Some? && ParseSpec(ts, k).node.Some? ==>
      ParseSpec(ts, k).error.value.message == ExpectedEof
      && ts[BinOpSpec(ts, k, ExprLevel).value.1].ttype in {INT, FLOAT, LPAREN, RPAREN}
  {
    ExprStops(ts, k);
  }

  // ---------------------------------------------------------------- worked parses

  /** The token for a one-digit integer at offset `p`. */
  function Digit(v: nat, p: nat): Token
  {
    Token(INT, Int(v), Some(p), Some(p + 1))
  }

  const Plus := Token(PLUS, Str("+"), None, None)
  const Minus := Token(MINUS, Str("-"), None, None)
  const Mul := Token(MUL, Str("*"), None, None)
  const LParen := Token(LPAREN, Str("("), None, None)

  /** The tokens of "1-2-3". */
  const MinusChain := [Digit(1, 0), Minus, Digit(2, 2), Minus, Digit(3, 4), EofToken]

  /** Minus folds to the left: "1-2-3" is (1-2)-3. */
  lemma MinusNestsLeft()
    ensures WellFormed(MinusChain)
    ensures ParseSpec(MinusChain, 0) == ParseOutcome(None, Some(
      OperationNode(OperationNode(NumberNode(Int(1)), Minus, Some(NumberNode(Int(2)))), Minus, Some(NumberNode(Int(3))))))
  {
    var ts := MinusChain;
    assert ts[0] == Digit(1, 0) && ts[1] == Minus && ts[2] == Digit(2, 2);
    assert ts[3] == Minus && ts[4] == Digit(3, 4) && ts[5] == EofToken && |ts| == 6;
    assert WellFormed(ts);
    var n1, n2, n3 := NumberNode(Int(1)), NumberNode(Int(2)), NumberNode(Int(3));
    var d := OperationNode(n1, Minus, Some(n2));
    var t := OperationNode(d, Minus, Some(n3));
    assert FactorSpec(ts, 0) == Ok((n1, 1)) && BinOpTail(ts, 1, TermLevel, n1) == Ok((n1, 1));
    assert BinOpSpec(ts, 0, TermLevel) == Ok((n1, 1));
    assert FactorSpec(ts, 2) == Ok((n2, 3)) && BinOpTail(ts, 3, TermLevel, n2) == Ok((n2, 3));
    assert BinOpSpec(ts, 2, TermLevel) == Ok((n2, 3));
    assert FactorSpec(ts, 4) == Ok((n3, 5)) && BinOpTail(ts, 5, TermLevel, n3) == Ok((n3, 5));
    assert BinOpSpec(ts, 4, TermLevel) == Ok((n3, 5));
    assert BinOpTail(ts, 5, ExprLevel, t) == Ok((t, 5));
    assert BinOpTail(ts, 3, ExprLevel, d) == Ok((t, 5));
    assert BinOpTail(ts, 1, ExprLevel, n1) == Ok((t, 5));
    assert BinOpSpec(ts, 0, ExprLevel) == Ok((t, 5));
  }

  /** Multiplication binds tighter: the tokens of "1+2*3" give 1+(2*3). */
  lemma ProductBindsTighter()
    ensures WellFormed([Digit(1, 0), Plus, Digit(2, 2), Mul, Digit(3, 4), EofToken])
    ensures ParseSpec([Digit(1, 0), Plus, Digit(2, 2), Mul, Digit(3, 4), EofToken], 0) == ParseOutcome(None, Some(
      OperationNode(NumberNode(Int(1)), Plus, Some(OperationNode(NumberNode(Int(2)), Mul, Some(NumberNode(Int(3))))))))
  {
    var ts := [Digit(1, 0), Plus, Digit(2, 2), Mul, Digit(3, 4), EofToken];
    assert WellFormed(ts);
    var n1, n2, n3 := NumberNode(Int(1)), NumberNode(Int(2)), NumberNode(Int(3));
    var p := OperationNode(n2, Mul, Some(n3));
    var t := OperationNode(n1, Plus, Some(p));
    assert FactorSpec(ts, 0) == Ok((n1, 1)) && BinOpTail(ts, 1, TermLevel, n1) == Ok((n1, 1));
    assert BinOpSpec(ts, 0, TermLevel) == Ok((n1, 1));
    assert FactorSpec(ts, 4) == Ok((n3, 5)) && BinOpTail(ts, 5, TermLevel, p) == Ok((p, 5));
    assert BinOpTail(ts, 3, TermLevel, n2) == Ok((p, 5));
    assert FactorSpec(ts, 2) == Ok((n2, 3));
    assert BinOpSpec(ts, 2, TermLevel) == Ok((p, 5));
    assert BinOpTail(ts, 5, ExprLevel, t) == Ok((t, 5));
    assert BinOpTail(ts, 1, ExprLevel, n1) == Ok((t, 5));
    assert BinOpSpec(ts, 0, ExprLevel) == Ok((t, 5));
  }

  /** A sign makes a unary operation without a right operand: the tokens of "-1". */
  lemma SignIsUnary()
    ensures WellFormed([Minus, Digit(1, 1), EofToken])
    ensures ParseSpec([Minus, Digit(1, 1), EofToken], 0)
      == ParseOutcome(None, Some(OperationNode(NumberNode(Int(1)), Minus, None)))
  {
    var ts := [Minus, Digit(1, 1), EofToken];
    assert WellFormed(ts);
    var u := OperationNode(NumberNode(Int(1)), Minus, None);
    assert FactorSpec(ts, 1) == Ok((NumberNode(Int(1)), 2));
    assert FactorSpec(ts, 0) == Ok((u, 2)) && BinOpTail(ts, 2, TermLevel, u) == Ok((u, 2));
    assert BinOpSpec(ts, 0, TermLevel) == Ok((u, 2));
    assert BinOpTail(ts, 2, ExprLevel, u) == Ok((u, 2));
    assert BinOpSpec(ts, 0, ExprLevel) == Ok((u, 2));
  }

  /** An unclosed parenthesis is reported at EOF, which has no positions: the tokens of "(1". */
  lemma UnclosedParenthesis()
    ensures WellFormed([LParen, Digit(1, 1), EofToken])
    ensures ParseSpec([LParen, Digit(1, 1), EofToken], 0) == ParseOutcome(Some(Error(ExpectedRParen, None, None)), None)
  {
    var ts := [LParen, Digit(1, 1), EofToken];
    assert WellFormed(ts);
    var n := NumberNode(Int(1));
    assert FactorSpec(ts, 1) == Ok((n, 2)) && BinOpTail(ts, 2, TermLevel, n) == Ok((n, 2));
    assert BinOpSpec(ts, 1, TermLevel) == Ok((n, 2));
    assert BinOpTail(ts, 2, ExprLevel, n) == Ok((n, 2));
    assert BinOpSpec(ts, 1, ExprLevel) == Ok((n, 2));
    var e := Error(ExpectedRParen, None, None);
    assert FactorSpec(ts, 0) == Err(e);
    assert BinOpSpec(ts, 0, TermLevel) == Err(e);
    assert BinOpSpec(ts, 0, ExprLevel) == Err(e);
  }

  /** A second number after a whole expression: "Expected EOF" at that number, and the first tree is kept. */
  lemma TrailingNumberKeepsTree()
    ensures WellFormed([Digit(1, 0), Digit(2, 2), EofToken])
    ensures ParseSpec([Digit(1, 0), Digit(2, 2), EofToken], 0)
      == ParseOutcome(Some(Error(ExpectedEof, Some(2), Some(3))), Some(NumberNode(Int(1))))
  {
    var ts := [Digit(1, 0), Digit(2, 2), EofToken];
    assert WellFormed(ts);
    var n := NumberNode(Int(1));
    assert FactorSpec(ts, 0) == Ok((n, 1)) && BinOpTail(ts, 1, TermLevel, n) == Ok((n, 1));
    assert BinOpSpec(ts, 0, TermLevel) == Ok((n, 1));
    assert BinOpTail(ts, 1, ExprLevel, n) == Ok((n, 1));
    assert BinOpSpec(ts, 0, ExprLevel) == Ok((n, 1));
  }

  // ---------------------------------------------------------------- the parser as written

  /** The NameError `expr` raises when it builds its operator pair. */
  const UndefinedName := Exc(NameError, "name 'TTDIV' is not defined")

  /** `expr`'s operators as written: evaluating the pair raises before `bin_op` is called. */
  function ExprOpsAsWritten(): Result<set<TokenType>, Exc>
  {
    Err(UndefinedName)
  }

  /** `parse` as written from token `k`: its first step is `expr`, so it raises whenever `expr` does. */
  function ParseAsWritten(ts: seq<Token>, k: nat): Result<ParseOutcome, Exc>
    requires WellFormed(ts) && k < |ts|
  {
    match ExprOpsAsWritten()
    case Err(x) => Err(x)
    case Ok(ops) => if ops == ExprOps then Ok(ParseSpec(ts, k)) else Err(UndefinedName)
  }

  /** As written every parse raises, even of "1-2-3", which the corrected `expr` parses. */
  lemma ParseAsWrittenRaises(ts: seq<Token>, k: nat)
    requires WellFormed(ts) && k < |ts|
    ensures ParseAsWritten(ts, k) == Err(UndefinedName)
    ensures ts == MinusChain && k == 0 ==> ParseSpec(ts, k).error.None?
  {
    if ts == MinusChain && k == 0 {
      MinusNestsLeft();
    }
  }
}
