/**
 * Third.py: the same per-pattern lexer as Fourth.py over a smaller table (no `char` or `double`
 * keyword, no '=' and no special characters), and a stack reducer on Python strings: a name is
 * pushed, '+' concatenates the two topmost entries, and the other operators raise TypeError.
 */
module Third {
  import opened Common
  import opened Chars
  import opened PyValues
  import opened Patterns
  import opened Postfix

  datatype TokenType = KEYWORD | IDENTIFIER | OPERATOR | INTEGER | FLOAT | WHITESPACE

  /** The name of a token type, as the token's repr prints it. */
  function Name(t: TokenType): string
  {
    match t
    case KEYWORD => "KEYWORD"
    case IDENTIFIER => "IDENTIFIER"
    case OPERATOR => "OPERATOR"
    case INTEGER => "INTEGER"
    case FLOAT => "FLOAT"
    case WHITESPACE => "WHITESPACE"
  }

  datatype Token = Token(ttype: TokenType, value: string)

  // ---------------------------------------------------------------- lexer

  const Keywords: set<string> := {"int", "float", "if", "else", "while", "for", "switch", "return"}

  /** The one-character class of the OPERATOR pattern. */
  const OperatorChars := "-+*/()"

  /** The order of the pattern table. */
  const TokenTypes: seq<TokenType> := [KEYWORD, IDENTIFIER, OPERATOR, INTEGER, FLOAT, WHITESPACE]

  /** The regular expression of each token type. */
  function PatternOf(t: TokenType): (p: Pattern)
    ensures WellFormed(p)
  {
    match t
    case KEYWORD => Keyword(Keywords)
    case IDENTIFIER => Identifier
    case OPERATOR => Class(OperatorChars)
    case INTEGER => Integer
    case FLOAT => Float
    case WHITESPACE => Space
  }

  /** Tokens of type `t` with the given values. */
  function Tagged(t: TokenType, vs: seq<string>): (r: seq<Token>)
    ensures |r| == |vs|
  {
    if vs == [] then [] else [Token(t, vs[0])] + Tagged(t, vs[1..])
  }

  /** The tokens one pattern of the table contributes: one per match of `finditer`. */
  function Group(s: string, t: TokenType): seq<Token>
  {
    Tagged(t, FindAll(PatternOf(t), s, 0))
  }

  /** The groups of the table from entry `k` on, in table order. */
  function GroupsFrom(s: string, k: nat): seq<Token>
    decreases |TokenTypes| - k
  {
    if k >= |TokenTypes| then [] else Group(s, TokenTypes[k]) + GroupsFrom(s, k + 1)
  }

  /** What `lexer(program)` returns. */
  function Lex(s: string): seq<Token>
  {
    GroupsFrom(s, 0)
  }

  /** The inner loop of `lexer`: the tokens of every match of one pattern, left to right. */
  method FindTokens(t: TokenType, program: string) returns (found: seq<Token>)
    ensures found == Group(program, t)
  {
    var p := PatternOf(t);
    found := [];
    var j := 0;
    while j < |program|
      invariant Group(program, t) == found + Tagged(t, FindAll(p, program, j))
      decreases |program| - j
    {
      var m := Match(p, program, j);
      if m.Some? {
        var token := Token(t, program[j..m.value]);
        var rest := FindAll(p, program, m.value);
        assert Tagged(t, [program[j..m.value]] + rest) == [token] + Tagged(t, rest);
        found := found + [token];
        j := m.value;
      } else {
        j := j + 1;
      }
    }
  }

  /** `lexer(program)`. */
  method Lexer(program: string) returns (tokens: seq<Token>)
    ensures tokens == Lex(program)
  {
    tokens := [];
    for k := 0 to |TokenTypes|
      invariant Lex(program) == tokens + GroupsFrom(program, k)
    {
      var found := FindTokens(TokenTypes[k], program);
      tokens := tokens + found;
    }
  }

  // ---------------------------------------------------------------- lexer properties

  /** The position of a type in the table. */
  function Rank(t: TokenType): nat
  {
    match t
    case KEYWORD => 0
    case IDENTIFIER => 1
    case OPERATOR => 2
    case INTEGER => 3
    case FLOAT => 4
    case WHITESPACE => 5
  }

  /** All tokens of the list rank at least `k`, and their ranks never go down. */
  predicate Grouped(ts: seq<Token>, k: nat)
  {
    (forall a :: 0 <= a < |ts| ==> k <= Rank(ts[a].ttype))
    && forall a, b :: 0 <= a < b < |ts| ==> Rank(ts[a].ttype) <= Rank(ts[b].ttype)
  }

  lemma {:induction false} TaggedTypes(t: TokenType, vs: seq<string>)
    ensures forall a :: 0 <= a < |vs| ==> Tagged(t, vs)[a] == Token(t, vs[a])
  {
    if vs != [] {
      TaggedTypes(t, vs[1..]);
      var r := Tagged(t, vs[1..]);
      assert Tagged(t, vs) == [Token(t, vs[0])] + r;
      forall a | 0 < a < |vs|
        ensures Tagged(t, vs)[a] == Token(t, vs[a])
      {
        assert Tagged(t, vs)[a] == r[a - 1];
      }
    }
  }

  lemma {:induction false} GroupsFromGrouped(s: string, k: nat)
    requires k <= |TokenTypes|
    ensures Grouped(GroupsFrom(s, k), k)
    decreases |TokenTypes| - k
  {
    if k < |TokenTypes| {
      GroupsFromGrouped(s, k + 1);
      var t := TokenTypes[k];
      var g := Group(s, t);
      var rest := GroupsFrom(s, k + 1);
      TaggedTypes(t, FindAll(PatternOf(t), s, 0));
      assert Rank(t) == k;
      var all := g + rest;
      assert forall a :: 0 <= a < |g| ==> all[a] == g[a] && Rank(all[a].ttype) == k;
      assert forall a :: |g| <= a < |all| ==> all[a] == rest[a - |g|];
    }
  }

  /** The tokens come out grouped by type, in the order of the table, not in the order of the text. */
  lemma LexGrouped(s: string)
    ensures forall a, b :: 0 <= a < b < |Lex(s)| ==> Rank(Lex(s)[a].ttype) <= Rank(Lex(s)[b].ttype)
  {
    GroupsFromGrouped(s, 0);
  }

  /** The characters some pattern of the table can start a match with. */
  predicate Lexable(c: char)
  {
    IsWord(c) || c in OperatorChars || IsRegexSpace(c)
  }

  lemma MatchStartsLexable(t: TokenType, s: string, j: nat)
    requires j < |s| && Match(PatternOf(t), s, j).Some?
    ensures Lexable(s[j])
  {
    if t == KEYWORD {
      assert WordEnd(s, j) > j;
    }
  }

  /**
   * Text in which no character can start a match lexes to nothing: such characters, '=', ';', '{'
   * and '}' among them, are dropped.
   */
  lemma UnlexableDropped(s: string)
    requires forall k :: 0 <= k < |s| ==> !Lexable(s[k])
    ensures Lex(s) == []
  {
    forall t: TokenType
      ensures Group(s, t) == []
    {
      forall k | 0 <= k < |s|
        ensures Match(PatternOf(t), s, k).None?
      {
        if Match(PatternOf(t), s, k).Some? {
          MatchStartsLexable(t, s, k);
        }
      }
      FindAllSkips(PatternOf(t), s, 0, |s|);
    }
    assert GroupsFrom(s, 6) == [];
    assert GroupsFrom(s, 0) == [];
  }

  /** The lexer's result is the six groups one after the other. */
  lemma LexIsGroups(s: string)
    ensures Lex(s) == Group(s, KEYWORD) + (Group(s, IDENTIFIER) + (Group(s, OPERATOR) + (Group(s, INTEGER)
                      + (Group(s, FLOAT) + (Group(s, WHITESPACE) + [])))))
  {
    assert GroupsFrom(s, 6) == [];
    assert GroupsFrom(s, 5) == Group(s, WHITESPACE) + GroupsFrom(s, 6);
    assert GroupsFrom(s, 4) == Group(s, FLOAT) + GroupsFrom(s, 5);
    assert GroupsFrom(s, 3) == Group(s, INTEGER) + GroupsFrom(s, 4);
    assert GroupsFrom(s, 2) == Group(s, OPERATOR) + GroupsFrom(s, 3);
    assert GroupsFrom(s, 1) == Group(s, IDENTIFIER) + GroupsFrom(s, 2);
  }

  /** Over letters only, the patterns after IDENTIFIER match nowhere. */
  lemma LettersOnlyWords(t: TokenType, s: string)
    requires t != KEYWORD && t != IDENTIFIER
    requires forall k :: 0 <= k < |s| ==> IsAlpha(s[k])
    ensures Group(s, t) == []
  {
    forall k | 0 <= k < |s|
      ensures Match(PatternOf(t), s, k).None?
    {
    }
    FindAllSkips(PatternOf(t), s, 0, |s|);
  }

  /** A word of letters standing alone is one match of the identifier pattern. */
  lemma LetterWordIdentifier(w: string)
    requires w != [] && forall k :: 0 <= k < |w| ==> IsAlpha(w[k])
    ensures Group(w, IDENTIFIER) == [Token(IDENTIFIER, w)]
  {
    WordEndAll(w, 0);
    assert w[0..|w|] == w;
    assert FindAll(Identifier, w, |w|) == [];
    assert FindAll(Identifier, w, 0) == [w] + [];
  }

  /** A word of letters standing alone that is not listed is no match of the keyword pattern. */
  lemma UnlistedWordNoKeyword(w: string)
    requires w !in Keywords && forall k :: 0 <= k < |w| ==> IsAlpha(w[k])
    ensures Group(w, KEYWORD) == []
  {
    WordEndAll(w, 0);
    forall k | 0 <= k < |w|
      ensures Match(Keyword(Keywords), w, k).None?
    {
      if k > 0 {
        assert !Boundary(w, k);
      } else {
        assert w[0..|w|] == w;
      }
    }
    FindAllSkips(Keyword(Keywords), w, 0, |w|);
  }

  /**
   * `char` and `double`, which `parse` takes for type keywords, are not in the keyword table: standing
   * alone, each lexes as a single IDENTIFIER.
   */
  lemma UnlistedTypeIsName(w: string)
    requires w == "char" || w == "double"
    ensures Lex(w) == [Token(IDENTIFIER, w)]
  {
    assert w !in Keywords;
    UnlistedWordNoKeyword(w);
    LetterWordIdentifier(w);
    LettersOnlyWords(OPERATOR, w);
    LettersOnlyWords(INTEGER, w);
    LettersOnlyWords(FLOAT, w);
    LettersOnlyWords(WHITESPACE, w);
    LexIsGroups(w);
  }

  /** What the lexer's tokens are like: every KEYWORD is listed, every OPERATOR one character of the class. */
  predicate LexedShape(ts: seq<Token>)
  {
    forall a :: 0 <= a < |ts| ==>
      (ts[a].ttype == KEYWORD ==> ts[a].value in Keywords)
      && (ts[a].ttype == OPERATOR ==> |ts[a].value| == 1 && ts[a].value[0] in OperatorChars)
  }

  /** The texts of `finditer` for a pattern: keywords are listed words, operators one class character. */
  lemma {:induction false} FoundShape(t: TokenType, vs: seq<string>, s: string, j: nat)
    requires vs == FindAll(PatternOf(t), s, j)
    ensures t == KEYWORD ==> forall a :: 0 <= a < |vs| ==> vs[a] in Keywords
    ensures t == OPERATOR ==> forall a :: 0 <= a < |vs| ==> |vs[a]| == 1 && vs[a][0] in OperatorChars
    decreases |s| - j
  {
    if j < |s| {
      match Match(PatternOf(t), s, j)
      case Some(e) =>
        FoundShape(t, FindAll(PatternOf(t), s, e), s, e);
        assert vs == [s[j..e]] + FindAll(PatternOf(t), s, e);
      case None =>
        FoundShape(t, vs, s, j + 1);
    }
  }

  lemma {:induction false} GroupsShape(s: string, k: nat)
    requires k <= |TokenTypes|
    ensures LexedShape(GroupsFrom(s, k))
    decreases |TokenTypes| - k
  {
    if k < |TokenTypes| {
      GroupsShape(s, k + 1);
      var t := TokenTypes[k];
      var vs := FindAll(PatternOf(t), s, 0);
      TaggedTypes(t, vs);
      FoundShape(t, vs, s, 0);
      var g := Group(s, t);
      var rest := GroupsFrom(s, k + 1);
      var all := g + rest;
      forall a | 0 <= a < |all|
        ensures (all[a].ttype == KEYWORD ==> all[a].value in Keywords)
             && (all[a].ttype == OPERATOR ==> |all[a].value| == 1 && all[a].value[0] in OperatorChars)
      {
        if a < |g| {
          assert all[a] == Token(t, vs[a]);
        } else {
          assert all[a] == rest[a - |g|];
        }
      }
    }
  }

  /**
   * Every KEYWORD the lexer makes is a listed word, so never `char` or `double`, and every OPERATOR
   * is one of `- + * / ( )`, so never '{', '}' or ';'.
   */
  lemma LexShape(s: string)
    ensures LexedShape(Lex(s))
  {
    GroupsShape(s, 0);
  }

  // ---------------------------------------------------------------- parser

  const TypeKeywords: set<string> := {"int", "float", "char", "double"}

  /** The exceptions `parse` raises, by what their messages show. */
  datatype ParseError =
    | BadDeclaration(shown: seq<Token>)  // tokens[i:i+3] at a malformed function declaration
    | BadExpression(tokens: seq<Token>)  // all tokens, when the stack underflows or does not end with one entry
    | BadOperands(op: string)            // '-', '*' or '/' applied to two strings

  function TokenRepr(t: Token): string
  {
    "Token(" + Name(t.ttype) + ", " + t.value + ")"
  }

  function Reprs(ts: seq<Token>): seq<string>
  {
    seq(|ts|, k requires 0 <= k < |ts| => TokenRepr(ts[k]))
  }

  /** The exception raised for `e`, with its message. */
  function Raised(e: ParseError): (x: Exc)
    ensures x.kind == (if e.BadOperands? then TypeError else ValueError)
  {
    match e
    case BadDeclaration(shown) => Exc(ValueError, "Invalid function declaration: " + ListStr(Reprs(shown)))
    case BadExpression(tokens) => Exc(ValueError, "Invalid expression: " + ListStr(Reprs(tokens)))
    case BadOperands(op) =>
      if op == "*" then Exc(TypeError, "can't multiply sequence by non-int of type 'str'")
      else Exc(TypeError, "unsupported operand type(s) for " + op + ": 'str' and 'str'")
  }

  /** `tokens[i:i+3]`, which Python cuts short at the end of the list, even when `i` is past it. */
  function DeclarationError(ts: seq<Token>, i: nat): ParseError
  {
    var from := if i <= |ts| then i else |ts|;
    BadDeclaration(ts[from..if i + 3 <= |ts| then i + 3 else |ts|])
  }

  predicate IsOp(t: Token, v: string)
  {
    t.ttype == OPERATOR && t.value == v
  }

  /** No token of the list is the OPERATOR `v`. */
  predicate NoOp(ts: seq<Token>, v: string)
  {
    forall a :: 0 <= a < |ts| ==> !IsOp(ts[a], v)
  }

  /** Where a scan for the OPERATOR `v` from `i` stops: at one, or at the end. */
  function ScanFrom(ts: seq<Token>, i: nat, v: string): (e: nat)
    requires i <= |ts|
    ensures i <= e <= |ts|
    ensures forall k :: i <= k < e ==> !IsOp(ts[k], v)
    ensures e < |ts| ==> IsOp(ts[e], v)
    decreases |ts| - i
  {
    if i == |ts| || IsOp(ts[i], v) then i else ScanFrom(ts, i + 1, v)
  }

  /** A type keyword at `i` is followed by a name and an OPERATOR '('. */
  predicate FunctionFits(ts: seq<Token>, i: nat)
  {
    i + 2 < |ts| && ts[i + 1].ttype == IDENTIFIER && IsOp(ts[i + 2], "(")
  }

  /**
   * The function-declaration branch of `parse`: where it leaves the loop index before the closing
   * `i += 1` (on the '}' that ends the body, or past the end), or the error it raises: at the keyword
   * when no name and '(' follow, or just after the ')' when no '{' is there.
   */
  function FunctionEnd(ts: seq<Token>, i: nat): (r: Result<nat, ParseError>)
    ensures r.Ok? ==> r.value > i
    ensures r.Err? ==> r.error.BadDeclaration?
  {
    if FunctionFits(ts, i) then
      var j := ScanFrom(ts, i + 3, ")") + 1;
      if j < |ts| && IsOp(ts[j], "{") then Ok(ScanFrom(ts, j + 1, "}") + 1)
      else Err(DeclarationError(ts, j))
    else Err(DeclarationError(ts, i))
  }

  /** The end of `parse`: exactly one entry must be left. */
  function Finish(ts: seq<Token>, stack: seq<string>): Result<string, ParseError>
  {
    if |stack| == 1 then Ok(stack[0]) else Err(BadExpression(ts))
  }

  /** What `parse` returns once its loop is at `i` with the given stack. */
  function ParseFrom(ts: seq<Token>, i: nat, stack: seq<string>): Result<string, ParseError>
    decreases |ts| - i, 2
  {
    if i >= |ts| then Finish(ts, stack) else ParseToken(ts, i, stack)
  }

  /** One turn of the loop of `parse`, on the token at `i`, and the rest of the loop after it. */
  function ParseToken(ts: seq<Token>, i: nat, stack: seq<string>): Result<string, ParseError>
    requires i < |ts|
    decreases |ts| - i, 1
  {
    if ts[i].ttype == KEYWORD then ParseKeyword(ts, i, stack) else ParseOperand(ts, i, stack)
  }

  /** The turn on a KEYWORD: a function declaration, a `return`, or any other keyword, which is skipped. */
  function ParseKeyword(ts: seq<Token>, i: nat, stack: seq<string>): Result<string, ParseError>
    requires i < |ts| && ts[i].ttype == KEYWORD
    decreases |ts| - i, 0
  {
    if ts[i].value in TypeKeywords then
      match FunctionEnd(ts, i)
      case Ok(k) => ParseFrom(ts, k + 1, stack)
      case Err(e) => Err(e)
    else if ts[i].value == "return" then
      ParseFrom(ts, ScanFrom(ts, i + 1, ";") + 2, stack)
    else ParseFrom(ts, i + 1, stack)
  }

  /**
   * The turn on any other token: a name is pushed; '+' replaces the two topmost entries by their
   * concatenation, the other operators raise; with fewer than two entries an operator raises.
   */
  function ParseOperand(ts: seq<Token>, i: nat, stack: seq<string>): Result<string, ParseError>
    requires i < |ts| && ts[i].ttype != KEYWORD
    decreases |ts| - i, 0
  {
    var t := ts[i];
    if t.ttype == IDENTIFIER then
      ParseFrom(ts, i + 1, stack + [t.value])
    else if t.ttype == OPERATOR && t.value in {"+", "-", "*", "/"} then
      if |stack| >= 2 then
        if t.value == "+" then ParseFrom(ts, i + 1, stack[..|stack| - 2] + [stack[|stack| - 2] + stack[|stack| - 1]])
        else Err(BadOperands(t.value))
      else Err(BadExpression(ts))
    else ParseFrom(ts, i + 1, stack)
  }

  /** `parse(tokens)`. */
  method Parse(tokens: seq<Token>) returns (r: Result<string, ParseError>)
    ensures r == ParseFrom(tokens, 0, [])
  {
    var stack: seq<string> := [];
    var i: nat := 0;
    while i < |tokens|
      invariant ParseFrom(tokens, 0, []) == ParseFrom(tokens, i, stack)
      decreases |tokens| - i
    {
      var token := tokens[i];
      assert ParseFrom(tokens, i, stack) == ParseToken(tokens, i, stack);
      if token.ttype == KEYWORD && token.value in TypeKeywords {
        var end := FunctionDeclaration(tokens, i);
        if end.Err? {
          return Err(end.error);
        }
        i := end.value;
      } else if token.ttype == KEYWORD && token.value == "return" {
        i := ScanTo(tokens, i + 1, ";");
        i := i + 1;
      } else if token.ttype == IDENTIFIER {
        stack := stack + [token.value];
      } else if token.ttype == OPERATOR && token.value in {"+", "-", "*", "/"} {
        if |stack| >= 2 {
          var b := stack[|stack| - 1];
          var a := stack[|stack| - 2];
          stack := stack[..|stack| - 2];
          if token.value == "+" {
            stack := stack + [a + b];
          } else {
            return Err(BadOperands(token.value));
          }
        } else {
          return Err(BadExpression(tokens));
        }
      }
      i := i + 1;
    }
    return Finish(tokens, stack);
  }

  /** A scan loop of `parse`: move on until the OPERATOR `v` or the end. */
  method ScanTo(tokens: seq<Token>, start: nat, v: string) returns (i: nat)
    requires start <= |tokens|
    ensures i == ScanFrom(tokens, start, v)
  {
    i := start;
    while i < |tokens| && !(tokens[i].ttype == OPERATOR && tokens[i].value == v)
      invariant start <= i <= |tokens|
      invariant ScanFrom(tokens, i, v) == ScanFrom(tokens, start, v)
      decreases |tokens| - i
    {
      i := i + 1;
    }
  }

  /** The function-declaration branch of `parse`, from the type keyword at `start`. */
  method FunctionDeclaration(tokens: seq<Token>, start: nat) returns (r: Result<nat, ParseError>)
    ensures r == FunctionEnd(tokens, start)
  {
    if start + 2 < |tokens| && tokens[start + 1].ttype == IDENTIFIER && tokens[start + 2].ttype == OPERATOR && tokens[start + 2].value == "(" {
      var i := ScanTo(tokens, start + 3, ")");
      i := i + 1;
      if i < |tokens| && tokens[i].ttype == OPERATOR && tokens[i].value == "{" {
        i := ScanTo(tokens, i + 1, "}");
        i := i + 1;
        return Ok(i);
      } else {
        return Err(DeclarationError(tokens, i));
      }
    } else {
      return Err(DeclarationError(tokens, start));
    }
  }

  // ---------------------------------------------------------------- parser properties

  /**
   * Without an OPERATOR '{' in the tokens every type keyword raises: a function declaration can never
   * be completed.
   */
  lemma DeclarationRaises(ts: seq<Token>, i: nat, stack: seq<string>)
    requires NoOp(ts, "{") && i < |ts| && ts[i].ttype == KEYWORD && ts[i].value in TypeKeywords
    ensures ParseFrom(ts, i, stack).Err? && ParseFrom(ts, i, stack).error.BadDeclaration?
  {
    assert FunctionEnd(ts, i).Err?;
    assert ParseFrom(ts, i, stack) == ParseKeyword(ts, i, stack);
  }

  /** On the lexer's tokens, a type keyword anywhere makes `parse` raise ValueError. */
  lemma LexedDeclarationRaises(s: string, i: nat, stack: seq<string>)
    requires i < |Lex(s)| && Lex(s)[i].ttype == KEYWORD && Lex(s)[i].value in TypeKeywords
    ensures ParseFrom(Lex(s), i, stack).Err? && Raised(ParseFrom(Lex(s), i, stack).error).kind == ValueError
  {
    var ts := Lex(s);
    LexShape(s);
    assert NoOp(ts, "{") by {
      forall a | 0 <= a < |ts|
        ensures !IsOp(ts[a], "{")
      {
        if ts[a].ttype == OPERATOR {
          assert ts[a].value[0] in OperatorChars;
        }
      }
    }
    DeclarationRaises(ts, i, stack);
  }

  lemma {:induction false} NoOpScan(ts: seq<Token>, i: nat, v: string)
    requires NoOp(ts, v) && i <= |ts|
    ensures ScanFrom(ts, i, v) == |ts|
    decreases |ts| - i
  {
    if i < |ts| {
      NoOpScan(ts, i + 1, v);
    }
  }

  /** Without an OPERATOR ';' a `return` skips every remaining token: the parse ends there. */
  lemma ReturnEndsParse(ts: seq<Token>, i: nat, stack: seq<string>)
    requires NoOp(ts, ";") && i < |ts| && ts[i] == Token(KEYWORD, "return")
    ensures ParseFrom(ts, i, stack) == Finish(ts, stack)
  {
    NoOpScan(ts, i + 1, ";");
    assert "return" !in TypeKeywords;
    assert ParseFrom(ts, i, stack) == ParseKeyword(ts, i, stack);
  }

  /** On the lexer's tokens a `return` ends the parse: ';' is never lexed. */
  lemma LexedReturnEndsParse(s: string, i: nat, stack: seq<string>)
    requires i < |Lex(s)| && Lex(s)[i] == Token(KEYWORD, "return")
    ensures ParseFrom(Lex(s), i, stack) == Finish(Lex(s), stack)
  {
    var ts := Lex(s);
    LexShape(s);
    assert NoOp(ts, ";") by {
      forall a | 0 <= a < |ts|
        ensures !IsOp(ts[a], ";")
      {
        if ts[a].ttype == OPERATOR {
          assert ts[a].value[0] in OperatorChars;
        }
      }
    }
    ReturnEndsParse(ts, i, stack);
  }

  /** At the end of the tokens, one entry is the result and any other stack raises. */
  lemma Leftover(ts: seq<Token>, stack: seq<string>)
    ensures ParseFrom(ts, |ts|, stack) == (if |stack| == 1 then Ok(stack[0]) else Err(BadExpression(ts)))
  {
  }

  /** The tokens of a tree in postfix order: the reducer's input. */
  function PostfixTokens(t: Tree): seq<Token>
  {
    match t
    case Var(n) => [Token(IDENTIFIER, n)]
    case Apply(op, l, r) => PostfixTokens(l) + PostfixTokens(r) + [Token(OPERATOR, [op])]
  }

  /**
   * Python's value of the tree over string variables whose values are their names: `+` concatenates,
   * the other operators raise TypeError once both operands are evaluated, left first.
   */
  function Eval(t: Tree): Result<string, ParseError>
  {
    match t
    case Var(n) => Ok(n)
    case Apply(op, l, r) =>
      match Eval(l)
      case Err(e) => Err(e)
      case Ok(a) =>
        match Eval(r)
        case Err(e) => Err(e)
        case Ok(b) => if op == '+' then Ok(a + b) else Err(BadOperands([op]))
  }

  /** Every operator of the tree is '+'. */
  predicate PlusOnly(t: Tree)
  {
    match t
    case Var(_) => true
    case Apply(op, l, r) => op == '+' && PlusOnly(l) && PlusOnly(r)
  }

  /** The names concatenated, left to right. */
  function Concat(names: seq<string>): string
  {
    if names == [] then "" else names[0] + Concat(names[1..])
  }

  lemma {:induction false} ConcatAppend(a: seq<string>, b: seq<string>)
    ensures Concat(a + b) == Concat(a) + Concat(b)
    decreases |a|
  {
    if a == [] {
      assert a + b == b;
    } else {
      ConcatAppend(a[1..], b);
      assert (a + b)[1..] == a[1..] + b;
      assert a[0] + (Concat(a[1..]) + Concat(b)) == (a[0] + Concat(a[1..])) + Concat(b);
    }
  }

  /** A tree of '+' only evaluates to its names run together, with no separator. */
  lemma {:induction false} PlusConcatenates(t: Tree)
    requires PlusOnly(t)
    ensures Eval(t) == Ok(Concat(Names(t)))
  {
    match t
    case Var(n) =>
      assert [n][1..] == [];
      assert n + "" == n;
    case Apply(op, l, r) =>
      PlusConcatenates(l);
      PlusConcatenates(r);
      ConcatAppend(Names(l), Names(r));
  }

  /** A tree with some other operator than '+' raises TypeError, for the first one in postfix order. */
  lemma {:induction false} OtherOperatorRaises(t: Tree)
    requires Arithmetic(t) && !PlusOnly(t)
    ensures Eval(t).Err? && Raised(Eval(t).error).kind == TypeError
  {
    match t
    case Var(_) =>
    case Apply(op, l, r) =>
      if !PlusOnly(l) {
        OtherOperatorRaises(l);
      } else if !PlusOnly(r) {
        PlusConcatenates(l);
        OtherOperatorRaises(r);
      } else {
        PlusConcatenates(l);
        PlusConcatenates(r);
      }
  }

  /** The tokens `p` stand in `ts` from `i` on. */
  predicate At(ts: seq<Token>, i: nat, p: seq<Token>)
  {
    i + |p| <= |ts| && forall k :: 0 <= k < |p| ==> ts[i + k] == p[k]
  }

  /** Where `x + y + z` stands at `i` in `ts`, so do its three consecutive parts. */
  lemma AtParts(ts: seq<Token>, i: nat, x: seq<Token>, y: seq<Token>, z: seq<Token>)
    requires At(ts, i, x + y + z)
    ensures At(ts, i, x) && At(ts, i + |x|, y) && At(ts, i + |x| + |y|, z)
  {
    var p := x + y + z;
    forall k | 0 <= k < |x|
      ensures ts[i + k] == x[k]
    {
      assert p[k] == x[k];
    }
    forall k | 0 <= k < |y|
      ensures ts[i + |x| + k] == y[k]
    {
      assert p[|x| + k] == y[k];
    }
    forall k | 0 <= k < |z|
      ensures ts[i + |x| + |y| + k] == z[k]
    {
      assert p[|x| + |y| + k] == z[k];
    }
  }

  /** One step of the reducer: a name is pushed. */
  lemma PushesName(ts: seq<Token>, i: nat, stack: seq<string>)
    requires i < |ts| && ts[i].ttype == IDENTIFIER
    ensures ParseFrom(ts, i, stack) == ParseFrom(ts, i + 1, stack + [ts[i].value])
  {
    assert ParseFrom(ts, i, stack) == ParseOperand(ts, i, stack);
  }

  /** One step of the reducer: an arithmetic operator on two entries concatenates them or raises. */
  lemma OperatorStep(ts: seq<Token>, i: nat, op: char, rest: seq<string>, a: string, b: string)
    requires i < |ts| && ts[i] == Token(OPERATOR, [op]) && IsArithOp(op)
    ensures ParseFrom(ts, i, rest + [a] + [b])
         == if op == '+' then ParseFrom(ts, i + 1, rest + [a + b]) else Err(BadOperands([op]))
  {
    assert [op] in {"+", "-", "*", "/"};
    assert ([op] == "+") == (op == '+');
    assert ParseFrom(ts, i, rest + [a] + [b]) == ParseOperand(ts, i, rest + [a] + [b]);
    var st := rest + [a] + [b];
    assert st[..|st| - 2] == rest && st[|st| - 2] == a && st[|st| - 1] == b;
  }

  /** What reducing a tree's postfix tokens from `i` leads to: the value pushed, or the error raised. */
  function AfterTree(ts: seq<Token>, i: nat, v: Result<string, ParseError>, stack: seq<string>): Result<string, ParseError>
  {
    match v
    case Ok(x) => ParseFrom(ts, i, stack + [x])
    case Err(e) => Err(e)
  }

  /**
   * Reducing the postfix tokens of a tree evaluates it as Python would: its value is pushed and the
   * rest of the stack is left alone, or its TypeError is raised.
   */
  lemma {:induction false} ReducesPostfix(ts: seq<Token>, i: nat, t: Tree, stack: seq<string>)
    requires Arithmetic(t) && At(ts, i, PostfixTokens(t))
    ensures ParseFrom(ts, i, stack) == AfterTree(ts, i + |PostfixTokens(t)|, Eval(t), stack)
    decreases t
  {
    match t
    case Var(n) =>
      assert ts[i + 0] == PostfixTokens(t)[0];
      PushesName(ts, i, stack);
    case Apply(op, l, r) =>
      var pl := PostfixTokens(l);
      var pr := PostfixTokens(r);
      var po := [Token(OPERATOR, [op])];
      assert At(ts, i, pl) && At(ts, i + |pl|, pr) && ts[i + |pl| + |pr|] == Token(OPERATOR, [op]) by {
        AtParts(ts, i, pl, pr, po);
        assert ts[i + |pl| + |pr| + 0] == po[0];
      }
      ReducesPostfix(ts, i, l, stack);
      if Eval(l).Ok? {
        ReducesPostfix(ts, i + |pl|, r, stack + [Eval(l).value]);
        if Eval(r).Ok? {
          OperatorStep(ts, i + |pl| + |pr|, op, stack, Eval(l).value, Eval(r).value);
        }
      }
  }

  /** The postfix tokens of one arithmetic tree make `parse` return the tree's Python value, or raise its error. */
  lemma PostfixEvaluates(t: Tree)
    requires Arithmetic(t)
    ensures ParseFrom(PostfixTokens(t), 0, []) == Eval(t)
  {
    ReducesPostfix(PostfixTokens(t), 0, t, []);
    if Eval(t).Ok? {
      Leftover(PostfixTokens(t), [] + [Eval(t).value]);
    }
  }

  /** `a b +` gives the names run together; `a b -` raises TypeError. */
  lemma SumOfNames(a: string, b: string)
    ensures ParseFrom(PostfixTokens(Apply('+', Var(a), Var(b))), 0, []) == Ok(a + b)
    ensures ParseFrom(PostfixTokens(Apply('-', Var(a), Var(b))), 0, []) == Err(BadOperands("-"))
  {
    PostfixEvaluates(Apply('+', Var(a), Var(b)));
    PostfixEvaluates(Apply('-', Var(a), Var(b)));
  }
}
