/**
 * Fourth.py: a lexer that runs each pattern of its table over the whole text in turn, so its tokens
 * come out grouped by type, and a stack reducer that pushes names, combines the two topmost entries
 * at each arithmetic operator, and records variable declarations in a list of assignments.
 */
module Fourth {
  import opened Common
  import opened Chars
  import opened PyValues
  import opened Patterns
  import opened Postfix

  datatype TokenType = KEYWORD | IDENTIFIER | OPERATOR | INTEGER | FLOAT | WHITESPACE | SP_CHAR

  /** The name of a token type, as the token's repr prints it. */
  function Name(t: TokenType): string
  {
    match t
    case KEYWORD => "KEYWORD"
    case IDENTIFIER => "IDENTIFIER"
    case OPERATOR => "OPERATOR"
    case INTEGER => "INTEGER"
    case FLOAT => "FLOAT"
    case WHITESPACE => "WHITESPACE"
    case SP_CHAR => "SP_CHAR"
  }

  datatype Token = Token(ttype: TokenType, value: string)

  // ---------------------------------------------------------------- lexer

  const Keywords: set<string> := {"int", "float", "char", "double", "if", "else", "while", "for", "switch", "return"}

  /** The order of the pattern table. */
  const TokenTypes: seq<TokenType> := [KEYWORD, IDENTIFIER, OPERATOR, INTEGER, FLOAT, WHITESPACE, SP_CHAR]

  /** The regular expression of each token type. */
  function PatternOf(t: TokenType): (p: Pattern)
    ensures WellFormed(p)
  {
    match t
    case KEYWORD => Keyword(Keywords)
    case IDENTIFIER => Identifier
    case OPERATOR => Class("-+*/()=")
    case INTEGER => Integer
    case FLOAT => Float
    case WHITESPACE => Space
    case SP_CHAR => Class("{};,")
  }

  /** Tokens of type `t` with the given values. */
  function Tagged(t: TokenType, vs: seq<string>): (r: seq<Token>)
    ensures |r| == |vs|
  {
    if vs == [] then [] else [Token(t, vs[0])] + Tagged(t, vs[1..])
  }

  /** The tokens one pattern of the table contributes: one per match of `finditer`. */
  function Group(s: string, t: TokenType): seq<Token>
  {
    Tagged(t, FindAll(PatternOf(t), s, 0))
  }

  /** The groups of the table from entry `k` on, in table order. */
  function GroupsFrom(s: string, k: nat): seq<Token>
    decreases |TokenTypes| - k
  {
    if k >= |TokenTypes| then [] else Group(s, TokenTypes[k]) + GroupsFrom(s, k + 1)
  }

  /** What `lexer(program)` returns. */
  function Lex(s: string): seq<Token>
  {
    GroupsFrom(s, 0)
  }

  /** The inner loop of `lexer`: the tokens of every match of one pattern, left to right. */
  method FindTokens(t: TokenType, program: string) returns (found: seq<Token>)
    ensures found == Group(program, t)
  {
    var p := PatternOf(t);
    found := [];
    var j := 0;
    while j < |program|
      invariant Group(program, t) == found + Tagged(t, FindAll(p, program, j))
      decreases |program| - j
    {
      var m := Match(p, program, j);
      if m.Some? {
        var token := Token(t, program[j..m.value]);
        var rest := FindAll(p, program, m.value);
        assert Tagged(t, [program[j..m.value]] + rest) == [token] + Tagged(t, rest);
        found := found + [token];
        j := m.value;
      } else {
        j := j + 1;
      }
    }
  }

  /** `lexer(program)`. */
  method Lexer(program: string) returns (tokens: seq<Token>)
    ensures tokens == Lex(program)
  {
    tokens := [];
    for k := 0 to |TokenTypes|
      invariant Lex(program) == tokens + GroupsFrom(program, k)
    {
      var found := FindTokens(TokenTypes[k], program);
      tokens := tokens + found;
    }
  }

  // ---------------------------------------------------------------- lexer properties

  /** The position of a type in the table. */
  function Rank(t: TokenType): nat
  {
    match t
    case KEYWORD => 0
    case IDENTIFIER => 1
    case OPERATOR => 2
    case INTEGER => 3
    case FLOAT => 4
    case WHITESPACE => 5
    case SP_CHAR => 6
  }

  /** All tokens of the list rank at least `k`, and their ranks never go down. */
  predicate Grouped(ts: seq<Token>, k: nat)
  {
    (forall a :: 0 <= a < |ts| ==> k <= Rank(ts[a].ttype))
    && forall a, b :: 0 <= a < b < |ts| ==> Rank(ts[a].ttype) <= Rank(ts[b].ttype)
  }

  lemma {:induction false} TaggedTypes(t: TokenType, vs: seq<string>)
    ensures forall a :: 0 <= a < |vs| ==> Tagged(t, vs)[a] == Token(t, vs[a])
  {
    if vs != [] {
      TaggedTypes(t, vs[1..]);
      var r := Tagged(t, vs[1..]);
      assert Tagged(t, vs) == [Token(t, vs[0])] + r;
      forall a | 0 < a < |vs|
        ensures Tagged(t, vs)[a] == Token(t, vs[a])
      {
        assert Tagged(t, vs)[a] == r[a - 1];
      }
    }
  }

  lemma {:induction false} GroupsFromGrouped(s: string, k: nat)
    requires k <= |TokenTypes|
    ensures Grouped(GroupsFrom(s, k), k)
    decreases |TokenTypes| - k
  {
    if k < |TokenTypes| {
      GroupsFromGrouped(s, k + 1);
      var t := TokenTypes[k];
      var g := Group(s, t);
      var rest := GroupsFrom(s, k + 1);
      TaggedTypes(t, FindAll(PatternOf(t), s, 0));
      assert Rank(t) == k;
      var all := g + rest;
      assert forall a :: 0 <= a < |g| ==> all[a] == g[a] && Rank(all[a].ttype) == k;
      assert forall a :: |g| <= a < |all| ==> all[a] == rest[a - |g|];
    }
  }

  /** The tokens come out grouped by type, in the order of the table, not in the order of the text. */
  lemma LexGrouped(s: string)
    ensures forall a, b :: 0 <= a < b < |Lex(s)| ==> Rank(Lex(s)[a].ttype) <= Rank(Lex(s)[b].ttype)
  {
    GroupsFromGrouped(s, 0);
  }

  /** The characters some pattern of the table can start a match with. */
  predicate Lexable(c: char)
  {
    IsWord(c) || c in "-+*/()=" || IsRegexSpace(c) || c in "{};,"
  }

  lemma MatchStartsLexable(t: TokenType, s: string, j: nat)
    requires j < |s| && Match(PatternOf(t), s, j).Some?
    ensures Lexable(s[j])
  {
    if t == KEYWORD {
      assert WordEnd(s, j) > j;
    }
  }

  /** Text in which no character can start a match lexes to nothing: such characters are dropped. */
  lemma UnlexableDropped(s: string)
    requires forall k :: 0 <= k < |s| ==> !Lexable(s[k])
    ensures Lex(s) == []
  {
    forall t: TokenType
      ensures Group(s, t) == []
    {
      forall k | 0 <= k < |s|
        ensures Match(PatternOf(t), s, k).None?
      {
        if Match(PatternOf(t), s, k).Some? {
          MatchStartsLexable(t, s, k);
        }
      }
      FindAllSkips(PatternOf(t), s, 0, |s|);
    }
    assert GroupsFrom(s, 7) == [];
    assert GroupsFrom(s, 0) == [];
  }

  /** Every keyword is made of letters. */
  lemma KeywordLetters(w: string)
    requires w in Keywords
    ensures w != [] && forall k :: 0 <= k < |w| ==> IsAlpha(w[k])
  {
  }

  /** Over letters only, the patterns after IDENTIFIER match nowhere. */
  lemma LettersOnlyWords(t: TokenType, s: string)
    requires t != KEYWORD && t != IDENTIFIER
    requires forall k :: 0 <= k < |s| ==> IsAlpha(s[k])
    ensures Group(s, t) == []
  {
    forall k | 0 <= k < |s|
      ensures Match(PatternOf(t), s, k).None?
    {
    }
    FindAllSkips(PatternOf(t), s, 0, |s|);
  }

  /** The lexer's result is the seven groups one after the other. */
  lemma LexIsGroups(s: string)
    ensures Lex(s) == Group(s, KEYWORD) + (Group(s, IDENTIFIER) + (Group(s, OPERATOR) + (Group(s, INTEGER)
                      + (Group(s, FLOAT) + (Group(s, WHITESPACE) + (Group(s, SP_CHAR) + []))))))
  {
    assert GroupsFrom(s, 7) == [];
    assert GroupsFrom(s, 6) == Group(s, SP_CHAR) + GroupsFrom(s, 7);
    assert GroupsFrom(s, 5) == Group(s, WHITESPACE) + GroupsFrom(s, 6);
    assert GroupsFrom(s, 4) == Group(s, FLOAT) + GroupsFrom(s, 5);
    assert GroupsFrom(s, 3) == Group(s, INTEGER) + GroupsFrom(s, 4);
    assert GroupsFrom(s, 2) == Group(s, OPERATOR) + GroupsFrom(s, 3);
    assert GroupsFrom(s, 1) == Group(s, IDENTIFIER) + GroupsFrom(s, 2);
  }

  /** A word of letters standing alone is one match of the identifier pattern. */
  lemma LetterWordIdentifier(w: string)
    requires w != [] && forall k :: 0 <= k < |w| ==> IsAlpha(w[k])
    ensures Group(w, IDENTIFIER) == [Token(IDENTIFIER, w)]
  {
    WordEndAll(w, 0);
    assert w[0..|w|] == w;
    assert FindAll(Identifier, w, |w|) == [];
    assert FindAll(Identifier, w, 0) == [w] + [];
  }

  /** A keyword standing alone is one match of the keyword pattern. */
  lemma KeywordGroup(w: string)
    requires w in Keywords
    ensures Group(w, KEYWORD) == [Token(KEYWORD, w)]
  {
    KeywordLetters(w);
    WordEndAll(w, 0);
    assert w[0..|w|] == w;
    assert Match(Keyword(Keywords), w, 0) == Some(|w|);
    assert FindAll(Keyword(Keywords), w, |w|) == [];
    assert FindAll(Keyword(Keywords), w, 0) == [w] + [];
  }

  /** A keyword standing alone is lexed twice: as a KEYWORD and again as an IDENTIFIER. */
  lemma KeywordAlsoIdentifier(w: string)
    requires w in Keywords
    ensures Lex(w) == [Token(KEYWORD, w), Token(IDENTIFIER, w)]
  {
    KeywordLetters(w);
    KeywordGroup(w);
    LetterWordIdentifier(w);
    LettersOnlyWords(OPERATOR, w);
    LettersOnlyWords(INTEGER, w);
    LettersOnlyWords(FLOAT, w);
    LettersOnlyWords(WHITESPACE, w);
    LettersOnlyWords(SP_CHAR, w);
    LexIsGroups(w);
  }

  const DecimalText := "3.5"

  lemma DecimalNoWords(t: TokenType)
    requires t != INTEGER && t != FLOAT
    ensures Group(DecimalText, t) == []
  {
    var s := DecimalText;
    assert s[0] == '3' && s[1] == '.' && s[2] == '5';
    forall k | 0 <= k < |s|
      ensures Match(PatternOf(t), s, k).None?
    {
      if t == KEYWORD {
        var e := WordEnd(s, k);
        assert s[k..e] !in Keywords by {
          if e > k {
            assert s[k..e][0] == s[k];
          }
        }
      }
    }
    FindAllSkips(PatternOf(t), s, 0, |s|);
  }

  lemma DecimalIntegers()
    ensures Group(DecimalText, INTEGER) == [Token(INTEGER, "3"), Token(INTEGER, "5")]
  {
    var s := DecimalText;
    assert s[0] == '3' && s[1] == '.' && s[2] == '5';
    assert FindAll(Integer, s, 3) == [];
    assert DigitsEnd(s, 3) == 3 && DigitsEnd(s, 2) == 3;
    assert s[2..3] == "5";
    assert FindAll(Integer, s, 2) == ["5"] + [];
    assert FindAll(Integer, s, 1) == FindAll(Integer, s, 2);
    assert DigitsEnd(s, 1) == 1 && DigitsEnd(s, 0) == 1;
    assert s[0..1] == "3";
    assert FindAll(Integer, s, 0) == ["3"] + ["5"];
  }

  lemma DecimalFloat()
    ensures Group(DecimalText, FLOAT) == [Token(FLOAT, "3.5")]
  {
    var s := DecimalText;
    assert s[0] == '3' && s[1] == '.' && s[2] == '5';
    assert DigitsEnd(s, 3) == 3 && DigitsEnd(s, 2) == 3 && DigitsEnd(s, 1) == 1 && DigitsEnd(s, 0) == 1;
    assert Match(Float, s, 0) == Some(3);
    assert FindAll(Float, s, 3) == [];
    assert s[0..3] == s;
    assert FindAll(Float, s, 0) == ["3.5"] + [];
  }

  /** "3.5" yields INTEGER "3", INTEGER "5" and FLOAT "3.5": both number patterns scan the whole text. */
  lemma DecimalTwice()
    ensures Lex(DecimalText) == [Token(INTEGER, "3"), Token(INTEGER, "5"), Token(FLOAT, "3.5")]
  {
    DecimalNoWords(KEYWORD);
    DecimalNoWords(IDENTIFIER);
    DecimalNoWords(OPERATOR);
    DecimalNoWords(WHITESPACE);
    DecimalNoWords(SP_CHAR);
    DecimalIntegers();
    DecimalFloat();
    LexIsGroups(DecimalText);
  }

  /** The OPERATOR tokens the lexer makes are single characters of the class; ';' is never one of them. */
  lemma {:induction false} TaggedOperators(vs: seq<string>, s: string, j: nat)
    requires vs == FindAll(PatternOf(OPERATOR), s, j)
    ensures forall a :: 0 <= a < |vs| ==> |vs[a]| == 1 && vs[a][0] in "-+*/()="
    decreases |s| - j
  {
    if j < |s| {
      match Match(PatternOf(OPERATOR), s, j)
      case Some(e) =>
        TaggedOperators(FindAll(PatternOf(OPERATOR), s, e), s, e);
        assert vs == [s[j..e]] + FindAll(PatternOf(OPERATOR), s, e);
      case None =>
        TaggedOperators(vs, s, j + 1);
    }
  }

  lemma {:induction false} GroupsOperators(s: string, k: nat)
    requires k <= |TokenTypes|
    ensures NoSemicolonOperator(GroupsFrom(s, k))
    decreases |TokenTypes| - k
  {
    if k < |TokenTypes| {
      GroupsOperators(s, k + 1);
      var t := TokenTypes[k];
      var vs := FindAll(PatternOf(t), s, 0);
      TaggedTypes(t, vs);
      if t == OPERATOR {
        TaggedOperators(vs, s, 0);
      }
      var g := Group(s, t);
      var all := g + GroupsFrom(s, k + 1);
      forall a | 0 <= a < |all|
        ensures !IsOp(all[a], ";")
      {
        if a < |g| {
          assert all[a] == Token(t, vs[a]);
        } else {
          assert all[a] == GroupsFrom(s, k + 1)[a - |g|];
        }
      }
    }
  }

  /** No token of the lexer is the OPERATOR ';' (';' is an SP_CHAR). */
  lemma LexNoSemicolonOperator(s: string)
    ensures NoSemicolonOperator(Lex(s))
  {
    GroupsOperators(s, 0);
  }

  // ---------------------------------------------------------------- parser

  /** One entry of the assignments list: the name and the collected values, or `None`. */
  datatype Assignment = Assignment(name: string, expression: Option<seq<string>>)

  /** What `parse` returns: the single remaining stack entry and the assignments. */
  datatype Parsed = Parsed(result: string, assignments: seq<Assignment>)

  const TypeKeywords: set<string> := {"int", "float", "char", "double"}

  predicate IsOp(t: Token, v: string)
  {
    t.ttype == OPERATOR && t.value == v
  }

  predicate NoSemicolonOperator(ts: seq<Token>)
  {
    forall a :: 0 <= a < |ts| ==> !IsOp(ts[a], ";")
  }

  function TokenRepr(t: Token): string
  {
    "Token(" + Name(t.ttype) + ", " + t.value + ")"
  }

  function Reprs(ts: seq<Token>): seq<string>
  {
    seq(|ts|, k requires 0 <= k < |ts| => TokenRepr(ts[k]))
  }

  /** The two ValueErrors `parse` raises, by the tokens their messages show. */
  datatype ParseError =
    | BadDeclaration(shown: seq<Token>)  // tokens[i:i+3] at a malformed declaration
    | BadExpression(tokens: seq<Token>)  // all tokens, when the stack underflows or does not end with one entry

  /** The exception raised for `e`, with its message. */
  function Raised(e: ParseError): (x: Exc)
    ensures x.kind == ValueError
  {
    match e
    case BadDeclaration(shown) => Exc(ValueError, "Invalid variable declaration: " + ListStr(Reprs(shown)))
    case BadExpression(tokens) => Exc(ValueError, "Invalid expression: " + ListStr(Reprs(tokens)))
  }

  /** The error for a malformed declaration at `i`, showing `tokens[i:i+3]`. */
  function DeclarationError(ts: seq<Token>, i: nat): ParseError
    requires i <= |ts|
  {
    BadDeclaration(ts[i..if i + 3 <= |ts| then i + 3 else |ts|])
  }

  /** The error for a stack that underflows or does not end with one entry, showing all tokens. */
  function InvalidExpression(ts: seq<Token>): ParseError
  {
    BadExpression(ts)
  }

  /** Where the scan for an OPERATOR ';' from `i` stops: at one, or at the end. */
  function SemicolonFrom(ts: seq<Token>, i: nat): (e: nat)
    requires i <= |ts|
    ensures i <= e <= |ts|
    ensures forall k :: i <= k < e ==> !IsOp(ts[k], ";")
    ensures e < |ts| ==> IsOp(ts[e], ";")
    decreases |ts| - i
  {
    if i == |ts| || IsOp(ts[i], ";") then i else SemicolonFrom(ts, i + 1)
  }

  function ValuesOf(ts: seq<Token>): seq<string>
  {
    seq(|ts|, k requires 0 <= k < |ts| => ts[k].value)
  }

  /** The end of `parse`: exactly one entry must be left. */
  function Finish(ts: seq<Token>, stack: seq<string>, assigns: seq<Assignment>): Result<Parsed, ParseError>
  {
    if |stack| == 1 then Ok(Parsed(stack[0], assigns)) else Err(InvalidExpression(ts))
  }

  /** The entry pushed for `a op b`. */
  function Combine(a: string, op: string, b: string): string
  {
    a + " " + op + " " + b
  }

  /** A type keyword at `i` is followed by a name and an OPERATOR '=' or ';'. */
  predicate DeclarationFits(ts: seq<Token>, i: nat)
  {
    i + 2 < |ts| && ts[i + 1].ttype == IDENTIFIER && ts[i + 2].ttype == OPERATOR && ts[i + 2].value in {"=", ";"}
  }

  /**
   * Where a fitting declaration leaves the loop index before its closing `i += 1`: three tokens on,
   * or, when the token there is another OPERATOR '=', one past the next OPERATOR ';'.
   */
  function DeclarationEnd(ts: seq<Token>, i: nat): nat
    requires DeclarationFits(ts, i)
  {
    var k := i + 3;
    if k < |ts| && IsOp(ts[k], "=") then SemicolonFrom(ts, k) + 1 else k
  }

  /** The assignment a fitting declaration records: the values from that second '=' on, or `None`. */
  function DeclarationOf(ts: seq<Token>, i: nat): Assignment
    requires DeclarationFits(ts, i)
  {
    var k := i + 3;
    Assignment(ts[i + 1].value, if k < |ts| && IsOp(ts[k], "=") then Some(ValuesOf(ts[k..SemicolonFrom(ts, k)])) else None)
  }

  /** What `parse` returns once its loop is at `i` with the given stack and assignments. */
  function ParseFrom(ts: seq<Token>, i: nat, stack: seq<string>, assigns: seq<Assignment>): Result<Parsed, ParseError>
    decreases |ts| - i, 2
  {
    if i >= |ts| then Finish(ts, stack, assigns) else ParseToken(ts, i, stack, assigns)
  }

  /** One turn of the loop of `parse`, on the token at `i`, and the rest of the loop after it. */
  function ParseToken(ts: seq<Token>, i: nat, stack: seq<string>, assigns: seq<Assignment>): Result<Parsed, ParseError>
    requires i < |ts|
    decreases |ts| - i, 1
  {
    if ts[i].ttype == KEYWORD then ParseKeyword(ts, i, stack, assigns) else ParseOperand(ts, i, stack, assigns)
  }

  /** The turn on a KEYWORD: a declaration, a `return`, or any other keyword, which is skipped. */
  function ParseKeyword(ts: seq<Token>, i: nat, stack: seq<string>, assigns: seq<Assignment>): Result<Parsed, ParseError>
    requires i < |ts| && ts[i].ttype == KEYWORD
    decreases |ts| - i, 0
  {
    if ts[i].value in TypeKeywords then
      if DeclarationFits(ts, i) then ParseFrom(ts, DeclarationEnd(ts, i) + 1, stack, assigns + [DeclarationOf(ts, i)])
      else Err(DeclarationError(ts, i))
    else if ts[i].value == "return" then
      ParseFrom(ts, SemicolonFrom(ts, i + 1) + 2, stack, assigns)
    else ParseFrom(ts, i + 1, stack, assigns)
  }

  /** The turn on any other token: a name is pushed, an arithmetic operator reduces, the rest is skipped. */
  function ParseOperand(ts: seq<Token>, i: nat, stack: seq<string>, assigns: seq<Assignment>): Result<Parsed, ParseError>
    requires i < |ts| && ts[i].ttype != KEYWORD
    decreases |ts| - i, 0
  {
    var t := ts[i];
    if t.ttype == IDENTIFIER then
      ParseFrom(ts, i + 1, stack + [t.value], assigns)
    else if t.ttype == OPERATOR && t.value in {"+", "-", "*", "/"} then
      if |stack| >= 2 then
        ParseFrom(ts, i + 1, stack[..|stack| - 2] + [Combine(stack[|stack| - 2], t.value, stack[|stack| - 1])], assigns)
      else Err(InvalidExpression(ts))
    else ParseFrom(ts, i + 1, stack, assigns)
  }

  /** `parse(tokens)`. */
  method Parse(tokens: seq<Token>) returns (r: Result<Parsed, ParseError>)
    ensures r == ParseFrom(tokens, 0, [], [])
  {
    var stack: seq<string> := [];
    var assignments: seq<Assignment> := [];
    var i: nat := 0;
    while i < |tokens|
      invariant ParseFrom(tokens, 0, [], []) == ParseFrom(tokens, i, stack, assignments)
      decreases |tokens| - i
    {
      var token := tokens[i];
      assert ParseFrom(tokens, i, stack, assignments) == ParseToken(tokens, i, stack, assignments);
      if token.ttype == KEYWORD && token.value in TypeKeywords {
        if i + 2 < |tokens| && tokens[i + 1].ttype == IDENTIFIER && (tokens[i + 2].ttype == OPERATOR && tokens[i + 2].value in {"=", ";"}) {
          var assignment;
          i, assignment := Declaration(tokens, i);
          assignments := assignments + [assignment];
        } else {
          return Err(DeclarationError(tokens, i));
        }
      } else if token.ttype == KEYWORD && token.value == "return" {
        i := SkipReturn(tokens, i);
      } else if token.ttype == IDENTIFIER {
        stack := stack + [token.value];
      } else if token.ttype == OPERATOR && token.value in {"+", "-", "*", "/"} {
        if |stack| >= 2 {
          var b := stack[|stack| - 1];
          var a := stack[|stack| - 2];
          stack := stack[..|stack| - 2];
          stack := stack + [Combine(a, token.value, b)];
        } else {
          return Err(InvalidExpression(tokens));
        }
      }
      i := i + 1;
    }
    return Finish(tokens, stack, assignments);
  }

  /** The declaration branch of `parse`: the index it leaves and the assignment it records. */
  method Declaration(tokens: seq<Token>, start: nat) returns (i: nat, assignment: Assignment)
    requires DeclarationFits(tokens, start)
    ensures i == DeclarationEnd(tokens, start) && assignment == DeclarationOf(tokens, start)
  {
    var name := tokens[start + 1].value;
    i := start + 3;
    var expression: Option<seq<string>>;
    if i < |tokens| && tokens[i].ttype == OPERATOR && tokens[i].value == "=" {
      var values := CollectExpression(tokens, i);
      expression := Some(values);
      i := SemicolonFrom(tokens, i) + 1;
    } else {
      expression := None;
    }
    assignment := Assignment(name, expression);
  }

  /** The `return` branch of `parse`: skip to the next OPERATOR ';' and past it. */
  method SkipReturn(tokens: seq<Token>, start: nat) returns (i: nat)
    requires start < |tokens|
    ensures i == SemicolonFrom(tokens, start + 1) + 1
  {
    i := start + 1;
    while i < |tokens| && !(tokens[i].ttype == OPERATOR && tokens[i].value == ";")
      invariant start + 1 <= i <= |tokens|
      invariant SemicolonFrom(tokens, i) == SemicolonFrom(tokens, start + 1)
      decreases |tokens| - i
    {
      i := i + 1;
    }
    i := i + 1;
  }

  /** The values from the '=' at `start` up to the next OPERATOR ';' or the end. */
  method CollectExpression(tokens: seq<Token>, start: nat) returns (expression: seq<string>)
    requires start <= |tokens|
    ensures expression == ValuesOf(tokens[start..SemicolonFrom(tokens, start)])
  {
    expression := [];
    var i := start;
    while i < |tokens| && !(tokens[i].ttype == OPERATOR && tokens[i].value == ";")
      invariant start <= i <= SemicolonFrom(tokens, start)
      invariant SemicolonFrom(tokens, i) == SemicolonFrom(tokens, start)
      invariant expression == ValuesOf(tokens[start..i])
      decreases |tokens| - i
    {
      expression := expression + [tokens[i].value];
      i := i + 1;
    }
  }

  // ---------------------------------------------------------------- parser properties

  /** The tokens of a tree in postfix order: the reducer's input. */
  function PostfixTokens(t: Tree): seq<Token>
  {
    match t
    case Var(n) => [Token(IDENTIFIER, n)]
    case Apply(op, l, r) => PostfixTokens(l) + PostfixTokens(r) + [Token(OPERATOR, [op])]
  }

  /** The tree written infix with single spaces around each operator and no parentheses. */
  function Infix(t: Tree): string
  {
    match t
    case Var(n) => n
    case Apply(op, l, r) => Combine(Infix(l), [op], Infix(r))
  }

  lemma OperatorText(op: char)
    requires IsArithOp(op)
    ensures [op] in {"+", "-", "*", "/"}
  {
  }

  /** One step of the reducer: a name is pushed. */
  lemma PushesName(ts: seq<Token>, i: nat, stack: seq<string>, assigns: seq<Assignment>)
    requires i < |ts| && ts[i].ttype == IDENTIFIER
    ensures ParseFrom(ts, i, stack, assigns) == ParseFrom(ts, i + 1, stack + [ts[i].value], assigns)
  {
    assert ParseFrom(ts, i, stack, assigns) == ParseOperand(ts, i, stack, assigns);
  }

  /** One turn on a fitting declaration: the index moves past it and its assignment is recorded. */
  lemma Declares(ts: seq<Token>, i: nat, stack: seq<string>, assigns: seq<Assignment>)
    requires i < |ts| && ts[i].ttype == KEYWORD && ts[i].value in TypeKeywords && DeclarationFits(ts, i)
    ensures ParseFrom(ts, i, stack, assigns) == ParseFrom(ts, DeclarationEnd(ts, i) + 1, stack, assigns + [DeclarationOf(ts, i)])
  {
    assert ParseFrom(ts, i, stack, assigns) == ParseKeyword(ts, i, stack, assigns);
  }

  /** One turn on `return`: the index moves past the next OPERATOR ';'. */
  lemma Returns(ts: seq<Token>, i: nat, stack: seq<string>, assigns: seq<Assignment>)
    requires i < |ts| && ts[i] == Token(KEYWORD, "return")
    ensures ParseFrom(ts, i, stack, assigns) == ParseFrom(ts, SemicolonFrom(ts, i + 1) + 2, stack, assigns)
  {
    assert "return" !in TypeKeywords;
    assert ParseFrom(ts, i, stack, assigns) == ParseKeyword(ts, i, stack, assigns);
  }

  /** One step of the reducer: an arithmetic operator pops two entries and pushes their combination. */
  lemma CombinesTop(ts: seq<Token>, i: nat, op: char, rest: seq<string>, a: string, b: string, assigns: seq<Assignment>)
    requires i < |ts| && ts[i] == Token(OPERATOR, [op]) && IsArithOp(op)
    ensures ParseFrom(ts, i, rest + [a] + [b], assigns) == ParseFrom(ts, i + 1, rest + [Combine(a, [op], b)], assigns)
  {
    OperatorText(op);
    assert ParseFrom(ts, i, rest + [a] + [b], assigns) == ParseOperand(ts, i, rest + [a] + [b], assigns);
    var st := rest + [a] + [b];
    assert st[..|st| - 2] == rest && st[|st| - 2] == a && st[|st| - 1] == b;
  }

  /** The two operands reduced, the operator after them combines them. */
  lemma ReducesOperator(ts: seq<Token>, i: nat, a: nat, b: nat, op: char, x: string, y: string, stack: seq<string>, assigns: seq<Assignment>)
    requires i + a + b < |ts| && ts[i + a + b] == Token(OPERATOR, [op]) && IsArithOp(op)
    requires ParseFrom(ts, i, stack, assigns) == ParseFrom(ts, i + a, stack + [x], assigns)
    requires ParseFrom(ts, i + a, stack + [x], assigns) == ParseFrom(ts, i + a + b, stack + [x] + [y], assigns)
    ensures ParseFrom(ts, i, stack, assigns) == ParseFrom(ts, i + a + b + 1, stack + [Combine(x, [op], y)], assigns)
  {
    CombinesTop(ts, i + a + b, op, stack, x, y, assigns);
  }

  /** The tokens `p` stand in `ts` from `i` on. */
  predicate At(ts: seq<Token>, i: nat, p: seq<Token>)
  {
    i + |p| <= |ts| && forall k :: 0 <= k < |p| ==> ts[i + k] == p[k]
  }

  /** Where `x + y + z` stands at `i` in `ts`, so do its three consecutive parts. */
  lemma AtParts(ts: seq<Token>, i: nat, x: seq<Token>, y: seq<Token>, z: seq<Token>)
    requires At(ts, i, x + y + z)
    ensures At(ts, i, x) && At(ts, i + |x|, y) && At(ts, i + |x| + |y|, z)
  {
    var p := x + y + z;
    forall k | 0 <= k < |x|
      ensures ts[i + k] == x[k]
    {
      assert p[k] == x[k];
    }
    forall k | 0 <= k < |y|
      ensures ts[i + |x| + k] == y[k]
    {
      assert p[|x| + k] == y[k];
    }
    forall k | 0 <= k < |z|
      ensures ts[i + |x| + |y| + k] == z[k]
    {
      assert p[|x| + |y| + k] == z[k];
    }
  }

  /** Reducing the postfix tokens of a tree pushes the tree's infix text and leaves the rest of the stack alone. */
  lemma {:induction false} ReducesPostfix(ts: seq<Token>, i: nat, t: Tree, stack: seq<string>, assigns: seq<Assignment>)
    requires Arithmetic(t) && At(ts, i, PostfixTokens(t))
    ensures ParseFrom(ts, i, stack, assigns) == ParseFrom(ts, i + |PostfixTokens(t)|, stack + [Infix(t)], assigns)
    decreases t
  {
    match t
    case Var(n) =>
      assert ts[i + 0] == PostfixTokens(t)[0];
      PushesName(ts, i, stack, assigns);
    case Apply(op, l, r) =>
      var pl := PostfixTokens(l);
      var pr := PostfixTokens(r);
      var po := [Token(OPERATOR, [op])];
      assert At(ts, i, pl) && At(ts, i + |pl|, pr) && ts[i + |pl| + |pr|] == Token(OPERATOR, [op]) by {
        AtParts(ts, i, pl, pr, po);
        assert ts[i + |pl| + |pr| + 0] == po[0];
      }
      ReducesPostfix(ts, i, l, stack, assigns);
      ReducesPostfix(ts, i + |pl|, r, stack + [Infix(l)], assigns);
      ReducesOperator(ts, i, |pl|, |pr|, op, Infix(l), Infix(r), stack, assigns);
  }

  /** The tokens of one arithmetic tree in postfix order parse to the tree's infix text, with no assignments. */
  lemma PostfixToInfix(t: Tree)
    requires Arithmetic(t)
    ensures ParseFrom(PostfixTokens(t), 0, [], []) == Ok(Parsed(Infix(t), []))
  {
    ReducesPostfix(PostfixTokens(t), 0, t, [], []);
  }

  /** No parentheses are written, so `(a * b) + c` and `a * (b + c)` come out as the same text. */
  lemma GroupingLost(a: string, b: string, c: string)
    ensures var left := Apply('+', Apply('*', Var(a), Var(b)), Var(c));
            var right := Apply('*', Var(a), Apply('+', Var(b), Var(c)));
            PostfixTokens(left) != PostfixTokens(right)
            && ParseFrom(PostfixTokens(left), 0, [], []) == ParseFrom(PostfixTokens(right), 0, [], [])
  {
    var left := Apply('+', Apply('*', Var(a), Var(b)), Var(c));
    var right := Apply('*', Var(a), Apply('+', Var(b), Var(c)));
    PostfixToInfix(left);
    PostfixToInfix(right);
    assert PostfixTokens(left)[|PostfixTokens(left)| - 1] == Token(OPERATOR, "+");
    assert PostfixTokens(right)[|PostfixTokens(right)| - 1] == Token(OPERATOR, "*");
    assert Infix(left) == Infix(right);
  }

  /** The postfix tokens of two trees in a row reduce to the two infix texts. */
  lemma ReducesTwo(ts: seq<Token>, t1: Tree, t2: Tree)
    requires Arithmetic(t1) && Arithmetic(t2)
    requires At(ts, 0, PostfixTokens(t1)) && At(ts, |PostfixTokens(t1)|, PostfixTokens(t2))
    ensures ParseFrom(ts, 0, [], []) == ParseFrom(ts, |PostfixTokens(t1)| + |PostfixTokens(t2)|, [Infix(t1), Infix(t2)], [])
  {
    ReducesPostfix(ts, 0, t1, [], []);
    assert [] + [Infix(t1)] == [Infix(t1)];
    ReducesPostfix(ts, |PostfixTokens(t1)|, t2, [Infix(t1)], []);
    assert [Infix(t1)] + [Infix(t2)] == [Infix(t1), Infix(t2)];
  }

  /** At the end of the tokens, any stack but a single entry raises. */
  lemma Leftover(ts: seq<Token>, stack: seq<string>, assigns: seq<Assignment>)
    requires |stack| != 1
    ensures ParseFrom(ts, |ts|, stack, assigns) == Err(InvalidExpression(ts))
  {
  }

  /** Two trees in a row leave two entries on the stack, and `parse` raises. */
  lemma TwoTreesRaise(t1: Tree, t2: Tree)
    requires Arithmetic(t1) && Arithmetic(t2)
    ensures var ts := PostfixTokens(t1) + PostfixTokens(t2);
            ParseFrom(ts, 0, [], []) == Err(InvalidExpression(ts))
  {
    var p1 := PostfixTokens(t1);
    var p2 := PostfixTokens(t2);
    var ts := p1 + p2;
    AtParts(ts, 0, p1, p2, []);
    ReducesTwo(ts, t1, t2);
    Leftover(ts, [Infix(t1), Infix(t2)], []);
  }

  /** On the lexer's tokens only '=' can follow a declared name: the ';' alternative never matches. */
  lemma OnlyEqualsFits(ts: seq<Token>, i: nat)
    requires NoSemicolonOperator(ts)
    ensures DeclarationFits(ts, i) <==> i + 2 < |ts| && ts[i + 1].ttype == IDENTIFIER && IsOp(ts[i + 2], "=")
  {
    if i + 2 < |ts| {
      assert !IsOp(ts[i + 2], ";");
    }
  }

  /** Without an OPERATOR ';' a `return` skips every remaining token: the parse ends there. */
  lemma ReturnEndsParse(ts: seq<Token>, i: nat, stack: seq<string>, assigns: seq<Assignment>)
    requires NoSemicolonOperator(ts) && i < |ts| && ts[i] == Token(KEYWORD, "return")
    ensures ParseFrom(ts, i, stack, assigns) == Finish(ts, stack, assigns)
  {
    NoSemicolonFrom(ts, i + 1);
    Returns(ts, i, stack, assigns);
  }

  lemma {:induction false} NoSemicolonFrom(ts: seq<Token>, i: nat)
    requires NoSemicolonOperator(ts) && i <= |ts|
    ensures SemicolonFrom(ts, i) == |ts|
    decreases |ts| - i
  {
    if i < |ts| {
      NoSemicolonFrom(ts, i + 1);
    }
  }

  /**
   * Without an OPERATOR ';' a declaration whose name is followed by two '=' tokens collects every
   * remaining value as its expression, and the parse ends there.
   */
  lemma AssignmentTakesRest(ts: seq<Token>, i: nat, stack: seq<string>, assigns: seq<Assignment>)
    requires NoSemicolonOperator(ts) && i + 3 < |ts|
    requires ts[i].ttype == KEYWORD && ts[i].value in TypeKeywords && ts[i + 1].ttype == IDENTIFIER
    requires IsOp(ts[i + 2], "=") && IsOp(ts[i + 3], "=")
    ensures ParseFrom(ts, i, stack, assigns)
         == Finish(ts, stack, assigns + [Assignment(ts[i + 1].value, Some(ValuesOf(ts[i + 3..])))])
  {
    NoSemicolonFrom(ts, i + 3);
    assert DeclarationFits(ts, i);
    assert DeclarationEnd(ts, i) == |ts| + 1;
    assert ts[i + 3..SemicolonFrom(ts, i + 3)] == ts[i + 3..];
    Declares(ts, i, stack, assigns);
  }

  /**
   * A declaration `type name = value` records no expression: the index jumps past the '=' and the
   * value, which is skipped. Here a name follows, which is then the result.
   */
  lemma InitializerSkipped(kind: string, name: string, value: Token, after: string)
    requires kind in TypeKeywords && !IsOp(value, "=")
    ensures var ts := [Token(KEYWORD, kind)] + ([Token(IDENTIFIER, name)] + ([Token(OPERATOR, "=")] + ([value] + [Token(IDENTIFIER, after)])));
            ParseFrom(ts, 0, [], []) == Ok(Parsed(after, [Assignment(name, None)]))
  {
    var ts := [Token(KEYWORD, kind)] + ([Token(IDENTIFIER, name)] + ([Token(OPERATOR, "=")] + ([value] + [Token(IDENTIFIER, after)])));
    assert ts[0] == Token(KEYWORD, kind) && ts[1] == Token(IDENTIFIER, name) && ts[2] == Token(OPERATOR, "=");
    assert ts[3] == value && ts[4] == Token(IDENTIFIER, after) && |ts| == 5;
    assert DeclarationFits(ts, 0) && DeclarationEnd(ts, 0) == 3;
    assert ParseFrom(ts, 5, [after], [Assignment(name, None)]) == Ok(Parsed(after, [Assignment(name, None)]));
    assert [] + [after] == [after] && [] + [Assignment(name, None)] == [Assignment(name, None)];
    PushesName(ts, 4, [], [Assignment(name, None)]);
    Declares(ts, 0, [], []);
  }
}
