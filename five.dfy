/**
 * Five.py: a lexer that tries seven patterns in a fixed order at each position and keeps the first
 * that matches, and a parser that scans the token list for variable declarations and builds a tree
 * of nodes. The WHITESPACE tokens stay in the list the parser reads.
 */
module Five {
  import opened Common
  import opened Chars
  import opened PyValues
  import opened Patterns

  datatype TokenType = KEYWORD | IDENTIFIER | OPERATOR | INTEGER | FLOAT | SPECIAL_CHARACTER | WHITESPACE

  /** The name of a token type, as the token table and the tree labels print it. */
  function Name(t: TokenType): string
  {
    match t
    case KEYWORD => "KEYWORD"
    case IDENTIFIER => "IDENTIFIER"
    case OPERATOR => "OPERATOR"
    case INTEGER => "INTEGER"
    case FLOAT => "FLOAT"
    case SPECIAL_CHARACTER => "SPECIAL_CHARACTER"
    case WHITESPACE => "WHITESPACE"
  }

  datatype Token = Token(ttype: TokenType, value: string)

  // ---------------------------------------------------------------- patterns

  const Keywords: set<string> := {"int", "float", "char", "double", "if", "else", "while", "for", "switch", "return"}

  /** The order in which the patterns are tried at each position. */
  const PatternOrder: seq<TokenType> := [KEYWORD, IDENTIFIER, OPERATOR, INTEGER, FLOAT, SPECIAL_CHARACTER, WHITESPACE]

  /** The regular expression of each token type. */
  function PatternOf(t: TokenType): Pattern
  {
    match t
    case KEYWORD => Keyword(Keywords)
    case IDENTIFIER => Identifier
    case OPERATOR => Class("-+*/()=")
    case INTEGER => Integer
    case FLOAT => Float
    case SPECIAL_CHARACTER => Class("{};,")
    case WHITESPACE => Space
  }

  /** Every keyword is a non-empty run of word characters. */
  lemma KeywordsAreWords(w: string)
    requires w in Keywords
    ensures WordText(w)
  {
  }

  /** Where the pattern of type `p` matches at `i`, if it does. */
  function MatchAt(p: TokenType, s: string, i: nat): (r: Option<nat>)
    requires i < |s|
    ensures r.Some? ==> i < r.value <= |s|
  {
    Match(PatternOf(p), s, i)
  }

  /** The first pattern from position `k` of the order on that matches at `i`, with where its match ends. */
  function FirstMatchFrom(s: string, i: nat, k: nat): (r: Option<(TokenType, nat)>)
    requires i < |s|
    ensures r.Some? ==> i < r.value.1 <= |s|
    decreases |PatternOrder| - k
  {
    if k >= |PatternOrder| then None
    else
      match MatchAt(PatternOrder[k], s, i)
      case Some(e) => Some((PatternOrder[k], e))
      case None => FirstMatchFrom(s, i, k + 1)
  }

  function FirstMatch(s: string, i: nat): (r: Option<(TokenType, nat)>)
    requires i < |s|
    ensures r.Some? ==> i < r.value.1 <= |s|
  {
    FirstMatchFrom(s, i, 0)
  }

  // ---------------------------------------------------------------- lexer

  /** `program[i:i+10]`. */
  function Snippet(s: string, i: nat): string
    requires i <= |s|
  {
    s[i..if i + 10 <= |s| then i + 10 else |s|]
  }

  const InvalidTokenText := "Invalid token at position "

  /** The ValueError raised where no pattern matches. */
  function InvalidToken(s: string, i: nat): Exc
    requires i <= |s|
  {
    Exc(ValueError, InvalidTokenText + (NatString(i) + ": " + Snippet(s, i) + "..."))
  }

  /** What `lexer` returns when its loop is at `i`. */
  function LexFrom(s: string, i: nat): Result<seq<Token>, Exc>
    decreases |s| - i
  {
    if i >= |s| then Ok([])
    else
      match FirstMatch(s, i)
      case None => Err(InvalidToken(s, i))
      case Some((t, e)) => Prefix([Token(t, s[i..e])], LexFrom(s, e))
  }

  /** One round of the `for` over the patterns in `lexer`: the first pattern that matches at `i`. */
  method MatchFirst(program: string, i: nat) returns (found: Option<(TokenType, nat)>)
    requires i < |program|
    ensures found == FirstMatch(program, i)
  {
    found := None;
    var k := 0;
    while k < |PatternOrder| && found.None?
      invariant k <= |PatternOrder|
      invariant FirstMatch(program, i) == if found.Some? then found else FirstMatchFrom(program, i, k)
      decreases |PatternOrder| - k
    {
      var m := MatchAt(PatternOrder[k], program, i);
      if m.Some? {
        found := Some((PatternOrder[k], m.value));
      }
      k := k + 1;
    }
  }

  /** `lexer(program)`. */
  method Lexer(program: string) returns (r: Result<seq<Token>, Exc>)
    ensures r == LexFrom(program, 0)
  {
    var tokens: seq<Token> := [];
    var i: nat := 0;
    PrefixNil(LexFrom(program, 0));
    while i < |program|
      invariant i <= |program|
      invariant LexFrom(program, 0) == Prefix(tokens, LexFrom(program, i))
      decreases |program| - i
    {
      var found := MatchFirst(program, i);
      if found.None? {
        return Err(InvalidToken(program, i));
      }
      var (t, e) := found.value;
      var token := Token(t, program[i..e]);
      PrefixPrefix(tokens, [token], LexFrom(program, e));
      tokens := tokens + [token];
      i := e;
    }
    assert tokens + [] == tokens;
    return Ok(tokens);
  }

  // ---------------------------------------------------------------- lexer properties

  /** The characters some pattern can start with. */
  predicate Lexable(c: char)
  {
    IsWord(c) || c in "-+*/()=" || c in "{};," || IsRegexSpace(c)
  }

  /**
   * The first-match rule, decided by the character at `i` alone: a letter or '_' starts a keyword or
   * an identifier, a digit an integer, then the operator, special and space classes; FLOAT has no case.
   */
  function Dispatch(s: string, i: nat): Option<(TokenType, nat)>
    requires i < |s|
  {
    var c := s[i];
    if IsAlpha(c) || c == '_' then
      var e := WordEnd(s, i);
      Some((if Boundary(s, i) && s[i..e] in Keywords then KEYWORD else IDENTIFIER, e))
    else if IsDigit(c) then Some((INTEGER, DigitsEnd(s, i)))
    else if c in "-+*/()=" then Some((OPERATOR, i + 1))
    else if c in "{};," then Some((SPECIAL_CHARACTER, i + 1))
    else if IsRegexSpace(c) then Some((WHITESPACE, SpaceEnd(s, i)))
    else None
  }

  /** Every keyword starts with a letter. */
  lemma KeywordsStartWithLetters(w: string)
    requires w in Keywords
    ensures w != [] && IsAlpha(w[0])
  {
  }

  /** Trying the seven patterns in order is the character dispatch. */
  lemma FirstMatchDispatch(s: string, i: nat)
    requires i < |s|
    ensures FirstMatch(s, i) == Dispatch(s, i)
  {
    var c := s[i];
    var e := WordEnd(s, i);
    if s[i..e] in Keywords {
      KeywordsStartWithLetters(s[i..e]);
      assert s[i..e][0] == c;
    }
    if IsAlpha(c) || c == '_' {
      if MatchAt(KEYWORD, s, i).None? {
        assert FirstMatchFrom(s, i, 1) == Some((IDENTIFIER, e));
      }
    } else {
      assert MatchAt(KEYWORD, s, i).None? && MatchAt(IDENTIFIER, s, i).None?;
      if IsDigit(c) {
        assert FirstMatchFrom(s, i, 3) == Some((INTEGER, DigitsEnd(s, i)));
      } else {
        assert MatchAt(INTEGER, s, i).None? && MatchAt(FLOAT, s, i).None?;
        assert FirstMatch(s, i) == FirstMatchFrom(s, i, 2);
        if c !in "-+*/()=" {
          assert FirstMatchFrom(s, i, 2) == FirstMatchFrom(s, i, 5);
        }
      }
    }
  }

  /** Some pattern matches at `i` exactly when the character there is lexable; the match takes only lexable characters. */
  lemma FirstMatchLexable(s: string, i: nat)
    requires i < |s|
    ensures FirstMatch(s, i).Some? <==> Lexable(s[i])
    ensures FirstMatch(s, i).Some? ==> forall k :: i <= k < FirstMatch(s, i).value.1 ==> Lexable(s[k])
  {
    FirstMatchDispatch(s, i);
    if IsDigit(s[i]) {
      var e := DigitsEnd(s, i);
      forall k | i <= k < e
        ensures Lexable(s[k])
      {
        assert s[k] == s[i..e][k - i];
      }
    }
  }

  /** The FLOAT pattern never wins: INTEGER, tried before it, matches wherever it does. */
  lemma NeverFloat(s: string, i: nat)
    requires i < |s| && FirstMatch(s, i).Some?
    ensures FirstMatch(s, i).value.0 != FLOAT
  {
    FirstMatchDispatch(s, i);
  }

  /** The concatenated values of a token list. */
  function Values(ts: seq<Token>): string
  {
    if ts == [] then "" else ts[0].value + Values(ts[1..])
  }

  /** Lexing loses no character: the token values concatenate back to the input. */
  lemma {:induction false} LexRoundTrip(s: string, i: nat)
    requires i <= |s| && LexFrom(s, i).Ok?
    ensures Values(LexFrom(s, i).value) == s[i..]
    decreases |s| - i
  {
    if i < |s| {
      var (t, e) := FirstMatch(s, i).value;
      LexRoundTrip(s, e);
      var ts := LexFrom(s, i).value;
      assert ts == [Token(t, s[i..e])] + LexFrom(s, e).value;
      assert ts[1..] == LexFrom(s, e).value;
      assert s[i..] == s[i..e] + s[e..];
    }
  }

  /** The lexer never produces a FLOAT token. */
  lemma {:induction false} LexNoFloat(s: string, i: nat)
    requires LexFrom(s, i).Ok?
    ensures forall k :: 0 <= k < |LexFrom(s, i).value| ==> LexFrom(s, i).value[k].ttype != FLOAT
    decreases |s| - i
  {
    if i < |s| {
      var (t, e) := FirstMatch(s, i).value;
      NeverFloat(s, i);
      LexNoFloat(s, e);
      assert LexFrom(s, i).value == [Token(t, s[i..e])] + LexFrom(s, e).value;
    }
  }

  /** Text made of lexable characters lexes without error. */
  lemma {:induction false} LexOk(s: string, i: nat)
    requires forall k :: i <= k < |s| ==> Lexable(s[k])
    ensures LexFrom(s, i).Ok?
    decreases |s| - i
  {
    if i < |s| {
      FirstMatchLexable(s, i);
      LexOk(s, FirstMatch(s, i).value.1);
    }
  }

  /** The lexer raises at the first character no pattern starts with, and names its position. */
  lemma {:induction false} LexError(s: string, i: nat, p: nat)
    requires i <= p < |s| && !Lexable(s[p])
    requires forall k :: i <= k < p ==> Lexable(s[k])
    ensures LexFrom(s, i) == Err(InvalidToken(s, p))
    decreases |s| - i
  {
    FirstMatchLexable(s, i);
    if i < p {
      var e := FirstMatch(s, i).value.1;
      assert e <= p;
      LexError(s, e, p);
    }
  }

  /** "integer" is an IDENTIFIER: the keyword pattern needs a boundary after "int". */
  lemma KeywordsAreWholeWords()
    ensures LexFrom("integer", 0) == Ok([Token(IDENTIFIER, "integer")])
  {
    var s := "integer";
    WordEndAll(s, 0);
    assert s[0..7] == s;
    assert s !in Keywords;
    assert FirstMatch(s, 0) == Some((IDENTIFIER, 7));
    assert [Token(IDENTIFIER, "integer")] + [] == [Token(IDENTIFIER, "integer")];
  }

  /** A number runs into a word without a boundary: "3int" is INTEGER "3" and then the IDENTIFIER "int". */
  lemma NoBoundaryAfterNumber()
    ensures LexFrom("3int", 0) == Ok([Token(INTEGER, "3"), Token(IDENTIFIER, "int")])
  {
    var s := "3int";
    assert s[0] == '3' && s[1] == 'i' && s[2] == 'n' && s[3] == 't';
    assert DigitsEnd(s, 1) == 1 && DigitsEnd(s, 0) == 1;
    assert FirstMatch(s, 0) == Some((INTEGER, 1));
    WordEndAll(s, 1);
    assert !Boundary(s, 1);
    assert FirstMatch(s, 1) == Some((IDENTIFIER, 4));
    assert s[1..4] == "int" && s[0..1] == "3";
    assert LexFrom(s, 4) == Ok([]);
    assert [Token(IDENTIFIER, "int")] + [] == [Token(IDENTIFIER, "int")];
    assert LexFrom(s, 1) == Ok([Token(IDENTIFIER, "int")]);
    assert [Token(INTEGER, "3")] + [Token(IDENTIFIER, "int")] == [Token(INTEGER, "3"), Token(IDENTIFIER, "int")];
  }

  /** "3.5": INTEGER takes "3", no pattern starts with '.', and the lexer raises at position 1. */
  lemma DecimalRaises()
    ensures LexFrom("3.5", 0) == Err(Exc(ValueError, InvalidTokenText + ("1" + ": " + ".5" + "...")))
  {
    var s := "3.5";
    assert s[0] == '3' && s[1] == '.';
    FirstMatchDispatch(s, 0);
    assert DigitsEnd(s, 1) == 1;
    assert !Lexable('.');
    LexError(s, 1, 1);
    assert NatString(1) == "1" && Snippet(s, 1) == ".5" by {
      assert s[1..3] == ".5";
    }
  }

  // ---------------------------------------------------------------- parser

  /** A tree node: its label and its children. */
  datatype Node = Node(value: string, children: seq<Node>)

  /** The node `parse_expression` makes for one token. */
  function Leaf(t: Token): Node
  {
    Node(Name(t.ttype) + ": " + t.value, [])
  }

  /** Where `parse_expression` stops: the first SPECIAL_CHARACTER or ';' at or after `i`, or the end. */
  predicate Stops(t: Token)
  {
    t.ttype == SPECIAL_CHARACTER || t.value == ";"
  }

  function ExpressionEnd(ts: seq<Token>, i: nat): (e: nat)
    requires i <= |ts|
    ensures i <= e <= |ts|
    ensures forall k :: i <= k < e ==> !Stops(ts[k])
    ensures e < |ts| ==> Stops(ts[e])
    decreases |ts| - i
  {
    if i < |ts| && !Stops(ts[i]) then ExpressionEnd(ts, i + 1) else i
  }

  /** The leaves `parse_expression` collects from `i` on. */
  function Leaves(ts: seq<Token>, i: nat): seq<Node>
    decreases |ts| - i
  {
    if i >= |ts| || Stops(ts[i]) then [] else [Leaf(ts[i])] + Leaves(ts, i + 1)
  }

  /** One leaf per token, in order. */
  function LeafAll(ts: seq<Token>): (r: seq<Node>)
    ensures |r| == |ts|
  {
    if ts == [] then [] else [Leaf(ts[0])] + LeafAll(ts[1..])
  }

  /** The expression's children are the leaves of the tokens from its start up to the stopping token. */
  lemma {:induction false} LeavesAreTokens(ts: seq<Token>, i: nat)
    requires i <= |ts|
    ensures Leaves(ts, i) == LeafAll(ts[i..ExpressionEnd(ts, i)])
    decreases |ts| - i
  {
    if i < |ts| && !Stops(ts[i]) {
      LeavesAreTokens(ts, i + 1);
      var e := ExpressionEnd(ts, i);
      assert e == ExpressionEnd(ts, i + 1);
      assert ts[i..e][1..] == ts[i + 1..e];
    }
  }

  function ExpressionSpec(ts: seq<Token>, start: nat): Node
  {
    Node("Expression", Leaves(ts, start))
  }

  /** `parse_expression(tokens, start)`. */
  method ParseExpression(tokens: seq<Token>, start: nat) returns (node: Node)
    ensures node == ExpressionSpec(tokens, start)
  {
    var children: seq<Node> := [];
    var i := start;
    while i < |tokens| && tokens[i].ttype != SPECIAL_CHARACTER && tokens[i].value != ";"
      invariant start <= i
      invariant Leaves(tokens, start) == children + Leaves(tokens, i)
      decreases |tokens| - i
    {
      children := children + [Leaf(tokens[i])];
      i := i + 1;
    }
    assert children + [] == children;
    node := Node("Expression", children);
  }

  /** `Token.__repr__`. */
  function TokenRepr(t: Token): string
  {
    "Token(" + Name(t.ttype) + ", " + t.value + ")"
  }

  /** The reprs of the tokens of a list. */
  function Reprs(ts: seq<Token>): seq<string>
  {
    seq(|ts|, k requires 0 <= k < |ts| => TokenRepr(ts[k]))
  }

  /** `tokens[i:i+n]`, cut at the end of the list. */
  function Slice(ts: seq<Token>, i: nat, n: nat): seq<Token>
  {
    if i >= |ts| then [] else ts[i..if i + n <= |ts| then i + n else |ts|]
  }

  /** The ValueError for a declaration that breaks off at `i`, showing up to `n` tokens from there. */
  function DeclarationError(ts: seq<Token>, i: nat, n: nat): Exc
  {
    Exc(ValueError, "Invalid variable declaration: " + ListStr(Reprs(Slice(ts, i, n))))
  }

  /** A KEYWORD that starts a declaration. */
  predicate IsTypeKeyword(t: Token)
  {
    t.ttype == KEYWORD && t.value in {"int", "float", "char", "double"}
  }

  /** The subtree of one declaration. */
  function Declaration(kind: string, name: string, expression: Node): Node
  {
    Node("Variable Declaration: " + kind, [Node("Identifier: " + name, []), Node("Assignment", [expression])])
  }

  /**
   * The children `parse_program` gives the root from position `i` on. After a declaration's '='
   * the loop goes on one token past the start of the expression, whatever the expression took.
   */
  function ProgramFrom(ts: seq<Token>, i: nat): Result<seq<Node>, Exc>
    decreases |ts| - i
  {
    if i >= |ts| then Ok([])
    else if !IsTypeKeyword(ts[i]) then ProgramFrom(ts, i + 1)
    else if !(i + 1 < |ts| && ts[i + 1].ttype == IDENTIFIER) then Err(DeclarationError(ts, i + 1, 2))
    else if !(i + 2 < |ts| && ts[i + 2].ttype == OPERATOR && ts[i + 2].value == "=") then Err(DeclarationError(ts, i + 2, 3))
    else
      var d := Declaration(ts[i].value, ts[i + 1].value, ExpressionSpec(ts, i + 3));
      Prefix([d], ProgramFrom(ts, i + 4))
  }

  function ParseProgramSpec(ts: seq<Token>): Result<Node, Exc>
  {
    match ProgramFrom(ts, 0)
    case Ok(children) => Ok(Node("Program", children))
    case Err(x) => Err(x)
  }

  /** `parse_program(tokens)`. */
  method ParseProgram(tokens: seq<Token>) returns (r: Result<Node, Exc>)
    ensures r == ParseProgramSpec(tokens)
  {
    var children: seq<Node> := [];
    var i: nat := 0;
    PrefixNil(ProgramFrom(tokens, 0));
    while i < |tokens|
      invariant ProgramFrom(tokens, 0) == Prefix(children, ProgramFrom(tokens, i))
      decreases |tokens| - i
    {
      var token := tokens[i];
      if token.ttype == KEYWORD && token.value in {"int", "float", "char", "double"} {
        i := i + 1;
        if i < |tokens| && tokens[i].ttype == IDENTIFIER {
          var name := tokens[i].value;
          i := i + 1;
          if i < |tokens| && tokens[i].ttype == OPERATOR && tokens[i].value == "=" {
            i := i + 1;
            var expression := ParseExpression(tokens, i);
            var d := Declaration(token.value, name, expression);
            PrefixPrefix(children, [d], ProgramFrom(tokens, i + 1));
            children := children + [d];
          } else {
            return Err(DeclarationError(tokens, i, 3));
          }
        } else {
          return Err(DeclarationError(tokens, i, 2));
        }
      }
      i := i + 1;
    }
    assert children + [] == children;
    return Ok(Node("Program", children));
  }

  // ---------------------------------------------------------------- what the parser makes of lexed text

  /** No KEYWORD token is directly followed by an IDENTIFIER token. */
  predicate NoNameAfterKeyword(ts: seq<Token>)
  {
    forall k :: 0 <= k < |ts| - 1 && ts[k].ttype == KEYWORD ==> ts[k + 1].ttype != IDENTIFIER
  }

  /** The first token lexed from `i` is the one the first match makes. */
  lemma FirstToken(s: string, i: nat)
    requires i < |s| && LexFrom(s, i).Ok?
    ensures LexFrom(s, i).value != [] && LexFrom(s, i).value[0].ttype == FirstMatch(s, i).value.0
  {
  }

  /**
   * A keyword match ends where the word ends, so the next token starts with a character that is not
   * a word character and cannot be an identifier: the whitespace between a type and a name is a token.
   */
  lemma {:induction false} LexedNoNameAfterKeyword(s: string, i: nat)
    requires LexFrom(s, i).Ok?
    ensures NoNameAfterKeyword(LexFrom(s, i).value)
    decreases |s| - i
  {
    if i < |s| {
      var (t, e) := FirstMatch(s, i).value;
      LexedNoNameAfterKeyword(s, e);
      var tail := LexFrom(s, e).value;
      var ts := LexFrom(s, i).value;
      assert ts == [Token(t, s[i..e])] + tail;
      if t == KEYWORD && e < |s| {
        FirstMatchDispatch(s, i);
        FirstMatchDispatch(s, e);
        FirstToken(s, e);
        assert !IsWord(s[e]);
      }
      forall k | 0 <= k < |ts| - 1 && ts[k].ttype == KEYWORD
        ensures ts[k + 1].ttype != IDENTIFIER
      {
        if k > 0 {
          assert ts[k] == tail[k - 1] && ts[k + 1] == tail[k];
        }
      }
    }
  }

  /** Without a type keyword from `i` on, the parser adds nothing. */
  lemma {:induction false} NoDeclarations(ts: seq<Token>, i: nat)
    requires forall k :: i <= k < |ts| ==> !IsTypeKeyword(ts[k])
    ensures ProgramFrom(ts, i) == Ok([])
    decreases |ts| - i
  {
    if i < |ts| {
      NoDeclarations(ts, i + 1);
    }
  }

  /** Where no name follows a keyword, the first type keyword raises, showing the two tokens after it. */
  lemma {:induction false} FirstDeclarationRaises(ts: seq<Token>, i: nat, p: nat)
    requires NoNameAfterKeyword(ts)
    requires i <= p < |ts| && IsTypeKeyword(ts[p])
    requires forall k :: i <= k < p ==> !IsTypeKeyword(ts[k])
    ensures ProgramFrom(ts, i) == Err(DeclarationError(ts, p + 1, 2))
    decreases p - i
  {
    if i < p {
      FirstDeclarationRaises(ts, i + 1, p);
    } else if p + 1 < |ts| {
      assert ts[p + 1].ttype != IDENTIFIER;
    }
  }

  /** On the lexer's tokens `parse_program` never builds a declaration: it raises or returns an empty program. */
  lemma LexedProgramHasNoDeclarations(s: string)
    requires LexFrom(s, 0).Ok?
    ensures ParseProgramSpec(LexFrom(s, 0).value).Err? || ParseProgramSpec(LexFrom(s, 0).value) == Ok(Node("Program", []))
  {
    var ts := LexFrom(s, 0).value;
    LexedNoNameAfterKeyword(s, 0);
    if p :| 0 <= p < |ts| && IsTypeKeyword(ts[p]) {
      var q := FirstTypeKeyword(ts, p);
      FirstDeclarationRaises(ts, 0, q);
    } else {
      NoDeclarations(ts, 0);
    }
  }

  /** The first type keyword, given that there is one at or before `p`. */
  function FirstTypeKeyword(ts: seq<Token>, p: nat): (q: nat)
    requires p < |ts| && IsTypeKeyword(ts[p])
    ensures q <= p && IsTypeKeyword(ts[q])
    ensures forall k :: 0 <= k < q ==> !IsTypeKeyword(ts[k])
    decreases p
  {
    if exists k :: 0 <= k < p && IsTypeKeyword(ts[k]) then
      var k :| 0 <= k < p && IsTypeKeyword(ts[k]);
      FirstTypeKeyword(ts, k)
    else p
  }

  /** Text that starts with a keyword standing as a whole word, all of it lexable, lexes to that keyword first. */
  lemma KeywordTextLexes(kind: string, rest: string)
    requires kind in Keywords
    requires rest == [] || !IsWord(rest[0])
    requires forall k :: 0 <= k < |rest| ==> Lexable(rest[k])
    ensures LexFrom(kind + rest, 0).Ok?
    ensures LexFrom(kind + rest, 0).value != [] && LexFrom(kind + rest, 0).value[0] == Token(KEYWORD, kind)
  {
    var s := kind + rest;
    var n := |kind|;
    KeywordsAreWords(kind);
    forall k | 0 <= k < |s|
      ensures Lexable(s[k])
    {
      if k < n {
        assert s[k] == kind[k];
      } else {
        assert s[k] == rest[k - n];
      }
    }
    assert s[0..n] == kind;
    KeywordRegex(Keywords, s, 0, kind);
    LexOk(s, 0);
    FirstMatchDispatch(s, 0);
    FirstToken(s, 0);
  }

  /**
   * Text that starts with a type keyword standing as a whole word lexes without error when every
   * character is lexable, and `parse_program` then raises on it.
   */
  lemma TypeKeywordTextRaises(kind: string, rest: string)
    requires kind in {"int", "float", "char", "double"}
    requires rest == [] || !IsWord(rest[0])
    requires forall k :: 0 <= k < |rest| ==> Lexable(rest[k])
    ensures LexFrom(kind + rest, 0).Ok?
    ensures ParseProgramSpec(LexFrom(kind + rest, 0).value).Err?
  {
    KeywordTextLexes(kind, rest);
    var ts := LexFrom(kind + rest, 0).value;
    LexedNoNameAfterKeyword(kind + rest, 0);
    FirstDeclarationRaises(ts, 0, 0);
  }

  /** "int x = 1;" raises in `parse_program`, at the space after "int". */
  lemma DeclarationTextRaises()
    ensures LexFrom("int" + " x = 1;", 0).Ok?
    ensures ParseProgramSpec(LexFrom("int" + " x = 1;", 0).value).Err?
  {
    var rest := " x = 1;";
    assert rest[0] == ' ' && rest[1] == 'x' && rest[2] == ' ' && rest[3] == '=';
    assert rest[4] == ' ' && rest[5] == '1' && rest[6] == ';';
    TypeKeywordTextRaises("int", rest);
  }

  // ---------------------------------------------------------------- the parser without whitespace tokens

  /** The tokens the parser evidently expects: the lexer's tokens without the WHITESPACE ones. */
  function Significant(ts: seq<Token>): (r: seq<Token>)
    ensures forall k :: 0 <= k < |r| ==> r[k].ttype != WHITESPACE
    ensures |r| <= |ts|
  {
    if ts == [] then []
    else if ts[0].ttype == WHITESPACE then Significant(ts[1..])
    else [ts[0]] + Significant(ts[1..])
  }

  /** `parse_program` on the significant tokens. */
  function ParseSignificant(ts: seq<Token>): Result<Node, Exc>
  {
    ParseProgramSpec(Significant(ts))
  }

  /**
   * A declaration with a one-token initializer, however it is spaced, now parses to its subtree: the
   * type's name, the variable's name and the expression holding the initializer.
   */
  lemma SpacedDeclarationParses(ts: seq<Token>, kind: string, name: string, init: Token)
    requires kind in {"int", "float", "char", "double"} && !Stops(init) && init.ttype != WHITESPACE
    requires Significant(ts) == [Token(KEYWORD, kind)] + ([Token(IDENTIFIER, name)] + ([Token(OPERATOR, "=")] + ([init] + [Token(SPECIAL_CHARACTER, ";")])))
    ensures ParseSignificant(ts) == Ok(Node("Program", [Declaration(kind, name, Node("Expression", [Leaf(init)]))]))
  {
    var r := Significant(ts);
    assert r[0] == Token(KEYWORD, kind) && r[1] == Token(IDENTIFIER, name) && r[2] == Token(OPERATOR, "=");
    assert r[3] == init && r[4] == Token(SPECIAL_CHARACTER, ";") && |r| == 5;
    assert Leaves(r, 4) == [];
    assert Leaves(r, 3) == [Leaf(init)];
    assert ProgramFrom(r, 4) == Ok([]);
    var d := Declaration(kind, name, Node("Expression", [Leaf(init)]));
    assert [d] + [] == [d];
    assert ProgramFrom(r, 0) == Ok([d]);
  }
}
