/**
 * test.py: the statement interpreter of sixgui.py with two differences. An invalid character
 * raises and aborts `lex` instead of being collected, and `parse` does not catch a statement's
 * exception, so the first one ends the run. The token types, the number and keyword scans and
 * every parser method other than `parse` are those of sixgui.py and are taken from `SixGui`.
 */
module TestPy {
  import opened Common
  import opened Chars
  import opened PyValues
  import SixGui

  type Token = SixGui.Token

  type Vars = SixGui.Vars

  // ---------------------------------------------------------------- lexer

  /**
   * What `lex` returns when started with the cursor at `i`: each round adds what the same round of
   * sixgui.py's `lex` adds, except that an invalid character raises its message instead of collecting it.
   */
  function LexFrom(s: string, i: nat): Result<seq<Token>, Exc>
    decreases |s| - i
  {
    if i >= |s| then Ok([])
    else
      match SixGui.Scanned(s, i)
      case Err(x) => Err(x)
      case Ok(l) => if l.errors != [] then Err(Exc(Exception, l.errors[0])) else Prefix(l.tokens, LexFrom(s, SixGui.ScanEnd(s, i)))
  }

  /** `Lexer(text).lex()`: the constructor reads `text[0]`, so empty text raises IndexError. */
  function Tokenize(text: string): Result<seq<Token>, Exc>
  {
    if text == [] then Err(EmptyInput) else LexFrom(text, 0)
  }

  /**
   * One round of `lex`'s loop: skips a space, appends one token, or raises. `tokens` are those
   * appended so far, and `whole`, what the entire scan returns, is `tokens` before what `lex`
   * returns from here.
   */
  method LexStep(lexer: SixGui.Lexer, ghost whole: Result<seq<Token>, Exc>, tokens: seq<Token>) returns (r: Result<seq<Token>, Exc>)
    requires lexer.Valid() && lexer.current.Some?
    requires whole == Prefix(tokens, LexFrom(lexer.input, lexer.position))
    modifies lexer
    ensures lexer.Valid() && (r.Ok? ==> lexer.position > old(lexer.position))
    ensures r.Err? ==> whole == Err(r.error)
    ensures r.Ok? ==> whole == Prefix(r.value, LexFrom(lexer.input, lexer.position))
  {
    var c := lexer.current.value;
    ghost var i := lexer.position;
    var found: seq<Token>;
    if PySpace(c) {
      lexer.Advance();
      found := [];
    } else if IsDigit(c) {
      var t := lexer.ParseNumber();
      if t.Err? {
        return Err(t.error);
      }
      found := [t.value];
    } else if IsAlpha(c) {
      var t := lexer.ParseKeyword();
      found := [t];
    } else if SixGui.CharToken(c).Some? {
      lexer.Advance();
      found := [SixGui.CharToken(c).value];
    } else {
      assert SixGui.Scanned(lexer.input, i) == Ok(SixGui.Lexed([], [SixGui.InvalidCharacter(c)]));
      return Err(Exc(Exception, SixGui.InvalidCharacter(c)));
    }
    assert SixGui.Scanned(lexer.input, i) == Ok(SixGui.Lexed(found, [])) && SixGui.ScanEnd(lexer.input, i) == lexer.position;
    PrefixPrefix(tokens, found, LexFrom(lexer.input, lexer.position));
    return Ok(tokens + found);
  }

  /** `lex` over the cursor of sixgui.py's Lexer, whose `advance`, `parse_number` and `parse_keyword` it shares. */
  method Lex(lexer: SixGui.Lexer) returns (r: Result<seq<Token>, Exc>)
    requires lexer.Valid()
    modifies lexer
    ensures r == LexFrom(lexer.input, old(lexer.position))
  {
    ghost var whole := LexFrom(lexer.input, lexer.position);
    var tokens: seq<Token> := [];
    PrefixNil(whole);
    while lexer.current.Some?
      invariant lexer.Valid()
      invariant whole == Prefix(tokens, LexFrom(lexer.input, lexer.position))
      decreases |lexer.input| - lexer.position
    {
      var step := LexStep(lexer, whole, tokens);
      if step.Err? {
        return step;
      }
      tokens := step.value;
    }
    assert tokens + [] == tokens;
    return Ok(tokens);
  }

  /** `Lexer(text).lex()` as `main` calls it. */
  method Run(text: string) returns (r: Result<seq<Token>, Exc>)
    ensures r == Tokenize(text)
  {
    if text == [] {
      return Err(EmptyInput);
    }
    var lexer := new SixGui.Lexer(text);
    r := Lex(lexer);
  }

  // ---------------------------------------------------------------- parser

  /** `parse`: statements run until the tokens are used up; the first exception ends the run. */
  function ParseSpec(vars: Vars, q: SixGui.PState): Result<Vars, Exc>
    decreases Size(q)
  {
    if q.current.None? then Ok(vars)
    else
      var s := SixGui.StatementSpec(vars, q);
      if s.out.Err? then Err(s.out.error) else ParseSpec(s.vars, s.q)
  }

  /** `parse` on sixgui.py's Parser, whose other methods it shares; it always terminates. */
  method Parse(p: SixGui.Parser) returns (r: Result<Vars, Exc>)
    modifies p
    ensures r == ParseSpec(old(p.variables), old(p.State()))
    ensures r.Ok? ==> p.variables == r.value && p.current.None?
  {
    while p.current.Some?
      invariant ParseSpec(old(p.variables), old(p.State())) == ParseSpec(p.variables, p.State())
      decreases Size(p.State())
    {
      var e := p.Statement();
      if e.Err? {
        return Err(e.error);
      }
    }
    return Ok(p.variables);
  }

  /** `main` without its printing: lex, then `Parser(tokens.copy()).parse()`; the result is the variable table. */
  function Compile(text: string): Result<Vars, Exc>
  {
    match Tokenize(text)
    case Err(x) => Err(x)
    case Ok(ts) => ParseSpec(map[], SixGui.Init(ts))
  }

  // ---------------------------------------------------------------- against sixgui.py

  /**
   * The lexer succeeds exactly when sixgui.py's lexer succeeds with no "Invalid character"
   * message, and then with the same tokens; where sixgui.py collects messages, this one raises
   * the first.
   */
  lemma {:induction false} LexAgrees(s: string, i: nat)
    ensures LexFrom(s, i).Ok? <==> SixGui.LexFrom(s, i).Ok? && SixGui.LexFrom(s, i).value.errors == []
    ensures LexFrom(s, i).Ok? ==> LexFrom(s, i).value == SixGui.LexFrom(s, i).value.tokens
    ensures SixGui.LexFrom(s, i).Ok? && SixGui.LexFrom(s, i).value.errors != [] ==>
              LexFrom(s, i) == Err(Exc(Exception, SixGui.LexFrom(s, i).value.errors[0]))
    decreases |s| - i
  {
    if i < |s| && SixGui.Scanned(s, i).Ok? {
      LexAgrees(s, SixGui.ScanEnd(s, i));
    }
  }

  /**
   * `parse` returns the variables exactly when sixgui.py's `parse` finishes with no message;
   * where sixgui.py records a first message and goes on (or loops forever), this one raises it.
   */
  lemma {:induction false} ParseAgrees(vars: Vars, q: SixGui.PState)
    ensures ParseSpec(vars, q).Ok? ==> SixGui.ParseSpec(vars, q) == SixGui.Finished(ParseSpec(vars, q).value, [])
    ensures SixGui.ParseSpec(vars, q).Finished? && SixGui.ParseSpec(vars, q).errors == [] ==>
              ParseSpec(vars, q) == Ok(SixGui.ParseSpec(vars, q).vars)
    ensures ParseSpec(vars, q).Err? ==>
              SixGui.ParseSpec(vars, q).Diverges? ||
              (SixGui.ParseSpec(vars, q).errors != [] && SixGui.ParseSpec(vars, q).errors[0] == ParseSpec(vars, q).error.message)
    decreases Size(q)
  {
    if q.current.Some? {
      var s := SixGui.StatementSpec(vars, q);
      if s.out.Ok? {
        ParseAgrees(s.vars, s.q);
        var r := SixGui.ParseSpec(s.vars, s.q);
        if r.Finished? {
          assert [] + r.errors == r.errors;
        }
      }
    }
  }

  // ---------------------------------------------------------------- properties

  /** "x @ y" is not lexed: the `@` raises "Invalid character: @" and the `y` is never reached. */
  lemma InvalidCharacterRaises()
    ensures Tokenize("x @ y") == Err(Exc(Exception, "Invalid character: @"))
  {
    var s := "x @ y";
    assert s[0] == 'x' && s[1] == ' ' && s[2] == '@';
    assert WordEnd(s, 1) == 1;
    assert WordEnd(s, 0) == 1;
    assert SixGui.InvalidCharacter('@') == "Invalid character: @";
    assert LexFrom(s, 2) == Err(Exc(Exception, "Invalid character: @"));
  }

  /** "5;" raises at the missing IDENTIFIER, after binding ";" to 5; sixgui.py would go on to the SEMICOLON. */
  lemma FirstErrorEnds()
    ensures ParseSpec(map[], SixGui.Init([SixGui.NumTok(5), SixGui.SemiTok])) == Err(Exc(Exception, "Expected IDENTIFIER, but got SEMICOLON"))
  {
    SixGui.BareNumberStatement();
  }

  /** A statement at `(` raises "Unexpected token: (" and ends the run instead of looping. */
  lemma ParenthesisRaises(vars: Vars, rest: seq<Token>)
    ensures ParseSpec(vars, Stream(Some(SixGui.OpTok('(')), rest)) == Err(Exc(Exception, "Unexpected token: ("))
  {
    var q := Stream(Some(SixGui.OpTok('(')), rest);
    assert "Unexpected token: " + SixGui.Name(SixGui.Char('(')) == "Unexpected token: (";
    var x := Exc(Exception, "Unexpected token: (");
    assert SixGui.FactorSpec(vars, q) == SixGui.Step(Err(x), q);
    assert SixGui.TermSpec(vars, q) == SixGui.Step(Err(x), q);
    assert SixGui.ExprSpec(vars, q) == SixGui.Step(Err(x), q);
    assert SixGui.StatementSpec(vars, q) == SixGui.SStep(Err(x), q, vars);
  }

  /** A statement that completes hands the rest of the tokens and the new variables to the next one. */
  lemma ParseStep(vars: Vars, q: SixGui.PState, q2: SixGui.PState, vars2: Vars)
    requires q.current.Some? && SixGui.StatementSpec(vars, q) == SixGui.SStep(Ok(()), q2, vars2)
    ensures ParseSpec(vars, q) == ParseSpec(vars2, q2)
  {
  }

  /** The tokens of the program in `main`: "int x = 5; int y = 3; int res = x + y * 2; int ans = res - 2;". */
  function DemoTokens(): seq<Token>
  {
    [SixGui.TypeTok("int"), SixGui.IdentTok("x"), SixGui.AssignTok, SixGui.NumTok(5), SixGui.SemiTok] +
    [SixGui.TypeTok("int"), SixGui.IdentTok("y"), SixGui.AssignTok, SixGui.NumTok(3), SixGui.SemiTok] +
    [SixGui.TypeTok("int"), SixGui.IdentTok("res"), SixGui.AssignTok,
     SixGui.IdentTok("x"), SixGui.OpTok('+'), SixGui.IdentTok("y"), SixGui.OpTok('*'), SixGui.NumTok(2), SixGui.SemiTok] +
    [SixGui.TypeTok("int"), SixGui.IdentTok("ans"), SixGui.AssignTok,
     SixGui.IdentTok("res"), SixGui.OpTok('-'), SixGui.NumTok(2), SixGui.SemiTok]
  }

  /** The demo program ends with x = 5, y = 3, res = 11 and ans = 9. */
  lemma Demo()
    ensures ParseSpec(map[], SixGui.Init(DemoTokens()))
            == Ok(map[Str("x") := Int(5), Str("y") := Int(3), Str("res") := Int(11), Str("ans") := Int(9)])
  {
    var semi := SixGui.SemiTok;
    var t1 := [SixGui.TypeTok("int"), SixGui.IdentTok("x"), SixGui.AssignTok, SixGui.NumTok(5), semi];
    var t2 := [SixGui.TypeTok("int"), SixGui.IdentTok("y"), SixGui.AssignTok, SixGui.NumTok(3), semi];
    var body3 := [SixGui.IdentTok("x"), SixGui.OpTok('+'), SixGui.IdentTok("y"), SixGui.OpTok('*'), SixGui.NumTok(2)];
    var t3 := [SixGui.TypeTok("int"), SixGui.IdentTok("res"), SixGui.AssignTok] + body3 + [semi];
    var body4 := [SixGui.IdentTok("res"), SixGui.OpTok('-'), SixGui.NumTok(2)];
    var t4 := [SixGui.TypeTok("int"), SixGui.IdentTok("ans"), SixGui.AssignTok] + body4 + [semi];
    DemoStatements();
    var v1 := map[Str("x") := Int(5)];
    var v2 := v1[Str("y") := Int(3)];
    var v3 := v2[Str("res") := Int(11)];
    var v4 := v3[Str("ans") := Int(9)];

    SixGui.DeclareWithValue(map[], "int", "x", SixGui.NumTok(5), t2 + (t3 + t4));
    ParseStep(map[], SixGui.Init(DemoTokens()), Pop(t2 + (t3 + t4)), v1);

    SixGui.DeclareWithValue(v1, "int", "y", SixGui.NumTok(3), t3 + t4);
    ParseStep(v1, Pop(t2 + (t3 + t4)), Pop(t3 + t4), v2);

    Statement3(v2, t4);
    ParseStep(v2, Pop(t3 + t4), Pop(t4), v3);

    Statement4(v3);
    ParseStep(v3, Pop(t4), Pop([]), v4);
    assert v4 == map[Str("x") := Int(5), Str("y") := Int(3), Str("res") := Int(11), Str("ans") := Int(9)];
  }

  /** The demo program is its four statements one after the other. */
  lemma DemoStatements()
    ensures var semi := SixGui.SemiTok;
            var t1 := [SixGui.TypeTok("int"), SixGui.IdentTok("x"), SixGui.AssignTok, SixGui.NumTok(5), semi];
            var t2 := [SixGui.TypeTok("int"), SixGui.IdentTok("y"), SixGui.AssignTok, SixGui.NumTok(3), semi];
            var body3 := [SixGui.IdentTok("x"), SixGui.OpTok('+'), SixGui.IdentTok("y"), SixGui.OpTok('*'), SixGui.NumTok(2)];
            var t3 := [SixGui.TypeTok("int"), SixGui.IdentTok("res"), SixGui.AssignTok] + body3 + [semi];
            var body4 := [SixGui.IdentTok("res"), SixGui.OpTok('-'), SixGui.NumTok(2)];
            var t4 := [SixGui.TypeTok("int"), SixGui.IdentTok("ans"), SixGui.AssignTok] + body4 + [semi];
            DemoTokens() == t1 + (t2 + (t3 + t4))
  {
  }

  /** "int res = x + y * 2;" with x = 5 and y = 3 binds res to 11. */
  lemma Statement3(vars: Vars, rest: seq<Token>)
    requires Str("x") in vars && vars[Str("x")] == Int(5) && Str("y") in vars && vars[Str("y")] == Int(3)
    ensures var body := [SixGui.IdentTok("x"), SixGui.OpTok('+'), SixGui.IdentTok("y"), SixGui.OpTok('*'), SixGui.NumTok(2)];
            SixGui.StatementSpec(vars, Pop([SixGui.TypeTok("int"), SixGui.IdentTok("res"), SixGui.AssignTok] + body + [SixGui.SemiTok] + rest))
            == SixGui.SStep(Ok(()), Pop(rest), vars[Str("res") := Int(11)])
  {
    var x, y, two := SixGui.IdentTok("x"), SixGui.IdentTok("y"), SixGui.NumTok(2);
    var body := [x, SixGui.OpTok('+'), y, SixGui.OpTok('*'), two];
    var semi := SixGui.SemiTok;
    var ops := [SixGui.OpTok('+'), y, SixGui.OpTok('*'), two];
    var ty, head := SixGui.TypeTok("int"), [SixGui.IdentTok("res"), SixGui.AssignTok];
    assert body == [x] + ops;
    DeclarationShape(ty, SixGui.IdentTok("res"), SixGui.AssignTok, x, ops, body, semi, rest);
    SixGui.ProductInsideSum(vars, x, y, two, [semi] + rest);
    PopCons(x, ops + ([semi] + rest));
    PopCons(semi, rest);
    SixGui.DeclareWith(vars, "int", "res", body, Int(11), rest);
    PopCons(ty, head + body + ([semi] + rest));
  }

  /** The tokens of a declaration `ty id = e ops... ;`, regrouped at its first token and at `e`. */
  lemma DeclarationShape(ty: Token, id: Token, assign: Token, e: Token, ops: seq<Token>, body: seq<Token>, semi: Token, rest: seq<Token>)
    requires body == [e] + ops
    ensures body + ([semi] + rest) == [e] + (ops + ([semi] + rest))
    ensures [ty, id, assign] + body + [semi] + rest == [ty] + ([id, assign] + body + ([semi] + rest))
  {
    assert [ty, id, assign] + body + [semi] + rest == [ty] + ([id, assign] + (body + ([semi] + rest)));
  }

  /** "res - 2" with res = 11 is 9, and the SEMICOLON after it is left for `eat`. */
  lemma Difference(vars: Vars)
    requires Str("res") in vars && vars[Str("res")] == Int(11)
    ensures SixGui.ExprSpec(vars, Stream(Some(SixGui.IdentTok("res")), [SixGui.OpTok('-'), SixGui.NumTok(2), SixGui.SemiTok]))
            == SixGui.Step(Ok(Int(9)), Stream(Some(SixGui.SemiTok), []))
  {
    var res, minus, two, semi := SixGui.IdentTok("res"), SixGui.OpTok('-'), SixGui.NumTok(2), SixGui.SemiTok;
    SixGui.TermAtom(vars, res, [minus, two, semi]);
    PopCons(minus, [two, semi]);
    assert [two, semi] == [two] + [semi];
    SixGui.ExprTailAtom(vars, Int(11), '-', two, [semi]);
    SixGui.ExprTailStops(vars, Int(9), [semi]);
    PopCons(semi, []);
  }

  /** "int ans = res - 2;" with res = 11 binds ans to 9. */
  lemma Statement4(vars: Vars)
    requires Str("res") in vars && vars[Str("res")] == Int(11)
    ensures var body := [SixGui.IdentTok("res"), SixGui.OpTok('-'), SixGui.NumTok(2)];
            SixGui.StatementSpec(vars, Pop([SixGui.TypeTok("int"), SixGui.IdentTok("ans"), SixGui.AssignTok] + body + [SixGui.SemiTok]))
            == SixGui.SStep(Ok(()), Pop([]), vars[Str("ans") := Int(9)])
  {
    var res, minus, two := SixGui.IdentTok("res"), SixGui.OpTok('-'), SixGui.NumTok(2);
    var body := [res, minus, two];
    var semi := SixGui.SemiTok;
    var none: seq<Token> := [];
    var ty, head := SixGui.TypeTok("int"), [SixGui.IdentTok("ans"), SixGui.AssignTok];
    assert body == [res] + [minus, two];
    assert [minus, two] + ([semi] + none) == [minus, two, semi];
    DeclarationShape(ty, SixGui.IdentTok("ans"), SixGui.AssignTok, res, [minus, two], body, semi, none);
    Difference(vars);
    PopCons(res, [minus, two, semi]);
    PopCons(semi, none);
    SixGui.DeclareWith(vars, "int", "ans", body, Int(9), none);
    assert [ty, SixGui.IdentTok("ans"), SixGui.AssignTok] + body + [semi] + none == [ty, SixGui.IdentTok("ans"), SixGui.AssignTok] + body + [semi];
    PopCons(ty, head + body + ([semi] + none));
  }
}
