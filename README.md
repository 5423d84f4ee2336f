# Toy compiler front ends, modelled in Dafny

The repository holds eleven independent toy compiler front ends. Each one pairs a lexer with a
small parser. The lexer is either a character cursor or a set of regular expressions. The parser
either evaluates as it parses, builds a tree, or reduces a stack. This project models the lexer
and parser of every one of them, one Dafny module per source file, and proves what each promises:

- how characters become tokens (maximal runs for numbers and words, keyword tables, which
  characters are refused);
- precedence and associativity;
- how the symbol table changes;
- exactly which inputs raise an exception, print and carry on, call `exit(1)`, or loop forever.

The quirks of the code are kept as they are. For example, sixgui.py and test.py give `(` the type
"(" while their `factor` looks for "LEFT_PAREN", and that is what the model does too.

| module | file | what it is |
|---|---|---|
| `SixGui` | sixgui.py | statement interpreter that collects "Invalid character" messages and each failing statement's message |
| `TestPy` | test.py | the same interpreter, where the first error ends the run |
| `First`, `Second` | First.cpp, Second.cpp | lazy lexer, one token ahead, and statements over 32-bit `int`; errors `exit(1)` |
| `Guipart` | guipart.py | calculator with `%`, booleans and short-circuit `and`/`or`; syntax errors only print |
| `Eight` | Eight.py | int/float calculator |
| `Seven` | Seven.py | lexer with positions, `ParseResult`, and a tree of `NumberNode`/`OperationNode` |
| `Six` | Six.py | lexer and a partial `return`/function-declaration recogniser |
| `Five` | Five.py | ordered first-match lexer and a declaration tree |
| `Fourth`, `Third` | Fourth.py, Third.py | per-pattern `finditer` lexers whose output is grouped by type, and stack reducers |
| `Cpp` | — | C++ `int` range, truncating `/`, `std::stoi` |
| `PyValues` | — | Python values (`int`, `float` as `real`, `bool`, `None`, `str`), their arithmetic and `float()`/`int()` on literals |
| `Patterns` | — | the fixed regular expressions used by Five.py, Fourth.py and Third.py, with `re.match` and `finditer` |
| `Chars`, `Common`, `Postfix` | — | ASCII character classes, `Option`/`Result`, and shared helpers |

The form of the model follows the form of the code:

- Lexers and parsers that advance a cursor or pop a token list are classes. Their fields are the
  source's fields.
- Each method is proved equal to a specification function of its old state. The method's
  `ensures` is that connection.
- The properties are lemmas about those specification functions.
- A `raise` becomes an `Err` value naming the exception class and its message. A C++
  `exit(1)` becomes an `Err` naming the message printed before it.
- A parse loop that can repeat forever without consuming a token yields a distinct outcome:
  `Six.Spins` or `SixGui.Diverges`.


## Model

| member | source | states |
|---|---|---|
| SixGui.ScanEnd | sixgui.py:28-52 | each round of `lex` consumes at least one character |
| SixGui.Scanned | sixgui.py:28-52 | a round makes at most one token or one message, nothing for whitespace, and never the LEFT_PAREN, RIGHT_PAREN, LEFT_BRACE or RIGHT_BRACE types |
| SixGui.JoinNil | sixgui.py:26-54 | nothing found so far leaves the rest of the scan as it is |
| SixGui.JoinJoin | sixgui.py:26-54 | tokens and messages gathered in two stretches join in order |
| SixGui.Lexer.constructor | sixgui.py:13-16 | the lexer starts at position 0 on the first character; it needs non-empty input, which indexing demands |
| SixGui.Lexer.Advance | sixgui.py:18-23 | `advance` moves the position by one and keeps the current character in step with it |
| SixGui.Lexer.Lex | sixgui.py:25-54 | `lex` returns exactly the tokens and messages of the lexer specification, or the exception `float()` raises |
| SixGui.Lexer.LexStep | sixgui.py:29-52 | one round skips a space, appends a token or a message, or raises, and what is left still leads to the same overall result |
| SixGui.Lexer.ParseNumber | sixgui.py:56-65 | `parse_number` reads the digit-and-dot run, returning an `int` or `float` NUMBER, or the ValueError `float()` raises |
| SixGui.Lexer.ParseKeyword | sixgui.py:67-78 | `parse_keyword` reads the whole word and types it by the keyword table, IDENTIFIER otherwise |
| SixGui.Run | sixgui.py:249-250 | `Lexer(text).lex()` returns the specified tokens and messages, raising IndexError on empty text |
| SixGui.SkipAssignments | sixgui.py:90-91 | when SEMICOLON is expected, `eat` first pops every ASSIGNMENT token, and stops at the first other one |
| SixGui.EatSpec | sixgui.py:89-102 | `eat` never grows the queue, and leaves it unchanged when it consumes nothing |
| SixGui.FactorSpec | sixgui.py:104-123 | a successful `factor` consumes at least one token |
| SixGui.MulDiv | sixgui.py:133-139 | `/` by an operand equal to 0 raises "Division by zero"; `*` of two integers multiplies them |
| SixGui.TermTail | sixgui.py:128-141 | `term`'s loop never grows the queue and, when it consumes nothing, returns its running value |
| SixGui.TermSpec | sixgui.py:125-141 | `term` never grows the queue, and raises whenever it consumes nothing |
| SixGui.AddSub | sixgui.py:151-154 | `+` and `-` of two integers add and subtract them |
| SixGui.ExprTail | sixgui.py:146-156 | `expr`'s loop never grows the queue and, when it consumes nothing, returns its running value |
| SixGui.ExprSpec | sixgui.py:143-156 | `expr` never grows the queue, and raises whenever it consumes nothing |
| SixGui.DeclarationSpec | sixgui.py:181-195 | `variable_declaration` always consumes at least its TYPE token |
| SixGui.StatementSpec | sixgui.py:158-168 | a statement that consumes nothing raises and binds nothing |
| SixGui.ParseSpec | sixgui.py:197-203 | when `parse` finishes it has collected at most one message per token |
| SixGui.Parser.constructor | sixgui.py:81-84 | the parser starts with the first token popped off the list and no variables |
| SixGui.Parser.Next | sixgui.py:91-94 | popping the next token, or None when the list is empty, binds nothing |
| SixGui.Parser.Eat | sixgui.py:89-102 | `eat` moves the queue as the specification says and binds nothing |
| SixGui.Parser.Factor | sixgui.py:104-123 | `factor` returns the specified value, leaves the specified queue and binds nothing |
| SixGui.Parser.Term | sixgui.py:125-141 | `term` returns the specified value, leaves the specified queue and binds nothing |
| SixGui.Parser.Expr | sixgui.py:143-156 | `expr` returns the specified value, leaves the specified queue and binds nothing |
| SixGui.Parser.VariableDeclaration | sixgui.py:181-195 | `variable_declaration` leaves the specified queue and variables |
| SixGui.Parser.Statement | sixgui.py:158-168 | `statement` leaves the specified queue and variables |
| SixGui.Parser.Parse | sixgui.py:197-203 | `parse` collects the specified messages and variables, or reports that it loops forever |
| SixGui.CollectCollect | sixgui.py:198-203 | messages collected in two stretches join in order |
| SixGui.LexSymbols | sixgui.py:28-52 | away from digits and letters, `lex` is the character-by-character scan, and nothing stops it |
| SixGui.InvalidCharacterSkipped | sixgui.py:50-52 | `+ @;` gives the tokens `+` and SEMICOLON and one message for `@` |
| SixGui.SymbolExample | sixgui.py:35-52 | the character scan of `+ @;` |
| SixGui.LexBound | sixgui.py:28-52 | every token and every message takes at least one character |
| SixGui.NoNamedBracketJoin | sixgui.py:26-54 | joining two scans free of the named bracket types stays free of them |
| SixGui.NoNamedBrackets | sixgui.py:44-113 | the lexer never produces LEFT_PAREN or the other named bracket types: brackets are typed by their own character |
| SixGui.NumberKinds | sixgui.py:62-65 | a run without a dot is an `int` NUMBER, one with a dot a `float` NUMBER, and two dots raise ValueError |
| SixGui.LexNumber | sixgui.py:56-65 | a text that is one digit-and-dot run lexes to its one NUMBER, or raises what `float()` raises |
| SixGui.TwoDots | sixgui.py:58-63 | `1.2.3` is not lexed: `float()` raises ValueError out of `lex` |
| SixGui.LexWord | sixgui.py:67-78 | a text that is one word lexes to one token typed by the keyword table |
| SixGui.KeywordsAreWholeWords | sixgui.py:69-78 | `integer` is an IDENTIFIER although it starts with `int` |
| SixGui.UnderscoreContinuesWord | sixgui.py:69 | `int_x` is one IDENTIFIER: the underscore continues the word |
| SixGui.VoidIsType | sixgui.py:74 | `void` is a TYPE word |
| SixGui.Assigns | sixgui.py:90-91 | a run of n ASSIGNMENT tokens |
| SixGui.SkipRun | sixgui.py:90-91 | the skipping loop passes over any run of ASSIGNMENT tokens |
| SixGui.EatSemicolon | sixgui.py:89-102 | after ASSIGNMENT tokens, `eat(SEMICOLON)` consumes a SEMICOLON, accepts a tolerated token without consuming it, and raises AttributeError at the end |
| SixGui.TermTailStops | sixgui.py:128 | `term`'s loop stops at a token that is not `*` or `/`, or at the end |
| SixGui.ExprTailStops | sixgui.py:146 | `expr`'s loop stops at a token that is not `+` or `-`, or at the end |
| SixGui.TermAtom | sixgui.py:104-141 | an atom is a whole term when no `*` or `/` follows it |
| SixGui.ExprAtom | sixgui.py:143-156 | an atom is a whole expression when no arithmetic operator follows it |
| SixGui.TermTailStep | sixgui.py:128-139 | one `*` or `/` round of `term`'s loop with an atom as right operand |
| SixGui.ExprTailRound | sixgui.py:146-154 | one round of `expr`'s loop: its term, then the running value combined with it |
| SixGui.ExprTailAtom | sixgui.py:146-154 | one round of `expr`'s loop whose term is a lone atom |
| SixGui.ExprTailAtomLast | sixgui.py:146-156 | the last round of `expr`'s loop, on a lone atom |
| SixGui.ProductTerm | sixgui.py:125-141 | `b * c` is a whole term with the product of the values |
| SixGui.ExprAtomThen | sixgui.py:143-154 | an atom and `+` or `-` enter `expr`'s loop combined with the next term |
| SixGui.ExprAtomLast | sixgui.py:143-156 | an atom, `+` or `-`, and one more term is the whole expression |
| SixGui.ProductInsideSum | sixgui.py:125-156 | `a + b * c` is a + (b * c) for integer atoms |
| SixGui.DifferenceLeftAssociative | sixgui.py:143-156 | `a - b - c` is (a - b) - c for integer atoms |
| SixGui.TermDivisionByZero | sixgui.py:135-139 | a term dividing by 0 raises "Division by zero" once the divisor is consumed |
| SixGui.DivisionByZero | sixgui.py:125-156 | an expression dividing by 0 raises "Division by zero" once the divisor is consumed |
| SixGui.UnboundIsNone | sixgui.py:109-112 | reading an unbound identifier yields None |
| SixGui.DeclareWith | sixgui.py:181-190 | `TYPE IDENT = e ;` binds IDENT to the value of `e` |
| SixGui.DeclareWithValue | sixgui.py:181-190 | `TYPE IDENT = a ;` binds IDENT to the atom's value: a number, another variable's value, or a TYPE word's own text |
| SixGui.DeclareWithoutValue | sixgui.py:191-193 | `TYPE IDENT ;` binds IDENT to None |
| SixGui.TypeWordAsValue | sixgui.py:118-190 | `int x = int;` binds x to the string "int" |
| SixGui.StatementBinds | sixgui.py:163-168 | an expression statement binds the IDENTIFIER after the expression, then eats a SEMICOLON |
| SixGui.ExpressionBinds | sixgui.py:163-168 | `a IDENT ;` binds IDENT to the atom's value |
| SixGui.StatementWithoutIdentifier | sixgui.py:102-167 | when the token after the expression is not an IDENTIFIER, its value is bound (in the dict entry of every key equal to it) before `eat` raises "Expected IDENTIFIER, but got ...", and the token stays unread |
| SixGui.BareNumberStatement | sixgui.py:163-167 | `5;` binds ";" to 5 and then fails the IDENTIFIER check, leaving the SEMICOLON unread |
| SixGui.BareNumber | sixgui.py:197-203 | `parse` on `5;` ends with ";" bound to 5 and the one message |
| SixGui.EqualNumberKeysShareEntry | sixgui.py:158-168 | once the number 4 is a key, the statement `5 4.0` rebinds that entry to 5 and adds no key, since 4.0 == 4 |
| SixGui.UnboundTimesTypeWord | sixgui.py:131-134 | `x * int` with `x` unbound raises TypeError "can't multiply sequence by non-int of type 'NoneType'" |
| SixGui.ParenthesisDiverges | sixgui.py:113-203 | a statement at `(` fails without consuming it, so `parse` repeats it forever |
| SixGui.ParenthesisProgramDiverges | sixgui.py:245-262 | every program that starts with `(` and lexes makes `parse` loop forever |
| TestPy.LexStep | test.py:26-49 | one round of `lex` skips a space, appends exactly the next token, or raises, and what the whole scan returns is unchanged by it |
| TestPy.Lex | test.py:24-51 | `lex` returns exactly the token list of the lexer specification from the current position, or the "Invalid character" exception |
| TestPy.Run | test.py:12-51 | `Lexer(text).lex()` returns the tokenization of the text or its exception, raising IndexError on empty text |
| TestPy.Parse | test.py:197-199 | `parse` returns exactly what the parse specification gives; on success the variables are the result and no token is left |
| TestPy.LexAgrees | test.py:24-75 | this lexer succeeds exactly when the sixgui.py lexer reports no "Invalid character" message, with the same tokens; otherwise it raises that lexer's first message |
| TestPy.ParseAgrees | test.py:83-199 | `parse` succeeds exactly when the sixgui.py parser finishes with no message, with the same variables; when it raises, the sixgui.py parser either loops or recorded the same first message |
| TestPy.InvalidCharacterRaises | test.py:48-49 | "x @ y" raises "Invalid character: @" |
| TestPy.FirstErrorEnds | test.py:163-167 | "5;" raises "Expected IDENTIFIER, but got SEMICOLON" at the first error instead of continuing |
| TestPy.ParenthesisRaises | test.py:103-122 | a statement starting at `(` raises "Unexpected token: (", since the lexer's "(" is never LEFT_PAREN |
| TestPy.ParseStep | test.py:197-199 | a statement that completes hands its remaining tokens and new variables to the next iteration of `parse` |
| TestPy.Demo | test.py:209-228 | parsing the tokens of the demo program ends with x = 5, y = 3, res = 11 and ans = 9 |
| TestPy.Statement3 | test.py:181-190 | "int res = x + y * 2;" with x = 5 and y = 3 binds res to 11: `*` binds tighter than `+` |
| TestPy.Difference | test.py:142-155 | "res - 2" with res = 11 evaluates to 9 and leaves the SEMICOLON for `eat` |
| TestPy.Statement4 | test.py:181-190 | "int ans = res - 2;" with res = 11 binds ans to 9 |
| Second.NumberToken | Second.cpp:90-96 | a number token's value is its lexeme, typed INTEGER or DOUBLE |
| Second.WordToken | Second.cpp:107-114 | a word token's value is the word, typed KEYWORD or IDENTIFIER |
| Second.OperatorToken | Second.cpp:45-62 | a one-character token's value is that character |
| Second.NextAt | Second.cpp:37-79 | `getNextToken` never moves the cursor back; a real token lies inside the input and past the old cursor; EOF_TOKEN has an empty value and comes only at the end of the input |
| Second.Lexer.constructor | Second.cpp:34 | the lexer holds the program text with the cursor at 0 |
| Second.Lexer.GetNextToken | Second.cpp:37-79 | `getNextToken` returns exactly the token and new cursor of the lexer specification, or its exit |
| Second.Lexer.ParseNumber | Second.cpp:83-97 | `parseNumber` stops at the end of the maximal digit/dot run and returns the number token of that run |
| Second.Lexer.ParseIdentifierOrKeyword | Second.cpp:100-115 | `parseIdentifierOrKeyword` stops at the end of the maximal alphanumeric/underscore run and returns the word token of that run |
| Second.EatSpec | Second.cpp:148-156 | a successful `eat` of anything but EOF_TOKEN consumes input, and never touches the variables |
| Second.TermSpec | Second.cpp:240-260 | a successful term consumes input and leaves the variables unchanged |
| Second.Apply | Second.cpp:214-233 | one `result op= termValue` fails with "Division by zero" exactly when it divides by 0, and any value it produces fits a 32-bit `int` |
| Second.ExprTail | Second.cpp:209-234 | the operator loop of `parseExpression` never moves back and leaves the variables unchanged |
| Second.ExprSpec | Second.cpp:206-237 | a successful expression consumes input and leaves the variables unchanged |
| Second.AssignedValue | Second.cpp:178-181 | the `= expr ;` ending a statement consumes input and leaves the variables unchanged |
| Second.DeclarationSpec | Second.cpp:171-185 | a successful declaration consumes input |
| Second.AssignmentSpec | Second.cpp:188-203 | a successful assignment consumes input |
| Second.StatementSpec | Second.cpp:159-168 | a successful statement consumes input, so `parseProgram`'s loop terminates |
| Second.ProgramSpec | Second.cpp:132-136 | a program that parses ends with the current token EOF_TOKEN |
| Second.Parser.constructor | Second.cpp:129 | the parser starts on the lexer's first token with no variables and no recorded tokens |
| Second.Parser.Eat | Second.cpp:148-156 | `eat` records the token, lexes the next one and changes the state exactly as the eat specification says, or exits |
| Second.Parser.ParseStatement | Second.cpp:159-168 | `parseStatement` follows the statement specification exactly |
| Second.Parser.ParseVariableDeclaration | Second.cpp:171-185 | `parseVariableDeclaration` follows the declaration specification exactly |
| Second.Parser.ParseAssignment | Second.cpp:188-203 | `parseAssignment` follows the assignment specification exactly |
| Second.Parser.ParseExpression | Second.cpp:206-237 | `parseExpression` returns the value and state of the expression specification |
| Second.Parser.ParseTerm | Second.cpp:240-260 | `parseTerm` returns the value and state of the term specification |
| Second.Parser.ParseProgram | Second.cpp:132-136 | `parseProgram` follows the program specification exactly |
| Second.Execute | Second.cpp:292-296 | lexing and parsing the program text gives exactly the specified final state or exit |
| Second.SpacesSkipped | Second.cpp:65-69 | whitespace before the cursor does not change the next token |
| Second.OnlySpacesLeft | Second.cpp:38-78 | all-whitespace input from the cursor on yields the EOF token named "EOF" with an empty value |
| Second.UnrecognizedExits | Second.cpp:71-75 | any character other than the six operators, whitespace, digits, letters and `_` ends the run with an error once reached |
| Second.TokenIsText | Second.cpp:37-115 | a token's value is exactly the text just before the new cursor and only whitespace is skipped before it |
| Second.NumberTokens | Second.cpp:41-42 | a number takes the maximal digit/dot run and is DOUBLE exactly when that run contains a dot, never FLOAT |
| Second.NoFloatToken | Second.cpp:90-96 | the lexer never produces FLOAT |
| Second.KeywordTable | Second.cpp:110-121 | a word is a KEYWORD exactly when it is int, float or double; a keyword is named by itself and every other word "IDENTIFIER" |
| Second.NoTokensLeft | Second.cpp:38-78 | no tokens are left to lex at the end of the input |
| Second.EatKeepsRecord | Second.cpp:148-151 | after `eat` the recorded tokens plus the current one are still exactly the lexed prefix of the input |
| Second.TermKeepsRecord | Second.cpp:240-244 | a term keeps the recorded tokens equal to the lexed prefix |
| Second.ExprTailKeepsRecord | Second.cpp:209-212 | the operator loop keeps the recorded tokens equal to the lexed prefix |
| Second.AssignedKeepsRecord | Second.cpp:178-181 | the `= expr ;` ending a statement keeps the recorded tokens equal to the lexed prefix |
| Second.StatementKeepsRecord | Second.cpp:159-168 | a statement keeps the recorded tokens equal to the lexed prefix |
| Second.ProgramKeepsRecord | Second.cpp:132-136 | `parseProgram` keeps the recorded tokens equal to the lexed prefix |
| Second.RunRecordsTokens | Second.cpp:306-307 | after a run that parses, `getTokens` holds exactly the tokens of the whole input in order, without EOF_TOKEN |
| Second.EatStep | Second.cpp:149-151 | a matching `eat` appends the current token to the record and advances to exactly the next lexed token |
| Second.NumberStep | Second.cpp:241-244 | an integer term is its stoi value and the cursor moves past it |
| Second.OperandStep | Second.cpp:209-233 | one operator round applies that operator to the running result whatever came before, so evaluation is left to right with no precedence |
| Second.ZeroDivisorExits | Second.cpp:224-228 | a zero literal after `/` exits with "Division by zero" whatever the running result |
| Second.DivisionTruncates | Second.cpp:229 | any other divisor truncates toward zero as C++ `int` division does: -7 / 2 is -3 |
| Second.DoubleLiteralTruncated | Second.cpp:241-244 | a DOUBLE literal "2.5" enters the arithmetic as 2 through stoi |
| Second.UndeclaredRead | Second.cpp:245-255 | reading an undeclared name exits with "not declared" |
| Second.DeclaredRead | Second.cpp:245-251 | a declared name reads as its stored value |
| Second.DeclarationBinds | Second.cpp:171-185 | a declaration binds its name to (type, value), replacing any earlier entry, and leaves every other variable as it was |
| Second.AssignmentUpdates | Second.cpp:188-203 | an assignment succeeds only on a declared name, replaces its value, keeps its type and changes nothing else |
| Second.AssignmentUndeclared | Second.cpp:188-203 | assigning to an undeclared name exits after the whole `= expr ;` is parsed |
| Second.StatementStart | Second.cpp:159-168 | a statement starting with neither KEYWORD nor IDENTIFIER exits naming the token type's number |
| Second.LeftToRight | Second.cpp:206-237 | "2+3*4" evaluates to (2 + 3) * 4 = 20, not 14 |
| Second.LazyLexing | Second.cpp:129-168 | in "5 $" the statement error at `5` ends the run before the lexer reaches the bad `$` |
| First.NumberToken | First.cpp:75-81 | a number token's value is its lexeme, typed INTEGER or DOUBLE |
| First.WordToken | First.cpp:92-99 | a word token's value is the word, typed KEYWORD or IDENTIFIER |
| First.OperatorToken | First.cpp:39-47 | a one-character token's value is that character |
| First.NextAt | First.cpp:31-64 | `getNextToken` never moves the cursor back; a real token lies inside the input and past the old cursor; EOF_TOKEN has an empty value and comes only at the end of the input |
| First.Lexer.constructor | First.cpp:28 | the lexer holds the program text with the cursor at 0 |
| First.Lexer.GetNextToken | First.cpp:31-64 | `getNextToken` returns exactly the token and new cursor of the lexer specification, or its exit |
| First.Lexer.ParseNumber | First.cpp:68-82 | `parseNumber` stops at the end of the maximal digit/dot run and returns the number token of that run |
| First.Lexer.ParseIdentifierOrKeyword | First.cpp:85-100 | `parseIdentifierOrKeyword` stops at the end of the maximal alphanumeric/underscore run and returns the word token of that run |
| First.EatSpec | First.cpp:130-137 | a successful `eat` of anything but EOF_TOKEN consumes input, and never touches the variables |
| First.TermSpec | First.cpp:200-220 | a successful term consumes input and leaves the variables unchanged |
| First.AddTerm | First.cpp:193 | `result += parseTerm()` succeeds exactly when the sum fits a 32-bit `int`, and is then the sum |
| First.ExprTail | First.cpp:190-196 | the `+` loop of `parseExpression` never moves back and leaves the variables unchanged |
| First.ExprRound | First.cpp:190-194 | one `+ term` round never moves back and leaves the variables unchanged |
| First.ExprSpec | First.cpp:187-197 | a successful expression consumes input and leaves the variables unchanged |
| First.AssignedValue | First.cpp:159-162 | the `= expr ;` ending a statement consumes input and leaves the variables unchanged |
| First.DeclarationSpec | First.cpp:152-166 | a successful declaration consumes input |
| First.AssignmentSpec | First.cpp:169-184 | a successful assignment consumes input |
| First.StatementSpec | First.cpp:140-149 | a successful statement consumes input, so `parseProgram`'s loop terminates |
| First.ProgramSpec | First.cpp:117-121 | a program that parses ends with the current token EOF_TOKEN |
| First.Parser.constructor | First.cpp:114 | the parser starts on the lexer's first token with no variables |
| First.Parser.Eat | First.cpp:130-137 | `eat` changes the token, cursor and variables exactly as the eat specification says, or exits |
| First.Parser.ParseStatement | First.cpp:140-149 | `parseStatement` follows the statement specification exactly |
| First.Parser.ParseVariableDeclaration | First.cpp:152-166 | `parseVariableDeclaration` follows the declaration specification exactly |
| First.Parser.ParseAssignment | First.cpp:169-184 | `parseAssignment` follows the assignment specification exactly |
| First.Parser.ParseExpression | First.cpp:187-197 | `parseExpression` returns the value and state of the expression specification |
| First.Parser.ParseTerm | First.cpp:200-220 | `parseTerm` returns the value and state of the term specification |
| First.Parser.ParseProgram | First.cpp:117-121 | `parseProgram` follows the program specification exactly |
| First.Execute | First.cpp:237-241 | lexing and parsing the program text gives exactly the specified final state or exit |
| First.SpacesSkipped | First.cpp:50-54 | whitespace before the cursor does not change the next token |
| First.OnlySpacesLeft | First.cpp:32-63 | all-whitespace input from the cursor on yields EOF_TOKEN with an empty value |
| First.UnrecognizedExits | First.cpp:56-60 | any character other than `+`, `=`, `;`, whitespace, digits, letters and `_` ends the run with an error once reached |
| First.OtherOperatorsFatal | First.cpp:39-60 | `-`, `*` and `(` are unrecognized characters |
| First.TokenIsText | First.cpp:31-100 | a token's value is exactly the text just before the new cursor and only whitespace is skipped before it |
| First.NumberTokens | First.cpp:35-36 | a number takes the maximal digit/dot run and is DOUBLE exactly when that run contains a dot |
| First.NoFloatToken | First.cpp:75-81 | the lexer never produces FLOAT |
| First.KeywordTable | First.cpp:103-106 | a word is a KEYWORD exactly when it is int, float or double |
| First.EatStep | First.cpp:131-132 | a matching `eat` advances to exactly the next lexed token |
| First.NumberStep | First.cpp:201-204 | a number term is its stoi value and the cursor moves past it |
| First.PlusStep | First.cpp:190-194 | one `+ number` round adds the number's stoi value to the running result |
| First.UndeclaredRead | First.cpp:205-215 | reading an undeclared name exits with "not declared" |
| First.DeclaredRead | First.cpp:205-211 | a declared name reads as its stored value |
| First.DeclarationBinds | First.cpp:152-166 | a declaration binds its name to (type, value), replacing any earlier entry, and leaves every other variable as it was |
| First.AssignmentUpdates | First.cpp:169-184 | an assignment succeeds only on a declared name, replaces its value, keeps its type and changes nothing else |
| First.AssignmentUndeclared | First.cpp:169-184 | assigning to an undeclared name exits after the whole `= expr ;` is parsed |
| First.StatementStart | First.cpp:140-149 | a statement starting with neither KEYWORD nor IDENTIFIER exits naming the token type's number |
| First.DecimalTruncatedInSum | First.cpp:201-204 | "2.5+1" evaluates to 3: stoi cuts the decimal literal to 2 |
| Guipart.LogicalEnd | guipart.py:87-89 | `parse_logical` reads the maximal run of letters and underscores |
| Guipart.ScanEnd | guipart.py:30-62 | each round of `lex` consumes at least one character |
| Guipart.Scanned | guipart.py:31-62 | a round makes at most one token, none for whitespace, and never a POWER token |
| Guipart.Lexer.constructor | guipart.py:16-19 | the lexer starts at position 0 on the first character; it needs non-empty input, which indexing demands |
| Guipart.Lexer.Advance | guipart.py:21-26 | `advance` moves the position by one and keeps the current character in step with it |
| Guipart.Lexer.Lex | guipart.py:28-64 | `lex` returns exactly the tokens of the lexer specification, or raises its exception |
| Guipart.Lexer.LexStep | guipart.py:31-62 | one round skips a space, appends one token, or raises, and what is left still leads to the same overall result |
| Guipart.Lexer.ParseNumber | guipart.py:66-83 | `parse_number` raises "Invalid number" at a second dot, and otherwise returns an INT without a dot or a FLOAT with one |
| Guipart.Lexer.ParseLogical | guipart.py:85-102 | `parse_logical` reads the whole word and returns its BOOL, AND, OR or NOT token, or raises "Invalid logical operator" |
| Guipart.Run | guipart.py:232-234 | `Lexer(text).lex()` returns the specified tokens, raising IndexError on empty text |
| Guipart.EatSpec | guipart.py:114-118 | `eat` never grows the queue, and a matching token is popped |
| Guipart.FactorSpec | guipart.py:120-135 | `factor` never grows the queue |
| Guipart.PowerTail | guipart.py:141-143 | `power`'s loop never grows the queue |
| Guipart.PowerSpec | guipart.py:138-145 | `power` never grows the queue |
| Guipart.MulDivMod | guipart.py:150-167 | `/` by 0 raises "Division by zero", `%` by 0 raises "Modulo by zero", `*` of integers multiplies |
| Guipart.TermTail | guipart.py:150-169 | `term`'s loop never grows the queue |
| Guipart.TermSpec | guipart.py:147-169 | `term` never grows the queue |
| Guipart.AddSub | guipart.py:174-180 | `+` and `-` of integers add and subtract them |
| Guipart.ExprTail | guipart.py:174-182 | `expr`'s loop never grows the queue |
| Guipart.ExprSpec | guipart.py:171-182 | `expr` never grows the queue |
| Guipart.AndTail | guipart.py:187-191 | `logical_and`'s loop never grows the queue |
| Guipart.AndSpec | guipart.py:184-191 | `logical_and` never grows the queue |
| Guipart.OrTail | guipart.py:196-200 | `logical_or`'s loop never grows the queue |
| Guipart.OrSpec | guipart.py:193-200 | `logical_or` never grows the queue |
| Guipart.Parser.constructor | guipart.py:106-108 | the parser starts with the first token popped off the list |
| Guipart.Parser.Eat | guipart.py:114-118 | `eat` moves the queue as the specification says |
| Guipart.Parser.Factor | guipart.py:120-135 | `factor` returns the specified value and leaves the specified queue |
| Guipart.Parser.Power | guipart.py:138-145 | `power` returns the specified value and leaves the specified queue |
| Guipart.Parser.Term | guipart.py:147-169 | `term` returns the specified value and leaves the specified queue |
| Guipart.Parser.Expr | guipart.py:171-182 | `expr` returns the specified value and leaves the specified queue |
| Guipart.Parser.LogicalAnd | guipart.py:184-191 | `logical_and` returns the specified value and leaves the specified queue |
| Guipart.Parser.LogicalOr | guipart.py:193-200 | `logical_or` returns the specified value and leaves the specified queue |
| Guipart.Compile | guipart.py:229-249 | `compile_expression` lexes, then evaluates `expr` on a copy of the tokens, with the specified value or exception |
| Guipart.LexNumber | guipart.py:66-83 | a text that is one digit-and-dot run lexes to the single token `parse_number` makes, or its error |
| Guipart.NumberKinds | guipart.py:73-83 | a run is FLOAT exactly when it has a dot, INT otherwise, and a second dot raises "Invalid number" |
| Guipart.LogicalEndAll | guipart.py:87-89 | a run of letters and underscores to the end of the text is read whole |
| Guipart.AlphaRound | guipart.py:59-60 | the round at a letter reads the word that starts there |
| Guipart.LexWord | guipart.py:85-102 | a text that is one word lexes to the single token `parse_logical` makes, or its error |
| Guipart.LogicalIgnoresCase | guipart.py:91-102 | a word is accepted exactly when its lower-case form is true, false, and, or or not, the token is that of the lower-case form, and any other word raises "Invalid logical operator" |
| Guipart.UpperCaseTrue | guipart.py:91-92 | `TRUE` is the boolean True |
| Guipart.UnknownWord | guipart.py:101-102 | `x` raises "Invalid logical operator: x" |
| Guipart.NoPowerToken | guipart.py:56-58 | the lexer never produces POWER: no single character equals "**" |
| Guipart.NoPowerPrefix | guipart.py:28-64 | tokens in front of a scan free of POWER keep it free of POWER |
| Guipart.DoubleStar | guipart.py:41-56 | `**` is two MULTIPLY tokens |
| Guipart.PowerTailStops | guipart.py:141 | `power`'s loop stops at a token that is not POWER, or at the end |
| Guipart.PowerLiteral | guipart.py:138-145 | a literal is a whole `power` when no POWER follows it |
| Guipart.TermTailStops | guipart.py:150 | `term`'s loop stops at a token that is not `*`, `/` or `%`, or at the end |
| Guipart.ExprTailStops | guipart.py:174 | `expr`'s loop stops at a token that is not `+` or `-`, or at the end |
| Guipart.TermLiteral | guipart.py:147-169 | a literal is a whole term when nothing continuing `power` or `term` follows it |
| Guipart.ExprLiteral | guipart.py:171-182 | a literal is a whole expression when no arithmetic operator follows it |
| Guipart.FactorUnexpected | guipart.py:134-135 | an unexpected token is a factor of value None, and nothing is consumed |
| Guipart.TermTailStep | guipart.py:150-167 | one `*`, `/` or `%` round of `term`'s loop with a number as right operand |
| Guipart.ExprTailRound | guipart.py:174-180 | one round of `expr`'s loop at `+` or `-`, whatever term follows |
| Guipart.ProductTerm | guipart.py:147-169 | `b * c` is a whole term with the product |
| Guipart.ExprLiteralLast | guipart.py:171-182 | a literal, `+` or `-`, and one more term is the whole expression |
| Guipart.ProductInsideSum | guipart.py:147-182 | `a + b * c` is a + (b * c) |
| Guipart.Modulo | guipart.py:161-167 | `%` is Python's floor modulo, and a zero right operand raises "Modulo by zero" |
| Guipart.DoubleStarEvaluates | guipart.py:41-153 | `2 ** 3` lexes to `2 * * 3`; the second `*` is a factor of None, so the product raises TypeError |
| Guipart.NotZeroTerm | guipart.py:130-133 | `not 0` is the term True |
| Guipart.SumLast | guipart.py:174-182 | the last round `+ n` of `expr`'s loop |
| Guipart.NotBindsToFactor | guipart.py:130-182 | `not` takes one factor: `not 0 + 1` is (not 0) + 1, which is 2 |
| Guipart.ParenthesesHoldNoLogic | guipart.py:125-129 | in `(true or false)` the parentheses hold only an arithmetic `expr`: the `)` is not found at `or`, which stays current |
| Guipart.AndSkipsOperand | guipart.py:187-189 | a falsy left side skips the `and` operand: only the AND token is consumed |
| Guipart.OrSkipsOperand | guipart.py:196-198 | a truthy left side skips the `or` operand: only the OR token is consumed |
| Guipart.ShortCircuitLeavesTokens | guipart.py:184-200 | `false and true or true` is False, with `true or true` left unread |
| Eight.ScanEnd | Eight.py:27-51 | each round of `lex` consumes at least one character |
| Eight.Scanned | Eight.py:28-51 | a round makes at most one token, and none for whitespace |
| Eight.Lexer.constructor | Eight.py:13-16 | the lexer starts at position 0 on the first character; it needs non-empty input, which indexing demands |
| Eight.Lexer.Advance | Eight.py:18-23 | `advance` moves the position by one and keeps the current character in step with it |
| Eight.Lexer.Lex | Eight.py:25-53 | `lex` returns exactly the tokens of the lexer specification, or raises its exception |
| Eight.Lexer.LexStep | Eight.py:28-51 | one round skips a space, appends one token, or raises, and what is left still leads to the same overall result |
| Eight.Lexer.ParseNumber | Eight.py:55-72 | `parse_number` raises "Invalid number" at a second dot, and otherwise returns an INT without a dot or a FLOAT with one |
| Eight.Run | Eight.py:138-139 | `Lexer(text).lex()` returns the specified tokens, raising IndexError on empty text |
| Eight.EatSpec | Eight.py:84-88 | a successful `eat` pops exactly one token |
| Eight.FactorSpec | Eight.py:90-101 | a successful `factor` consumes at least one token |
| Eight.MulDiv | Eight.py:106-116 | `*` of integers multiplies; `/` is true division giving a float; a divisor equal to 0 raises "Division by zero" |
| Eight.TermTail | Eight.py:106-118 | `term`'s loop never grows the queue |
| Eight.TermSpec | Eight.py:103-118 | a successful `term` consumes at least one token |
| Eight.AddSub | Eight.py:123-129 | `+` and `-` of integers add and subtract them |
| Eight.ExprTail | Eight.py:123-131 | `expr`'s loop never grows the queue |
| Eight.ExprSpec | Eight.py:120-131 | a successful `expr` consumes at least one token |
| Eight.Parser.constructor | Eight.py:76-78 | the parser starts with the first token popped off the list |
| Eight.Parser.Eat | Eight.py:84-88 | `eat` moves the queue as the specification says, or exits |
| Eight.Parser.Factor | Eight.py:90-101 | `factor` returns the specified value and leaves the specified queue |
| Eight.Parser.Term | Eight.py:103-118 | `term` returns the specified value and leaves the specified queue |
| Eight.Parser.Expr | Eight.py:120-131 | `expr` returns the specified value and leaves the specified queue |
| Eight.Calculate | Eight.py:134-151 | the driver lexes, then evaluates `expr` on a copy of the tokens, with the specified value or exception |
| Eight.RunEndShift | Eight.py:59 | text in front of a position does not change where the number run there ends |
| Eight.RunEndStop | Eight.py:59 | a character that is neither digit nor dot ends every run before it |
| Eight.ScanShift | Eight.py:28-51 | text in front of a position does not change the round of `lex` there |
| Eight.LexShift | Eight.py:25-53 | lexing `b` behind any text is lexing `b` on its own |
| Eight.ScanStop | Eight.py:28-51 | a space after `a` does not change a round of `lex` inside `a` |
| Eight.PrefixJoin | Eight.py:26-53 | tokens put in front of a joined scan join in order |
| Eight.LexSeparatedFrom | Eight.py:25-53 | from a position inside `a`, lexing `a`, a space and `b` is lexing `a` then `b` |
| Eight.LexSeparated | Eight.py:25-53 | whitespace separates tokens and yields none: `a`, a space and `b` give the tokens of `a` then those of `b`, or the first error |
| Eight.LexNumber | Eight.py:55-72 | a text that is one digit-and-dot run lexes to the single token `parse_number` makes, or its error |
| Eight.LexInteger | Eight.py:71-72 | a run of digits is one INT with the digits' decimal value |
| Eight.LexFloat | Eight.py:69-70 | a run with one dot and a digit is one FLOAT; `.` alone raises ValueError from `float()` |
| Eight.LexTwoDots | Eight.py:62-65 | a second dot raises "Invalid number" |
| Eight.LexOperator | Eight.py:32-49 | each operator and parenthesis character is one token typed by its name and valued by the character |
| Eight.LexInvalid | Eight.py:50-51 | after whitespace, letters and every other unlisted character raise "Invalid character" |
| Eight.SkipSpaces | Eight.py:28-29 | whitespace contributes no tokens |
| Eight.FactorCases | Eight.py:90-101 | a factor is a number or a parenthesised expression; any other token exits, and no token at all raises AttributeError |
| Eight.TermNumber | Eight.py:103-118 | a number followed by no `*` or `/` is a whole term |
| Eight.TermTailStep | Eight.py:106-116 | one `* n` or `/ n` round of `term`'s loop |
| Eight.ExprTailStep | Eight.py:123-129 | one `+ n` or `- n` round of `expr`'s loop when `n` is a whole term |
| Eight.TermTailStops | Eight.py:106 | `term`'s loop stops at a token that is not `*` or `/`, or at the end |
| Eight.ExprTailStops | Eight.py:123 | `expr`'s loop stops at a token that is not `+` or `-`, or at the end |
| Eight.TermFromNumber | Eight.py:103-106 | a term starting with a number enters its loop with that number |
| Eight.StopsAtNonOperator | Eight.py:120-131 | `expr` stops at the first token that is not an operator and leaves the rest unconsumed |
| Eight.TrailingNumberIgnored | Eight.py:134-151 | `2 3` evaluates to 2: the trailing number is ignored |
| Eight.ProductTerm | Eight.py:103-118 | `b * c` is a whole term with the product |
| Eight.ExprTailRound | Eight.py:123-129 | one round of `expr`'s loop at `+` or `-`, whatever term follows |
| Eight.ExprNumberLast | Eight.py:120-131 | a number, `+` or `-`, and one more term is the whole expression |
| Eight.ProductInsideSum | Eight.py:103-131 | `a + b * c` is a + (b * c) |
| Eight.ProductThen | Eight.py:103-131 | `a * b` followed by `+` or `-` enters `expr`'s loop with the product |
| Eight.SumLast | Eight.py:123-131 | the last round `+ c` of `expr`'s loop on integers |
| Eight.ProductBeforeSum | Eight.py:103-131 | `a * b + c` is (a * b) + c |
| Eight.Division | Eight.py:110-116 | int / int is a float quotient, and a zero divisor raises "Division by zero" |
| Eight.DivisorParsedFirst | Eight.py:95-116 | in `a / (0` the divisor is parsed first, so the missing `)` fails before the zero is tested |
| Eight.MinusChain | Eight.py:123-129 | the tokens `- n1 - n2 ...` |
| Eight.MinusChainPop | Eight.py:78 | the parser state at a chain `- n ...` |
| Eight.MinusChainNext | Eight.py:106 | after the first `- n` of a chain comes no `*` or `/` |
| Eight.ExprTailMinus | Eight.py:127-129 | one `- n` round of `expr`'s loop on integers |
| Eight.MinusChainStep | Eight.py:123-129 | the first `- n` of a chain is one round of `expr`'s loop |
| Eight.MinusChainEnd | Eight.py:123 | an empty chain leaves `expr`'s loop at once |
| Eight.MinusChainTail | Eight.py:123-131 | `expr`'s loop over a chain subtracts each number in turn |
| Eight.MinusLeftAssociative | Eight.py:120-131 | `n0 - n1 - n2 ...` is ((n0 - n1) - n2) - ..., left associative |
| Seven.CharToken | Seven.py:42-59 | each one-character branch of `make_tokens` makes a token holding that character, with no positions, never EOF |
| Seven.NumberEnd | Seven.py:74-80 | `make_number` reads digits and at most one dot, stops at any other character, and leaves a second dot unread |
| Seven.NumberValue | Seven.py:82-85 | a lexeme without a dot becomes an `int` of its digits, one with a dot a `float` |
| Seven.NumberToken | Seven.py:69-85 | `make_number` makes an INT or FLOAT token spanning from its start to where the digits end |
| Seven.ScanEnd | Seven.py:37-64 | each round of `make_tokens` consumes at least one character |
| Seven.Scanned | Seven.py:38-64 | one round makes no token for a blank, one non-EOF token, or the illegal-character error spanning that one character |
| Seven.Lexer.constructor | Seven.py:20-24 | the lexer starts on the first character of its text |
| Seven.Lexer.Advance | Seven.py:26-32 | `advance` moves the position by one and keeps the current character in step with it |
| Seven.Lexer.MakeTokens | Seven.py:34-67 | `make_tokens` returns exactly the tokens and error of the lexer specification, with the positions that `Token` needs supplied as absent |
| Seven.Lexer.MakeTokensStep | Seven.py:38-64 | one round skips a blank, appends one token, or stops with the error, and what is left still leads to the same overall result |
| Seven.Lexer.MakeNumber | Seven.py:69-85 | `make_number` leaves the cursor where the number ends and returns the specified number token |
| Seven.NumberGrows | Seven.py:74-80 | reading one more digit, or a first dot, keeps the loop invariant of `make_number` |
| Seven.NumberRead | Seven.py:74-85 | where the loop stops, the text read is the lexeme, with at most one dot, and the token is INT exactly when no dot was read |
| Seven.AsWrittenRaises | Seven.py:4-66 | as written, every scan that would succeed raises TypeError instead, because `Token` is built with two of its four fields |
| Seven.LexWellFormed | Seven.py:66-67 | a successful scan ends with the single EOF token |
| Seven.LexErrorIsIllegal | Seven.py:60-64 | a failed scan reports an illegal character by name, from its position to the next |
| Seven.BlanksThenIllegal | Seven.py:38-64 | blanks and then a character no branch takes (a newline, a letter, a leading dot) fail with that character's error |
| Seven.SecondDotRejected | Seven.py:60-77 | `1..` fails at offset 2: the second dot ends the number and is then illegal on its own |
| Seven.FactorSpec | Seven.py:129-155 | a successful `factor` consumes at least one token and stops before EOF |
| Seven.OperandSpec | Seven.py:157-165 | the operand of `bin_op` consumes at least one token and stops before EOF |
| Seven.BinOpSpec | Seven.py:163-177 | a successful `bin_op` consumes at least one token and stops before EOF |
| Seven.BinOpTail | Seven.py:169-177 | the operator loop of `bin_op` never moves backwards and stops before EOF |
| Seven.FactorSigned | Seven.py:133-138 | a sign makes a unary operation node over the factor after it, or passes that factor's error on |
| Seven.FactorParen | Seven.py:144-153 | `(` parses an expression that must be followed by `)`, else reports "Expected ')'" at that token |
| Seven.ParseResult.constructor | Seven.py:90-92 | a new result has neither error nor node |
| Seven.ParseResult.Register | Seven.py:94-100 | `register` takes over the other result's error when it has one and hands back its node |
| Seven.ParseResult.Success | Seven.py:102-104 | `success` sets the node and keeps the error |
| Seven.ParseResult.Failure | Seven.py:106-108 | `failure` sets the error and keeps the node |
| Seven.Parser.constructor | Seven.py:112-115 | the parser starts on the first token |
| Seven.Parser.Advance | Seven.py:117-121 | `advance` moves to the next token |
| Seven.Parser.Parse | Seven.py:123-127 | `parse` returns the error and node of the parse specification, including "Expected EOF" after a complete expression |
| Seven.Parser.Factor | Seven.py:129-155 | `factor` delivers exactly the specified node, cursor and error |
| Seven.Parser.Term | Seven.py:157-158 | `term` is `bin_op` over factors with `*` and `/` |
| Seven.Parser.Expr | Seven.py:160-161 | `expr` is `bin_op` over terms with the evidently intended `+` and `-` |
| Seven.Parser.Operand | Seven.py:158-165 | the `func` handed to `bin_op` at each level delivers its specified result |
| Seven.Parser.BinOp | Seven.py:163-177 | `bin_op` folds the level's operators to the left and delivers exactly the specified result |
| Seven.Run | Seven.py:199-208 | `run` returns the lexer's error without parsing, or the parse result with its own error |
| Seven.TailStops | Seven.py:169 | the operator loop stops only at a token outside its level's operators |
| Seven.TermStops | Seven.py:157-169 | a `term` ends at a token that is neither `*` nor `/` |
| Seven.ExprStops | Seven.py:160-169 | an `expr` ends at a token that no level takes, so "Expected EOF" can only report a number or a parenthesis |
| Seven.ParseOutcomes | Seven.py:123-127 | a parse without an error has a tree, and a parse with both an error and a tree failed only the EOF check |
| Seven.MinusNestsLeft | Seven.py:160-177 | `1-2-3` parses as `(1-2)-3` |
| Seven.ProductBindsTighter | Seven.py:157-177 | `1+2*3` parses as `1+(2*3)` |
| Seven.SignIsUnary | Seven.py:133-138 | `-1` parses as a unary operation without a right operand |
| Seven.UnclosedParenthesis | Seven.py:149-153 | `(1` reports "Expected ')'" at EOF, which has no positions |
| Seven.TrailingNumberKeepsTree | Seven.py:123-127 | `1 2` reports "Expected EOF" at the second number and keeps the first tree |
| Seven.ParseAsWrittenRaises | Seven.py:161 | as written every parse raises NameError on `TTDIV`, even of `1-2-3`, which the corrected `expr` parses |
| Six.ScanEnd | Six.py:27-59 | each round of `lex` consumes at least one character |
| Six.Scanned | Six.py:28-59 | a round makes no token for whitespace or one token, and never one of the operator types MULTIPLY, DIVIDE, PLUS, MINUS |
| Six.Lexer.constructor | Six.py:13-16 | the lexer starts at position 0 on the first character; it needs non-empty input, which indexing demands |
| Six.Lexer.Advance | Six.py:18-23 | `advance` moves the position by one and keeps the current character in step with it |
| Six.Lexer.Lex | Six.py:25-61 | `lex` returns exactly the tokens of the lexer specification, or raises its exception |
| Six.Lexer.LexStep | Six.py:28-59 | one round skips whitespace, appends one token, or raises, and what is left still leads to the same overall result |
| Six.Lexer.ParseNumber | Six.py:63-72 | `parse_number` reads the digit-and-dot run, returning an `int` or `float` NUMBER, or the ValueError `float()` raises on a second dot |
| Six.Lexer.ParseKeyword | Six.py:74-93 | `parse_keyword` reads the whole word and classifies it as TYPE, RETURN, IF, ELSE, WHILE, FOR or IDENTIFIER |
| Six.Run | Six.py:231-232 | `Lexer(text).lex()` returns the specified tokens or exception, raising IndexError on empty text |
| Six.EatSpec | Six.py:106-110 | `eat` succeeds exactly when there is a current token, and pops exactly when its type matches; a mismatch only prints |
| Six.FactorSpec | Six.py:112-127 | `factor` never grows the queue, and returns without consuming only when it makes no progress |
| Six.TermOp | Six.py:132-148 | a DIVIDE by a divisor equal to 0 raises "Division by zero"; otherwise it divides |
| Six.TermTail | Six.py:132-150 | `term`'s loop never grows the queue and, when it consumes nothing, returns its running value |
| Six.TermSpec | Six.py:129-150 | `term` never grows the queue |
| Six.ExprTail | Six.py:155-163 | `expr`'s loop never grows the queue and, when it consumes nothing, returns its running value |
| Six.ExprSpec | Six.py:152-163 | `expr` never grows the queue |
| Six.TypedNameSpec | Six.py:197-198 | reading a type and a name never grows the queue |
| Six.CommaParams | Six.py:200-203 | `parameter`'s loop ends where the current token is not a COMMA |
| Six.ParameterSpec | Six.py:196-203 | `parameter` ends where the current token is not a COMMA |
| Six.ParamsSpec | Six.py:181-185 | the parameter loop ends at RIGHT_PAREN or at the end of the tokens |
| Six.FunctionDeclarationSpec | Six.py:175-194 | `function_declaration` always consumes at least its TYPE token |
| Six.DeclarationRestSpec | Six.py:186-194 | the rest of a declaration never grows the queue |
| Six.StatementSpec | Six.py:205-214 | a statement that completes has consumed at least one token |
| Six.StatementsSpec | Six.py:190-191 | the statement loop ends at RIGHT_BRACE or at the end of the tokens |
| Six.BlockSpec | Six.py:165-173 | `block` never grows the queue |
| Six.Parser.constructor | Six.py:97-100 | the parser starts with the first token popped off the list |
| Six.Parser.Next | Six.py:108 | popping the next token, or None when the list is empty |
| Six.Parser.Eat | Six.py:106-110 | `eat` moves the queue as the specification says |
| Six.Parser.Factor | Six.py:112-127 | `factor` returns the specified value and leaves the specified queue |
| Six.Parser.Term | Six.py:129-150 | `term` returns the specified value and leaves the specified queue |
| Six.Parser.Expr | Six.py:152-163 | `expr` returns the specified value and leaves the specified queue |
| Six.Parser.Parameter | Six.py:196-203 | `parameter` leaves the specified queue |
| Six.Parser.TypedName | Six.py:197-198 | reading a type and a name leaves the specified queue |
| Six.Parser.FunctionDeclaration | Six.py:175-194 | `function_declaration` leaves the specified queue, or reports the endless parameter loop |
| Six.Parser.Params | Six.py:181-185 | the parameter loop leaves the specified queue, or reports that it repeats forever |
| Six.Parser.DeclarationRest | Six.py:186-194 | the closing parenthesis and the body or SEMICOLON leave the specified queue |
| Six.Parser.Statement | Six.py:205-214 | `statement` returns the specified value and leaves the specified queue |
| Six.Parser.Block | Six.py:165-173 | `block` leaves the specified queue |
| Six.CompileProgram | Six.py:231-242 | `main` lexes, then calls `block` on a copy of the tokens, with the specified outcome |
| Six.LexClean | Six.py:34-132 | lexed tokens never carry the types MULTIPLY, DIVIDE, PLUS or MINUS: the lexer names operators by their characters |
| Six.LexErrorIsScanned | Six.py:58-70 | every lexing exception is the exception of one round, at some position |
| Six.SkipBlanks | Six.py:28-29 | whitespace contributes no tokens |
| Six.PercentRaises | Six.py:58-59 | `%` raises "Invalid character: %" |
| Six.BracketsNamed | Six.py:49-57 | brackets and commas are lexed under their own names, with the character as the value |
| Six.PopClean | Six.py:99-108 | popping lexed tokens leaves a queue without the named operator types |
| Six.EatClean | Six.py:106-110 | `eat` keeps the queue free of the named operator types |
| Six.FactorClean | Six.py:112-127 | `factor` keeps the queue free of the named operator types |
| Six.TermIsFactor | Six.py:129-150 | on such a queue `term` is `factor`: its operator loop never runs |
| Six.ExprTailClean | Six.py:155-163 | `expr`'s loop keeps the queue free of the named operator types |
| Six.ExprClean | Six.py:152-163 | `expr` keeps the queue free of the named operator types |
| Six.TermIsFactorOnLexedText | Six.py:25-150 | on lexed text, `term` at the first token is `factor` |
| Six.TermTailStops | Six.py:132 | `term`'s loop stops at a token that is not one of the named operators, or at the end |
| Six.ExprTailStops | Six.py:155 | `expr`'s loop stops at a token that is not `+` or `-`, or at the end |
| Six.TermAtom | Six.py:113-150 | a number or name followed by no named operator is a whole term |
| Six.ExprTailAtom | Six.py:155-161 | one round of `expr`'s loop on a lone atom adds or subtracts its value |
| Six.NumberRound | Six.py:155-161 | one round of `expr`'s loop on integers adds or subtracts the next number |
| Six.SumFirst | Six.py:152-158 | after `x + y` the loop goes on with x + y as its running value |
| Six.SumThenDifference | Six.py:152-163 | `x + y - z` evaluates left to right to x + y - z and stops at the first token that is not `+` or `-` |
| Six.SumExample | Six.py:152-163 | `1 + 2 - 4` is -1 and consumes every token |
| Six.ProductStops | Six.py:129-163 | `a * b` as an expression is `a`, stopping in front of the lexed `*` |
| Six.ReturnStatement | Six.py:206-210 | `return e;` gives the value of `e` and consumes the SEMICOLON |
| Six.ReturnConcatenatesNames | Six.py:117-210 | `return x + y;` adds the names, which are strings, so the result is their concatenation |
| Six.DivideByZeroTail | Six.py:136-142 | DIVIDE followed by 0 raises "Division by zero" once the 0 is consumed |
| Six.DivisionByZero | Six.py:129-142 | `a / 0` on a DIVIDE token raises "Division by zero" |
| Six.Header | Six.py:176-186 | after `int f(` the declaration goes on with its parameter loop |
| Six.ParameterPair | Six.py:196-203 | `parameter` reads `TYPE IDENT` and then the comma groups that follow |
| Six.TypedName | Six.py:197-198 | `int n` is one type-and-name pair |
| Six.CommaPair | Six.py:200-203 | one `, TYPE IDENT` group of `parameter`'s loop |
| Six.ParamsRound | Six.py:181-185 | a parameter round that consumes something is followed by the next round |
| Six.TwoParameters | Six.py:181-185 | `int a, int b` is read up to the `)` |
| Six.SemicolonRest | Six.py:186-194 | `) ;` completes a prototype |
| Six.PrototypeShape | Six.py:175-194 | `int f(` then parameters read up to `) ;` is a consumed prototype |
| Six.Prototype | Six.py:175-194 | `int f(int a, int b);` is accepted and fully consumed |
| Six.StuckParameter | Six.py:181-185 | at a token that is none of TYPE, IDENTIFIER, COMMA and `)`, the parameter loop repeats forever |
| Six.NumberParameterSpins | Six.py:181-198 | `int f(5)` never returns: no parameter round consumes the 5 |
| Six.ReturnBody | Six.py:190-210 | the body `return v; }` is one statement up to the closing brace |
| Six.BracedRest | Six.py:186-192 | `) {` and a statement list ending at `}` complete the declaration |
| Six.DefinitionWithBody | Six.py:175-194 | `int f() { return 1; }` is accepted and fully consumed |
| Six.AssignmentInBodyRaises | Six.py:165-214 | a block holding an assignment reaches the missing `variable_declaration` and raises AttributeError |
| Six.LeadingInt | Six.py:28-81 | `int` after leading whitespace and before a non-word character lexes to a TYPE token first |
| Six.MainBlockIdle | Six.py:165-243 | on `main`'s program, which starts with `int`, `block` finds no LEFT_BRACE, only prints, and consumes nothing |
| Five.KeywordsAreWords | Five.py:24-42 | every listed keyword is a non-empty run of word characters, so the keyword alternation is well formed |
| Five.MatchAt | Five.py:46 | a pattern that matches at `i` consumes at least one character and stays inside the text |
| Five.FirstMatchFrom | Five.py:39-51 | the first pattern in table order that matches at `i` ends strictly after `i` |
| Five.FirstMatch | Five.py:39-51 | the winning pattern's match ends strictly after `i` and inside the text, so the cursor always advances |
| Five.MatchFirst | Five.py:39-51 | one round of the pattern loop finds exactly the first matching pattern of the table, or none |
| Five.Lexer | Five.py:22-56 | `lexer` returns exactly the cursor lexer's specification: the tokens of successive first matches, or the invalid-token ValueError |
| Five.KeywordsStartWithLetters | Five.py:24 | every keyword starts with a letter |
| Five.FirstMatchDispatch | Five.py:23-51 | trying the seven patterns in table order is the same as dispatching on the character at `i` |
| Five.FirstMatchLexable | Five.py:39-54 | some pattern matches at `i` exactly when the character there is lexable, and a match takes only lexable characters |
| Five.NeverFloat | Five.py:27-51 | the FLOAT pattern never wins: INTEGER, tried before it, matches wherever FLOAT does |
| Five.LexRoundTrip | Five.py:36-56 | when lexing succeeds the token values concatenate back to the input text |
| Five.LexNoFloat | Five.py:22-56 | the lexer never produces a FLOAT token |
| Five.LexOk | Five.py:36-56 | text made only of lexable characters lexes without error |
| Five.LexError | Five.py:53-54 | the lexer raises at the first character no pattern starts with, naming that position and the ten characters from it |
| Five.KeywordsAreWholeWords | Five.py:42 | `integer` lexes as one IDENTIFIER: the keyword alternation needs a word boundary after `int` |
| Five.NoBoundaryAfterNumber | Five.py:27-42 | `3int` lexes as INTEGER 3 then IDENTIFIER int: the boundary between a digit and a letter is not a word boundary |
| Five.DecimalRaises | Five.py:27-54 | `3.5` raises the invalid-token error at position 1, since INTEGER takes the `3` and nothing starts with '.' |
| Five.ExpressionEnd | Five.py:98-101 | the expression loop stops at the first SPECIAL_CHARACTER or ';'-valued token, or at the end, and passes over no such token |
| Five.LeafAll | Five.py:99-100 | one leaf node per token |
| Five.LeavesAreTokens | Five.py:97-101 | an expression's children are the leaves of the tokens from its start up to the stopping token, in order |
| Five.ParseExpression | Five.py:92-103 | `parse_expression` builds exactly the specified Expression node |
| Five.ParseProgram | Five.py:58-90 | `parse_program` returns exactly the specified Program tree or raises its ValueError |
| Five.FirstToken | Five.py:36-51 | the first token lexed from `i` has the type of the first matching pattern |
| Five.LexedNoNameAfterKeyword | Five.py:42-50 | in lexed tokens a keyword is never directly followed by an IDENTIFIER |
| Five.NoDeclarations | Five.py:63-88 | tokens without a type keyword give a Program with no children |
| Five.FirstDeclarationRaises | Five.py:66-86 | when no IDENTIFIER follows a type keyword, the first type keyword raises, showing the two tokens after it |
| Five.FirstTypeKeyword | Five.py:66 | the first type keyword at or before a known one |
| Five.LexedProgramHasNoDeclarations | Five.py:22-90 | on the lexer's tokens `parse_program` either raises or returns an empty Program: it can never build a declaration |
| Five.KeywordTextLexes | Five.py:36-51 | text that starts with a whole-word keyword and is all lexable lexes with that keyword first |
| Five.TypeKeywordTextRaises | Five.py:22-90 | text that starts with a whole-word type keyword lexes and then makes `parse_program` raise |
| Five.DeclarationTextRaises | Five.py:22-90 | `int x = 1;` raises in `parse_program`, at the space token after `int` |
| Five.Significant | Five.py:135 | the tokens without WHITESPACE, the ones the token table shows and the parser evidently expects |
| Five.SpacedDeclarationParses | Five.py:58-103 | once whitespace is removed, a declaration with a one-token initializer parses to its subtree: type, name and the expression holding the initializer |
| Fourth.PatternOf | Fourth.py:4-12 | each entry of the token table is a well-formed pattern: the keyword set becomes a word-bounded alternation, the other entries their regular expressions |
| Fourth.Tagged | Fourth.py:34-36 | one token per match text, of the pattern's type |
| Fourth.TaggedTypes | Fourth.py:34-36 | the token made for the a-th match carries the type and the a-th match text |
| Fourth.FindTokens | Fourth.py:28-36 | the inner loop appends one token per `finditer` match of one pattern, left to right, and nothing else |
| Fourth.Lexer | Fourth.py:25-37 | `lexer` returns exactly the per-type match groups of the specification, in table order |
| Fourth.LexIsGroups | Fourth.py:27-37 | the token list is the KEYWORD, IDENTIFIER, OPERATOR, INTEGER, FLOAT, WHITESPACE and SP_CHAR groups, concatenated |
| Fourth.GroupsFromGrouped | Fourth.py:27-36 | the groups from any table position on are ordered by table rank |
| Fourth.LexGrouped | Fourth.py:27-37 | tokens come out sorted by the rank of their type in the table, not by position in the text |
| Fourth.MatchStartsLexable | Fourth.py:5-11 | a match of any table pattern starts at a word character, whitespace, one of `- + * / ( ) =` or one of `{ } ; ,` |
| Fourth.UnlexableDropped | Fourth.py:25-37 | text made only of characters no pattern can start at lexes to no tokens at all |
| Fourth.KeywordLetters | Fourth.py:5 | every listed keyword is a non-empty word of letters |
| Fourth.LettersOnlyWords | Fourth.py:7-11 | over letters only, the OPERATOR, INTEGER, FLOAT, WHITESPACE and SP_CHAR patterns find nothing |
| Fourth.LetterWordIdentifier | Fourth.py:6 | a word of letters is one IDENTIFIER match of itself |
| Fourth.KeywordGroup | Fourth.py:5-30 | a listed keyword standing alone is one match of the keyword alternation |
| Fourth.KeywordAlsoIdentifier | Fourth.py:25-37 | a keyword standing alone lexes twice: as a KEYWORD and then again as an IDENTIFIER |
| Fourth.DecimalNoWords | Fourth.py:5-11 | in `3.5` only the INTEGER and FLOAT patterns match |
| Fourth.DecimalIntegers | Fourth.py:8 | the INTEGER pattern finds `3` and `5` in `3.5` |
| Fourth.DecimalFloat | Fourth.py:9 | the FLOAT pattern finds `3.5` once |
| Fourth.DecimalTwice | Fourth.py:25-37 | `3.5` lexes as INTEGER 3, INTEGER 5 and FLOAT 3.5: the digits are tokenised twice |
| Fourth.TaggedOperators | Fourth.py:7-36 | every OPERATOR match is one character of `- + * / ( ) =` |
| Fourth.GroupsOperators | Fourth.py:27-36 | the groups from any table position on hold no OPERATOR ';' |
| Fourth.LexNoSemicolonOperator | Fourth.py:7-37 | the lexer never makes an OPERATOR ';': the semicolon is an SP_CHAR |
| Fourth.Raised | Fourth.py:65-91 | every error `parse` raises is a ValueError, for an invalid declaration or an invalid expression |
| Fourth.SemicolonFrom | Fourth.py:57-71 | a scan loop stops at the first OPERATOR ';', or at the end, and passes over no such token |
| Fourth.Parse | Fourth.py:42-91 | the parse loop returns exactly the result of the reducer specification from index 0 with empty stack and assignment list |
| Fourth.Declaration | Fourth.py:52-63 | the declaration branch leaves the index where the specification says and records the name with the collected expression, or None |
| Fourth.SkipReturn | Fourth.py:69-72 | the return branch leaves the index one past the first OPERATOR ';' after the keyword, or past the end |
| Fourth.CollectExpression | Fourth.py:56-59 | the collected expression is the values of the tokens from the start up to the first OPERATOR ';' |
| Fourth.OperatorText | Fourth.py:77 | the arithmetic operators of an expression tree are exactly those `parse` combines |
| Fourth.PushesName | Fourth.py:74-75 | an IDENTIFIER pushes its value and moves on |
| Fourth.Declares | Fourth.py:50-63 | a fitting declaration appends its assignment and moves past it |
| Fourth.Returns | Fourth.py:67-85 | `return` moves to two past the first OPERATOR ';' after it |
| Fourth.CombinesTop | Fourth.py:77-81 | an arithmetic operator replaces the top two entries by `a op b`, spaces included |
| Fourth.ReducesOperator | Fourth.py:74-81 | two operands reduced one after the other and an operator after them leave one combined entry |
| Fourth.ReducesPostfix | Fourth.py:74-83 | reducing the postfix tokens of a tree pushes the tree's infix text and leaves the stack below alone |
| Fourth.PostfixToInfix | Fourth.py:42-89 | the postfix tokens of an arithmetic tree make `parse` return its fully spaced infix text and no assignments |
| Fourth.GroupingLost | Fourth.py:81 | `a b * c +` and `a b c + *` are different inputs with the same result, `a * b + c`: the infix text drops the grouping |
| Fourth.ReducesTwo | Fourth.py:74-83 | two trees' postfix tokens one after the other leave two entries on the stack |
| Fourth.Leftover | Fourth.py:87-91 | at the end, a stack of any size other than one raises the invalid-expression error |
| Fourth.TwoTreesRaise | Fourth.py:87-91 | two complete expressions in a row make `parse` raise the invalid-expression error |
| Fourth.OnlyEqualsFits | Fourth.py:52 | on lexed tokens a declaration fits exactly when the type word is followed by an IDENTIFIER and an OPERATOR '=' |
| Fourth.ReturnEndsParse | Fourth.py:67-91 | on lexed tokens `return` skips every remaining token and the parse finishes with the current stack |
| Fourth.NoSemicolonFrom | Fourth.py:57-71 | with no OPERATOR ';' a scan runs to the end of the tokens |
| Fourth.AssignmentTakesRest | Fourth.py:52-63 | on lexed tokens a declaration `T x = = ...` records every remaining value as its expression and ends the parse |
| Fourth.InitializerSkipped | Fourth.py:54-85 | in `T x = v y` the declaration records x with no expression, skips `v` and leaves `y` as the result |
| Third.PatternOf | Third.py:4-11 | each entry of the token table is a well-formed pattern: the keyword set becomes a word-bounded alternation, the other entries their regular expressions |
| Third.Tagged | Third.py:33-35 | one token per match text, of the pattern's type |
| Third.TaggedTypes | Third.py:33-35 | the token made for the a-th match carries the type and the a-th match text |
| Third.FindTokens | Third.py:27-35 | the inner loop appends one token per `finditer` match of one pattern, left to right, and nothing else |
| Third.Lexer | Third.py:24-36 | `lexer` returns exactly the per-type match groups of the specification, in table order |
| Third.LexIsGroups | Third.py:26-36 | the token list is the KEYWORD group, then IDENTIFIER, OPERATOR, INTEGER, FLOAT and WHITESPACE groups, concatenated |
| Third.GroupsFromGrouped | Third.py:26-35 | the groups from any table position on are ordered by table rank |
| Third.LexGrouped | Third.py:26-36 | tokens come out sorted by the rank of their type in the table, not by position in the text |
| Third.MatchStartsLexable | Third.py:5-10 | a match of any table pattern starts at a letter, digit, underscore, whitespace or one of `- + * / ( )` |
| Third.UnlexableDropped | Third.py:24-36 | text made only of characters no pattern can start at (such as '=', ';', '{', '}') lexes to no tokens at all |
| Third.LettersOnlyWords | Third.py:7-10 | over letters only, the OPERATOR, INTEGER, FLOAT and WHITESPACE patterns find nothing |
| Third.LetterWordIdentifier | Third.py:6 | a word of letters is one IDENTIFIER match of itself |
| Third.UnlistedWordNoKeyword | Third.py:5-29 | a word of letters outside the keyword set is no match of the keyword alternation |
| Third.UnlistedTypeIsName | Third.py:5-49 | `char` and `double`, accepted as type words by `parse`, lex to a single IDENTIFIER, never a KEYWORD |
| Third.FoundShape | Third.py:29-35 | every keyword match is a listed word and every operator match is one character of `- + * / ( )` |
| Third.GroupsShape | Third.py:26-35 | the groups from any table position on contain only listed keywords and one-character table operators |
| Third.LexShape | Third.py:24-36 | every lexed KEYWORD is a listed word and every lexed OPERATOR is one of `- + * / ( )`, so ';', '{' and '}' never reach `parse` |
| Third.Raised | Third.py:62-96 | the error paths: a bad declaration or expression raises ValueError, an operator other than '+' on two strings raises TypeError |
| Third.ScanFrom | Third.py:53-70 | a scan loop stops at the first OPERATOR with the value, or at the end, and passes over no such token |
| Third.ScanTo | Third.py:53-70 | the scan loop reaches the index given by ScanFrom |
| Third.FunctionEnd | Third.py:49-64 | a function declaration either moves the index strictly forward or raises the invalid-declaration ValueError |
| Third.FunctionDeclaration | Third.py:51-64 | the declaration branch, step by step, computes FunctionEnd: the index after `)`, `{ ... }`, or the error |
| Third.Parse | Third.py:41-96 | the parse loop returns exactly the result of the reducer specification from index 0 with an empty stack |
| Third.DeclarationRaises | Third.py:49-64 | without an OPERATOR '{' among the tokens, any type keyword makes `parse` raise the invalid-declaration error |
| Third.LexedDeclarationRaises | Third.py:24-64 | on lexed tokens, any type keyword makes `parse` raise ValueError, since '{' is never lexed |
| Third.NoOpScan | Third.py:69-70 | with no matching OPERATOR a scan runs to the end of the tokens |
| Third.ReturnEndsParse | Third.py:66-96 | without an OPERATOR ';', `return` skips every remaining token and the parse finishes with the current stack |
| Third.LexedReturnEndsParse | Third.py:24-71 | on lexed tokens a `return` ends the parse, since ';' is never lexed |
| Third.Leftover | Third.py:93-96 | at the end, a one-entry stack is the result and any other stack raises the invalid-expression error |
| Third.PushesName | Third.py:73-74 | an IDENTIFIER pushes its value and moves on |
| Third.OperatorStep | Third.py:76-87 | '+' on two stack entries pushes their concatenation; '-', '*' and '/' on two strings raise TypeError |
| Third.PlusConcatenates | Third.py:80-81 | reducing a tree of '+' gives its names run together, with no separator |
| Third.OtherOperatorRaises | Third.py:82-87 | a tree with any operator besides '+' raises TypeError |
| Third.ReducesPostfix | Third.py:73-89 | reducing the postfix tokens of a tree pushes the tree's Python value and leaves the stack below alone, or raises its TypeError |
| Third.PostfixEvaluates | Third.py:41-96 | the postfix tokens of an arithmetic tree make `parse` return the tree's Python value or raise its error |
| Third.SumOfNames | Third.py:73-87 | `a b +` returns `a` and `b` run together; `a b -` raises TypeError |
| Cpp.TruncDiv | Second.cpp:229 | `result /= termValue` leaves a remainder smaller than the divisor in magnitude and with the dividend's sign, which is truncation toward zero |
| Cpp.TruncDivTowardZero | Second.cpp:229 | -7 / 2 is -3 in C++, where Euclidean division gives -4 |
| Cpp.Stoi | Second.cpp:242 | `std::stoi` on a lexeme yields a value an `int` holds, and throws invalid_argument when the lexeme has no leading digit |
| Cpp.StoiDropsFraction | First.cpp:202 | `std::stoi` stops at the dot: "2.5" is 2, and "42" is 42 |
| Cpp.StoiDigits | First.cpp:202 | a digit-only lexeme that fits an `int` converts to its decimal value |
| Cpp.Checked | Second.cpp:214-223 | an `int` result is defined exactly when the value fits 32 bits, and is then that value |
| PyValues.FloorMod | guipart.py:165 | Python's `%` on integers takes the divisor's sign: in [0, b) for b > 0 and in (b, 0] for b < 0 |
| PyValues.ArithIntegral | test.py:132-153 | `+=`, `-=` and `*=` on two integers give the exact integer result |
| PyValues.ArithDivide | test.py:134-136 | `/=` on numbers is true division giving a float, and raises ZeroDivisionError "division by zero" on a zero divisor |
| PyValues.ArithModulo | guipart.py:165 | `%=` on integers with a non-zero divisor is floor modulo |
| PyValues.ArithNone | test.py:109 | arithmetic with None, as an undeclared variable reads, raises TypeError |
| PyValues.ArithSequenceRepeat | test.py:132-133 | `*=` with a string repeats it by an int or bool on either side; any other operand, None or a string included, raises TypeError naming that operand's type |
| PyValues.DictKey | sixgui.py:166 | the entry a key reaches: a number reaches an entry filed under a number of equal value; any other key is its own entry |
| PyValues.SameEntry | sixgui.py:166 | two keys reach the same dict entry exactly when Python's `==` holds between them |
| PyValues.PyFloat | test.py:59-60 | `float(result)` on a digit/dot run with a dot succeeds exactly when there is one dot and a digit beside it, giving a non-negative float |
| PyValues.IndexOf | test.py:59 | the first position of a character that occurs in the string |
| Patterns.SpaceEnd | Third.py:26-35 | a `\s+` run ends inside the input and covers only whitespace |
| Patterns.Match | Third.py:26-35 | a successful match at a position consumes at least one character and stays inside the input |
| Patterns.WordEndSkip | Third.py:29 | a word-character run can be measured from any point inside it |
| Patterns.KeywordRegex | Third.py:29 | the keyword alternation `\b(?:...)\b` matches a listed word at a position exactly when word boundaries lie on both sides of it |
| Patterns.FindAll | Third.py:32-35 | every match `finditer` reports is non-empty |
| Patterns.FindAllSkips | Third.py:32-35 | positions where the pattern does not match contribute no match |

## Left out

- The tkinter windows (sixgui.py:212-283, guipart.py:203-259), every `main`/`__main__` driver, reading stdin in First.cpp and Second.cpp, and all printing are not modelled. That covers the token and identifier tables, `Token.__str__`, `displayTokens`, the debug print in test.py:170, and the messages `eat` prints in Six.py and guipart.py. Drivers only appear as the `Run`/`Execute`/`Compile` members that feed text to the lexer and parser. They are I/O.
- Eight.py's `exit(1)` after "Invalid syntax" is an `Err` value of class SystemExit.
- The C++ error messages go to stderr and are not modelled as text. Each `exit(1)` is an `Err` value naming the message, and the enumerator numbers it prints are kept as numbers.
- Character classes are ASCII only. Python's `isdigit`/`isalpha`/`isspace` and regex `\w \d \s \b` also accept other Unicode characters, which this model does not cover.
- Python floats are `real`, so IEEE rounding is not modelled. No property here depends on rounding. `float()` and `int()` are modelled only on the digit-and-dot lexemes the lexers hand them.
- The `re` module is not modelled in general. `Patterns` hand-codes the fixed patterns the three regex lexers compile, and their `finditer`/`match` behaviour on them.
- A Python `set` has no fixed iteration order, so the order of the keyword alternation in Five.py, Fourth.py and Third.py is not fixed either. The model treats the alternation as a set of words, which is sound because `\b` on both sides makes the order irrelevant to what matches.
- Python dictionaries are maps, so insertion order (which only affects printing) is not kept. Keys that compare equal share one entry (`PyValues.DictKey`). The model files a whole number under the int, where Python keeps whichever key object came first (`4` or `4.0`); that too only affects printing.
- Python arithmetic is modelled on the values these programs produce: int, float, bool, None and str. `PyValues.Arith` covers `str + str`, `str * int` and bools counting as 0 and 1. A fractional exponent and printf-style `str % x` are reported as `OutsideModel` rather than computed. No modelled program reaches them: guipart.py never produces a POWER token, and no evaluator applies `%` to a string.
- guipart.py:14 is a stray expression line that makes the file invalid Python as written. The model treats the file as if the line were absent.
- The `block` method of sixgui.py (lines 170-180) is never called, so it is not modelled. The `block` of Six.py is called, and it is modelled.
- The `tokens[0]` test in `eat` (sixgui.py:99, test.py:97) cannot be reached once the ASSIGNMENT-skipping loop has run. It is modelled without that test, and a comment in the model gives the reason.
- Fourth.py:94-100 is unreachable code after a `return` and is not modelled. Neither are Third.py's driver (lines 99-123) or Fourth.py's.
- `string_with_arrows` and the script at the end of Seven.py (lines 211-250) are not modelled. They expect position objects but are given ints, and they read stdin.
- Five.py's `interpret` only prints, `Node.__repr__` only formats, and `display_parse_tree` is undefined (lines 105-122). None of them is modelled. Five.py's `Node` objects are built once and never shared, so they are modelled as a tree value.
- Six.py's `statement` calls a `variable_declaration` method the class lacks. This is modelled as the AttributeError Python raises there.
- Loops that repeat forever are not run forever. Six.py's `block`, `function_declaration` and `parameter` loops report `Six.Spins` when a round consumes no token, which is when the source would repeat that round forever. sixgui.py's `parse` reports `SixGui.Diverges` in the same case.
- Python's recursion limit is not modelled: deeply nested parentheses are parsed to any depth.
- C++ overflow is not left to a precondition. An `int` overflow in `+=`, `-=`, `*=` or `/=` is an `IntOverflow` error standing for undefined behaviour, and an out-of-range literal is the `std::out_of_range` that `std::stoi` throws. The model therefore says nothing about what a compiled program does after overflow.
- The description of the repository promises some behaviour that the code does not have. The model follows the code:
  - Only Seven.py's lexer ends its token list with an EOF token. The C++ lexers return EOF_TOKEN whenever they are asked past the end, and the other Python lexers emit none.
  - A failing statement in sixgui.py is recorded but its tokens are not skipped to the next `;`.
  - guipart.py never produces a POWER token, so `2 ** 3` raises TypeError rather than evaluating.
  - An empty program raises IndexError in the Lexer constructors of Eight.py, guipart.py, Six.py, sixgui.py and test.py, rather than yielding an empty token list.

## Findings

| source | as written | input that shows it | evidently intended | confidence | as-written member | corrected member |
|---|---|---|---|---|---|---|
| Seven.py:4-66 | `Token` is a namedtuple of four fields, but operators and EOF are built with two arguments, so `make_tokens` raises TypeError "Token.__new__() missing 2 required positional arguments" | `1+2` (any text that lexes) | positions optional, so operator and EOF tokens are built without them | not executed | Seven.AsWrittenRaises | Seven.Lexer.MakeTokens |
| Seven.py:161 | `expr` passes the undefined name `TTDIV`, so every `parse` raises NameError "name 'TTDIV' is not defined" | `1-2-3` | `expr` loops over PLUS and MINUS, building left-nested trees | not executed | Seven.ParseAsWrittenRaises | Seven.MinusNestsLeft |
| Five.py:30-86 | WHITESPACE tokens stay in the token list, so the IDENTIFIER check after a type keyword meets a space | `int x = 1;` | whitespace dropped before parsing, so the declaration builds its subtree | not executed | Five.DeclarationTextRaises | Five.SpacedDeclarationParses |
