# Grongigo compiler core, modelled in Dafny

Grongigo is a toy language. Its keywords, operators and numbers are katakana words in the
"Grongi" style. The Ruby compiler turns Grongigo source into C text in three stages:

- a **lexer** that scans katakana words into tokens. It splits off bracket words, looks words
  up in keyword tables and reads base-9 numerals such as `バギンドパパン` (9 + 1);
- a **recursive-descent parser** that builds an abstract syntax tree;
- a **code generator** that emits indented C lines.

Beside the compiler sits **`Jp2Grg`**, a transliterator. It rewrites Japanese katakana into
Grongi speech and writes numbers as Grongi base-9 numerals.

This project models that core and proves properties of it. Each part keeps the form of the
Ruby code:

- The lexer, the parser and the code generator are classes. Their fields (cursor, line,
  column, tokens, output lines, indent level) are updated by methods with `modifies` clauses.
  Each method is proved against a specification function of its inputs and old state:
  - the lexer's methods against the token functions of `Lexing` (`TokenizeFrom`, `SkipLayout`,
    `NextLexeme`);
  - each parsing method against a function of the reference parser in `Grammar` and
    `StatementGrammar`: the method returns exactly that function's value or error and leaves
    the cursor where the function says the construct ends;
  - the code generator's methods against the line functions of `CodeLines`.
- What the reference parser builds is then proved in `GrammarFacts` and `StatementFacts`:
  precedence and associativity, which tokens each part of a statement comes from, and the
  error cases.
- The pure parts are recursive functions: the expression printer, name sanitising, escaping
  and the constant tables.
- The loops inside otherwise-pure helpers are `while` methods proved equal to recursive
  functions: the numeral tokenizer and evaluator, `katakana2roman`, `convert` and `num2grg`.

Modules and files:

| file | module | models |
|---|---|---|
| `wrappers.dfy` | `Wrappers` | `Option` / `Result` |
| `text.dfy` | `Text` | string helpers (prefixes, padding, `join`, integer `to_s`) |
| `tables.dfy` | `Tables` | `lib/grongigo/constants.rb` |
| `tokens.dfy` | `Tokens` | `lib/grongigo/token.rb`, `lib/grongigo/parse_error.rb` |
| `ast.dfy` | `Ast` | the AST node classes under `lib/grongigo/ast` |
| `lexer_spec.dfy` | `Lexing` | what `lib/grongigo/lexer.rb` computes, as functions |
| `lexer.dfy` | `Lexer` | the `Lexer` class and its numeral helpers |
| `lexer_facts.dfy` | `LexerFacts` | properties of the token stream |
| `grammar.dfy` | `Grammar` | the expression grammar of `lib/grongigo/parser.rb` as reference functions; precedence on trees |
| `grammar_facts.dfy` | `GrammarFacts` | precedence and associativity of the expressions the grammar builds |
| `statement_grammar.dfy` | `StatementGrammar` | declarations, parameters and statements as reference functions |
| `statement_facts.dfy` | `StatementFacts` | the commas of a `for` header; a type keyword without a name |
| `parser.dfy` | `Parser` | the `Parser` class of `lib/grongigo/parser.rb` |
| `codegen_text.dfy` | `CodeText` | the pure helpers of `lib/grongigo/codegen.rb` |
| `codegen_lines.dfy` | `CodeLines` | the lines each statement emits; indentation and brace matching |
| `codegen.dfy` | `CodeGen` | the `CodeGenerator` class and `katakana2roman` |
| `jp2grg.dfy` | `Jp2Grg` | `lib/grongigo/jp2grg.rb` |
| `numeral_trip.dfy` | `NumeralTrip` | the lexer reads back every numeral `num2grg` writes |

Modelling decisions that a reader of the Ruby code should know:

- **Ruby exceptions become results.**
  - A `ParseError` is `Failure(Expected(token))`, carrying the token where parsing stopped.
  - A `nil` statement that the Ruby code generator would crash on makes `Generate` return
    `Failure(MissingStatement)`. The predicate `Complete` names the trees without such holes.
- **Non-terminating switch clauses.** A `case`/`default` body in a `switch` that runs into end
  of input makes the Ruby parser loop forever (`lib/grongigo/parser.rb:335-337`, `343`).
  `parse_statement` returns `nil` there without moving. The model returns
  `Failure(Diverges(eof))` for that input instead.
- **Backslashes in strings.** `escape_string` leaves backslashes unchanged. In Ruby, the `gsub`
  replacement `'\\\\'` stands for a single backslash. `EscapeStringConflatesBackslash` shows
  the consequence: a backslash-`n` pair and a raw newline escape to the same C text.
- **Tokens without eof.** `advance` at `pos == 0` on an eof-only token list returns
  `tokens[-1]`, as Ruby's negative index does. The parser's constructor requires the token
  list to end with eof, which is what `tokenize` always produces.
- **The Katakana script class.** Ruby's `\p{Katakana}` is modelled as the code-point ranges
  of the Unicode 15 Katakana script, including the supplementary-plane Kana Extended-B,
  Kana Supplement, Kana Extended-A and Small Kana Extension ranges. A Ruby built on an
  older Unicode table may classify fewer characters.
- **Where the repository's tests and the code disagree, the model follows the code.**
  - ASCII and full-width parentheses and full-width brackets are lexed as unknown tokens, where the
    lexer tests expect parenthesis and bracket tokens.
  - A `printf` or `ジョウジ` call whose first argument is a string literal not already ending
    in backslash-`n` or a newline gets backslash-`n` appended to that literal. A call with
    any other first argument, or with a format that already ends that way, is printed as it
    is. The code generator tests expect no newline, so the code produces more than they
    expect.

## Model

| member | source | states |
|---|---|---|
| Tables.DigitsBijection | lib/grongigo/constants.rb:5-16 | the ten digit words are three characters each, map to 0..9 one to one, and `バギン` is 9 |
| Tables.NumberOpsAgree | lib/grongigo/constants.rb:19-22 | `NUMBER_OPS` has exactly `ド` (add) and `グ` (multiply), the characters the numeral tokenizer hard-codes |
| Tables.TypeControlDisjoint | lib/grongigo/constants.rb:25-50 | type and control keyword tables share no word |
| Tables.TypeOtherDisjoint | lib/grongigo/constants.rb:25-64 | type and other keyword tables share no word |
| Tables.ControlOtherDisjoint | lib/grongigo/constants.rb:37-64 | control and other keyword tables share no word |
| Tables.OperatorsTypeDisjoint | lib/grongigo/constants.rb:25-87 | operators and type keywords share no word |
| Tables.OperatorsControlDisjoint | lib/grongigo/constants.rb:37-87 | operators and control keywords share no word |
| Tables.OperatorsOtherDisjoint | lib/grongigo/constants.rb:53-87 | operators and other keywords share no word |
| Tables.DigitsTypeDisjoint | lib/grongigo/constants.rb:5-34 | digit words are no type keyword |
| Tables.DigitsControlDisjoint | lib/grongigo/constants.rb:5-50 | digit words are no control keyword |
| Tables.DigitsOtherDisjoint | lib/grongigo/constants.rb:5-64 | digit words are no other keyword |
| Tables.DigitsOperatorsDisjoint | lib/grongigo/constants.rb:5-87 | digit words are no operator |
| Tables.KeywordTablesDisjoint | lib/grongigo/constants.rb:25-93 | the five tables are pairwise disjoint, and the `ALL_KEYWORDS` merge keeps every entry of the three keyword tables with its value |
| Lexing.RunEnd | lib/grongigo/lexer.rb:177-182 | a scanning loop stops at the first character outside the run, or at the end; every character before it is in the run |
| Lexing.PositionsIncrease | lib/grongigo/lexer.rb:69-79 | `advance` counts lines and columns so that a later offset has a strictly later (line, column) |
| Lexing.RewindPosition | lib/grongigo/lexer.rb:204-209 | rewinding `pos` and `column` by the excess of a bracket word gives the line and column of the new offset |
| Lexing.DigitPrefix | lib/grongigo/lexer.rb:268-277 | the digit word found at the front of the rest is a digit word it starts with; none found means it starts with none |
| Lexing.ParseNumeralNonNegative | lib/grongigo/lexer.rb:298-334 | a numeral's sum of products is never negative |
| Lexing.BracketPrefix | lib/grongigo/lexer.rb:201-212 | the bracket word chosen is one the word starts with; none chosen means it starts with none |
| Lexing.ClassifyWord | lib/grongigo/lexer.rb:189-238 | the classification keeps at most the whole word, keeps less only for a bracket word, keeps at least one character, and never yields eof or unknown |
| Lexing.LayoutRound | lib/grongigo/lexer.rb:82-113 | one round of the skipping loop stays in the source; it ends the loop only after the blanks, where nothing is left to skip, and otherwise moves forward |
| Lexing.SkipLayout | lib/grongigo/lexer.rb:81-115 | skipping stops at the end or at a character that is neither blank, newline, nor the start of a `ゴゴ` or `ゴビ` comment |
| Lexing.SettledRound | lib/grongigo/lexer.rb:82-113 | where nothing is left to skip, a round ends the loop without moving |
| Lexing.RoundKeepsLayout | lib/grongigo/lexer.rb:81-115 | a round of the skip loop leaves the final stop unchanged; it either ends the loop at that stop or makes progress |
| Lexing.SkipLayoutIdempotent | lib/grongigo/lexer.rb:81-115 | skipping layout twice is skipping it once |
| Lexing.NextLexeme | lib/grongigo/lexer.rb:117-153 | `next_token` consumes at least one character (a rewind still leaves one) and never yields eof |
| Lexing.KatakanaLexeme | lib/grongigo/lexer.rb:177-187 | a katakana run is classified as a whole, and the cursor ends where the classification keeps it |
| Lexing.TokenizeFrom | lib/grongigo/lexer.rb:40-53 | tokenizing from any offset yields at least one token |
| Lexing.TokenizeAtToken | lib/grongigo/lexer.rb:43-49 | after layout, the next token carries the line and column of its first character and is followed by the tokens after it |
| Lexing.TokenizeAfterLayout | lib/grongigo/lexer.rb:43-45 | layout produces no tokens |
| Lexing.TokenizeAtEnd | lib/grongigo/lexer.rb:51 | at the end of the source the only token left is eof, at the line and column of the end |
| Lexer.TokenizeNumberExpression | lib/grongigo/lexer.rb:261-296 | the loop over `remaining` yields exactly the units of the numeral grammar, or nothing when characters are left over |
| Lexer.EvaluateNumberExpression | lib/grongigo/lexer.rb:298-334 | the `while i` loop computes the sum-of-products value; a digit after a digit or a dangling `グ` gives no number |
| Lexer.TryParseNumber | lib/grongigo/lexer.rb:240-259 | `try_parse_number` is the numeral reading `ParseNumeral` |
| Lexer.Lexer.constructor | lib/grongigo/lexer.rb:32-38 | a fresh lexer is at offset 0, line 1, column 1, with no tokens |
| Lexer.Lexer.Tokenize | lib/grongigo/lexer.rb:40-53 | stores and returns exactly the token sequence of the source, and the cursor ends at its end |
| Lexer.Lexer.TokenizeLoop | lib/grongigo/lexer.rb:43-49 | the `until eof?` loop reaches the end of the source; the tokens stored and those still to come always make up the whole sequence |
| Lexer.Lexer.TokenizeRound | lib/grongigo/lexer.rb:44-48 | one pass moves the cursor forward and keeps stored plus remaining tokens equal to the whole sequence |
| Lexer.Lexer.PushEof | lib/grongigo/lexer.rb:51 | appending eof at the current line and column completes the token sequence |
| Lexer.Lexer.Advance | lib/grongigo/lexer.rb:69-79 | `pos` grows by `n` and line/column remain those of the new offset (newline: next line, column 1; else next column) |
| Lexer.Lexer.SkipWhitespaceAndComments | lib/grongigo/lexer.rb:81-115 | the cursor moves to the layout stop of its old offset |
| Lexer.Lexer.SkipLayoutRound | lib/grongigo/lexer.rb:83-113 | one iteration of the `loop do`: blanks, then a newline, a line comment, a block comment, or the end of the loop |
| Lexer.Lexer.SkipLineComment | lib/grongigo/lexer.rb:94-98 | skips `ゴゴ` and everything up to the newline or the end |
| Lexer.Lexer.SkipBlockComment | lib/grongigo/lexer.rb:101-111 | skips `ゴビ` and everything through the next `ビゴ`, or to the end |
| Lexer.Lexer.SkipBlankRun | lib/grongigo/lexer.rb:84 | skips spaces, tabs and carriage returns |
| Lexer.Lexer.SkipToNewline | lib/grongigo/lexer.rb:96 | stops at the next newline or the end |
| Lexer.Lexer.SkipPastBlockEnd | lib/grongigo/lexer.rb:103-109 | stops just after the next `ビゴ`, or at the end |
| Lexer.Lexer.ScanRun | lib/grongigo/lexer.rb:158-161 | the scanned text is exactly the source between the old and new cursor, all in the run, and the cursor stops at the run's end |
| Lexer.Lexer.NextToken | lib/grongigo/lexer.rb:117-153 | the token is the next lexeme with the line and column of its first character; the cursor ends after it |
| Lexer.Lexer.ScanStringLiteral | lib/grongigo/lexer.rb:155-164 | as `NextToken`, for a `「` literal |
| Lexer.Lexer.ScanCharLiteral | lib/grongigo/lexer.rb:166-175 | as `NextToken`, for a `『` literal |
| Lexer.Lexer.ScanKatakanaWord | lib/grongigo/lexer.rb:177-187 | as `NextToken`, for a katakana run, including the rewind after a bracket word |
| Lexer.Lexer.ClassifyKatakanaWord | lib/grongigo/lexer.rb:189-238 | returns the kind and value of `ClassifyWord` and rewinds the cursor to just after the part kept |
| Lexer.Lexer.ScanAsciiIdentifier | lib/grongigo/lexer.rb:336-343 | as `NextToken`, for an ASCII identifier |
| Lexer.Lexer.ScanDecimalNumber | lib/grongigo/lexer.rb:345-358 | as `NextToken`, for a decimal literal |
| LexerFacts.TokenizeEndsWithOneEof | lib/grongigo/lexer.rb:40-53 | the token sequence ends with an eof token and has no other |
| LexerFacts.TokenizeLength | lib/grongigo/lexer.rb:43-49 | there are at most as many tokens as characters, plus the eof |
| LexerFacts.TokensAtOrAfter | lib/grongigo/lexer.rb:117-119 | every token is positioned at or after the offset tokenizing started from |
| LexerFacts.TokenPositionsIncrease | lib/grongigo/lexer.rb:43-49 | token positions strictly increase |
| LexerFacts.BlankSourceOnlyEof | lib/grongigo/lexer.rb:81-115 | source made only of blanks and newlines yields only the eof token |
| LexerFacts.EmptySourceOnlyEof | lib/grongigo/lexer.rb:40-53 | empty source yields one eof token at line 1, column 1 |
| LexerFacts.OperatorBarWord | lib/grongigo/constants.rb:84 | `ゴゴ` is the only operator word for `\|` |
| LexerFacts.SizeofWord | lib/grongigo/constants.rb:56 | `ゴゴビガ` is the only word for `sizeof` |
| LexerFacts.OtherBraceWords | lib/grongigo/constants.rb:62-63 | `ザジレ` and `ゴパシ` are the only other-keyword words for braces |
| LexerFacts.ClassifiedOperator | lib/grongigo/lexer.rb:229-230 | a word classified as an operator is an `OPERATORS` key with its value |
| LexerFacts.ClassifiedOtherKeyword | lib/grongigo/lexer.rb:223-227 | an other keyword has no bracket prefix, and an empty table value gives the raw word |
| LexerFacts.CommentWordsClassified | lib/grongigo/lexer.rb:189-238 | a word classified as `\|` or `sizeof` starts with `ゴゴ` |
| LexerFacts.LexemeNotCommentWord | lib/grongigo/lexer.rb:92-98 | a lexeme not at `ゴゴ` is neither `\|` nor `sizeof` |
| LexerFacts.CommentWordsNeverTokens | lib/grongigo/lexer.rb:81-115 | no token of any source is `\|` or `sizeof`: those words are always comments |
| LexerFacts.StringLiteralIsRaw | lib/grongigo/lexer.rb:155-164 | a string literal's value is the raw text up to `」`, without escapes; unterminated, it runs to the end |
| LexerFacts.CharLiteralIsRaw | lib/grongigo/lexer.rb:166-175 | the same for `『` … `』` |
| LexerFacts.BracesIntercepted | lib/grongigo/lexer.rb:192-212 | no word is ever classified as the other keyword `{` or `}`: the bracket table takes them first |
| LexerFacts.AllKeywordsValue | lib/grongigo/constants.rb:90-93 | each `ALL_KEYWORDS` entry comes from exactly one keyword table with that table's value |
| LexerFacts.ClassifiedKeyword | lib/grongigo/lexer.rb:217-227 | without a bracket prefix, lookup order is type, then control, then other keyword, and the whole word is kept |
| LexerFacts.FunctionMarkerKeepsWord | lib/grongigo/lexer.rb:224-227 | the function marker `パザ` is an other keyword whose value is the word itself |
| LexerFacts.BracketWordSplit | lib/grongigo/lexer.rb:201-212 | `ザジレジョヂザギゲギグウ` yields `(` keeping 8 characters, and the rest `ゲギグウ` is `int` |
| LexerFacts.DigitPrefixByTable | lib/grongigo/lexer.rb:268-276 | a digit word is found exactly when the first three characters are a `DIGITS` key, with its value |
| LexerFacts.ScanDigitWord | lib/grongigo/lexer.rb:269-277 | a leading digit word becomes a digit unit before the rest |
| LexerFacts.ScanOperatorChar | lib/grongigo/lexer.rb:279-290 | otherwise `ド` is add, `グ` multiply, and anything else stops the scan with no result |
| LexerFacts.ScanOne | lib/grongigo/lexer.rb:261-296 | `パパン` scans to the digit 1 |
| LexerFacts.ScanNineAddOne | lib/grongigo/lexer.rb:261-296 | `バギンドパパン` scans to 9, add, 1 |
| LexerFacts.EvaluateExamples | lib/grongigo/lexer.rb:298-334 | 9×9+1 is 82; two adjacent digits and a trailing multiply give no number; a lone add gives 0 |
| LexerFacts.NumeralTen | lib/grongigo/lexer.rb:240-259 | `バギンドパパン` reads as 10 |
| Grammar.Expect | lib/grongigo/parser.rb:77-81 | `consume` succeeds exactly when the token has the kind asked for, returning it and the next index; otherwise it fails at that token |
| Grammar.ExpressionAt | lib/grongigo/parser.rb:407-409 | a parsed expression consumes input and stops at a token that is neither a binary operator nor `=` |
| Grammar.AssignmentAt | lib/grongigo/parser.rb:411-421 | the same for `parse_assignment`, whose value after `=` is parsed again as an assignment |
| Grammar.LevelAt | lib/grongigo/parser.rb:423-493 | each binary level consumes input and stops at a token that is no operator of its level or a tighter one |
| Grammar.LevelLoop | lib/grongigo/parser.rb:426-430 | the `while` loop of a level never moves back and stops only at a token that is no operator of its level or a tighter one |
| Grammar.UnaryAt | lib/grongigo/parser.rb:495-503 | a unary expression consumes input and stops at a token that continues no postfix chain |
| Grammar.PostfixAt | lib/grongigo/parser.rb:505-534 | the same for a primary with its postfix chain |
| Grammar.PostfixLoop | lib/grongigo/parser.rb:508-531 | the `loop do` never moves back and stops only where no `(`, `[`, `++` or `--` follows |
| Grammar.PostfixStep | lib/grongigo/parser.rb:509-530 | no step exactly when the token is none of `(`, `[`, `++`, `--`, and then nothing is consumed; `++`/`--` make a postfix unary node of the expression so far |
| Grammar.CallSuffixAt | lib/grongigo/parser.rb:509-519 | a call of the expression so far that ends at `)`, with no arguments when `)` follows `(` at once |
| Grammar.IndexSuffixAt | lib/grongigo/parser.rb:520-524 | an index of the expression so far that ends at `]` |
| Grammar.ArgumentsAt | lib/grongigo/parser.rb:512-517 | at least one argument, and the list stops at a token that is no comma |
| Grammar.PrimaryAt | lib/grongigo/parser.rb:536-570 | number, string and char tokens give their literals and identifier, other and control keywords an identifier, each taking one token; a group ends at `)`; any other token fails there |
| Grammar.GroupAt | lib/grongigo/parser.rb:562-566 | a parenthesised expression ends at `)` |
| GrammarFacts.ExpressionNested | lib/grongigo/parser.rb:407-493 | without `(`, the tree parsed is formed and well nested: a binary node's left operand binds at least as tightly as it and its right operand more tightly; an assignment target binds more tightly than `=` |
| GrammarFacts.AssignmentNested | lib/grongigo/parser.rb:411-421 | the same for `parse_assignment` |
| GrammarFacts.LevelNested | lib/grongigo/parser.rb:423-493 | without `(`, level `k` builds a well-nested tree that binds at level `k` or tighter |
| GrammarFacts.LevelLoopNested | lib/grongigo/parser.rb:426-430 | the loop of level `k` keeps the tree well nested at level `k` |
| GrammarFacts.UnaryNested | lib/grongigo/parser.rb:495-503 | without `(`, a unary expression is a well-nested unary-level tree |
| GrammarFacts.PostfixNested | lib/grongigo/parser.rb:505-534 | the same for a postfix expression |
| GrammarFacts.PostfixLoopNested | lib/grongigo/parser.rb:508-531 | the postfix loop keeps a unary-level tree |
| GrammarFacts.PostfixStepNested | lib/grongigo/parser.rb:520-527 | one index or `++`/`--` step keeps a unary-level tree |
| GrammarFacts.IndexSuffixNested | lib/grongigo/parser.rb:520-524 | an index of a unary-level tree by a well-nested expression is unary-level |
| GrammarFacts.PrimaryNested | lib/grongigo/parser.rb:536-560 | a primary without `(` is a literal or a name |
| GrammarFacts.NameAtUnary | lib/grongigo/parser.rb:495-534 | a name followed by no `(`, `[`, `++` or `--` is a whole unary expression, one token long |
| GrammarFacts.NameAtLevel | lib/grongigo/parser.rb:423-493 | such a name followed by no operator of level `k` or tighter is a whole operand at level `k` |
| GrammarFacts.LevelLift | lib/grongigo/parser.rb:423-469 | a level-`k + 1` result followed by no operator of level `k` or tighter is the level-`k` result |
| GrammarFacts.ExpressionFromAdditive | lib/grongigo/parser.rb:407-469 | an additive result followed by a token that ends the expression is the whole expression |
| GrammarFacts.SubtractionAssociatesLeft | lib/grongigo/parser.rb:471-481 | the tokens `a - b - c` parse to `(a - b) - c`, consuming the five tokens |
| GrammarFacts.ProductBindsTighter | lib/grongigo/parser.rb:471-493 | the tokens `a + b * c` parse to `a + (b * c)` |
| GrammarFacts.AssignmentAssociatesRight | lib/grongigo/parser.rb:411-421 | the tokens `a = b = c` parse to `a = (b = c)` |
| StatementGrammar.IdentifierNameAt | lib/grongigo/parser.rb:179-187 | succeeds exactly on an identifier or other keyword, taking its text and one token; otherwise fails at that token |
| StatementGrammar.ParameterListAt | lib/grongigo/parser.rb:121-126 | a list takes at least a type and a name, and fails at once at a token that is no type keyword |
| StatementGrammar.ParameterListStep | lib/grongigo/parser.rb:121-126 | one loop iteration: no type fails there, a type without a name fails at the name, and a `type name` pair ends the list or, before a comma, is put before the rest |
| StatementGrammar.ParameterListTriples | lib/grongigo/parser.rb:121-126 | a list of `n` parameters is the type and name tokens at `i + 3m` and `i + 3m + 1`, each type a type keyword, joined by commas, and stops at a token that is no comma |
| StatementGrammar.BareParamsAt | lib/grongigo/parser.rb:134-143 | the bare loop consumes input |
| StatementGrammar.BareParamsList | lib/grongigo/parser.rb:134-143 | a bare list is the type and name tokens joined by commas, ended by a block right after a type (which is dropped) or by a name with no comma after it |
| StatementGrammar.BareParamsStep | lib/grongigo/parser.rb:136-143 | one iteration: at eof it fails; a `{` after the type ends the list; a non-name fails at it; a pair ends the list or, before a comma, is put before the rest |
| StatementGrammar.ParametersAt | lib/grongigo/parser.rb:111-144 | the parameters never move the cursor back |
| StatementGrammar.ParametersShape | lib/grongigo/parser.rb:111-144 | in parentheses: ends at `)`, empty exactly for `()` and `(void)`, otherwise the whole typed list; a bare `void`: none, one token; a bare type: the whole bare list; anything else: none, nothing consumed |
| StatementGrammar.ProgramAt | lib/grongigo/parser.rb:15-22 | a program stops at eof with at most one declaration per token consumed; at eof it is empty |
| StatementGrammar.DeclarationsAt | lib/grongigo/parser.rb:17-20 | the `until` loop stops at eof with at most one declaration per token consumed |
| StatementGrammar.DeclarationAt | lib/grongigo/parser.rb:90-101 | `nil` exactly at eof; otherwise it consumes input, and `パザ` gives a function, a type keyword a function exactly when `(` follows the name, any other token a statement of the form that token selects |
| StatementGrammar.FunctionDeclarationAt | lib/grongigo/parser.rb:103-148 | after `パザ`, a missing return type fails at that token; a function ends at `}` |
| StatementGrammar.FunctionSignatureAt | lib/grongigo/parser.rb:109-147 | after the return type, a missing name fails at that token; a function keeps the return type and ends at `}` |
| StatementGrammar.SignatureYields | lib/grongigo/parser.rb:109-147 | reading the name and then, if it is there, the rest of the function yields exactly what `FunctionSignatureAt` yields |
| StatementGrammar.FunctionBodyAt | lib/grongigo/parser.rb:111-147 | parameters and body give a function that ends at `}` |
| StatementGrammar.FunctionDeclarationShape | lib/grongigo/parser.rb:103-148 | a `パザ` function has the type token after the marker as return type, the name after it, and the parameters `ParametersAt` reads from the next token |
| StatementGrammar.VarOrFuncAt | lib/grongigo/parser.rb:150-177 | a type not followed by a name fails at that token; otherwise a function exactly when `(` follows the name |
| StatementGrammar.DeclarationRestAt | lib/grongigo/parser.rb:156-176 | a function exactly when the current token is `(` |
| StatementGrammar.FunctionRestAt | lib/grongigo/parser.rb:157-170 | the parenthesised parameters and body give a function |
| StatementGrammar.VarOrFuncShape | lib/grongigo/parser.rb:150-177 | a function keeps the type and name, has no parameters exactly when `)` follows `(`, else the whole typed list; a variable keeps the type, name and the initializer `VariableInitAt` reads |
| StatementGrammar.VariableInitAt | lib/grongigo/parser.rb:172-174 | an initializer exactly after `=`; another operator is consumed without one; no operator consumes nothing |
| StatementGrammar.StatementAt | lib/grongigo/parser.rb:190-232 | `nil` exactly at eof, consuming nothing; otherwise the statement form the first token selects, having consumed input |
| StatementGrammar.BlockAt | lib/grongigo/parser.rb:234-247 | fails at a token that is no `{`; a block ends at `}` and holds the statements `BlockItemsAt` reads after `{` |
| StatementGrammar.BlockItemsAt | lib/grongigo/parser.rb:240-243 | the loop stops at `}` or eof, and the first statement has the form its first token selects |
| StatementGrammar.IfStatementAt | lib/grongigo/parser.rb:249-269 | the condition is the expression right after `if` |
| StatementGrammar.ElseBranchAt | lib/grongigo/parser.rb:257-266 | no `else` means no branch and nothing consumed; after `else` the branch is an `if` exactly when `if` follows |
| StatementGrammar.WhileStatementAt | lib/grongigo/parser.rb:271-280 | the condition is the expression after `while` and the body the statement or block after the condition |
| StatementGrammar.ForStatementAt | lib/grongigo/parser.rb:282-308 | a `for` node that consumed the keyword and more |
| StatementGrammar.ForHeaderAt | lib/grongigo/parser.rb:290-304 | the header consumes input |
| StatementGrammar.ForStatementShape | lib/grongigo/parser.rb:282-308 | a bare `for` has only a condition, the expression after the keyword; with `(` the three clauses are those `ForClausesAt` reads after it |
| StatementGrammar.ForClausesAt | lib/grongigo/parser.rb:294-300 | the clauses end at `)`, and the init is absent exactly when `,` comes first |
| StatementGrammar.ForTailAt | lib/grongigo/parser.rb:296-300 | the condition and update end at `)`, at least three tokens on |
| StatementGrammar.OptionalExpressionAt | lib/grongigo/parser.rb:297-299 | a clause is absent exactly when the closing token is current, and then nothing is consumed |
| StatementGrammar.ForInitAt | lib/grongigo/parser.rb:310-316 | the init is a declaration exactly when it starts with a type keyword |
| StatementGrammar.CasesOfMembers | lib/grongigo/parser.rb:330-338 | a case clause is among the switch's cases exactly when it was parsed as a clause |
| StatementGrammar.LastDefaultNone | lib/grongigo/parser.rb:339-344 | there is no default exactly when no `default` clause was parsed |
| StatementGrammar.LastDefaultIsLast | lib/grongigo/parser.rb:344 | a later `default` replaces an earlier one: the default is the last `default` clause parsed |
| StatementGrammar.SwitchStatementAt | lib/grongigo/parser.rb:318-352 | a `switch` consumes at least five tokens, the last one `}` |
| StatementGrammar.SwitchBodyAt | lib/grongigo/parser.rb:326-348 | the clause loop never moves the cursor back |
| StatementGrammar.SwitchStatementShape | lib/grongigo/parser.rb:318-352 | the subject is the expression after `switch`, followed by `{`; the cases are the case clauses in order and the default the last default clause of the clauses read after `{` |
| StatementGrammar.SwitchClausesAt | lib/grongigo/parser.rb:329-348 | the loop stops at a token that is neither `case` nor `default` |
| StatementGrammar.SwitchClausesStep | lib/grongigo/parser.rb:329-348 | one iteration: at `case` or `default` the clause is put before the rest, or its error ends the loop; any other token ends the list |
| StatementGrammar.CaseClauseAt | lib/grongigo/parser.rb:330-338 | a `case` clause consumes at least three tokens |
| StatementGrammar.CaseClauseShape | lib/grongigo/parser.rb:330-338 | its value is the expression after `case`, followed by `:`, and its statements are those `ClauseStatementsAt` reads after `:` |
| StatementGrammar.DefaultClauseAt | lib/grongigo/parser.rb:339-344 | `default` is followed by `:`, and the statements are those read after it |
| StatementGrammar.ClauseStatementsAt | lib/grongigo/parser.rb:335-343 | a clause body stops at `case`, `}` or (for a case body) `default`; eof before that is `Diverges` |
| StatementGrammar.ReturnStatementAt | lib/grongigo/parser.rb:354-366 | `return` has no value exactly when `}`, eof, a control or a type keyword follows; otherwise the value is the expression after it |
| StatementGrammar.ArraySuffixAt | lib/grongigo/parser.rb:375-380 | an array exactly when `[` follows, and then it ends at `]`; otherwise nothing is consumed |
| StatementGrammar.InitializerAt | lib/grongigo/parser.rb:382-386 | no initializer and nothing consumed unless `=` follows; then the expression after it |
| StatementGrammar.VarDeclarationAt | lib/grongigo/parser.rb:368-389 | a type not followed by a name fails at it; the name is the token after the type, and an array appends `[]` to the type |
| StatementGrammar.BlockOrStatementAt | lib/grongigo/parser.rb:391-397 | as `StatementAt`: a block at `{`, otherwise the form the first token selects |
| StatementGrammar.ExpressionStatementAt | lib/grongigo/parser.rb:399-404 | an expression statement around the expression read at the same token |
| StatementFacts.ForTailCommas | lib/grongigo/parser.rb:296-300 | both commas and `)` are consumed; the condition is absent exactly when the second comma follows the first at once, the update exactly when `)` follows the second comma at once; a present clause is the expression between its delimiters |
| StatementFacts.ForClausesCommas | lib/grongigo/parser.rb:294-300 | the init is absent exactly when the first comma comes first, and the rest is the tail `ForTailCommas` describes |
| StatementFacts.TypeWithoutNameFails | lib/grongigo/parser.rb:150-154 | a declaration at a type keyword without a name after it fails at the second token, in `parse_identifier_name`: `ゲギグウ ゲギグウ` is an error |
| StatementFacts.ProgramTypeWithoutNameFails | lib/grongigo/parser.rb:15-22 | a program that opens that way is rejected at its second token |
| Parser.Parser.constructor | lib/grongigo/parser.rb:10-13 | the cursor starts at the first token |
| Parser.Parser.TakeBinaryOperator | lib/grongigo/parser.rb:426-427 | consumes one operator of the loop's level and returns its text |
| Parser.Parser.Advance | lib/grongigo/parser.rb:52-55 | moves one token unless at eof, and returns the token before the cursor (wrapping to the last at 0) |
| Parser.Parser.Match | lib/grongigo/parser.rb:57-65 | matches exactly when the current kind is the one asked for, then moves one token |
| Parser.Parser.Consume | lib/grongigo/parser.rb:77-81 | returns what `Expect` gives and moves past it; on failure the cursor stays |
| Parser.Parser.Parse | lib/grongigo/parser.rb:15-22 | returns the program `ProgramAt` reads from the cursor, or its error, and leaves the cursor at eof |
| Parser.Parser.ParseDeclaration | lib/grongigo/parser.rb:90-101 | returns `DeclarationAt`'s declaration or error and moves past it |
| Parser.Parser.ParseFunctionDeclaration | lib/grongigo/parser.rb:103-148 | computes `FunctionDeclarationAt` |
| Parser.Parser.ParseFunctionSignature | lib/grongigo/parser.rb:109-147 | computes `FunctionSignatureAt` for the return type read |
| Parser.Parser.ParseFunctionBody | lib/grongigo/parser.rb:111-147 | computes `FunctionBodyAt` |
| Parser.Parser.ParseParameters | lib/grongigo/parser.rb:111-144 | computes `ParametersAt`: the whole parameter list in each of the three forms |
| Parser.Parser.ParseParameterList | lib/grongigo/parser.rb:121-126 | the `loop do` computes `ParameterListAt` |
| Parser.Parser.ParseBareParameters | lib/grongigo/parser.rb:134-143 | the bare `loop do` computes `BareParamsAt` |
| Parser.Parser.ParseVarOrFuncDeclaration | lib/grongigo/parser.rb:150-177 | computes `VarOrFuncAt` |
| Parser.Parser.ParseDeclarationRest | lib/grongigo/parser.rb:156-176 | computes `DeclarationRestAt` |
| Parser.Parser.ParseFunctionRest | lib/grongigo/parser.rb:157-170 | computes `FunctionRestAt` |
| Parser.Parser.ParseVariableInit | lib/grongigo/parser.rb:172-174 | computes `VariableInitAt` |
| Parser.Parser.ParseIdentifierName | lib/grongigo/parser.rb:179-187 | computes `IdentifierNameAt` |
| Parser.Parser.ParseStatement | lib/grongigo/parser.rb:190-232 | computes `StatementAt` |
| Parser.Parser.ParseBlock | lib/grongigo/parser.rb:234-247 | computes `BlockAt` |
| Parser.Parser.ParseBlockItems | lib/grongigo/parser.rb:239-243 | the `until` loop computes `BlockItemsAt` |
| Parser.Parser.ParseIfStatement | lib/grongigo/parser.rb:249-269 | computes `IfStatementAt` |
| Parser.Parser.ParseElseBranch | lib/grongigo/parser.rb:257-266 | computes `ElseBranchAt` |
| Parser.Parser.ParseWhileStatement | lib/grongigo/parser.rb:271-280 | computes `WhileStatementAt` |
| Parser.Parser.ParseForStatement | lib/grongigo/parser.rb:282-308 | computes `ForStatementAt` |
| Parser.Parser.ParseForHeader | lib/grongigo/parser.rb:290-304 | computes `ForHeaderAt` |
| Parser.Parser.ParseForClauses | lib/grongigo/parser.rb:294-300 | computes `ForClausesAt` |
| Parser.Parser.ParseForTail | lib/grongigo/parser.rb:296-300 | computes `ForTailAt` |
| Parser.Parser.ParseOptionalExpression | lib/grongigo/parser.rb:297-299 | computes `OptionalExpressionAt` |
| Parser.Parser.ParseForInit | lib/grongigo/parser.rb:310-316 | computes `ForInitAt` |
| Parser.Parser.ParseSwitchStatement | lib/grongigo/parser.rb:318-352 | computes `SwitchStatementAt` |
| Parser.Parser.ParseSwitchBody | lib/grongigo/parser.rb:326-348 | the `until` loop computes `SwitchBodyAt`: the case clauses in order and the last default clause |
| Parser.Parser.ParseSwitchItem | lib/grongigo/parser.rb:330-344 | one clause of the loop, consistent with `SwitchClausesAt`: the clause put before the rest, or the error that ends the loop |
| Parser.Parser.ParseCaseClause | lib/grongigo/parser.rb:330-338 | computes `CaseClauseAt` |
| Parser.Parser.ParseDefaultClause | lib/grongigo/parser.rb:339-344 | computes `DefaultClauseAt` |
| Parser.Parser.ParseClauseStatements | lib/grongigo/parser.rb:335-343 | the inner `until` loop computes `ClauseStatementsAt` |
| Parser.Parser.ParseReturnStatement | lib/grongigo/parser.rb:354-366 | computes `ReturnStatementAt` |
| Parser.Parser.ParseVarDeclaration | lib/grongigo/parser.rb:368-389 | computes `VarDeclarationAt` |
| Parser.Parser.ParseArraySuffix | lib/grongigo/parser.rb:375-380 | computes `ArraySuffixAt` |
| Parser.Parser.ParseInitializer | lib/grongigo/parser.rb:382-386 | computes `InitializerAt` |
| Parser.Parser.ParseBlockOrStatement | lib/grongigo/parser.rb:391-397 | computes `BlockOrStatementAt` |
| Parser.Parser.ParseExpressionStatement | lib/grongigo/parser.rb:399-404 | computes `ExpressionStatementAt` |
| Parser.Parser.ParseExpression | lib/grongigo/parser.rb:407-409 | computes `ExpressionAt` |
| Parser.Parser.ParseAssignment | lib/grongigo/parser.rb:411-421 | computes `AssignmentAt` (right-associative `=`) |
| Parser.Parser.ParseOr | lib/grongigo/parser.rb:423-433 | computes `LevelAt` at level 1 (left-associative `\|\|`) |
| Parser.Parser.ParseAnd | lib/grongigo/parser.rb:435-445 | computes `LevelAt` at level 2 (`&&`) |
| Parser.Parser.ParseEquality | lib/grongigo/parser.rb:447-457 | computes `LevelAt` at level 3 (`==`, `!=`) |
| Parser.Parser.ParseComparison | lib/grongigo/parser.rb:459-469 | computes `LevelAt` at level 4 (relations) |
| Parser.Parser.ParseTerm | lib/grongigo/parser.rb:471-481 | computes `LevelAt` at level 5 (`+`, `-`) |
| Parser.Parser.ParseFactor | lib/grongigo/parser.rb:483-493 | computes `LevelAt` at level 6 (`*`, `/`, `%`) |
| Parser.Parser.ParseBinaryLoop | lib/grongigo/parser.rb:426-430 | the `while` loop shared by the six levels computes `LevelLoop` |
| Parser.Parser.ParseOperand | lib/grongigo/parser.rb:424-488 | the operand of level `k`: `LevelAt` at level `k + 1`, or `UnaryAt` below level 6 |
| Parser.Parser.ParseUnary | lib/grongigo/parser.rb:495-503 | computes `UnaryAt` |
| Parser.Parser.ParsePostfix | lib/grongigo/parser.rb:505-534 | the `loop do` computes `PostfixAt` |
| Parser.Parser.ParsePostfixOperator | lib/grongigo/parser.rb:509-530 | computes `PostfixStep` |
| Parser.Parser.ParseCallSuffix | lib/grongigo/parser.rb:509-519 | computes `CallSuffixAt` |
| Parser.Parser.ParseIndexSuffix | lib/grongigo/parser.rb:520-524 | computes `IndexSuffixAt` |
| Parser.Parser.ParseArguments | lib/grongigo/parser.rb:512-517 | the argument loop computes `ArgumentsAt` |
| Parser.Parser.ParsePrimary | lib/grongigo/parser.rb:536-570 | computes `PrimaryAt` |
| Parser.Parser.ParseGroup | lib/grongigo/parser.rb:562-566 | computes `GroupAt` |
| CodeText.LineEnd | lib/grongigo/codegen.rb:303 | where the first line ends: no newline before it, and a newline at it unless it is the end |
| CodeText.IdentifierIsOwnLine | lib/grongigo/codegen.rb:303 | a C identifier passes the line-anchored pattern |
| CodeText.SanitizeName | lib/grongigo/codegen.rb:301-310 | the result always passes the pattern; a passing name is kept; any other non-reserved name becomes a C identifier |
| CodeText.ReservedNamesMatchPattern | lib/grongigo/codegen.rb:306 | `main`, `printf`, `scanf` and `NULL` already pass the pattern |
| CodeText.SanitizeNameIdempotent | lib/grongigo/codegen.rb:301-310 | sanitising twice is sanitising once |
| CodeText.RomanPairLetters | lib/grongigo/codegen.rb:330 | two-character entries are nonempty lower-case letters |
| CodeText.RomanCharLetters | lib/grongigo/codegen.rb:314-331 | one-character entries are nonempty letters or `_` |
| CodeText.RomanizeLetters | lib/grongigo/codegen.rb:334-349 | the transcription uses only `[a-z_]` and has at least one letter per two characters |
| CodeText.RomanizeAllRoman | lib/grongigo/codegen.rb:334-349 | every character of the transcription is a lower-case letter or `_` |
| CodeText.RomanizeLength | lib/grongigo/codegen.rb:334-349 | the transcription has at least one character for every two characters of the text |
| CodeText.Romanize | lib/grongigo/codegen.rb:312-355 | `katakana2roman` always yields a C identifier |
| CodeText.RomanizeNeverStartsWithDigit | lib/grongigo/codegen.rb:351-352 | the transcription never starts a line with a digit, so the `_` prefix never applies |
| CodeText.RomanizeIsTranscription | lib/grongigo/codegen.rb:351-354 | the result is the transcription, or `var` for empty text |
| CodeText.ReplaceAllAppend | lib/grongigo/codegen.rb:357-363 | one `gsub` distributes over concatenation |
| CodeText.ReplaceAllKeeps | lib/grongigo/codegen.rb:357-363 | one `gsub` by nonempty text never shortens the string, and leaves only replacement characters or characters of the input other than the pattern |
| CodeText.EscapeString | lib/grongigo/codegen.rb:357-363 | `escape_string`'s five `gsub`s in order: no raw newline, tab or carriage return is left, and nothing is dropped |
| CodeText.EscapeEach | lib/grongigo/codegen.rb:357-363 | per-character escaping leaves no raw newline, tab or carriage return |
| CodeText.EscapeStringAppend | lib/grongigo/codegen.rb:357-363 | the `gsub` chain distributes over concatenation |
| CodeText.EscapeStringOneChar | lib/grongigo/codegen.rb:357-363 | the chain maps `"`, newline, tab and CR to their escapes and keeps everything else, backslash included |
| CodeText.EscapeStringIsPerChar | lib/grongigo/codegen.rb:357-363 | the five `gsub`s equal one per-character escape |
| CodeText.EscapeStringConflatesBackslash | lib/grongigo/codegen.rb:358-360 | backslash-`n` and a newline escape to the same text |
| CodeText.EscapeChar | lib/grongigo/codegen.rb:365-383 | the escape is one or two characters |
| CodeText.EscapeCharRoundTrip | lib/grongigo/codegen.rb:365-383 | read as a C character constant, the escape is the first character, or `\0` for empty text |
| CodeText.WithNewline | lib/grongigo/codegen.rb:253-255 | the format string ends with backslash-`n` or a newline |
| CodeText.WithNewlineIdempotent | lib/grongigo/codegen.rb:253-255 | adding the newline twice adds it once |
| CodeText.PrintfArgs | lib/grongigo/codegen.rb:244-263 | only a `printf`/`ジョウジ` call with a string first argument is rewritten, only in that argument |
| CodeText.PrintfArgsIdempotent | lib/grongigo/codegen.rb:244-263 | rewriting twice is rewriting once |
| CodeText.CallPrintsRewrittenArgs | lib/grongigo/codegen.rb:243-270 | a call prints as the callee and the rewritten arguments joined by `, ` |
| CodeText.PrintfRewriteStable | lib/grongigo/codegen.rb:243-270 | printing an already rewritten call gives the same text |
| CodeText.GenerateExpr | lib/grongigo/codegen.rb:272-299 | `generate_expr`: binary expressions fully parenthesised, names sanitised, literals escaped, the `printf` format rewritten; a binary expression prints between `(` and `)`, and a string literal between quotes with no raw newline |
| CodeLines.StmtLinesIndented | lib/grongigo/codegen.rb:33-43 | every line of a statement starts with at least its level's padding |
| CodeLines.SimpleLineIndented | lib/grongigo/codegen.rb:86-116 | one-line statements are padded to their level |
| CodeLines.IfLinesIndented | lib/grongigo/codegen.rb:118-170 | the same for `if` / `else if` / `else` |
| CodeLines.LoopLinesIndented | lib/grongigo/codegen.rb:172-196 | the same for `while` and `for` |
| CodeLines.SwitchLinesIndented | lib/grongigo/codegen.rb:212-233 | the same for `switch`, whose labels are dedented one level inside the braces |
| CodeLines.BodyLinesIndented | lib/grongigo/codegen.rb:120-126 | a body (block, or statement one level in) stays at or beyond its level |
| CodeLines.ElseLinesIndented | lib/grongigo/codegen.rb:128-143 | the else part stays at or beyond its level |
| CodeLines.BlockLinesIndented | lib/grongigo/codegen.rb:64-70 | a block stays at or beyond its level |
| CodeLines.StmtsLinesIndented | lib/grongigo/codegen.rb:67 | a statement sequence stays at or beyond its level |
| CodeLines.CasesLinesIndented | lib/grongigo/codegen.rb:217-222 | case clauses stay at or beyond their level |
| CodeLines.DefaultLinesIndented | lib/grongigo/codegen.rb:224-229 | the default clause stays at or beyond its level |
| CodeLines.DeclLinesIndented | lib/grongigo/codegen.rb:45-62 | a declaration stays at or beyond its level |
| CodeLines.DeclsLinesIndented | lib/grongigo/codegen.rb:23-26 | all declarations with their blank lines do too |
| CodeLines.ProgramLinesIndented | lib/grongigo/codegen.rb:13-29 | the whole output does too |
| CodeLines.RunAppend | lib/grongigo/codegen.rb:64-70 | matching braces over two line lists is matching over the first, then over the second from the braces left open |
| CodeLines.RunUnder | lib/grongigo/codegen.rb:64-70 | braces opened further out do not change how a list's braces match |
| CodeLines.BracketedAppend | lib/grongigo/codegen.rb:64-70 | bracketed line lists stay bracketed when appended |
| CodeLines.BracketedWrap | lib/grongigo/codegen.rb:64-70 | a bracketed list between a `{` line and a `}` line at the same padding is bracketed |
| CodeLines.StmtLinesBracketed | lib/grongigo/codegen.rb:64-70 | in a statement's lines every `}` line closes the innermost open `{` line, at the same padding, and every `{` line is closed |
| CodeLines.SimpleLineBracketed | lib/grongigo/codegen.rb:86-116 | one-line statements open and close no braces |
| CodeLines.IfLinesBracketed | lib/grongigo/codegen.rb:118-170 | the same bracketing for `if` |
| CodeLines.LoopLinesBracketed | lib/grongigo/codegen.rb:172-196 | the same bracketing for loops |
| CodeLines.SwitchLinesBracketed | lib/grongigo/codegen.rb:212-233 | the same bracketing for `switch` |
| CodeLines.BodyLinesBracketed | lib/grongigo/codegen.rb:120-126 | the same bracketing for bodies |
| CodeLines.ElseLinesBracketed | lib/grongigo/codegen.rb:128-143 | the same bracketing for else parts |
| CodeLines.BlockLinesBracketed | lib/grongigo/codegen.rb:64-70 | the same bracketing for blocks |
| CodeLines.StmtsLinesBracketed | lib/grongigo/codegen.rb:67 | the same bracketing for statement sequences |
| CodeLines.CasesLinesBracketed | lib/grongigo/codegen.rb:217-222 | the same bracketing for case clauses |
| CodeLines.DefaultLinesBracketed | lib/grongigo/codegen.rb:224-229 | the same bracketing for the default clause |
| CodeLines.DeclLinesBracketed | lib/grongigo/codegen.rb:45-62 | the same bracketing for a declaration |
| CodeLines.DeclsLinesBracketed | lib/grongigo/codegen.rb:23-26 | the same bracketing for all declarations |
| CodeLines.ProgramLinesBracketed | lib/grongigo/codegen.rb:13-29 | the whole output is bracketed: each `}` line closes the innermost open `{` line at its own padding |
| CodeLines.IfLinesShape | lib/grongigo/codegen.rb:118-144 | an `if` is printable exactly when its branches are, and prints its header, then-body and else part |
| CodeLines.LoopLinesShape | lib/grongigo/codegen.rb:172-196 | a loop prints its `while (…)` or `for (init; cond; update)` header and then its body |
| CodeLines.SwitchLinesShape | lib/grongigo/codegen.rb:212-233 | a `switch` prints its header, `{`, its cases and default, and `}` |
| CodeLines.VarDeclText | lib/grongigo/codegen.rb:99-116 | `generate_var_decl`: the line ends in `;`; a type ending in `[]` is written `T name[]` (Ruby's `type[0..-3]`), any other as `type name` |
| CodeLines.ForInitText | lib/grongigo/codegen.rb:198-210 | `generate_for_init`: a declared init is its declaration line without the `;` exactly when its type is not an array type, since the array rule is not applied there |
| CodeLines.ParamsText | lib/grongigo/codegen.rb:56-58 | the parameters joined by `, `; the list is `void` exactly for a parameterless `main`, and empty for any other parameterless function |
| CodeLines.FunctionHeader | lib/grongigo/codegen.rb:56-60 | `return_type name(params)`; a parameterless function ends in `(void)` exactly when it is `main` |
| CodeGen.CodeGenerator.constructor | lib/grongigo/codegen.rb:8-11 | no output, level 0 |
| CodeGen.CodeGenerator.Emit | lib/grongigo/codegen.rb:33-35 | appends one line padded with 4 spaces per level |
| CodeGen.CodeGenerator.Indent | lib/grongigo/codegen.rb:37-39 | one level deeper, output unchanged |
| CodeGen.CodeGenerator.Dedent | lib/grongigo/codegen.rb:41-43 | one level shallower, output unchanged |
| CodeGen.CodeGenerator.Generate | lib/grongigo/codegen.rb:13-29 | fails exactly on a program with a missing statement; otherwise the output is the includes, a blank line and each declaration followed by a blank line, joined by newlines |
| CodeGen.CodeGenerator.EmitPreamble | lib/grongigo/codegen.rb:16-20 | the three `#include` lines and a blank line |
| CodeGen.CodeGenerator.GenerateDeclarationLines | lib/grongigo/codegen.rb:23-26 | one declaration and its blank line |
| CodeGen.CodeGenerator.GenerateDeclaration | lib/grongigo/codegen.rb:45-54 | a function or a statement declaration, with level restored |
| CodeGen.CodeGenerator.GenerateFunction | lib/grongigo/codegen.rb:56-62 | the signature line and the body block |
| CodeGen.CodeGenerator.GenerateBlock | lib/grongigo/codegen.rb:64-70 | `{`, the statements one level in, `}`, with level restored |
| CodeGen.CodeGenerator.GenerateStatements | lib/grongigo/codegen.rb:67 | the statements' lines in order, with level restored |
| CodeGen.CodeGenerator.GenerateStatement | lib/grongigo/codegen.rb:72-97 | the exhaustive dispatch: the statement's lines, level restored; fails exactly on a missing sub-statement |
| CodeGen.CodeGenerator.GenerateBody | lib/grongigo/codegen.rb:120-126 | a block as is, any other statement one level in |
| CodeGen.CodeGenerator.GenerateIf | lib/grongigo/codegen.rb:118-144 | `if (cond)`, the then-body and the else part |
| CodeGen.CodeGenerator.GenerateElse | lib/grongigo/codegen.rb:128-143 | nothing, an `else if` chain, or `else` and a body |
| CodeGen.CodeGenerator.GenerateElseIf | lib/grongigo/codegen.rb:130-134 | an `else` line that the nested `if` turns into one `else if (cond)` line |
| CodeGen.CodeGenerator.GenerateIfAsElse | lib/grongigo/codegen.rb:146-170 | appends ` if (cond)` to the last line in place, then the body and else part |
| CodeGen.CodeGenerator.GenerateLoop | lib/grongigo/codegen.rb:172-196 | the loop header and body, level restored |
| CodeGen.CodeGenerator.GenerateSwitch | lib/grongigo/codegen.rb:212-233 | the `switch` header and its braced block |
| CodeGen.CodeGenerator.GenerateSwitchBlock | lib/grongigo/codegen.rb:214-232 | `{`, the cases and default, `}`, level restored |
| CodeGen.CodeGenerator.GenerateCases | lib/grongigo/codegen.rb:217-222 | each `case v:` label one level out, then its statements |
| CodeGen.CodeGenerator.GenerateCase | lib/grongigo/codegen.rb:218-221 | one `case v:` label one level out, then its statements |
| CodeGen.CodeGenerator.GenerateDefault | lib/grongigo/codegen.rb:224-229 | `default:` one level out, then its statements, if there is a default |
| CodeGen.Katakana2Roman | lib/grongigo/codegen.rb:312-355 | the `while` loop computes `Romanize` |
| CodeGen.RomanUnit | lib/grongigo/codegen.rb:338-348 | one step tries the two-character entry first, then the one-character entry, then `_`, consuming one or two characters |
| CodeGen.ElseIfLines | lib/grongigo/codegen.rb:130-134 | the `else` line with ` if (cond)` appended is the `else if` part |
| CodeGen.ElseLinesIf | lib/grongigo/codegen.rb:146-147 | an else-if link is one `else if (cond)` line followed by its body and else part |
| CodeGen.GeneratedTextStartsWithIncludes | lib/grongigo/codegen.rb:13-29 | every generated text starts with the three include lines and a newline |
| CodeGen.EmptyProgramText | lib/grongigo/codegen.rb:13-29 | an empty program is exactly the include lines and a blank line |
| CodeGen.MainTakesVoid | lib/grongigo/codegen.rb:56-60 | `main` without parameters prints `(void)`; other functions print `()` |
| Jp2Grg.ConvertChar | lib/grongigo/jp2grg.rb:66-71 | a table character becomes its image; any other is copied; either way one or two characters |
| Jp2Grg.NounFrom | lib/grongigo/jp2grg.rb:53-59 | a found proper noun occurs at the position |
| Jp2Grg.NounFromFirst | lib/grongigo/jp2grg.rb:53-59 | the noun found is the first in list order that occurs there; none found means none occurs |
| Jp2Grg.ProperNounsWellFormed | lib/grongigo/constants.rb:96-105 | no proper noun is empty or a prefix of another |
| Jp2Grg.Convert | lib/grongigo/jp2grg.rb:46-77 | the `while` loop computes the conversion |
| Jp2Grg.ConvertStep | lib/grongigo/jp2grg.rb:52-73 | one iteration over the proper-noun list emits a piece and moves forward by its width, consistently with the conversion |
| Jp2Grg.TableImage | lib/grongigo/jp2grg.rb:6-44 | `CONVERSION_TABLE`, entry by entry; every image is one or two characters |
| Jp2Grg.ConvertFrom | lib/grongigo/jp2grg.rb:51-73 | the nested loops of `convert` from a position as one recursion; the result is one to two times as long as the rest of the text |
| Jp2Grg.Converted | lib/grongigo/jp2grg.rb:46-77 | what `convert` returns: at least as long as the text and at most twice as long |
| Jp2Grg.ConvertFromUnfold | lib/grongigo/jp2grg.rb:51-73 | the nested loops: a matching noun is copied and skipped, a non-matching one passed over, and after the list one character is converted |
| Jp2Grg.ConvertAt | lib/grongigo/jp2grg.rb:53-73 | at each position the first matching noun is copied, otherwise one character converted |
| Jp2Grg.ConvertUnchanged | lib/grongigo/jp2grg.rb:46-77 | text with no table character is returned unchanged (so is the empty text) |
| Jp2Grg.WordKeptVerbatim | lib/grongigo/jp2grg.rb:53-64 | with a prefix-free list, a word at the front is copied whatever its place in the list |
| Jp2Grg.NounKeptVerbatim | lib/grongigo/jp2grg.rb:61-64 | a proper noun at the front is copied verbatim and the rest converted after it |
| Jp2Grg.ConvertReplacesChar | lib/grongigo/jp2grg.rb:65-73 | outside proper nouns a character is replaced by its image, or copied if it has none |
| Jp2Grg.Base9 | lib/grongigo/jp2grg.rb:86-91 | base-9 digits are below 9 with a nonzero leading digit |
| Jp2Grg.Numeral | lib/grongigo/jp2grg.rb:80-115 | negative gives the empty join; 1..8 give their digit words |
| Jp2Grg.Num2Grg | lib/grongigo/jp2grg.rb:80-115 | the method computes `Numeral` |
| Jp2Grg.ToBase9 | lib/grongigo/jp2grg.rb:86-91 | the divide-and-`unshift` loop computes the base-9 digits |
| Jp2Grg.DigitParts | lib/grongigo/jp2grg.rb:97-112 | the loop computes `Parts`: one part per nonzero digit, most significant first |
| Jp2Grg.SmallNumerals | lib/grongigo/jp2grg.rb:81-94 | 0 is `ゼゼソ`, 1..8 are their digit words |
| NumeralTrip.ScanSpelled | lib/grongigo/lexer.rb:261-296 | the numeral tokenizer reads back the units of any spelled numeral |
| NumeralTrip.PartText | lib/grongigo/jp2grg.rb:101-110 | a part's units spell the part's text |
| NumeralTrip.PartsText | lib/grongigo/jp2grg.rb:97-112 | the parts' units spell the parts |
| NumeralTrip.JoinText | lib/grongigo/jp2grg.rb:114 | the `ド` join of spelled parts is spelled and spells the joined text |
| NumeralTrip.EvalJoin | lib/grongigo/lexer.rb:298-334 | the evaluator gives the joined parts the value of the base-9 digits |
| NumeralTrip.Base9Value | lib/grongigo/jp2grg.rb:86-91 | the base-9 digits of n have value n |
| NumeralTrip.NumeralRoundTrip | lib/grongigo/jp2grg.rb:80-115 | for every n ≥ 0 the lexer reads `num2grg(n)` back as n |

## Left out

- `lib/grongigo/compiler.rb` is not part of this model. It only orchestrates the stages and does file I/O and logging.
- `check_value`, `match_value` and `consume_value` in `lib/grongigo/parser.rb` are not modelled. No parser path calls them.
- `Token#to_s` and `inspect`, and `ParseError` message texts, are left out. An error carries its token instead.
- The line and column fields of AST nodes are left out. No property needs them.
- Floating-point literals are kept as their raw text. Ruby's `to_f` and `to_s` normalisation is not modelled.
- `JAPANESE_TO_GRONGIGO` is left out. No code uses it.
- The exact-match branch `lib/grongigo/lexer.rb:215` is not modelled. It is dead code: the bracket-prefix loop above it already returns for every bracket word.
- GrammarFacts.ExpressionNested: well nesting is stated only for token ranges without `(`. Inside a parenthesised group the tree may bind more loosely than its position, which `WellNested` does not allow for.
- StatementGrammar.ClauseStatementsAt: returns `Diverges` where the Ruby loop never ends (a clause body reaching eof).
- CodeGen.CodeGenerator.Generate: leaves the output unspecified when it fails. The Ruby generator raises part-way through instead.
- CodeLines.StmtLinesBracketed: counts lines that are a lone `{` or `}` after spaces. Braces inside string literals or expressions are not counted.
- Lexing.ClassifyWord: the lemma that classification agrees with a whole `ALL_KEYWORDS` lookup is stated instead per table (`ClassifiedKeyword`, `AllKeywordsValue`).
- Tables: that each table has distinct keys is implicit in Dafny's map literals. A duplicate key in the Ruby hashes would be rejected there too.
