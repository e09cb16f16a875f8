/**
 * The lexer of lib/grongigo/lexer.rb, part 2: the `Lexer` object, which walks the source
 * with a cursor and a running line and column, and the numeral helpers it calls. Each
 * method is proved to compute what the functions of module Lexing describe.
 */
module Lexer {
  import opened Wrappers
  import opened Text
  import opened Tables
  import opened Tokens
  import opened Lexing

  /** Appends a known prefix of units to a scan that may have failed. */
  function Then(prefix: seq<NumeralUnit>, rest: Option<seq<NumeralUnit>>): Option<seq<NumeralUnit>> {
    if rest.None? then None else Some(prefix + rest.value)
  }

  lemma ThenCons(prefix: seq<NumeralUnit>, u: NumeralUnit, rest: Option<seq<NumeralUnit>>)
    ensures Then(prefix, Cons(u, rest)) == Then(prefix + [u], rest)
  {
    if rest.Some? {
      assert prefix + ([u] + rest.value) == (prefix + [u]) + rest.value;
    }
  }

  /** `tokenize_number_expression`: split a word into digit words, `ド` and `グ`; [] if anything is left over. */
  method TokenizeNumberExpression(word: string) returns (units: seq<NumeralUnit>)
    ensures units == NumeralUnits(word)
  {
    units := [];
    var remaining := word;
    assert Then(units, ScanUnits(remaining)) == ScanUnits(word) by {
      if ScanUnits(word).Some? {
        assert [] + ScanUnits(word).value == ScanUnits(word).value;
      }
    }
    while |remaining| > 0
      invariant Then(units, ScanUnits(remaining)) == ScanUnits(word)
      decreases |remaining|
    {
      var matched := false;
      var j := 0;
      while j < |DigitWords|
        invariant 0 <= j <= |DigitWords|
        invariant DigitPrefixFrom(remaining, j) == DigitPrefix(remaining)
        decreases |DigitWords| - j
      {
        if StartsWith(remaining, DigitWords[j]) {
          matched := true;
          break;
        }
        j := j + 1;
      }
      if matched {
        assert DigitPrefix(remaining) == Some(j);
        ThenCons(units, Digit(j), ScanUnits(remaining[|DigitWords[j]|..]));
        units := units + [Digit(j)];
        remaining := remaining[|DigitWords[j]|..];
        continue;
      }
      if remaining[0] == AddChar {
        ThenCons(units, AddUnit, ScanUnits(remaining[1..]));
        units := units + [AddUnit];
        remaining := remaining[1..];
      } else if remaining[0] == MultiplyChar {
        ThenCons(units, MulUnit, ScanUnits(remaining[1..]));
        units := units + [MulUnit];
        remaining := remaining[1..];
      } else {
        break;
      }
    }
    if |remaining| > 0 {
      return [];
    }
    assert units + [] == units;
  }

  /** `evaluate_number_expression`: products bind tighter than sums; None on a misplaced unit. */
  method EvaluateNumberExpression(units: seq<NumeralUnit>) returns (r: Option<int>)
    ensures r == Evaluate(units)
  {
    if |units| == 0 {
      return None;
    }
    var result := 0;
    var currentProduct: Option<int> := None;
    var i := 0;
    while i < |units|
      invariant 0 <= i <= |units|
      invariant EvalFrom(units, i, result, currentProduct) == Evaluate(units)
      decreases |units| - i
    {
      match units[i] {
        case Digit(d) =>
          if currentProduct.Some? {
            return None;
          }
          currentProduct := Some(d);
        case MulUnit =>
          i := i + 1;
          if i >= |units| || !units[i].Digit? {
            return None;
          }
          currentProduct := Some(currentProduct.GetOr(1) * units[i].value);
        case AddUnit =>
          result := result + currentProduct.GetOr(0);
          currentProduct := None;
      }
      i := i + 1;
    }
    r := Some(result + currentProduct.GetOr(0));
  }

  /** `try_parse_number` with `parse_compound_number`: a digit word, else a compound numeral, else None. */
  method TryParseNumber(word: string) returns (r: Option<int>)
    ensures r == ParseNumeral(word)
  {
    if word in DIGITS {
      return Some(DIGITS[word]);
    }
    if |word| == 0 {
      return None;
    }
    var units := TokenizeNumberExpression(word);
    if |units| == 0 {
      return None;
    }
    r := EvaluateNumberExpression(units);
  }

  /** Moving the first token of what is left onto the tokens already emitted keeps their concatenation. */
  lemma PushStep(done: seq<Token>, token: Token, rest: seq<Token>, whole: seq<Token>, all: seq<Token>)
    requires done + whole == all && whole == [token] + rest
    ensures (done + [token]) + rest == all
  {
    assert (done + [token]) + rest == done + ([token] + rest);
  }

  /** The lexer state: the source, a cursor into it, the cursor's line and column, and the tokens so far. */
  class Lexer {
    const source: string
    var pos: nat
    var line: nat
    var column: nat
    var tokens: seq<Token>

    /** The cursor is inside the source and `line`/`column` are those of the cursor. */
    ghost predicate Valid()
      reads this
    {
      pos <= |source| && line == LineAt(source, pos) && column == ColumnAt(source, pos)
    }

    constructor(source: string)
      ensures this.source == source && pos == 0 && line == 1 && column == 1 && tokens == []
      ensures Valid()
    {
      this.source := source;
      pos := 0;
      line := 1;
      column := 1;
      tokens := [];
    }

    /** `tokenize`: the whole token sequence from the cursor on, ending in one eof token. */
    method Tokenize() returns (result: seq<Token>)
      requires Valid()
      modifies this`pos, this`line, this`column, this`tokens
      ensures Valid() && pos == |source|
      ensures result == tokens == TokenizeFrom(source, old(pos))
    {
      tokens := [];
      ghost var all := TokenizeFrom(source, pos);
      TokenizeLoop(all);
      PushEof(all);
      result := tokens;
    }

    /** The `while` loop of `tokenize`: rounds until the cursor reaches the end of the source. */
    method TokenizeLoop(ghost all: seq<Token>)
      requires Valid() && tokens + TokenizeFrom(source, pos) == all
      modifies this`pos, this`line, this`column, this`tokens
      ensures Valid() && pos == |source| && tokens + TokenizeFrom(source, pos) == all
    {
      while pos < |source|
        invariant Valid()
        invariant tokens + TokenizeFrom(source, pos) == all
        decreases |source| - pos
      {
        TokenizeRound(all);
      }
    }

    /** One pass of the loop of `tokenize`: skip layout, then read one token unless the source is used up. */
    method TokenizeRound(ghost all: seq<Token>)
      requires Valid() && pos < |source|
      requires tokens + TokenizeFrom(source, pos) == all
      modifies this`pos, this`line, this`column, this`tokens
      ensures Valid() && old(pos) < pos
      ensures tokens + TokenizeFrom(source, pos) == all
    {
      ghost var before := pos;
      SkipWhitespaceAndComments();
      assert TokenizeFrom(source, pos) == TokenizeFrom(source, before) by {
        TokenizeAfterLayout(source, before);
      }
      if pos >= |source| {
        return;
      }
      ghost var at := pos;
      var token := NextToken();
      assert TokenizeFrom(source, at) == [token] + TokenizeFrom(source, pos) by {
        TokenizeAtToken(source, before);
      }
      PushStep(tokens, token, TokenizeFrom(source, pos), TokenizeFrom(source, at), all);
      tokens := tokens + [token];
    }

    /** The end of `tokenize`: the end-of-file token at the final line and column completes the tokens. */
    method PushEof(ghost all: seq<Token>)
      requires Valid() && pos == |source|
      requires tokens + TokenizeFrom(source, pos) == all
      modifies this`tokens
      ensures tokens == all
    {
      TokenizeAtEnd(source);
      tokens := tokens + [Token(Eof, Nil, line, column)];
    }

    /** `advance(n)`: move the cursor `n` characters, counting lines and columns. */
    method Advance(n: nat)
      requires Valid() && pos + n <= |source|
      modifies this`pos, this`line, this`column
      ensures Valid() && pos == old(pos) + n
    {
      var k := 0;
      while k < n
        invariant 0 <= k <= n && pos == old(pos) + k && Valid()
        decreases n - k
      {
        if source[pos] == '\n' {
          line := line + 1;
          column := 1;
        } else {
          column := column + 1;
        }
        pos := pos + 1;
        k := k + 1;
      }
    }

    /** `skip_whitespace_and_comments`: blanks, newlines, line comments and block comments. */
    method SkipWhitespaceAndComments()
      requires Valid()
      modifies this`pos, this`line, this`column
      ensures Valid() && pos == SkipLayout(source, old(pos))
    {
      while true
        invariant Valid() && old(pos) <= pos
        invariant SkipLayout(source, pos) == SkipLayout(source, old(pos))
        decreases |source| - pos
      {
        ghost var start := pos;
        var done := SkipLayoutRound();
        RoundKeepsLayout(source, start);
        if done {
          return;
        }
      }
    }

    /** One pass of the loop of `skip_whitespace_and_comments`: blanks, then at most one newline or comment. */
    method SkipLayoutRound() returns (done: bool)
      requires Valid()
      modifies this`pos, this`line, this`column
      ensures Valid() && (pos, done) == LayoutRound(source, old(pos))
    {
      SkipBlankRun();
      if pos < |source| && source[pos] == '\n' {
        Advance(1);
        return false;
      }
      if StartsAt(source, pos, "ゴゴ") {
        SkipLineComment();
        return false;
      }
      if StartsAt(source, pos, "ゴビ") {
        SkipBlockComment();
        return false;
      }
      return true;
    }

    /** A `ゴゴ` line comment: the opener, then everything up to the newline. */
    method SkipLineComment()
      requires Valid() && pos + 2 <= |source|
      modifies this`pos, this`line, this`column
      ensures Valid() && pos == LineCommentEnd(source, old(pos) + 2)
    {
      Advance(2);
      SkipToNewline();
    }

    /** A `ゴビ` block comment: the opener, then everything up to and including `ビゴ`. */
    method SkipBlockComment()
      requires Valid() && pos + 2 <= |source|
      modifies this`pos, this`line, this`column
      ensures Valid() && pos == BlockCommentEnd(source, old(pos) + 2)
    {
      Advance(2);
      SkipPastBlockEnd();
    }

    /** The blank-skipping loop of `skip_whitespace_and_comments`. */
    method SkipBlankRun()
      requires Valid()
      modifies this`pos, this`line, this`column
      ensures Valid() && pos == SkipBlanks(source, old(pos))
    {
      while pos < |source| && IsBlank(source[pos])
        invariant Valid() && old(pos) <= pos <= SkipBlanks(source, old(pos))
        invariant SkipBlanks(source, pos) == SkipBlanks(source, old(pos))
        decreases |source| - pos
      {
        Advance(1);
      }
    }

    /** The body of a line comment: up to the newline, which is left for the caller. */
    method SkipToNewline()
      requires Valid()
      modifies this`pos, this`line, this`column
      ensures Valid() && pos == LineCommentEnd(source, old(pos))
    {
      while pos < |source| && source[pos] != '\n'
        invariant Valid() && old(pos) <= pos <= LineCommentEnd(source, old(pos))
        invariant LineCommentEnd(source, pos) == LineCommentEnd(source, old(pos))
        decreases |source| - pos
      {
        Advance(1);
      }
    }

    /** The body of a block comment: up to and including `ビゴ`, or to the end. */
    method SkipPastBlockEnd()
      requires Valid()
      modifies this`pos, this`line, this`column
      ensures Valid() && pos == BlockCommentEnd(source, old(pos))
    {
      while pos < |source|
        invariant Valid() && old(pos) <= pos
        invariant BlockCommentEnd(source, pos) == BlockCommentEnd(source, old(pos))
        decreases |source| - pos
      {
        if StartsAt(source, pos, "ビゴ") {
          Advance(2);
          return;
        }
        Advance(1);
      }
    }

    /** The scanning loop shared by the literal, word and number scanners: the longest run of characters satisfying `inRun`. */
    method ScanRun(inRun: char -> bool) returns (run: string)
      requires Valid()
      modifies this`pos, this`line, this`column
      ensures Valid() && pos == RunEnd(source, old(pos), inRun)
      ensures run == source[old(pos)..pos]
      ensures forall i :: 0 <= i < |run| ==> inRun(run[i])
    {
      run := "";
      while pos < |source| && inRun(source[pos])
        invariant Valid() && old(pos) <= pos <= RunEnd(source, old(pos), inRun)
        invariant RunEnd(source, pos, inRun) == RunEnd(source, old(pos), inRun)
        invariant run == source[old(pos)..pos]
        invariant forall i :: 0 <= i < |run| ==> inRun(run[i])
        decreases |source| - pos
      {
        run := run + [source[pos]];
        Advance(1);
      }
    }

    /** `next_token`: the token at the cursor, which the caller has placed on a non-layout character. */
    method NextToken() returns (token: Token)
      requires Valid() && pos < |source|
      modifies this`pos, this`line, this`column
      ensures Valid()
      ensures var lx := NextLexeme(source, old(pos));
        token == Token(lx.kind, lx.value, old(line), old(column)) && pos == lx.next
    {
      var startLine, startColumn := line, column;
      var c := source[pos];
      if c == '「' {
        token := ScanStringLiteral(startLine, startColumn);
      } else if c == '『' {
        token := ScanCharLiteral(startLine, startColumn);
      } else if c == '、' || c == ',' {
        Advance(1);
        token := Token(Comma, Str(","), startLine, startColumn);
      } else if c == '。' {
        Advance(1);
        token := Token(Semicolon, Str(";"), startLine, startColumn);
      } else if c == '：' || c == ':' {
        Advance(1);
        token := Token(Colon, Str(":"), startLine, startColumn);
      } else if IsKatakana(c) {
        token := ScanKatakanaWord(startLine, startColumn);
      } else if IsAsciiStart(c) {
        token := ScanAsciiIdentifier(startLine, startColumn);
      } else if IsDecimalDigit(c) {
        token := ScanDecimalNumber(startLine, startColumn);
      } else {
        Advance(1);
        token := Token(Unknown, Str([c]), startLine, startColumn);
      }
    }

    /** `scan_string_literal`: the raw characters up to `」` or the end of the source. */
    method ScanStringLiteral(startLine: nat, startColumn: nat) returns (token: Token)
      requires Valid() && pos < |source| && source[pos] == '「'
      modifies this`pos, this`line, this`column
      ensures Valid()
      ensures var lx := NextLexeme(source, old(pos));
        token == Token(lx.kind, lx.value, startLine, startColumn) && pos == lx.next
    {
      Advance(1);
      ghost var from := pos;
      var value := ScanRun(NotStringClose);
      if pos < |source| && source[pos] == '」' {
        Advance(1);
      }
      token := Token(StringLiteral, Str(value), startLine, startColumn);
    }

    /** `scan_char_literal`: the raw characters up to `』` or the end of the source. */
    method ScanCharLiteral(startLine: nat, startColumn: nat) returns (token: Token)
      requires Valid() && pos < |source| && source[pos] == '『'
      modifies this`pos, this`line, this`column
      ensures Valid()
      ensures var lx := NextLexeme(source, old(pos));
        token == Token(lx.kind, lx.value, startLine, startColumn) && pos == lx.next
    {
      Advance(1);
      ghost var from := pos;
      var value := ScanRun(NotCharClose);
      if pos < |source| && source[pos] == '』' {
        Advance(1);
      }
      token := Token(CharLiteral, Str(value), startLine, startColumn);
    }

    /** `scan_katakana_word`: the longest run of katakana and `ー`, then its classification. */
    method ScanKatakanaWord(startLine: nat, startColumn: nat) returns (token: Token)
      requires Valid() && pos < |source| && IsKatakana(source[pos])
      modifies this`pos, this`line, this`column
      ensures Valid()
      ensures var lx := NextLexeme(source, old(pos));
        token == Token(lx.kind, lx.value, startLine, startColumn) && pos == lx.next
    {
      ghost var from := pos;
      var word := ScanRun(IsWordChar);
      KatakanaLexeme(source, from);
      var kind, value := ClassifyKatakanaWord(word);
      token := Token(kind, value, startLine, startColumn);
    }

    /**
     * `classify_katakana_word`, called with the cursor just after `word`: a bracket-word
     * prefix moves the cursor back to the end of that prefix; otherwise the tables, the
     * numeral grammar, then an identifier.
     */
    method ClassifyKatakanaWord(word: string) returns (kind: TokenKind, value: TokenValue)
      requires Valid() && |word| <= pos && source[pos - |word|..pos] == word
      requires forall i :: 0 <= i < |word| ==> IsWordChar(word[i])
      modifies this`pos, this`column
      ensures Valid()
      ensures var c := ClassifyWord(word);
        kind == c.kind && value == c.value && pos == old(pos) - |word| + c.keep
    {
      var j := 0;
      while j < |BracketWords|
        invariant 0 <= j <= |BracketWords|
        invariant BracketPrefix(word, j) == BracketPrefix(word, 0)
        decreases |BracketWords| - j
      {
        var (keyword, k, v) := BracketWords[j];
        if StartsWith(word, keyword) {
          if |word| > |keyword| {
            var excess := |word| - |keyword|;
            RewindPosition(source, pos, excess);
            pos := pos - excess;
            column := column - excess;
          }
          return k, Str(v);
        }
        j := j + 1;
      }
      if word in TYPE_KEYWORDS {
        return TypeKeyword, Str(TYPE_KEYWORDS[word]);
      }
      if word in CONTROL_KEYWORDS {
        return ControlKeyword, Str(CONTROL_KEYWORDS[word]);
      }
      if word in OTHER_KEYWORDS {
        var v := OTHER_KEYWORDS[word];
        return OtherKeyword, Str(if v == "" then word else v);
      }
      if word in OPERATORS {
        return Operator, Str(OPERATORS[word]);
      }
      var number := TryParseNumber(word);
      if number.Some? {
        return Number, Int(number.value);
      }
      return Identifier, Str(word);
    }

    /** `scan_ascii_identifier`: the run of ASCII letters, digits and `_`. */
    method ScanAsciiIdentifier(startLine: nat, startColumn: nat) returns (token: Token)
      requires Valid() && pos < |source| && IsAsciiStart(source[pos])
      modifies this`pos, this`line, this`column
      ensures Valid()
      ensures var lx := NextLexeme(source, old(pos));
        token == Token(lx.kind, lx.value, startLine, startColumn) && pos == lx.next
    {
      ghost var from := pos;
      var word := ScanRun(IsAsciiWordChar);
      token := Token(Identifier, Str(word), startLine, startColumn);
    }

    /** `scan_decimal_number`: the run of digits and dots, an integer unless it holds a dot. */
    method ScanDecimalNumber(startLine: nat, startColumn: nat) returns (token: Token)
      requires Valid() && pos < |source| && IsDecimalDigit(source[pos])
      modifies this`pos, this`line, this`column
      ensures Valid()
      ensures var lx := NextLexeme(source, old(pos));
        token == Token(lx.kind, lx.value, startLine, startColumn) && pos == lx.next
    {
      ghost var from := pos;
      var word := ScanRun(IsNumberChar);
      if '.' in word {
        token := Token(Number, Float(word), startLine, startColumn);
      } else {
        token := Token(Number, Int(DecimalDigitsValue(word)), startLine, startColumn);
      }
    }
  }
}
