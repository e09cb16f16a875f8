/**
 * The lexer of lib/grongigo/lexer.rb, part 1: character classes, source positions, the
 * numeral micro-grammar, word classification and the whole-input token sequence, all as
 * functions. The class `Lexer` in lexer.dfy is proved to compute exactly these.
 */
module Lexing {
  import opened Wrappers
  import opened Text
  import opened Tables
  import opened Tokens

  // ---------------------------------------------------------------- character classes

  /** The Unicode Katakana script (`\p{Katakana}`), as its code-point ranges. */
  predicate IsKatakana(c: char) {
    || ('\U{30A1}' <= c <= '\U{30FA}')
    || ('\U{30FD}' <= c <= '\U{30FF}')
    || ('\U{31F0}' <= c <= '\U{31FF}')
    || ('\U{32D0}' <= c <= '\U{32FE}')
    || ('\U{3300}' <= c <= '\U{3357}')
    || ('\U{FF66}' <= c <= '\U{FF6F}')
    || ('\U{FF71}' <= c <= '\U{FF9D}')
    || ('\U{1AFF0}' <= c <= '\U{1AFF3}')
    || ('\U{1AFF5}' <= c <= '\U{1AFFB}')
    || ('\U{1AFFD}' <= c <= '\U{1AFFE}')
    || c == '\U{1B000}'
    || ('\U{1B120}' <= c <= '\U{1B122}')
    || c == '\U{1B155}'
    || ('\U{1B164}' <= c <= '\U{1B167}')
  }

  /** A character of a katakana word: the script or the lengthening mark `ー`. */
  predicate IsWordChar(c: char) {
    IsKatakana(c) || c == 'ー'
  }

  predicate IsBlank(c: char) {
    c == ' ' || c == '\t' || c == '\r'
  }

  predicate IsLayout(c: char) {
    IsBlank(c) || c == '\n'
  }

  predicate IsAsciiStart(c: char) {
    ('a' <= c <= 'z') || ('A' <= c <= 'Z') || c == '_'
  }

  predicate IsAsciiWordChar(c: char) {
    IsAsciiStart(c) || IsDecimalDigit(c)
  }

  predicate IsNumberChar(c: char) {
    IsDecimalDigit(c) || c == '.'
  }

  predicate NotStringClose(c: char) {
    c != '」'
  }

  predicate NotCharClose(c: char) {
    c != '』'
  }

  predicate NotNewline(c: char) {
    c != '\n'
  }

  /** End of the maximal run of characters satisfying `inRun` that starts at `p`. */
  function RunEnd(s: string, p: nat, inRun: char -> bool): (e: nat)
    requires p <= |s|
    ensures p <= e <= |s|
    ensures forall i :: p <= i < e ==> inRun(s[i])
    ensures e < |s| ==> !inRun(s[e])
    decreases |s| - p
  {
    if p == |s| || !inRun(s[p]) then p else RunEnd(s, p + 1, inRun)
  }

  // ---------------------------------------------------------------- positions

  /** The line of offset `p`: one plus the newlines before it. */
  function LineAt(s: string, p: nat): nat
    requires p <= |s|
  {
    if p == 0 then 1 else LineAt(s, p - 1) + (if s[p - 1] == '\n' then 1 else 0)
  }

  /** The column of offset `p`: one plus the characters since the last newline. */
  function ColumnAt(s: string, p: nat): nat
    requires p <= |s|
  {
    if p == 0 then 1 else if s[p - 1] == '\n' then 1 else ColumnAt(s, p - 1) + 1
  }

  /** Line and column order offsets: a later offset has a later (line, column). */
  lemma {:induction false} PositionsIncrease(s: string, p: nat, q: nat)
    requires p < q <= |s|
    ensures LineAt(s, p) < LineAt(s, q) || (LineAt(s, p) == LineAt(s, q) && ColumnAt(s, p) < ColumnAt(s, q))
    decreases q - p
  {
    if p + 1 < q {
      PositionsIncrease(s, p, q - 1);
    }
  }

  /** Stepping back over characters that are not newlines keeps the line and lowers the column. */
  lemma {:induction false} RewindPosition(s: string, p: nat, e: nat)
    requires e <= p <= |s|
    requires forall i :: p - e <= i < p ==> s[i] != '\n'
    ensures LineAt(s, p - e) == LineAt(s, p)
    ensures ColumnAt(s, p - e) + e == ColumnAt(s, p)
    decreases e
  {
    if e > 0 {
      RewindPosition(s, p - 1, e - 1);
    }
  }

  // ---------------------------------------------------------------- numerals

  /** A unit of a numeral word: a digit word, `ド` (add) or `グ` (multiply). */
  datatype NumeralUnit = Digit(value: nat) | AddUnit | MulUnit

  /** The first digit word, in table order, that `s` starts with. */
  function DigitPrefix(s: string): (r: Option<nat>)
    ensures r.Some? ==> r.value < 10 && StartsWith(s, DigitWords[r.value])
    ensures r.None? ==> forall d :: 0 <= d < 10 ==> !StartsWith(s, DigitWords[d])
  {
    DigitPrefixFrom(s, 0)
  }

  function DigitPrefixFrom(s: string, j: nat): (r: Option<nat>)
    requires j <= 10
    ensures r.Some? ==> j <= r.value < 10 && StartsWith(s, DigitWords[r.value])
    ensures r.None? ==> forall d :: j <= d < 10 ==> !StartsWith(s, DigitWords[d])
    decreases 10 - j
  {
    if j == 10 then None
    else if StartsWith(s, DigitWords[j]) then Some(j)
    else DigitPrefixFrom(s, j + 1)
  }

  function Cons(u: NumeralUnit, rest: Option<seq<NumeralUnit>>): Option<seq<NumeralUnit>> {
    if rest.None? then None else Some([u] + rest.value)
  }

  /** Splitting a word into units, or None when characters are left over. */
  function ScanUnits(s: string): Option<seq<NumeralUnit>>
    decreases |s|
  {
    if |s| == 0 then Some([])
    else match DigitPrefix(s)
      case Some(d) => Cons(Digit(d), ScanUnits(s[|DigitWords[d]|..]))
      case None =>
        if s[0] == AddChar then Cons(AddUnit, ScanUnits(s[1..]))
        else if s[0] == MultiplyChar then Cons(MulUnit, ScanUnits(s[1..]))
        else None
  }

  /** `tokenize_number_expression`: the units of a word, or [] when it does not split. */
  function NumeralUnits(word: string): seq<NumeralUnit> {
    match ScanUnits(word)
    case Some(us) => us
    case None => []
  }

  /**
   * The evaluation loop from unit `i` on, with `acc` the flushed sum and `cp` the pending
   * product: a digit while a product is pending, or `グ` not followed by a digit, fails.
   */
  function EvalFrom(us: seq<NumeralUnit>, i: nat, acc: int, cp: Option<int>): Option<int>
    requires i <= |us|
    decreases |us| - i
  {
    if i == |us| then Some(acc + cp.GetOr(0))
    else match us[i]
      case Digit(d) => if cp.Some? then None else EvalFrom(us, i + 1, acc, Some(d))
      case MulUnit =>
        if i + 1 >= |us| || !us[i + 1].Digit? then None
        else EvalFrom(us, i + 2, acc, Some(cp.GetOr(1) * us[i + 1].value))
      case AddUnit => EvalFrom(us, i + 1, acc + cp.GetOr(0), None)
  }

  /** `evaluate_number_expression`: a sum of products, or None. */
  function Evaluate(us: seq<NumeralUnit>): Option<int> {
    if |us| == 0 then None else EvalFrom(us, 0, 0, None)
  }

  /** `try_parse_number`: a digit word by table lookup, else the compound numeral grammar. */
  function ParseNumeral(word: string): Option<int> {
    if word in DIGITS then Some(DIGITS[word])
    else if |word| == 0 then None
    else Evaluate(NumeralUnits(word))
  }

  /** Numerals denote natural numbers. */
  lemma {:induction false} EvalFromNonNegative(us: seq<NumeralUnit>, i: nat, acc: int, cp: Option<int>)
    requires i <= |us| && acc >= 0 && (cp.Some? ==> cp.value >= 0)
    ensures EvalFrom(us, i, acc, cp).Some? ==> EvalFrom(us, i, acc, cp).value >= 0
    decreases |us| - i
  {
    if i < |us| {
      match us[i]
      case Digit(d) =>
        if cp.None? {
          EvalFromNonNegative(us, i + 1, acc, Some(d));
        }
      case MulUnit =>
        if i + 1 < |us| && us[i + 1].Digit? {
          EvalFromNonNegative(us, i + 2, acc, Some(cp.GetOr(1) * us[i + 1].value));
        }
      case AddUnit =>
        EvalFromNonNegative(us, i + 1, acc + cp.GetOr(0), None);
    }
  }

  lemma ParseNumeralNonNegative(word: string)
    ensures ParseNumeral(word).Some? ==> ParseNumeral(word).value >= 0
  {
    var us := NumeralUnits(word);
    if word !in DIGITS && |word| > 0 && |us| > 0 {
      EvalFromNonNegative(us, 0, 0, None);
    }
  }

  // ---------------------------------------------------------------- classification

  /** The bracket words, longest first, with their token kind and value. */
  const BracketWords: seq<(string, TokenKind, string)> := [
    ("ザジレジョヂザギ", OpenParen, "("),
    ("ゴパシジョヂザギ", CloseParen, ")"),
    ("ザジレパギセヅ", OpenBracket, "["),
    ("ゴパシザギセヅ", CloseBracket, "]"),
    ("ザジレ", OpenBrace, "{"),
    ("ゴパシ", CloseBrace, "}")]

  predicate IsBracketKind(k: TokenKind) {
    k == OpenParen || k == CloseParen || k == OpenBracket || k == CloseBracket
    || k == OpenBrace || k == CloseBrace
  }

  /** The first bracket word from index `j` on that `word` starts with. */
  function BracketPrefix(word: string, j: nat): (r: Option<nat>)
    requires j <= |BracketWords|
    ensures r.Some? ==> j <= r.value < |BracketWords| && StartsWith(word, BracketWords[r.value].0)
    ensures r.None? ==> forall k :: j <= k < |BracketWords| ==> !StartsWith(word, BracketWords[k].0)
    decreases |BracketWords| - j
  {
    if j == |BracketWords| then None
    else if StartsWith(word, BracketWords[j].0) then Some(j)
    else BracketPrefix(word, j + 1)
  }

  /** A classified katakana word: the token, and how many of the word's characters it keeps. */
  datatype Classified = Classified(kind: TokenKind, value: TokenValue, keep: nat)

  /**
   * `classify_katakana_word`: a word starting with a bracket word is that bracket and keeps
   * only its length (the rest is rescanned); otherwise exact lookup in the type, control,
   * other-keyword and operator tables, then the numeral grammar, then an identifier.
   */
  function ClassifyWord(word: string): (c: Classified)
    ensures c.keep <= |word|
    ensures c.keep < |word| ==> IsBracketKind(c.kind)
    ensures |word| > 0 ==> c.keep > 0
    ensures c.kind != Eof && c.kind != Unknown
  {
    match BracketPrefix(word, 0)
    case Some(j) => Classified(BracketWords[j].1, Str(BracketWords[j].2), |BracketWords[j].0|)
    case None =>
      if word in TYPE_KEYWORDS then Classified(TypeKeyword, Str(TYPE_KEYWORDS[word]), |word|)
      else if word in CONTROL_KEYWORDS then Classified(ControlKeyword, Str(CONTROL_KEYWORDS[word]), |word|)
      else if word in OTHER_KEYWORDS then
        var v := OTHER_KEYWORDS[word];
        Classified(OtherKeyword, Str(if v == "" then word else v), |word|)
      else if word in OPERATORS then Classified(Operator, Str(OPERATORS[word]), |word|)
      else match ParseNumeral(word)
        case Some(n) => Classified(Number, Int(n), |word|)
        case None => Classified(Identifier, Str(word), |word|)
  }

  // ---------------------------------------------------------------- scanning

  /** `skip_whitespace_and_comments`, step by step. */
  function SkipBlanks(s: string, p: nat): nat
    requires p <= |s|
  {
    RunEnd(s, p, IsBlank)
  }

  /** A line comment runs to the next newline (not consumed) or to the end. */
  function LineCommentEnd(s: string, p: nat): nat
    requires p <= |s|
  {
    RunEnd(s, p, NotNewline)
  }

  /** A block comment runs to just after the next `ビゴ`, or to the end. */
  function BlockCommentEnd(s: string, p: nat): (e: nat)
    requires p <= |s|
    ensures p <= e <= |s|
    decreases |s| - p
  {
    if p >= |s| then |s|
    else if StartsAt(s, p, "ビゴ") then p + 2
    else BlockCommentEnd(s, p + 1)
  }

  /** One round of `skip_whitespace_and_comments`: the offset after the blanks and at most one newline or comment, and whether there was nothing left to skip. */
  function LayoutRound(s: string, p: nat): (r: (nat, bool))
    requires p <= |s|
    ensures p <= r.0 <= |s|
    ensures !r.1 ==> p < r.0
    ensures r.1 ==> r.0 == SkipBlanks(s, p) && Settled(s, r.0)
  {
    var q := SkipBlanks(s, p);
    if q < |s| && s[q] == '\n' then (q + 1, false)
    else if StartsAt(s, q, "ゴゴ") then (LineCommentEnd(s, q + 2), false)
    else if StartsAt(s, q, "ゴビ") then (BlockCommentEnd(s, q + 2), false)
    else (q, true)
  }

  /** Nothing to skip at `q`: the end of the text, or a character that is no layout and starts no comment. */
  predicate Settled(s: string, q: nat)
    requires q <= |s|
  {
    q < |s| ==> !IsLayout(s[q]) && !StartsAt(s, q, "ゴゴ") && !StartsAt(s, q, "ゴビ")
  }

  /** The offset reached by skipping blanks, newlines, `ゴゴ` line comments and `ゴビ`…`ビゴ` block comments: rounds until one finds nothing to skip. */
  function SkipLayout(s: string, p: nat): (q: nat)
    requires p <= |s|
    ensures p <= q <= |s|
    ensures Settled(s, q)
    decreases |s| - p
  {
    var r := LayoutRound(s, p);
    if r.1 then r.0 else SkipLayout(s, r.0)
  }

  /** At a settled offset a round skips nothing and stays put. */
  lemma SettledRound(s: string, q: nat)
    requires q <= |s| && Settled(s, q)
    ensures LayoutRound(s, q) == (q, true)
  {
    assert SkipBlanks(s, q) == q;
  }

  /** A round that skips something moves forward and leaves the same layout to skip; a round that skips nothing has reached the end of the layout. */
  lemma RoundKeepsLayout(s: string, p: nat)
    requires p <= |s|
    ensures SkipLayout(s, LayoutRound(s, p).0) == SkipLayout(s, p)
    ensures LayoutRound(s, p).1 ==> LayoutRound(s, p).0 == SkipLayout(s, p)
    ensures !LayoutRound(s, p).1 ==> p < LayoutRound(s, p).0
  {
    var r := LayoutRound(s, p);
    if r.1 {
      SettledRound(s, r.0);
    }
  }

  /** Skipping layout twice is skipping it once. */
  lemma SkipLayoutIdempotent(s: string, p: nat)
    requires p <= |s|
    ensures SkipLayout(s, SkipLayout(s, p)) == SkipLayout(s, p)
  {
    SettledRound(s, SkipLayout(s, p));
  }

  /** A token without its position, and the offset after it. */
  datatype Lexeme = Lexeme(kind: TokenKind, value: TokenValue, next: nat)

  /** `next_token` at offset `p`: what it reads and where it stops. */
  function NextLexeme(s: string, p: nat): (lx: Lexeme)
    requires p < |s|
    ensures p < lx.next <= |s|
    ensures lx.kind != Eof
  {
    var c := s[p];
    if c == '「' then
      var e := RunEnd(s, p + 1, NotStringClose);
      Lexeme(StringLiteral, Str(s[p + 1..e]), if e < |s| then e + 1 else e)
    else if c == '『' then
      var e := RunEnd(s, p + 1, NotCharClose);
      Lexeme(CharLiteral, Str(s[p + 1..e]), if e < |s| then e + 1 else e)
    else if c == '、' || c == ',' then Lexeme(Comma, Str(","), p + 1)
    else if c == '。' then Lexeme(Semicolon, Str(";"), p + 1)
    else if c == '：' || c == ':' then Lexeme(Colon, Str(":"), p + 1)
    else if IsKatakana(c) then
      var e := RunEnd(s, p, IsWordChar);
      var cl := ClassifyWord(s[p..e]);
      Lexeme(cl.kind, cl.value, p + cl.keep)
    else if IsAsciiStart(c) then
      var e := RunEnd(s, p, IsAsciiWordChar);
      Lexeme(Identifier, Str(s[p..e]), e)
    else if IsDecimalDigit(c) then
      var e := RunEnd(s, p, IsNumberChar);
      var w := s[p..e];
      Lexeme(Number, if '.' in w then Float(w) else Int(DecimalDigitsValue(w)), e)
    else Lexeme(Unknown, Str([c]), p + 1)
  }

  /** A katakana character other than a literal opener starts a word, classified as a whole. */
  lemma KatakanaLexeme(s: string, p: nat)
    requires p < |s| && IsKatakana(s[p])
    ensures var e := RunEnd(s, p, IsWordChar);
      var c := ClassifyWord(s[p..e]);
      NextLexeme(s, p) == Lexeme(c.kind, c.value, p + c.keep)
  {
    var c := s[p];
    assert c != '「' && c != '『' && c != '、' && c != ',' && c != '。' && c != '：' && c != ':';
  }

  /** The token sequence `tokenize` produces from offset `p`: one token per lexeme, then eof. */
  function TokenizeFrom(s: string, p: nat): (ts: seq<Token>)
    requires p <= |s|
    ensures |ts| > 0
    decreases |s| - p
  {
    var q := SkipLayout(s, p);
    if q == |s| then [Token(Eof, Nil, LineAt(s, q), ColumnAt(s, q))]
    else
      var lx := NextLexeme(s, q);
      [Token(lx.kind, lx.value, LineAt(s, q), ColumnAt(s, q))] + TokenizeFrom(s, lx.next)
  }

  /** At the end of the text the only token left is end-of-file, at the last position. */
  lemma TokenizeAtEnd(s: string)
    ensures TokenizeFrom(s, |s|) == [Token(Eof, Nil, LineAt(s, |s|), ColumnAt(s, |s|))]
  {
    SettledRound(s, |s|);
  }

  /** At a non-layout character, the token sequence is that character's lexeme, then the rest. */
  lemma TokenizeAtToken(s: string, p: nat)
    requires p <= |s| && SkipLayout(s, p) < |s|
    ensures var q := SkipLayout(s, p);
      var lx := NextLexeme(s, q);
      TokenizeFrom(s, q) == [Token(lx.kind, lx.value, LineAt(s, q), ColumnAt(s, q))] + TokenizeFrom(s, lx.next)
  {
    SkipLayoutIdempotent(s, p);
  }

  /** Layout before a token changes nothing in the token sequence. */
  lemma TokenizeAfterLayout(s: string, p: nat)
    requires p <= |s|
    ensures TokenizeFrom(s, SkipLayout(s, p)) == TokenizeFrom(s, p)
  {
    SkipLayoutIdempotent(s, p);
  }
}
