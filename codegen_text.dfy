/**
 * The string-returning helpers of lib/grongigo/codegen.rb: C name sanitisation with its
 * katakana-to-romaji fallback, string and character escaping, the `printf` newline rewrite,
 * and the fully parenthesised expression printer.
 */
module CodeText {
  import opened Wrappers
  import opened Text
  import opened Tokens
  import opened Ast

  // ---------------------------------------------------------------------------------------
  // C identifiers and sanitize_name

  predicate IsIdentStart(c: char) {
    ('a' <= c <= 'z') || ('A' <= c <= 'Z') || c == '_'
  }

  predicate IsIdentChar(c: char) {
    IsIdentStart(c) || ('0' <= c <= '9')
  }

  /** The whole of `s` matches `[a-zA-Z_][a-zA-Z0-9_]*`. */
  predicate IsCIdentifier(s: string) {
    |s| > 0 && IsIdentStart(s[0]) && forall i :: 0 < i < |s| ==> IsIdentChar(s[i])
  }

  /** Index of the first newline of `s`, or `|s|` when it has none. */
  function LineEnd(s: string): (k: nat)
    ensures k <= |s|
    ensures forall i :: 0 <= i < k ==> s[i] != '\n'
    ensures k < |s| ==> s[k] == '\n'
  {
    if |s| == 0 || s[0] == '\n' then 0 else 1 + LineEnd(s[1..])
  }

  /**
   * `s =~ /^[a-zA-Z_][a-zA-Z0-9_]*$/`: Ruby's `^` and `$` anchor at line boundaries, so the
   * test holds when some line of `s` is a C identifier.
   */
  predicate SomeLineIsIdentifier(s: string)
    decreases |s|
  {
    var k := LineEnd(s);
    IsCIdentifier(s[..k]) || (k < |s| && SomeLineIsIdentifier(s[k + 1..]))
  }

  lemma IdentifierIsOwnLine(s: string)
    requires IsCIdentifier(s)
    ensures SomeLineIsIdentifier(s)
  {
    assert forall i :: 0 <= i < |s| ==> s[i] != '\n';
    assert s[..LineEnd(s)] == s;
  }

  /** The names `sanitize_name` keeps as they are besides those the pattern accepts. */
  predicate IsReservedName(name: string) {
    name == "main" || name == "printf" || name == "scanf" || name == "NULL"
  }

  /**
   * `sanitize_name`: a name with an identifier line, or a reserved C name, is kept; any
   * other name becomes its romaji transcription, which is a C identifier.
   */
  function SanitizeName(name: string): (r: string)
    ensures SomeLineIsIdentifier(r)
    ensures SomeLineIsIdentifier(name) ==> r == name
    ensures !SomeLineIsIdentifier(name) && !IsReservedName(name) ==> IsCIdentifier(r)
  {
    if SomeLineIsIdentifier(name) then name
    else if IsReservedName(name) then
      assert IsCIdentifier(name);
      IdentifierIsOwnLine(name);
      name
    else
      var r := Romanize(name);
      IdentifierIsOwnLine(r);
      r
  }

  /** The reserved names already match the identifier pattern: that test of the source never decides anything. */
  lemma ReservedNamesMatchPattern(name: string)
    requires IsReservedName(name)
    ensures SomeLineIsIdentifier(name)
  {
    assert IsCIdentifier(name);
    IdentifierIsOwnLine(name);
  }

  /** Sanitising a sanitised name changes nothing. */
  lemma SanitizeNameIdempotent(name: string)
    ensures SanitizeName(SanitizeName(name)) == SanitizeName(name)
  {
  }

  // ---------------------------------------------------------------------------------------
  // katakana2roman

  /** The two-character entries of the romaji table. */
  function RomanPair(a: char, b: char): Option<string> {
    if a == 'ジ' && b == 'ャ' then Some("ja")
    else if a == 'ジ' && b == 'ュ' then Some("ju")
    else if a == 'ジ' && b == 'ョ' then Some("jo")
    else None
  }

  /** The one-character entries of the romaji table. */
  function RomanChar(c: char): Option<string> {
    match c
    case 'ア' => Some("a") case 'イ' => Some("i") case 'ウ' => Some("u") case 'エ' => Some("e") case 'オ' => Some("o")
    case 'カ' => Some("ka") case 'キ' => Some("ki") case 'ク' => Some("ku") case 'ケ' => Some("ke") case 'コ' => Some("ko")
    case 'サ' => Some("sa") case 'シ' => Some("si") case 'ス' => Some("su") case 'セ' => Some("se") case 'ソ' => Some("so")
    case 'タ' => Some("ta") case 'チ' => Some("ti") case 'ツ' => Some("tu") case 'テ' => Some("te") case 'ト' => Some("to")
    case 'ナ' => Some("na") case 'ニ' => Some("ni") case 'ヌ' => Some("nu") case 'ネ' => Some("ne") case 'ノ' => Some("no")
    case 'ハ' => Some("ha") case 'ヒ' => Some("hi") case 'フ' => Some("hu") case 'ヘ' => Some("he") case 'ホ' => Some("ho")
    case 'マ' => Some("ma") case 'ミ' => Some("mi") case 'ム' => Some("mu") case 'メ' => Some("me") case 'モ' => Some("mo")
    case 'ヤ' => Some("ya") case 'ユ' => Some("yu") case 'ヨ' => Some("yo")
    case 'ラ' => Some("ra") case 'リ' => Some("ri") case 'ル' => Some("ru") case 'レ' => Some("re") case 'ロ' => Some("ro")
    case 'ワ' => Some("wa") case 'ヲ' => Some("wo") case 'ン' => Some("n")
    case 'ガ' => Some("ga") case 'ギ' => Some("gi") case 'グ' => Some("gu") case 'ゲ' => Some("ge") case 'ゴ' => Some("go")
    case 'ザ' => Some("za") case 'ジ' => Some("zi") case 'ズ' => Some("zu") case 'ゼ' => Some("ze") case 'ゾ' => Some("zo")
    case 'ダ' => Some("da") case 'ヂ' => Some("di") case 'ヅ' => Some("du") case 'デ' => Some("de") case 'ド' => Some("do")
    case 'バ' => Some("ba") case 'ビ' => Some("bi") case 'ブ' => Some("bu") case 'ベ' => Some("be") case 'ボ' => Some("bo")
    case 'パ' => Some("pa") case 'ピ' => Some("pi") case 'プ' => Some("pu") case 'ペ' => Some("pe") case 'ポ' => Some("po")
    case 'ー' => Some("_")
    case _ => None
  }

  predicate IsRomanLetter(c: char) {
    ('a' <= c <= 'z') || c == '_'
  }

  predicate AllRoman(s: string) {
    forall i :: 0 <= i < |s| ==> IsRomanLetter(s[i])
  }

  lemma RomanPairLetters(a: char, b: char)
    requires RomanPair(a, b).Some?
    ensures |RomanPair(a, b).value| > 0 && AllRoman(RomanPair(a, b).value)
  {
  }

  /** Every single-character entry of the romaji table is a non-empty run of letters and `_`, entry by entry. */
  lemma RomanCharLetters(c: char)
    requires RomanChar(c).Some?
    ensures |RomanChar(c).value| > 0 && AllRoman(RomanChar(c).value)
  {
    match c
    case 'ア' => case 'イ' => case 'ウ' => case 'エ' => case 'オ' =>
    case 'カ' => case 'キ' => case 'ク' => case 'ケ' => case 'コ' =>
    case 'サ' => case 'シ' => case 'ス' => case 'セ' => case 'ソ' =>
    case 'タ' => case 'チ' => case 'ツ' => case 'テ' => case 'ト' =>
    case 'ナ' => case 'ニ' => case 'ヌ' => case 'ネ' => case 'ノ' =>
    case 'ハ' => case 'ヒ' => case 'フ' => case 'ヘ' => case 'ホ' =>
    case 'マ' => case 'ミ' => case 'ム' => case 'メ' => case 'モ' =>
    case 'ヤ' => case 'ユ' => case 'ヨ' => case 'ラ' => case 'リ' =>
    case 'ル' => case 'レ' => case 'ロ' => case 'ワ' => case 'ヲ' =>
    case 'ン' => case 'ガ' => case 'ギ' => case 'グ' => case 'ゲ' =>
    case 'ゴ' => case 'ザ' => case 'ジ' => case 'ズ' => case 'ゼ' =>
    case 'ゾ' => case 'ダ' => case 'ヂ' => case 'ヅ' => case 'デ' =>
    case 'ド' => case 'バ' => case 'ビ' => case 'ブ' => case 'ベ' =>
    case 'ボ' => case 'パ' => case 'ピ' => case 'プ' => case 'ペ' =>
    case 'ポ' => case 'ー' =>
    case _ =>
  }

  /** The romaji of `text` from index `i`: a pair entry first, then a single entry, else `_`. */
  function RomanizeFrom(text: string, i: nat): string
    requires i <= |text|
    decreases |text| - i
  {
    if i == |text| then ""
    else if i + 1 < |text| && RomanPair(text[i], text[i + 1]).Some? then
      RomanPair(text[i], text[i + 1]).value + RomanizeFrom(text, i + 2)
    else if RomanChar(text[i]).Some? then
      RomanChar(text[i]).value + RomanizeFrom(text, i + 1)
    else
      "_" + RomanizeFrom(text, i + 1)
  }

  /** The transcription holds letters and `_` only, and at least one of them for every two characters of the text. */
  lemma RomanizeLetters(text: string, i: nat)
    requires i <= |text|
    ensures AllRoman(RomanizeFrom(text, i))
    ensures 2 * |RomanizeFrom(text, i)| >= |text| - i
  {
    RomanizeAllRoman(text, i);
    RomanizeLength(text, i);
  }

  /** One step of the transcription: a nonempty unit of letters for one or two characters. */
  lemma RomanizeStep(text: string, i: nat) returns (unit: string, width: nat)
    requires i < |text|
    ensures 1 <= width <= 2 && i + width <= |text|
    ensures |unit| > 0 && AllRoman(unit)
    ensures RomanizeFrom(text, i) == unit + RomanizeFrom(text, i + width)
  {
    if i + 1 < |text| && RomanPair(text[i], text[i + 1]).Some? {
      RomanPairLetters(text[i], text[i + 1]);
      unit, width := RomanPair(text[i], text[i + 1]).value, 2;
    } else if RomanChar(text[i]).Some? {
      RomanCharLetters(text[i]);
      unit, width := RomanChar(text[i]).value, 1;
    } else {
      unit, width := "_", 1;
    }
  }

  lemma {:induction false} RomanizeAllRoman(text: string, i: nat)
    requires i <= |text|
    ensures AllRoman(RomanizeFrom(text, i))
    decreases |text| - i
  {
    if i < |text| {
      var unit, width := RomanizeStep(text, i);
      RomanizeAllRoman(text, i + width);
    }
  }

  lemma {:induction false} RomanizeLength(text: string, i: nat)
    requires i <= |text|
    ensures 2 * |RomanizeFrom(text, i)| >= |text| - i
    decreases |text| - i
  {
    if i < |text| {
      var unit, width := RomanizeStep(text, i);
      RomanizeLength(text, i + width);
    }
  }

  /** Some line of `s` starts with a decimal digit (Ruby's `s =~ /^[0-9]/`). */
  predicate SomeLineStartsWithDigit(s: string) {
    exists i :: 0 <= i < |s| && (i == 0 || s[i - 1] == '\n') && IsDecimalDigit(s[i])
  }

  /** `katakana2roman`: the transcription, `_`-prefixed if a line starts with a digit, and `var` if empty. */
  function Romanize(text: string): (r: string)
    ensures IsCIdentifier(r)
  {
    RomanizeLetters(text, 0);
    var core := RomanizeFrom(text, 0);
    var guarded := if SomeLineStartsWithDigit(core) then "_" + core else core;
    if guarded == "" then "var"
    else
      assert AllRoman(guarded);
      guarded
  }

  /** The digit guard of `katakana2roman` never fires: the transcription holds letters and `_` only. */
  lemma RomanizeNeverStartsWithDigit(text: string)
    ensures !SomeLineStartsWithDigit(RomanizeFrom(text, 0))
  {
    RomanizeLetters(text, 0);
    var core := RomanizeFrom(text, 0);
    forall i | 0 <= i < |core|
      ensures !IsDecimalDigit(core[i])
    {
      assert IsRomanLetter(core[i]);
    }
  }

  /** For non-empty text `katakana2roman` is exactly the transcription; empty text gives `var`. */
  lemma RomanizeIsTranscription(text: string)
    ensures Romanize(text) == if text == "" then "var" else RomanizeFrom(text, 0)
  {
    RomanizeNeverStartsWithDigit(text);
  }

  // ---------------------------------------------------------------------------------------
  // escape_string and escape_char

  /** `s.gsub(c, w)` for a one-character pattern, with `w` the text the replacement produces. */
  function ReplaceAll(s: string, c: char, w: string): string {
    if |s| == 0 then ""
    else (if s[0] == c then w else [s[0]]) + ReplaceAll(s[1..], c, w)
  }

  lemma {:induction false} ReplaceAllAppend(a: string, b: string, c: char, w: string)
    ensures ReplaceAll(a + b, c, w) == ReplaceAll(a, c, w) + ReplaceAll(b, c, w)
  {
    if |a| > 0 {
      assert (a + b)[1..] == a[1..] + b;
      ReplaceAllAppend(a[1..], b, c, w);
    } else {
      assert a + b == b;
    }
  }

  /** A `gsub` by a nonempty text never shortens, and each character it leaves is kept or replaced text. */
  lemma {:induction false} ReplaceAllKeeps(s: string, c: char, w: string)
    requires |w| > 0
    ensures |ReplaceAll(s, c, w)| >= |s|
    ensures forall x :: x in ReplaceAll(s, c, w) ==> x in w || (x in s && x != c)
  {
    if |s| > 0 {
      ReplaceAllKeeps(s[1..], c, w);
      var head := if s[0] == c then w else [s[0]];
      assert ReplaceAll(s, c, w) == head + ReplaceAll(s[1..], c, w);
      forall x | x in ReplaceAll(s, c, w)
        ensures x in w || (x in s && x != c)
      {
        if x in ReplaceAll(s[1..], c, w) {
          assert x in s[1..] ==> x in s;
        }
      }
    }
  }

  /**
   * `escape_string`: five `gsub` calls in order. The first replacement, written `'\\\\'` in
   * the source, produces a single backslash, so backslashes pass through unchanged. No raw
   * newline, tab or carriage return is left, and nothing is dropped.
   */
  function EscapeString(s: string): (r: string)
    ensures |r| >= |s|
    ensures '\n' !in r && '\t' !in r && '\r' !in r
  {
    var s1 := ReplaceAll(s, '\\', "\\");
    ReplaceAllKeeps(s, '\\', "\\");
    var s2 := ReplaceAll(s1, '"', "\\\"");
    ReplaceAllKeeps(s1, '"', "\\\"");
    var s3 := ReplaceAll(s2, '\n', "\\n");
    ReplaceAllKeeps(s2, '\n', "\\n");
    var s4 := ReplaceAll(s3, '\t', "\\t");
    ReplaceAllKeeps(s3, '\t', "\\t");
    ReplaceAllKeeps(s4, '\r', "\\r");
    ReplaceAll(s4, '\r', "\\r")
  }

  /** What `escape_string` makes of one character. */
  function EscapedChar(c: char): string {
    if c == '"' then "\\\""
    else if c == '\n' then "\\n"
    else if c == '\t' then "\\t"
    else if c == '\r' then "\\r"
    else [c]
  }

  /** Character-by-character escaping: the reference definition `escape_string` is proved to equal. */
  function EscapeEach(s: string): (r: string)
    ensures forall i :: 0 <= i < |r| ==> r[i] != '\n' && r[i] != '\t' && r[i] != '\r'
  {
    if |s| == 0 then "" else EscapedChar(s[0]) + EscapeEach(s[1..])
  }

  lemma EscapeStringAppend(a: string, b: string)
    ensures EscapeString(a + b) == EscapeString(a) + EscapeString(b)
  {
    ReplaceAllAppend(a, b, '\\', "\\");
    var a1, b1 := ReplaceAll(a, '\\', "\\"), ReplaceAll(b, '\\', "\\");
    ReplaceAllAppend(a1, b1, '"', "\\\"");
    var a2, b2 := ReplaceAll(a1, '"', "\\\""), ReplaceAll(b1, '"', "\\\"");
    ReplaceAllAppend(a2, b2, '\n', "\\n");
    var a3, b3 := ReplaceAll(a2, '\n', "\\n"), ReplaceAll(b2, '\n', "\\n");
    ReplaceAllAppend(a3, b3, '\t', "\\t");
    var a4, b4 := ReplaceAll(a3, '\t', "\\t"), ReplaceAll(b3, '\t', "\\t");
    ReplaceAllAppend(a4, b4, '\r', "\\r");
  }

  lemma ReplaceAllOne(c: char, d: char, w: string)
    ensures ReplaceAll([c], d, w) == if c == d then w else [c]
  {
    assert [c][1..] == [];
  }

  /** A backslash and one other character pass the later passes unchanged. */
  lemma ReplaceAllEscape(x: char, d: char, w: string)
    requires d != '\\' && d != x
    ensures ReplaceAll(['\\', x], d, w) == ['\\', x]
  {
    assert ['\\', x] == ['\\'] + [x];
    ReplaceAllAppend(['\\'], [x], d, w);
    ReplaceAllOne('\\', d, w);
    ReplaceAllOne(x, d, w);
  }

  lemma EscapeStringOneChar(c: char)
    ensures EscapeString([c]) == EscapedChar(c)
  {
    ReplaceAllOne(c, '\\', "\\");
    ReplaceAllOne(c, '"', "\\\"");
    if c == '"' {
      ReplaceAllEscape('"', '\n', "\\n");
      ReplaceAllEscape('"', '\t', "\\t");
      ReplaceAllEscape('"', '\r', "\\r");
    } else {
      ReplaceAllOne(c, '\n', "\\n");
      if c == '\n' {
        ReplaceAllEscape('n', '\t', "\\t");
        ReplaceAllEscape('n', '\r', "\\r");
      } else {
        ReplaceAllOne(c, '\t', "\\t");
        if c == '\t' {
          ReplaceAllEscape('t', '\r', "\\r");
        } else {
          ReplaceAllOne(c, '\r', "\\r");
        }
      }
    }
  }

  /** The five passes of `escape_string` amount to escaping each character on its own. */
  lemma {:induction false} EscapeStringIsPerChar(s: string)
    ensures EscapeString(s) == EscapeEach(s)
  {
    if |s| > 0 {
      assert s == [s[0]] + s[1..];
      EscapeStringAppend([s[0]], s[1..]);
      EscapeStringOneChar(s[0]);
      EscapeStringIsPerChar(s[1..]);
    }
  }

  /** Because backslashes are not doubled, a backslash-n and a newline escape to the same text. */
  lemma EscapeStringConflatesBackslash()
    ensures EscapeString("\\n") == EscapeString("\n") == "\\n"
  {
    EscapeStringIsPerChar("\\n");
    EscapeStringIsPerChar("\n");
  }

  /** `escape_char`: the escape of the first character, or `\0` for the empty string. */
  function EscapeChar(s: string): (r: string)
    ensures 0 < |r| <= 2
  {
    if |s| == 0 then "\\0"
    else
      var c := s[0];
      if c == '\\' then "\\\\"
      else if c == '\'' then "\\'"
      else if c == '\n' then "\\n"
      else if c == '\t' then "\\t"
      else if c == '\r' then "\\r"
      else [c]
  }

  /** How a C compiler reads the body of a character constant of one or two characters. */
  function CharConstantValue(e: string): char
    requires 0 < |e| <= 2
  {
    if |e| == 2 && e[0] == '\\' then
      if e[1] == '0' then '\0'
      else if e[1] == 'n' then '\n'
      else if e[1] == 't' then '\t'
      else if e[1] == 'r' then '\r'
      else e[1]
    else e[0]
  }

  /** The character constant denotes the first character of the literal, or NUL for an empty one. */
  lemma EscapeCharRoundTrip(s: string)
    ensures CharConstantValue(EscapeChar(s)) == if |s| == 0 then '\0' else s[0]
  {
  }

  // ---------------------------------------------------------------------------------------
  // The printf rewrite and generate_expr

  predicate IsPrintfCallee(callee: Expr) {
    callee.Identifier? && (callee.name == "printf" || callee.name == "ジョウジ")
  }

  /** The first argument is rewritten when the callee is `printf` and that argument is a string literal. */
  predicate RewritesFormat(callee: Expr, args: seq<Expr>) {
    IsPrintfCallee(callee) && |args| > 0 && args[0].StringLit?
  }

  /** The format text with `\n` (backslash, n) appended unless it ends with that or with a newline. */
  function WithNewline(s: string): (r: string)
    ensures EndsWith(r, "\\n") || EndsWith(r, "\n")
  {
    if EndsWith(s, "\\n") || EndsWith(s, "\n") then s
    else
      assert (s + "\\n")[|s|..] == "\\n";
      s + "\\n"
  }

  lemma WithNewlineIdempotent(s: string)
    ensures WithNewline(WithNewline(s)) == WithNewline(s)
  {
  }

  /** The arguments as `generate_call_expr` prints them. */
  function PrintfArgs(callee: Expr, args: seq<Expr>): (r: seq<Expr>)
    ensures |r| == |args| && (|args| > 0 ==> r[1..] == args[1..])
    ensures RewritesFormat(callee, args) ==> r[0] == StringLit(WithNewline(args[0].text))
    ensures !RewritesFormat(callee, args) ==> r == args
  {
    if RewritesFormat(callee, args) then [StringLit(WithNewline(args[0].text))] + args[1..] else args
  }

  /** Rewriting the arguments of a `printf` call a second time changes nothing. */
  lemma PrintfArgsIdempotent(callee: Expr, args: seq<Expr>)
    ensures PrintfArgs(callee, PrintfArgs(callee, args)) == PrintfArgs(callee, args)
  {
    if RewritesFormat(callee, args) {
      WithNewlineIdempotent(args[0].text);
      var r := PrintfArgs(callee, args);
      assert RewritesFormat(callee, r);
      assert [StringLit(WithNewline(r[0].text))] + r[1..] == r;
    }
  }

  function Quoted(s: string): string {
    "\"" + EscapeString(s) + "\""
  }

  /**
   * `generate_expr`: binary expressions fully parenthesised, names sanitised, literals escaped,
   * and the format of a `printf` call given its newline.
   */
  function GenerateExpr(e: Expr): (r: string)
    ensures e.Binary? ==> |r| >= 2 && r[0] == '(' && r[|r| - 1] == ')'
    ensures e.StringLit? ==> |r| >= |e.text| + 2 && r[0] == r[|r| - 1] == '"' && '\n' !in r
    decreases e, 1
  {
    match e
    case Binary(l, op, r) => "(" + GenerateExpr(l) + " " + op + " " + GenerateExpr(r) + ")"
    case Unary(op, x, prefix) => if prefix then op + GenerateExpr(x) else GenerateExpr(x) + op
    case Assign(t, v) => GenerateExpr(t) + " = " + GenerateExpr(v)
    case Call(callee, args) =>
      var texts := ExprTexts(args);
      var printed := if RewritesFormat(callee, args) then [Quoted(WithNewline(args[0].text))] + texts[1..] else texts;
      GenerateExpr(callee) + "(" + Join(printed, ", ") + ")"
    case Index(a, i) => GenerateExpr(a) + "[" + GenerateExpr(i) + "]"
    case Identifier(name) => SanitizeName(name)
    case NumberLit(v) => ValueText(v)
    case StringLit(s) => Quoted(s)
    case CharLit(s) => "'" + EscapeChar(s) + "'"
  }

  /** The texts of a list of expressions, as `map { |a| generate_expr(a) }`. */
  function ExprTexts(es: seq<Expr>): (r: seq<string>)
    ensures |r| == |es|
    decreases es, 0
  {
    if es == [] then [] else [GenerateExpr(es[0])] + ExprTexts(es[1..])
  }

  /** A call prints its callee and its rewritten arguments, each as `generate_expr` prints it. */
  lemma CallPrintsRewrittenArgs(callee: Expr, args: seq<Expr>)
    ensures GenerateExpr(Call(callee, args))
      == GenerateExpr(callee) + "(" + Join(ExprTexts(PrintfArgs(callee, args)), ", ") + ")"
  {
    if RewritesFormat(callee, args) {
      var r := PrintfArgs(callee, args);
      assert r[1..] == args[1..];
      assert ExprTexts(r) == [GenerateExpr(r[0])] + ExprTexts(r[1..]);
      assert ExprTexts(args)[1..] == ExprTexts(args[1..]);
    }
  }

  /** Printing a call whose `printf` format was already rewritten gives the same text. */
  lemma PrintfRewriteStable(callee: Expr, args: seq<Expr>)
    ensures GenerateExpr(Call(callee, PrintfArgs(callee, args))) == GenerateExpr(Call(callee, args))
  {
    CallPrintsRewrittenArgs(callee, args);
    CallPrintsRewrittenArgs(callee, PrintfArgs(callee, args));
    PrintfArgsIdempotent(callee, args);
  }
}
