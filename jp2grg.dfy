/**
 * The transliteration utility of lib/grongigo/jp2grg.rb: `convert`, which rewrites kana
 * character by character while copying the proper nouns verbatim, and `num2grg`, which writes
 * a number as a base-9 Grongigo numeral. Each method is proved to compute the function beside
 * it; the round trip of `num2grg` through the lexer's numeral reader is in numeral_trip.dfy.
 */
module Jp2Grg {
  import opened Wrappers
  import opened Text
  import opened Tables

  /**
   * `CONVERSION_TABLE`: the Grongigo image of a kana character, or None for a character that
   * is not a key. The entries are those of the source hash, row by row. Every image is one
   * or two characters (`ジャ`, `ジュ`, `ジョ` for the `や` row).
   */
  function TableImage(c: char): (r: Option<string>)
    ensures r.Some? ==> 1 <= |r.value| <= 2
  {
    match c
    case 'あ' => Some("ガ") case 'い' => Some("ギ") case 'う' => Some("グ") case 'え' => Some("ゲ") case 'お' => Some("ゴ")
    case 'か' => Some("バ") case 'き' => Some("ビ") case 'く' => Some("ブ") case 'け' => Some("ベ") case 'こ' => Some("ボ")
    case 'さ' => Some("ガ") case 'し' => Some("ギ") case 'す' => Some("グ") case 'せ' => Some("ゲ") case 'そ' => Some("ゴ")
    case 'た' => Some("ダ") case 'ち' => Some("ヂ") case 'つ' => Some("ヅ") case 'て' => Some("デ") case 'と' => Some("ド")
    case 'な' => Some("バ") case 'に' => Some("ビ") case 'ぬ' => Some("ブ") case 'ね' => Some("ベ") case 'の' => Some("ボ")
    case 'は' => Some("ザ") case 'ひ' => Some("ジ") case 'ふ' => Some("ズ") case 'へ' => Some("ゼ") case 'ほ' => Some("ゾ")
    case 'ま' => Some("ラ") case 'み' => Some("リ") case 'む' => Some("ル") case 'め' => Some("レ") case 'も' => Some("ロ")
    case 'や' => Some("ジャ") case 'ゆ' => Some("ジュ") case 'よ' => Some("ジョ")
    case 'ら' => Some("サ") case 'り' => Some("シ") case 'る' => Some("ス") case 'れ' => Some("セ") case 'ろ' => Some("ソ")
    case 'わ' => Some("パ") case 'を' => Some("ゾ") case 'ん' => Some("ン")
    case 'が' => Some("ガ") case 'ぎ' => Some("ギ") case 'ぐ' => Some("グ") case 'げ' => Some("ゲ") case 'ご' => Some("ゴ")
    case 'ざ' => Some("ザ") case 'じ' => Some("ジ") case 'ず' => Some("ズ") case 'ぜ' => Some("ゼ") case 'ぞ' => Some("ゾ")
    case 'だ' => Some("ザ") case 'ぢ' => Some("ジ") case 'づ' => Some("ズ") case 'で' => Some("ゼ") case 'ど' => Some("ゾ")
    case 'ば' => Some("ダ") case 'び' => Some("ヂ") case 'ぶ' => Some("ヅ") case 'べ' => Some("デ") case 'ぼ' => Some("ド")
    case 'ぱ' => Some("マ") case 'ぴ' => Some("ミ") case 'ぷ' => Some("ム") case 'ぺ' => Some("メ") case 'ぽ' => Some("モ")
    case 'ぁ' => Some("ァ") case 'ぃ' => Some("ィ") case 'ぅ' => Some("ゥ") case 'ぇ' => Some("ェ") case 'ぉ' => Some("ォ")
    case 'ゃ' => Some("ャ") case 'ゅ' => Some("ュ") case 'ょ' => Some("ョ")
    case 'っ' => Some("ッ")
    case 'ア' => Some("ガ") case 'イ' => Some("ギ") case 'ウ' => Some("グ") case 'エ' => Some("ゲ") case 'オ' => Some("ゴ")
    case 'カ' => Some("バ") case 'キ' => Some("ビ") case 'ク' => Some("ブ") case 'ケ' => Some("ベ") case 'コ' => Some("ボ")
    case 'サ' => Some("ガ") case 'シ' => Some("ギ") case 'ス' => Some("グ") case 'セ' => Some("ゲ") case 'ソ' => Some("ゴ")
    case 'タ' => Some("ダ") case 'チ' => Some("ヂ") case 'ツ' => Some("ヅ") case 'テ' => Some("デ") case 'ト' => Some("ド")
    case 'ナ' => Some("バ") case 'ニ' => Some("ビ") case 'ヌ' => Some("ブ") case 'ネ' => Some("ベ") case 'ノ' => Some("ボ")
    case 'ハ' => Some("ザ") case 'ヒ' => Some("ジ") case 'フ' => Some("ズ") case 'ヘ' => Some("ゼ") case 'ホ' => Some("ゾ")
    case 'マ' => Some("ラ") case 'ミ' => Some("リ") case 'ム' => Some("ル") case 'メ' => Some("レ") case 'モ' => Some("ロ")
    case 'ヤ' => Some("ジャ") case 'ユ' => Some("ジュ") case 'ヨ' => Some("ジョ")
    case 'ラ' => Some("サ") case 'リ' => Some("シ") case 'ル' => Some("ス") case 'レ' => Some("セ") case 'ロ' => Some("ソ")
    case 'ワ' => Some("パ") case 'ヲ' => Some("ゾ") case 'ン' => Some("ン")
    case 'ガ' => Some("ガ") case 'ギ' => Some("ギ") case 'グ' => Some("グ") case 'ゲ' => Some("ゲ") case 'ゴ' => Some("ゴ")
    case 'ザ' => Some("ザ") case 'ジ' => Some("ジ") case 'ズ' => Some("ズ") case 'ゼ' => Some("ゼ") case 'ゾ' => Some("ゾ")
    case 'ダ' => Some("ザ") case 'ヂ' => Some("ジ") case 'ヅ' => Some("ズ") case 'デ' => Some("ゼ") case 'ド' => Some("ゾ")
    case 'バ' => Some("ダ") case 'ビ' => Some("ヂ") case 'ブ' => Some("ヅ") case 'ベ' => Some("デ") case 'ボ' => Some("ド")
    case 'パ' => Some("マ") case 'ピ' => Some("ミ") case 'プ' => Some("ム") case 'ペ' => Some("メ") case 'ポ' => Some("モ")
    case _ => None
  }

  // ---------------------------------------------------------------------------------------
  // convert

  /** `CONVERSION_TABLE.key?(c)`. */
  predicate InTable(c: char) {
    TableImage(c).Some?
  }

  /** The image of one character outside a proper noun: its table entry, or itself. */
  function ConvertChar(c: char): (r: string)
    ensures 1 <= |r| <= 2
    ensures !InTable(c) ==> r == [c]
    ensures InTable(c) ==> r == TableImage(c).value
  {
    TableImage(c).GetOr([c])
  }

  /** No word of the list is empty, so a match always advances. */
  predicate NonEmptyWords(nouns: seq<string>) {
    forall k :: 0 <= k < |nouns| ==> |nouns[k]| > 0
  }

  /** No word of the list is a prefix of another. */
  predicate PrefixFree(nouns: seq<string>) {
    forall a, b :: 0 <= a < |nouns| && 0 <= b < |nouns| && a != b ==> !StartsWith(nouns[a], nouns[b])
  }

  /** The first word of `nouns`, in list order from `j` on, that occurs at index `i` of `text`. */
  function NounFrom(nouns: seq<string>, text: string, i: nat, j: nat): (r: Option<nat>)
    requires j <= |nouns|
    ensures r.Some? ==> j <= r.value < |nouns| && StartsAt(text, i, nouns[r.value])
    decreases |nouns| - j
  {
    if j == |nouns| then None
    else if StartsAt(text, i, nouns[j]) then Some(j)
    else NounFrom(nouns, text, i, j + 1)
  }

  /** The word found is the first in list order from `j` that occurs at `i`; None means none occurs. */
  lemma {:induction false} NounFromFirst(nouns: seq<string>, text: string, i: nat, j: nat)
    requires j <= |nouns|
    ensures NounFrom(nouns, text, i, j).Some? ==>
      forall m :: j <= m < NounFrom(nouns, text, i, j).value ==> !StartsAt(text, i, nouns[m])
    ensures NounFrom(nouns, text, i, j).None? ==>
      forall m :: j <= m < |nouns| ==> !StartsAt(text, i, nouns[m])
    decreases |nouns| - j
  {
    if j < |nouns| && !StartsAt(text, i, nouns[j]) {
      NounFromFirst(nouns, text, i, j + 1);
    }
  }

  /** The proper-noun list has no empty word and no word that is a prefix of another. */
  lemma ProperNounsWellFormed()
    ensures NonEmptyWords(PROPER_NOUNS) && PrefixFree(PROPER_NOUNS)
  {
    var heads := [('ク', 'ウ'), ('リ', 'ン'), ('ゲ', 'ゲ'), ('グ', 'ロ'), ('グ', 'セ'), ('バ', 'グ'), ('ゲ', 'リ'), ('ザ', 'ギ')];
    assert forall k :: 0 <= k < |PROPER_NOUNS| ==> |PROPER_NOUNS[k]| >= 3 && heads[k] == (PROPER_NOUNS[k][0], PROPER_NOUNS[k][1]);
    forall a, b | 0 <= a < |PROPER_NOUNS| && 0 <= b < |PROPER_NOUNS| && a != b
      ensures !StartsWith(PROPER_NOUNS[a], PROPER_NOUNS[b])
    {
      assert heads[a] != heads[b];
    }
  }

  /**
   * The converted text from index `i` on, once the words of `nouns` before `j` have been tried
   * at `i` without a match: the two nested loops of `convert` as one recursion. Each character
   * gives one or two characters, so the result is between one and two times as long.
   */
  function ConvertFrom(nouns: seq<string>, text: string, i: nat, j: nat): (r: string)
    requires NonEmptyWords(nouns) && i <= |text| && j <= |nouns|
    ensures |text| - i <= |r| <= 2 * (|text| - i)
    decreases |text| - i, |nouns| - j
  {
    if i == |text| then ""
    else if j == |nouns| then ConvertChar(text[i]) + ConvertFrom(nouns, text, i + 1, 0)
    else if StartsAt(text, i, nouns[j]) then nouns[j] + ConvertFrom(nouns, text, i + |nouns[j]|, 0)
    else ConvertFrom(nouns, text, i, j + 1)
  }

  /** What `convert` returns for `text`: at least as long as `text` and at most twice as long. */
  function Converted(text: string): (r: string)
    ensures |text| <= |r| <= 2 * |text|
  {
    ProperNounsWellFormed();
    ConvertFrom(PROPER_NOUNS, text, 0, 0)
  }

  /** `convert`, with its `while` loop over the characters. */
  method Convert(text: string) returns (r: string)
    ensures r == Converted(text)
  {
    ProperNounsWellFormed();
    var result := "";
    var i: nat := 0;
    ghost var goal := Converted(text);
    while i < |text|
      invariant i <= |text|
      invariant result + ConvertFrom(PROPER_NOUNS, text, i, 0) == goal
      decreases |text| - i
    {
      var piece, width := ConvertStep(PROPER_NOUNS, text, i);
      AppendStep(result, piece, ConvertFrom(PROPER_NOUNS, text, i + width, 0), ConvertFrom(PROPER_NOUNS, text, i, 0), goal);
      result := result + piece;
      i := i + width;
    }
    r := result;
  }

  lemma AppendStep(result: string, piece: string, rest: string, whole: string, goal: string)
    requires result + whole == goal && piece + rest == whole
    ensures (result + piece) + rest == goal
  {
  }

  /** One turn of the loop of `convert`: the first matching word of `nouns` (`PROPER_NOUNS`), else one character's image. */
  method ConvertStep(nouns: seq<string>, text: string, i: nat) returns (piece: string, width: nat)
    requires NonEmptyWords(nouns) && i < |text|
    ensures 0 < width && i + width <= |text|
    ensures piece + ConvertFrom(nouns, text, i + width, 0) == ConvertFrom(nouns, text, i, 0)
  {
    var j := 0;
    while j < |nouns|
      invariant j <= |nouns|
      invariant ConvertFrom(nouns, text, i, j) == ConvertFrom(nouns, text, i, 0)
    {
      ConvertFromUnfold(nouns, text, i, j);
      if StartsAt(text, i, nouns[j]) {
        piece := nouns[j];
        width := |piece|;
        return;
      }
      j := j + 1;
    }
    ConvertFromUnfold(nouns, text, i, j);
    piece := ConvertChar(text[i]);
    width := 1;
  }

  /** One unfolding of `ConvertFrom` at a character that is not the end of the text. */
  lemma ConvertFromUnfold(nouns: seq<string>, text: string, i: nat, j: nat)
    requires NonEmptyWords(nouns) && i < |text| && j <= |nouns|
    ensures j == |nouns| ==> ConvertFrom(nouns, text, i, j) == ConvertChar(text[i]) + ConvertFrom(nouns, text, i + 1, 0)
    ensures j < |nouns| && StartsAt(text, i, nouns[j]) ==>
      ConvertFrom(nouns, text, i, j) == nouns[j] + ConvertFrom(nouns, text, i + |nouns[j]|, 0)
    ensures j < |nouns| && !StartsAt(text, i, nouns[j]) ==> ConvertFrom(nouns, text, i, j) == ConvertFrom(nouns, text, i, j + 1)
  {
  }

  /**
   * The conversion at `i` copies the first word of `nouns`, in list order, that occurs there
   * and skips it, and otherwise converts the one character at `i`.
   */
  lemma {:induction false} ConvertAt(nouns: seq<string>, text: string, i: nat, j: nat)
    requires NonEmptyWords(nouns) && i < |text| && j <= |nouns|
    ensures NounFrom(nouns, text, i, j).Some? ==>
      var k := NounFrom(nouns, text, i, j).value;
      ConvertFrom(nouns, text, i, j) == nouns[k] + ConvertFrom(nouns, text, i + |nouns[k]|, 0)
    ensures NounFrom(nouns, text, i, j).None? ==>
      ConvertFrom(nouns, text, i, j) == ConvertChar(text[i]) + ConvertFrom(nouns, text, i + 1, 0)
    decreases |nouns| - j
  {
    if j == |nouns| {
    } else if StartsAt(text, i, nouns[j]) {
    } else {
      ConvertAt(nouns, text, i, j + 1);
    }
  }

  /** Text with no character of the table comes back unchanged (proper nouns are copied anyway). */
  lemma ConvertUnchanged(text: string)
    requires forall k :: 0 <= k < |text| ==> !InTable(text[k])
    ensures Converted(text) == text
  {
    ProperNounsWellFormed();
    ConvertFromFixed(PROPER_NOUNS, text, 0);
  }

  /** Text whose every character is its own image comes back unchanged. */
  lemma {:induction false} ConvertFromFixed(nouns: seq<string>, text: string, i: nat)
    requires NonEmptyWords(nouns) && i <= |text|
    requires forall k :: 0 <= k < |text| ==> ConvertChar(text[k]) == [text[k]]
    ensures ConvertFrom(nouns, text, i, 0) == text[i..]
    decreases |text| - i
  {
    if i < |text| {
      match NounFrom(nouns, text, i, 0) {
        case Some(k) =>
          NounStep(nouns, text, i, k);
          ConvertFromFixed(nouns, text, i + |nouns[k]|);
        case None =>
          ConvertAt(nouns, text, i, 0);
          ConvertFromFixed(nouns, text, i + 1);
          assert text[i..] == [text[i]] + text[i + 1..];
      }
    }
  }

  /** A word found at `i` is copied and skipped. */
  lemma NounStep(nouns: seq<string>, text: string, i: nat, k: nat)
    requires NonEmptyWords(nouns) && i < |text| && NounFrom(nouns, text, i, 0) == Some(k)
    ensures i + |nouns[k]| <= |text|
    ensures ConvertFrom(nouns, text, i, 0) == nouns[k] + ConvertFrom(nouns, text, i + |nouns[k]|, 0)
    ensures text[i..] == nouns[k] + text[i + |nouns[k]|..]
  {
    ConvertAt(nouns, text, i, 0);
    StartsAtSplit(text, i, nouns[k]);
  }

  lemma StartsAtSplit(text: string, i: nat, w: string)
    requires StartsAt(text, i, w)
    ensures text[i..] == w + text[i + |w|..]
  {
    assert text[i..] == text[i..i + |w|] + text[i + |w|..];
  }

  /** Two prefixes of one text: the shorter is a prefix of the longer. */
  lemma CommonPrefix(text: string, a: string, b: string)
    requires StartsWith(text, a) && StartsWith(text, b)
    ensures StartsWith(a, b) || StartsWith(b, a)
  {
    if |b| <= |a| {
      assert a[..|b|] == text[..|b|];
    } else {
      assert b[..|a|] == text[..|a|];
    }
  }

  /**
   * With a prefix-free list, a word at the start of the text is copied verbatim whatever its
   * place in the list, and the rest is converted after it.
   */
  lemma WordKeptVerbatim(nouns: seq<string>, text: string, k: nat)
    requires NonEmptyWords(nouns) && PrefixFree(nouns)
    requires k < |nouns| && StartsWith(text, nouns[k])
    ensures ConvertFrom(nouns, text, 0, 0) == nouns[k] + ConvertFrom(nouns, text, |nouns[k]|, 0)
  {
    NounFromFirst(nouns, text, 0, 0);
    var m := NounFrom(nouns, text, 0, 0).value;
    CommonPrefix(text, nouns[m], nouns[k]);
    ConvertAt(nouns, text, 0, 0);
  }

  /** A proper noun at the start of the text is copied verbatim and the rest converted after it. */
  lemma NounKeptVerbatim(text: string, k: nat)
    requires k < |PROPER_NOUNS| && StartsWith(text, PROPER_NOUNS[k])
    ensures NonEmptyWords(PROPER_NOUNS)
    ensures Converted(text) == PROPER_NOUNS[k] + ConvertFrom(PROPER_NOUNS, text, |PROPER_NOUNS[k]|, 0)
  {
    ProperNounsWellFormed();
    WordKeptVerbatim(PROPER_NOUNS, text, k);
  }

  /** Outside a word of the list a character is replaced by its table image, or copied if it has none. */
  lemma ConvertReplacesChar(nouns: seq<string>, text: string, i: nat)
    requires NonEmptyWords(nouns) && i < |text| && NounFrom(nouns, text, i, 0).None?
    ensures StartsWith(ConvertFrom(nouns, text, i, 0), ConvertChar(text[i]))
    ensures !InTable(text[i]) ==> StartsWith(ConvertFrom(nouns, text, i, 0), [text[i]])
  {
    ConvertAt(nouns, text, i, 0);
  }

  // ---------------------------------------------------------------------------------------
  // num2grg

  function Pow9(p: nat): (r: nat)
    ensures r >= 1
  {
    if p == 0 then 1 else 9 * Pow9(p - 1)
  }

  /** The base-9 digits of `n`, most significant first; none for `n <= 0`. */
  function Base9(n: int): (ds: seq<nat>)
    ensures forall k :: 0 <= k < |ds| ==> ds[k] < 9
    ensures n > 0 ==> |ds| > 0 && ds[0] > 0
    decreases if n > 0 then n else 0
  {
    if n <= 0 then [] else Base9(n / 9) + [n % 9]
  }

  /** `'バギン' + 'グバギン' * (power - 1)`: nine to the power `p`, for `p >= 1`. */
  function Multiplier(p: nat): string
    requires p >= 1
  {
    if p == 1 then "バギン" else Multiplier(p - 1) + "グバギン"
  }

  /** The part for a nonzero digit `d` at power `p`. */
  function Part(d: nat, p: nat): string
    requires 1 <= d < 9
  {
    if p == 0 then DigitWords[d]
    else if d == 1 then Multiplier(p)
    else Multiplier(p) + "グ" + DigitWords[d]
  }

  /** The parts of the digits `ds` (most significant first), one per nonzero digit. */
  function Parts(ds: seq<nat>): (r: seq<string>)
    requires forall k :: 0 <= k < |ds| ==> ds[k] < 9
  {
    if |ds| == 0 then []
    else (if ds[0] == 0 then [] else [Part(ds[0], |ds| - 1)]) + Parts(ds[1..])
  }

  /** What `num2grg` returns: `ゼゼソ` for zero, a digit word below nine, else the parts joined by `ド`. */
  function Numeral(n: int): (r: string)
    ensures n < 0 ==> r == ""
    ensures 0 < n < 9 ==> r == DigitWords[n]
  {
    if n == 0 then "ゼゼソ"
    else
      var ds := Base9(n);
      if |ds| == 1 then DigitWords[ds[0]] else Join(Parts(ds), "ド")
  }

  /** `num2grg`: zero, a single base-9 digit, or the parts of the nonzero digits joined by `ド`. */
  method Num2Grg(num: int) returns (r: string)
    ensures r == Numeral(num)
  {
    if num == 0 {
      return "ゼゼソ";
    }
    var digits := DigitWords[..9];
    var base9Digits := ToBase9(num);
    if |base9Digits| == 1 {
      return digits[base9Digits[0]];
    }
    var resultParts := DigitParts(base9Digits);
    r := Join(resultParts, "ド");
  }

  /** The division loop of `num2grg`, which prepends `n % 9` while `n > 0`. */
  method ToBase9(num: int) returns (base9Digits: seq<nat>)
    ensures base9Digits == Base9(num)
  {
    base9Digits := [];
    var n := num;
    while n > 0
      invariant n > 0 ==> Base9(num) == Base9(n) + base9Digits
      invariant n <= 0 ==> Base9(num) == base9Digits
      decreases if n > 0 then n else 0
    {
      var digit: nat := n % 9;
      Base9Step(n, base9Digits);
      base9Digits := [digit] + base9Digits;
      n := n / 9;
    }
  }

  lemma Base9Step(n: int, tail: seq<nat>)
    requires n > 0
    ensures Base9(n) + tail == Base9(n / 9) + ([n % 9] + tail)
    ensures n / 9 < n
  {
  }

  /** The loop of `num2grg` over the digits from the least significant, prepending one part per nonzero digit. */
  method DigitParts(ds: seq<nat>) returns (resultParts: seq<string>)
    requires forall k :: 0 <= k < |ds| ==> ds[k] < 9
    ensures resultParts == Parts(ds)
  {
    resultParts := [];
    for power := 0 to |ds|
      invariant resultParts == Parts(ds[|ds| - power..])
    {
      var digit := ds[|ds| - 1 - power];
      assert ds[|ds| - 1 - power..][1..] == ds[|ds| - power..];
      if digit == 0 {
        continue;
      }
      if power == 0 {
        resultParts := [DigitWords[digit]] + resultParts;
      } else {
        var multiplier := Multiplier(power);
        if digit == 1 {
          resultParts := [multiplier] + resultParts;
        } else {
          resultParts := [multiplier + "グ" + DigitWords[digit]] + resultParts;
        }
      }
    }
    assert ds[0..] == ds;
  }

  /** `num2grg(0)` is `ゼゼソ` and `num2grg(d)` for `d` in 1..8 is the d-th digit word. */
  lemma SmallNumerals()
    ensures Numeral(0) == "ゼゼソ"
    ensures forall d :: 1 <= d <= 8 ==> Numeral(d) == DigitWords[d]
  {
  }
}
