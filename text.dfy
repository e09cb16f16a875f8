/** String helpers shared by the lexer, the code generator and the transliterator. */
module Text {

  /** True when `w` occurs in `s` starting at index `p` (Ruby's `s[p, |w|] == w`). */
  predicate StartsAt(s: string, p: nat, w: string) {
    p + |w| <= |s| && s[p..p + |w|] == w
  }

  predicate StartsWith(s: string, w: string) {
    StartsAt(s, 0, w)
  }

  predicate EndsWith(s: string, w: string) {
    |w| <= |s| && s[|s| - |w|..] == w
  }

  /** Four spaces per indentation level, as `'    ' * level`. */
  function Pad(level: nat): (s: string)
    ensures |s| == 4 * level
    ensures forall i :: 0 <= i < |s| ==> s[i] == ' '
  {
    if level == 0 then "" else "    " + Pad(level - 1)
  }

  /** Ruby's `Array#join(sep)`. */
  function Join(parts: seq<string>, sep: string): string {
    if |parts| == 0 then ""
    else if |parts| == 1 then parts[0]
    else parts[0] + sep + Join(parts[1..], sep)
  }

  /** Joining at a split point: the two joins with one separator between them. */
  lemma {:induction false} JoinSplit(parts: seq<string>, k: nat, sep: string)
    requires 0 < k < |parts|
    ensures Join(parts, sep) == Join(parts[..k], sep) + sep + Join(parts[k..], sep)
  {
    if k > 1 {
      JoinSplit(parts[1..], k - 1, sep);
      assert parts[..k][1..] == parts[1..][..k - 1];
      assert parts[1..][k - 1..] == parts[k..];
    }
  }

  function DigitChar(d: nat): (c: char)
    requires d < 10
    ensures '0' <= c <= '9'
  {
    ['0', '1', '2', '3', '4', '5', '6', '7', '8', '9'][d]
  }

  /** Decimal text of a natural number, as Ruby's `Integer#to_s`. */
  function NatToString(n: nat): (s: string)
    ensures |s| > 0
    ensures forall i :: 0 <= i < |s| ==> '0' <= s[i] <= '9'
    decreases n
  {
    if n < 10 then [DigitChar(n)] else NatToString(n / 10) + [DigitChar(n % 10)]
  }

  function IntToString(i: int): (s: string)
    ensures |s| > 0
  {
    if i < 0 then "-" + NatToString(-i) else NatToString(i)
  }

  predicate IsDecimalDigit(c: char) {
    '0' <= c <= '9'
  }

  /** Value of a run of decimal digits, as Ruby's `String#to_i` on such a run. */
  function DecimalDigitsValue(s: string): nat
    requires forall i :: 0 <= i < |s| ==> IsDecimalDigit(s[i])
  {
    if |s| == 0 then 0
    else
      assert IsDecimalDigit(s[|s| - 1]);
      10 * DecimalDigitsValue(s[..|s| - 1]) + (s[|s| - 1] as int - '0' as int)
  }
}
