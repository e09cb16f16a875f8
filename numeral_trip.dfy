/**
 * The round trip between `num2grg` of lib/grongigo/jp2grg.rb and the lexer's numeral reader
 * (`try_parse_number` of lib/grongigo/lexer.rb): every natural number that the one writes is
 * read back as itself by the other. The proof spells a numeral as a sequence of numeral
 * units, shows that the lexer's scanner recovers exactly those units, and evaluates them part
 * by part against the base-9 value of the digits.
 */
module NumeralTrip {
  import opened Wrappers
  import opened Text
  import opened Tables
  import opened Lexing
  import opened Jp2Grg

  // ---------------------------------------------------------------- spelling units

  /** Digits name a digit word and every operator is followed by a digit. */
  predicate Spelled(us: seq<NumeralUnit>) {
    |us| == 0 ||
    ((if us[0].Digit? then us[0].value < 10 else |us| > 1 && us[1].Digit?) && Spelled(us[1..]))
  }

  function UnitText(u: NumeralUnit): string
    requires u.Digit? ==> u.value < 10
  {
    match u
    case Digit(d) => DigitWords[d]
    case AddUnit => [AddChar]
    case MulUnit => [MultiplyChar]
  }

  /** The text the units spell, unit after unit. */
  function UnitsText(us: seq<NumeralUnit>): string
    requires Spelled(us)
  {
    if |us| == 0 then "" else UnitText(us[0]) + UnitsText(us[1..])
  }

  lemma {:induction false} SpelledAppend(a: seq<NumeralUnit>, b: seq<NumeralUnit>)
    requires Spelled(a) && Spelled(b)
    ensures Spelled(a + b)
    ensures UnitsText(a + b) == UnitsText(a) + UnitsText(b)
  {
    if |a| > 0 {
      SpelledAppend(a[1..], b);
      assert (a + b)[1..] == a[1..] + b;
    } else {
      assert a + b == b;
    }
  }

  // ---------------------------------------------------------------- scanning spelled units back

  /** What the scanner needs of one digit word: its length, its entry and its first letters. */
  lemma DigitWordFacts(d: nat)
    requires d < 10
    ensures |DigitWords[d]| == 3
    ensures DigitWords[d] in DIGITS && DIGITS[DigitWords[d]] == d
    ensures DigitWords[d][0] != 'シ'
    ensures DigitWords[d][0] == AddChar ==> d == 2 && DigitWords[d][1] == MultiplyChar && DigitWords[d][2] == MultiplyChar
    ensures DigitWords[d][0] == MultiplyChar ==> d == 3 && DigitWords[d][1] == 'シ'
  {
    if d == 0 {
    } else if d == 1 {
    } else if d == 2 {
    } else if d == 3 {
    } else if d == 4 {
    } else if d == 5 {
    } else if d == 6 {
    } else if d == 7 {
    } else if d == 8 {
    } else {
    }
  }

  /** A digit word followed by anything is read as that digit. */
  lemma DigitWordPrefix(d: nat, rest: string)
    requires d < 10
    ensures DigitPrefix(DigitWords[d] + rest) == Some(d)
  {
    var s := DigitWords[d] + rest;
    DigitWordFacts(d);
    assert StartsWith(s, DigitWords[d]);
    var e := DigitPrefix(s).value;
    DigitWordFacts(e);
    assert DigitWords[e] == s[..3] == DigitWords[d];
  }

  /** `ド` or `グ` before a digit word starts no digit word. */
  lemma OperatorPrefix(c: char, d: nat, rest: string)
    requires c == AddChar || c == MultiplyChar
    requires d < 10
    ensures DigitPrefix([c] + DigitWords[d] + rest).None?
  {
    var s := [c] + DigitWords[d] + rest;
    DigitWordFacts(d);
    assert s[0] == c && s[1] == DigitWords[d][0] && s[2] == DigitWords[d][1];
    forall e | 0 <= e < 10
      ensures !StartsWith(s, DigitWords[e])
    {
      DigitWordFacts(e);
    }
  }

  lemma ScanDigitStep(d: nat, tail: string, tus: seq<NumeralUnit>)
    requires d < 10
    requires ScanUnits(tail) == Some(tus)
    ensures ScanUnits(DigitWords[d] + tail) == Some([Digit(d)] + tus)
  {
    DigitWordFacts(d);
    DigitWordPrefix(d, tail);
    var s := DigitWords[d] + tail;
    assert s[|DigitWords[d]|..] == tail;
  }

  lemma ScanOperatorStep(c: char, u: NumeralUnit, d: nat, tail: string, tus: seq<NumeralUnit>)
    requires (c == AddChar && u == AddUnit) || (c == MultiplyChar && u == MulUnit)
    requires d < 10
    requires ScanUnits(DigitWords[d] + tail) == Some(tus)
    ensures ScanUnits([c] + (DigitWords[d] + tail)) == Some([u] + tus)
  {
    OperatorPrefix(c, d, tail);
    var s := [c] + (DigitWords[d] + tail);
    assert s == [c] + DigitWords[d] + tail;
    assert s[1..] == DigitWords[d] + tail;
  }

  /** A digit unit in front of units the scanner already splits. */
  lemma ScanConsDigit(us: seq<NumeralUnit>)
    requires Spelled(us) && |us| > 0 && us[0].Digit?
    requires ScanUnits(UnitsText(us[1..])) == Some(us[1..])
    ensures ScanUnits(UnitsText(us)) == Some(us)
  {
    assert [us[0]] + us[1..] == us;
    ScanDigitStep(us[0].value, UnitsText(us[1..]), us[1..]);
  }

  /** An operator unit in front of units the scanner already splits. */
  lemma ScanConsOperator(us: seq<NumeralUnit>)
    requires Spelled(us) && |us| > 0 && !us[0].Digit?
    requires ScanUnits(UnitsText(us[1..])) == Some(us[1..])
    ensures ScanUnits(UnitsText(us)) == Some(us)
  {
    var u := us[0];
    var c := if u.AddUnit? then AddChar else MultiplyChar;
    var d := us[1].value;
    var tail2 := UnitsText(us[2..]);
    assert us[1..][1..] == us[2..];
    var s := UnitsText(us);
    assert s == [c] + (DigitWords[d] + tail2);
    ScanOperatorStep(c, u, d, tail2, us[1..]);
    assert [u] + us[1..] == us;
  }

  /** The lexer's scanner splits the spelling of units into exactly those units. */
  lemma {:induction false} ScanSpelled(us: seq<NumeralUnit>)
    requires Spelled(us)
    ensures ScanUnits(UnitsText(us)) == Some(us)
  {
    if |us| > 0 {
      ScanSpelled(us[1..]);
      if us[0].Digit? {
        ScanConsDigit(us);
      } else {
        ScanConsOperator(us);
      }
    }
  }

  // ---------------------------------------------------------------- the units of num2grg

  /** `バギン` followed by `power - 1` times `グバギン`, as units. */
  function MulChain(p: nat): (us: seq<NumeralUnit>)
    requires p >= 1
    ensures |us| > 0 && us[0] == Digit(9)
  {
    if p == 1 then [Digit(9)] else MulChain(p - 1) + [MulUnit, Digit(9)]
  }

  /** The units of the part for the nonzero digit `d` at power `p`. */
  function PartUnits(d: nat, p: nat): (us: seq<NumeralUnit>)
    requires 1 <= d < 9
    ensures |us| > 0 && us[0].Digit?
  {
    if p == 0 then [Digit(d)]
    else if d == 1 then MulChain(p)
    else MulChain(p) + [MulUnit, Digit(d)]
  }

  /** The units of each part, one list per nonzero digit, in the order of `Parts`. */
  function PartsUnits(ds: seq<nat>): seq<seq<NumeralUnit>>
    requires forall k :: 0 <= k < |ds| ==> ds[k] < 9
  {
    if |ds| == 0 then []
    else (if ds[0] == 0 then [] else [PartUnits(ds[0], |ds| - 1)]) + PartsUnits(ds[1..])
  }

  /** The parts joined by `ド`, as units. */
  function JoinUnits(pus: seq<seq<NumeralUnit>>): seq<NumeralUnit> {
    if |pus| == 0 then []
    else if |pus| == 1 then pus[0]
    else pus[0] + ([AddUnit] + JoinUnits(pus[1..]))
  }

  predicate PartsSpelled(pus: seq<seq<NumeralUnit>>) {
    forall k :: 0 <= k < |pus| ==> Spelled(pus[k]) && |pus[k]| > 0 && pus[k][0].Digit?
  }

  /** `ド` before spelled units that start with a digit. */
  lemma AddBeforeDigit(rest: seq<NumeralUnit>)
    requires Spelled(rest) && |rest| > 0 && rest[0].Digit?
    ensures Spelled([AddUnit] + rest)
    ensures UnitsText([AddUnit] + rest) == "ド" + UnitsText(rest)
  {
    assert ([AddUnit] + rest)[1..] == rest;
  }

  // ---------------------------------------------------------------- units spell the text

  /** The spelling of each part list. */
  function Spellings(pus: seq<seq<NumeralUnit>>): seq<string>
    requires PartsSpelled(pus)
  {
    if |pus| == 0 then [] else [UnitsText(pus[0])] + Spellings(pus[1..])
  }

  /** An operator and a digit spell the operator's character and the digit word. */
  lemma OperatorDigitText(u: NumeralUnit, d: nat)
    requires !u.Digit? && d < 10
    ensures Spelled([u, Digit(d)])
    ensures UnitsText([u, Digit(d)]) == UnitText(u) + DigitWords[d]
  {
    assert [u, Digit(d)][1..] == [Digit(d)];
    assert [Digit(d)][1..] == [];
    assert UnitsText([Digit(d)]) == DigitWords[d] + "";
    assert DigitWords[d] + "" == DigitWords[d];
  }

  /** The units of `9 ** p` spell `Multiplier(p)`. */
  lemma {:induction false} MulChainText(p: nat)
    requires p >= 1
    ensures Spelled(MulChain(p))
    ensures UnitsText(MulChain(p)) == Multiplier(p)
  {
    if p > 1 {
      MulChainText(p - 1);
      OperatorDigitText(MulUnit, 9);
      SpelledAppend(MulChain(p - 1), [MulUnit, Digit(9)]);
      assert [MultiplyChar] + DigitWords[9] == "グバギン";
    }
  }

  /** The units of a part spell that part. */
  lemma PartText(d: nat, p: nat)
    requires 1 <= d < 9
    ensures Spelled(PartUnits(d, p))
    ensures UnitsText(PartUnits(d, p)) == Part(d, p)
  {
    if p == 0 {
      assert UnitsText([Digit(d)]) == DigitWords[d] + UnitsText([]);
    } else {
      MulChainText(p);
      if d > 1 {
        OperatorDigitText(MulUnit, d);
        SpelledAppend(MulChain(p), [MulUnit, Digit(d)]);
        assert Multiplier(p) + ([MultiplyChar] + DigitWords[d]) == Multiplier(p) + "グ" + DigitWords[d];
      }
    }
  }

  /** Spelling a part in front of spelled parts puts its text in front. */
  lemma SpellingsCons(part: seq<NumeralUnit>, r: seq<seq<NumeralUnit>>)
    requires Spelled(part) && |part| > 0 && part[0].Digit?
    requires PartsSpelled(r)
    ensures PartsSpelled([part] + r)
    ensures Spellings([part] + r) == [UnitsText(part)] + Spellings(r)
  {
    assert ([part] + r)[1..] == r;
    assert forall k :: 1 <= k < |r| + 1 ==> ([part] + r)[k] == r[k - 1];
  }

  /** The part lists of `ds` spell the parts of `ds`. */
  lemma {:induction false} PartsText(ds: seq<nat>)
    requires forall k :: 0 <= k < |ds| ==> ds[k] < 9
    ensures PartsSpelled(PartsUnits(ds))
    ensures Spellings(PartsUnits(ds)) == Parts(ds)
  {
    if |ds| > 0 {
      var r := PartsUnits(ds[1..]);
      PartsText(ds[1..]);
      if ds[0] != 0 {
        var part := PartUnits(ds[0], |ds| - 1);
        PartText(ds[0], |ds| - 1);
        assert PartsUnits(ds) == [part] + r;
        SpellingsCons(part, r);
      } else {
        assert PartsUnits(ds) == r;
        assert Parts(ds) == Parts(ds[1..]);
      }
    }
  }

  /** The joined part lists are spelled units, start with the first part, and spell the joined text. */
  lemma {:induction false} JoinText(pus: seq<seq<NumeralUnit>>)
    requires PartsSpelled(pus)
    ensures Spelled(JoinUnits(pus))
    ensures |pus| > 0 ==> |JoinUnits(pus)| > 0 && JoinUnits(pus)[0] == pus[0][0]
    ensures UnitsText(JoinUnits(pus)) == Join(Spellings(pus), "ド")
  {
    if |pus| > 1 {
      JoinText(pus[1..]);
      var rest := JoinUnits(pus[1..]);
      AddBeforeDigit(rest);
      SpelledAppend(pus[0], [AddUnit] + rest);
      assert Spellings(pus)[1..] == Spellings(pus[1..]);
    }
  }

  // ---------------------------------------------------------------- evaluating the units

  /** Evaluation past a prefix only sees the rest. */
  lemma {:induction false} EvalShift(a: seq<NumeralUnit>, b: seq<NumeralUnit>, i: nat, acc: int, cp: Option<int>)
    requires i <= |b|
    ensures EvalFrom(a + b, |a| + i, acc, cp) == EvalFrom(b, i, acc, cp)
    decreases |b| - i
  {
    var us := a + b;
    if i < |b| {
      assert us[|a| + i] == b[i];
      match b[i]
      case Digit(d) =>
        if cp.None? {
          EvalShift(a, b, i + 1, acc, Some(d));
        }
      case MulUnit =>
        if i + 1 < |b| && b[i + 1].Digit? {
          assert us[|a| + i + 1] == b[i + 1];
          EvalShift(a, b, i + 2, acc, Some(cp.GetOr(1) * b[i + 1].value));
        }
      case AddUnit =>
        EvalShift(a, b, i + 1, acc + cp.GetOr(0), None);
    }
  }

  /** `d * 9 ** p`, by repeated multiplication by nine. */
  function Scale(d: nat, p: nat): nat {
    if p == 0 then d else 9 * Scale(d, p - 1)
  }

  lemma {:induction false} ScaleZero(p: nat)
    ensures Scale(0, p) == 0
  {
    if p > 0 {
      ScaleZero(p - 1);
    }
  }

  /** Scaling `d` is scaling one and multiplying by `d`. */
  lemma {:induction false} ScaleOne(d: nat, p: nat)
    ensures Scale(1, p) * d == Scale(d, p)
  {
    if p > 0 {
      ScaleOne(d, p - 1);
      var x := Scale(1, p - 1);
      assert (9 * x) * d == 9 * (x * d);
    }
  }

  /** The units of `9 ** p` leave `9 ** p` as the pending product. */
  lemma {:induction false} EvalMulChain(p: nat, tail: seq<NumeralUnit>, acc: int)
    requires p >= 1
    ensures EvalFrom(MulChain(p) + tail, 0, acc, None) == EvalFrom(tail, 0, acc, Some(Scale(1, p)))
  {
    if p == 1 {
      EvalShift([Digit(9)], tail, 0, acc, Some(9));
    } else {
      var step := [MulUnit, Digit(9)];
      assert MulChain(p) + tail == MulChain(p - 1) + (step + tail);
      EvalMulChain(p - 1, step + tail, acc);
      EvalShift(step, tail, 0, acc, Some(Scale(1, p - 1) * 9));
    }
  }

  /** The units of a part leave the part's value, `d * 9 ** p`, as the pending product. */
  lemma EvalPart(d: nat, p: nat, tail: seq<NumeralUnit>, acc: int)
    requires 1 <= d < 9
    ensures EvalFrom(PartUnits(d, p) + tail, 0, acc, None) == EvalFrom(tail, 0, acc, Some(Scale(d, p)))
  {
    if p == 0 {
      EvalShift([Digit(d)], tail, 0, acc, Some(d));
    } else if d == 1 {
      EvalMulChain(p, tail, acc);
    } else {
      var step := [MulUnit, Digit(d)];
      assert PartUnits(d, p) + tail == MulChain(p) + (step + tail);
      EvalMulChain(p, step + tail, acc);
      ScaleOne(d, p);
      EvalShift(step, tail, 0, acc, Some(Scale(1, p) * d));
    }
  }

  /** A part followed by `ド` and more units adds the part's value before the rest. */
  lemma EvalPartThenAdd(d: nat, p: nat, rest: seq<NumeralUnit>, acc: int)
    requires 1 <= d < 9
    ensures EvalFrom(PartUnits(d, p) + ([AddUnit] + rest), 0, acc, None)
         == EvalFrom(rest, 0, acc + Scale(d, p), None)
  {
    EvalPart(d, p, [AddUnit] + rest, acc);
    EvalShift([AddUnit], rest, 0, acc + Scale(d, p), None);
  }

  /** The value of base-9 digits, most significant first. */
  function Value9(ds: seq<nat>): nat {
    if |ds| == 0 then 0 else Scale(ds[0], |ds| - 1) + Value9(ds[1..])
  }

  /** Joining a first part onto further parts puts `ド` between them. */
  lemma JoinCons(part: seq<NumeralUnit>, r: seq<seq<NumeralUnit>>)
    ensures JoinUnits([part] + r) == if |r| == 0 then part else part + ([AddUnit] + JoinUnits(r))
  {
    assert ([part] + r)[1..] == r;
  }

  /** What evaluating the joined parts of `ds` yields, starting from the sum `acc`. */
  predicate JoinEvaluates(ds: seq<nat>, acc: int)
    requires forall k :: 0 <= k < |ds| ==> ds[k] < 9
  {
    EvalFrom(JoinUnits(PartsUnits(ds)), 0, acc, None) == Some(acc + Value9(ds))
  }

  /** A leading zero digit writes no part and adds nothing. */
  lemma EvalJoinZero(ds: seq<nat>, acc: int)
    requires forall k :: 0 <= k < |ds| ==> ds[k] < 9
    requires |ds| > 0 && ds[0] == 0
    requires JoinEvaluates(ds[1..], acc)
    ensures JoinEvaluates(ds, acc)
  {
    assert PartsUnits(ds) == PartsUnits(ds[1..]);
    ScaleZero(|ds| - 1);
  }

  /** A part joined onto further parts worth `t` evaluates to the part's value plus `t`. */
  lemma EvalConsPart(d: nat, p: nat, r: seq<seq<NumeralUnit>>, acc: int, t: int, total: int)
    requires 1 <= d < 9
    requires |r| == 0 ==> t == 0
    requires |r| > 0 ==> EvalFrom(JoinUnits(r), 0, acc + Scale(d, p), None) == Some(acc + Scale(d, p) + t)
    requires total == Scale(d, p) + t
    ensures EvalFrom(JoinUnits([PartUnits(d, p)] + r), 0, acc, None) == Some(acc + total)
  {
    var part := PartUnits(d, p);
    JoinCons(part, r);
    if |r| == 0 {
      EvalPart(d, p, [], acc);
      assert part + [] == part;
    } else {
      EvalPartThenAdd(d, p, JoinUnits(r), acc);
    }
  }

  /** Digits that write no part are all zero. */
  lemma {:induction false} NoPartsNoValue(ds: seq<nat>)
    requires forall k :: 0 <= k < |ds| ==> ds[k] < 9
    requires PartsUnits(ds) == []
    ensures Value9(ds) == 0
  {
    if |ds| > 0 {
      assert ds[0] == 0;
      assert PartsUnits(ds[1..]) == [];
      NoPartsNoValue(ds[1..]);
    }
  }

  /** A leading nonzero digit puts its part in front of the parts of the other digits. */
  lemma LeadingPart(ds: seq<nat>, acc: int)
    requires forall k :: 0 <= k < |ds| ==> ds[k] < 9
    requires |ds| > 0 && ds[0] != 0
    ensures EvalFrom(JoinUnits(PartsUnits(ds)), 0, acc, None)
         == EvalFrom(JoinUnits([PartUnits(ds[0], |ds| - 1)] + PartsUnits(ds[1..])), 0, acc, None)
  {
    assert PartsUnits(ds) == [PartUnits(ds[0], |ds| - 1)] + PartsUnits(ds[1..]);
  }

  /** The leading part of `ds`, joined onto the parts of the other digits, evaluates to the value of `ds`. */
  lemma EvalLeading(ds: seq<nat>, acc: int)
    requires forall k :: 0 <= k < |ds| ==> ds[k] < 9
    requires |ds| > 0 && ds[0] != 0
    requires JoinEvaluates(ds[1..], acc + Scale(ds[0], |ds| - 1))
    ensures EvalFrom(JoinUnits([PartUnits(ds[0], |ds| - 1)] + PartsUnits(ds[1..])), 0, acc, None) == Some(acc + Value9(ds))
  {
    if |PartsUnits(ds[1..])| == 0 {
      NoPartsNoValue(ds[1..]);
    }
    EvalConsPart(ds[0], |ds| - 1, PartsUnits(ds[1..]), acc, Value9(ds[1..]), Value9(ds));
  }

  /** A leading nonzero digit writes its part, then `ド` when more parts follow. */
  lemma EvalJoinPart(ds: seq<nat>, acc: int)
    requires forall k :: 0 <= k < |ds| ==> ds[k] < 9
    requires |ds| > 0 && ds[0] != 0
    requires JoinEvaluates(ds[1..], acc + Scale(ds[0], |ds| - 1))
    ensures JoinEvaluates(ds, acc)
  {
    EvalLeading(ds, acc);
    LeadingPart(ds, acc);
  }

  /** Evaluating the joined parts adds the value of the digits to the running sum. */
  lemma {:induction false} EvalJoin(ds: seq<nat>, acc: int)
    requires forall k :: 0 <= k < |ds| ==> ds[k] < 9
    ensures JoinEvaluates(ds, acc)
  {
    if |ds| > 0 {
      if ds[0] == 0 {
        EvalJoin(ds[1..], acc);
        EvalJoinZero(ds, acc);
      } else {
        EvalJoin(ds[1..], acc + Scale(ds[0], |ds| - 1));
        EvalJoinPart(ds, acc);
      }
    }
  }

  lemma {:induction false} Value9Snoc(xs: seq<nat>, d: nat)
    ensures Value9(xs + [d]) == 9 * Value9(xs) + d
  {
    if |xs| > 0 {
      Value9Snoc(xs[1..], d);
      assert (xs + [d])[1..] == xs[1..] + [d];
    }
  }

  /** The base-9 digits of `n` have the value `n`. */
  lemma {:induction false} Base9Value(n: nat)
    ensures Value9(Base9(n)) == n
  {
    if n > 0 {
      Base9Value(n / 9);
      Value9Snoc(Base9(n / 9), n % 9);
    }
  }

  // ---------------------------------------------------------------- the round trip

  /** From nine on, `num2grg` writes the spelling of units that evaluate to the number. */
  lemma LargeNumeralUnits(n: nat) returns (us: seq<NumeralUnit>)
    requires n >= 9
    ensures Spelled(us) && |us| > 0
    ensures Numeral(n) == UnitsText(us)
    ensures EvalFrom(us, 0, 0, None) == Some(n)
  {
    var ds := Base9(n);
    assert |Base9(n / 9)| > 0;
    assert Numeral(n) == Join(Parts(ds), "ド");
    PartsText(ds);
    us := JoinUnits(PartsUnits(ds));
    JoinText(PartsUnits(ds));
    EvalJoin(ds, 0);
    assert JoinEvaluates(ds, 0);
    Base9Value(n);
  }

  /** A digit word is read as a single digit. */
  lemma DigitWordUnits(e: nat)
    requires e < 10
    ensures Spelled([Digit(e)]) && UnitsText([Digit(e)]) == DigitWords[e]
    ensures EvalFrom([Digit(e)], 0, 0, None) == Some(e)
  {
    assert UnitsText([Digit(e)]) == DigitWords[e] + UnitsText([]);
  }

  /** Reading back what `num2grg` writes for a natural number gives that number. */
  lemma NumeralRoundTrip(n: nat)
    ensures ParseNumeral(Numeral(n)) == Some(n)
  {
    DigitsBijection();
    if n >= 9 {
      var us := LargeNumeralUnits(n);
      var w := Numeral(n);
      ScanSpelled(us);
      if w in DIGITS {
        var e := DIGITS[w];
        DigitWordUnits(e);
        ScanSpelled([Digit(e)]);
      } else {
        assert |w| > 0;
        assert NumeralUnits(w) == us;
      }
    }
  }
}
