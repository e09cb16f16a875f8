/** Properties of the lexer's functional description in lexer_spec.dfy. */
module LexerFacts {
  import opened Wrappers
  import opened Text
  import opened Tables
  import opened Tokens
  import opened Lexing

  /** Token `t` sits at or after offset `p` of `s` in (line, column) order. */
  predicate AtOrAfter(s: string, p: nat, t: Token)
    requires p <= |s|
  {
    LineAt(s, p) < t.line || (LineAt(s, p) == t.line && ColumnAt(s, p) <= t.column)
  }

  /** Token `a` comes strictly before token `b` in (line, column) order. */
  predicate Before(a: Token, b: Token) {
    a.line < b.line || (a.line == b.line && a.column < b.column)
  }

  /** `tokenize` ends with exactly one eof token, placed at the end of the source. */
  lemma {:induction false} TokenizeEndsWithOneEof(s: string, p: nat)
    requires p <= |s|
    ensures var ts := TokenizeFrom(s, p);
      && ts[|ts| - 1] == Token(Eof, Nil, LineAt(s, |s|), ColumnAt(s, |s|))
      && forall i :: 0 <= i < |ts| - 1 ==> ts[i].kind != Eof
    decreases |s| - p
  {
    var q := SkipLayout(s, p);
    if q < |s| {
      TokenizeEndsWithOneEof(s, NextLexeme(s, q).next);
    }
  }

  /** Every token but eof consumes at least one character. */
  lemma {:induction false} TokenizeLength(s: string, p: nat)
    requires p <= |s|
    ensures |TokenizeFrom(s, p)| <= |s| - p + 1
    decreases |s| - p
  {
    var q := SkipLayout(s, p);
    if q < |s| {
      TokenizeLength(s, NextLexeme(s, q).next);
    }
  }

  /** Tokens in strictly increasing (line, column) order. */
  predicate Increasing(ts: seq<Token>) {
    forall i, j :: 0 <= i < j < |ts| ==> Before(ts[i], ts[j])
  }

  lemma PrependIncreasing(t: Token, rest: seq<Token>)
    requires Increasing(rest)
    requires forall j :: 0 <= j < |rest| ==> Before(t, rest[j])
    ensures Increasing([t] + rest)
  {
    var ts := [t] + rest;
    forall i, j | 0 <= i < j < |ts|
      ensures Before(ts[i], ts[j])
    {
      assert ts[j] == rest[j - 1];
      if i > 0 {
        assert ts[i] == rest[i - 1];
      }
    }
  }

  lemma {:induction false} TokensAtOrAfter(s: string, p: nat)
    requires p <= |s|
    ensures forall j :: 0 <= j < |TokenizeFrom(s, p)| ==> AtOrAfter(s, p, TokenizeFrom(s, p)[j])
    decreases |s| - p
  {
    var q := SkipLayout(s, p);
    if p < q {
      PositionsIncrease(s, p, q);
    }
    if q < |s| {
      var r := NextLexeme(s, q).next;
      TokensAtOrAfter(s, r);
      PositionsIncrease(s, p, r);
    }
  }

  /** Token positions strictly increase: each token carries the line and column of its first character. */
  lemma {:induction false} TokenPositionsIncrease(s: string, p: nat)
    requires p <= |s|
    ensures Increasing(TokenizeFrom(s, p))
    decreases |s| - p
  {
    var q := SkipLayout(s, p);
    if q < |s| {
      var lx := NextLexeme(s, q);
      var rest := TokenizeFrom(s, lx.next);
      var t := Token(lx.kind, lx.value, LineAt(s, q), ColumnAt(s, q));
      TokenPositionsIncrease(s, lx.next);
      TokensAtOrAfter(s, lx.next);
      PositionsIncrease(s, q, lx.next);
      PrependIncreasing(t, rest);
    }
  }

  /** Source made only of blanks and newlines (the empty source too) yields just the eof token. */
  lemma BlankSourceOnlyEof(s: string, p: nat)
    requires p <= |s|
    requires forall i :: p <= i < |s| ==> IsLayout(s[i])
    ensures TokenizeFrom(s, p) == [Token(Eof, Nil, LineAt(s, |s|), ColumnAt(s, |s|))]
  {
  }

  lemma EmptySourceOnlyEof()
    ensures TokenizeFrom("", 0) == [Token(Eof, Nil, 1, 1)]
  {
  }

  /** The operator word `ゴゴ` ('|') is the only word the operator table maps to "|". */
  lemma OperatorBarWord(word: string)
    requires word in OPERATORS && OPERATORS[word] == "|"
    ensures word == "ゴゴ"
  {
  }

  lemma SizeofWord(word: string)
    requires word in OTHER_KEYWORDS && OTHER_KEYWORDS[word] == "sizeof"
    ensures word == "ゴゴビガ"
  {
  }

  lemma OtherBraceWords(word: string)
    requires word in OTHER_KEYWORDS && (OTHER_KEYWORDS[word] == "{" || OTHER_KEYWORDS[word] == "}")
    ensures word == "ザジレ" || word == "ゴパシ"
  {
  }

  /** An operator token comes from the operator table, after the bracket words failed. */
  lemma ClassifiedOperator(word: string)
    requires ClassifyWord(word).kind == Operator
    ensures word in OPERATORS && ClassifyWord(word).value == Str(OPERATORS[word])
  {
  }

  /** An other-keyword token comes from the other-keyword table, after the bracket words failed. */
  lemma ClassifiedOtherKeyword(word: string)
    requires ClassifyWord(word).kind == OtherKeyword
    ensures word in OTHER_KEYWORDS && BracketPrefix(word, 0).None?
    ensures ClassifyWord(word).value == Str(if OTHER_KEYWORDS[word] == "" then word else OTHER_KEYWORDS[word])
  {
  }

  /** A word classified as '|' or 'sizeof' starts with `ゴゴ`. */
  lemma CommentWordsClassified(word: string)
    ensures var c := ClassifyWord(word);
      (c.kind == Operator && c.value == Str("|")) || (c.kind == OtherKeyword && c.value == Str("sizeof"))
      ==> StartsWith(word, "ゴゴ")
  {
    var c := ClassifyWord(word);
    if c.kind == Operator && c.value == Str("|") {
      ClassifiedOperator(word);
      OperatorBarWord(word);
    } else if c.kind == OtherKeyword && c.value == Str("sizeof") {
      ClassifiedOtherKeyword(word);
      SizeofWord(word);
    }
  }

  /** A lexeme that does not start with `ゴゴ` is neither '|' nor 'sizeof'. */
  lemma LexemeNotCommentWord(s: string, q: nat)
    requires q < |s| && !StartsAt(s, q, "ゴゴ")
    ensures var lx := NextLexeme(s, q);
      !(lx.kind == Operator && lx.value == Str("|")) && !(lx.kind == OtherKeyword && lx.value == Str("sizeof"))
  {
    if IsKatakana(s[q]) && s[q] != '「' && s[q] != '『' {
      var e := RunEnd(s, q, IsWordChar);
      var word := s[q..e];
      CommentWordsClassified(word);
    }
  }

  /**
   * Comments are skipped before any word is scanned, so no token is ever the '|' operator
   * or the 'sizeof' keyword: their words `ゴゴ` and `ゴゴビガ` always open a line comment.
   */
  lemma {:induction false} CommentWordsNeverTokens(s: string, p: nat)
    requires p <= |s|
    ensures forall i :: 0 <= i < |TokenizeFrom(s, p)| ==>
      var t := TokenizeFrom(s, p)[i];
      !(t.kind == Operator && t.value == Str("|")) && !(t.kind == OtherKeyword && t.value == Str("sizeof"))
    decreases |s| - p
  {
    var q := SkipLayout(s, p);
    if q < |s| {
      var lx := NextLexeme(s, q);
      CommentWordsNeverTokens(s, lx.next);
      LexemeNotCommentWord(s, q);
    }
  }

  /** A string literal's value is the raw text up to the first `」`, or to the end when unterminated. */
  lemma StringLiteralIsRaw(s: string, p: nat)
    requires p < |s| && s[p] == '「'
    ensures var lx := NextLexeme(s, p);
      && lx.kind == StringLiteral && lx.value.Str?
      && var v := lx.value.s;
      && p + 1 + |v| <= |s| && s[p + 1..p + 1 + |v|] == v
      && (forall i :: 0 <= i < |v| ==> v[i] != '」')
      && (if p + 1 + |v| < |s| then s[p + 1 + |v|] == '」' && lx.next == p + 2 + |v| else lx.next == |s|)
  {
  }

  /** The same for a character literal between `『` and `』`. */
  lemma CharLiteralIsRaw(s: string, p: nat)
    requires p < |s| && s[p] == '『'
    ensures var lx := NextLexeme(s, p);
      && lx.kind == CharLiteral && lx.value.Str?
      && var v := lx.value.s;
      && p + 1 + |v| <= |s| && s[p + 1..p + 1 + |v|] == v
      && (forall i :: 0 <= i < |v| ==> v[i] != '』')
      && (if p + 1 + |v| < |s| then s[p + 1 + |v|] == '』' && lx.next == p + 2 + |v| else lx.next == |s|)
  {
  }

  /** The brace words are always taken by the bracket table, never as other-keywords. */
  lemma BracesIntercepted(word: string)
    ensures var c := ClassifyWord(word);
      c.kind == OtherKeyword ==> c.value != Str("{") && c.value != Str("}")
  {
    var c := ClassifyWord(word);
    if c.kind == OtherKeyword && (c.value == Str("{") || c.value == Str("}")) {
      ClassifiedOtherKeyword(word);
      OtherBraceWords(word);
    }
  }

  /** The merged table agrees with the table a keyword comes from. */
  lemma AllKeywordsValue(word: string)
    requires word in ALL_KEYWORDS
    ensures word in TYPE_KEYWORDS ==> word !in CONTROL_KEYWORDS && word !in OTHER_KEYWORDS && ALL_KEYWORDS[word] == TYPE_KEYWORDS[word]
    ensures word in CONTROL_KEYWORDS ==> word !in OTHER_KEYWORDS && ALL_KEYWORDS[word] == CONTROL_KEYWORDS[word]
    ensures word !in TYPE_KEYWORDS && word !in CONTROL_KEYWORDS ==> word in OTHER_KEYWORDS && ALL_KEYWORDS[word] == OTHER_KEYWORDS[word]
  {
    TypeControlDisjoint();
    TypeOtherDisjoint();
    ControlOtherDisjoint();
  }

  /** Outside the bracket words, a keyword is looked up in the type, control and other tables in turn. */
  lemma ClassifiedKeyword(word: string)
    requires BracketPrefix(word, 0).None?
    ensures word in TYPE_KEYWORDS ==> ClassifyWord(word) == Classified(TypeKeyword, Str(TYPE_KEYWORDS[word]), |word|)
    ensures word !in TYPE_KEYWORDS && word in CONTROL_KEYWORDS ==>
      ClassifyWord(word) == Classified(ControlKeyword, Str(CONTROL_KEYWORDS[word]), |word|)
    ensures word !in TYPE_KEYWORDS && word !in CONTROL_KEYWORDS && word in OTHER_KEYWORDS ==>
      ClassifyWord(word) == Classified(OtherKeyword, Str(if OTHER_KEYWORDS[word] == "" then word else OTHER_KEYWORDS[word]), |word|)
  {
  }

  /** The function marker `パザ` maps to "" and so becomes a token whose value is the word itself. */
  lemma FunctionMarkerKeepsWord()
    ensures ClassifyWord("パザ") == Classified(OtherKeyword, Str("パザ"), 2)
  {
    assert BracketPrefix("パザ", 0).None?;
  }

  /** A run starting with the open-paren word yields `(` and hands the rest back to the scanner. */
  lemma BracketWordSplit()
    ensures ClassifyWord("ザジレジョヂザギゲギグウ") == Classified(OpenParen, Str("("), 8)
    ensures ClassifyWord("ゲギグウ") == Classified(TypeKeyword, Str("int"), 4)
  {
    assert StartsWith("ザジレジョヂザギゲギグウ", BracketWords[0].0);
    assert "ゲギグウ"[..3] == "ゲギグ";
  }

  /** The digit-word scan agrees with the digit table: every digit word is three characters long. */
  lemma DigitPrefixByTable(s: string)
    ensures DigitPrefix(s).Some? <==> |s| >= 3 && s[..3] in DIGITS
    ensures DigitPrefix(s).Some? ==> DigitPrefix(s).value == DIGITS[s[..3]]
  {
    DigitsBijection();
    if |s| >= 3 && s[..3] in DIGITS {
      assert StartsWith(s, DigitWords[DIGITS[s[..3]]]);
    }
  }

  /** A word starting with a digit word scans as that digit, then the rest. */
  lemma ScanDigitWord(s: string)
    requires |s| >= 3 && s[..3] in DIGITS
    ensures ScanUnits(s) == Cons(Digit(DIGITS[s[..3]]), ScanUnits(s[3..]))
  {
    DigitPrefixByTable(s);
    DigitsBijection();
  }

  /** Otherwise the first character must be `ド` or `グ`, or the word is not a numeral. */
  lemma ScanOperatorChar(s: string)
    requires |s| >= 1 && (|s| < 3 || s[..3] !in DIGITS)
    ensures s[0] == AddChar ==> ScanUnits(s) == Cons(AddUnit, ScanUnits(s[1..]))
    ensures s[0] == MultiplyChar ==> ScanUnits(s) == Cons(MulUnit, ScanUnits(s[1..]))
    ensures s[0] != AddChar && s[0] != MultiplyChar ==> ScanUnits(s) == None
  {
    DigitPrefixByTable(s);
  }

  lemma ScanOne()
    ensures ScanUnits("パパン") == Some([Digit(1)])
  {
    var s := "パパン";
    assert s[..3] == "パパン" && s[3..] == [];
    ScanDigitWord(s);
    assert [Digit(1)] + [] == [Digit(1)];
  }

  lemma ScanNineAddOne()
    ensures ScanUnits("バギンドパパン") == Some([Digit(9), AddUnit, Digit(1)])
  {
    var s := "バギンドパパン";
    assert s[..3] == "バギン";
    var t := s[3..];
    assert t == "ドパパン" && t[..3] == "ドパパ" && t[1..] == "パパン" && t[0] == AddChar;
    ScanOne();
    ScanOperatorChar(t);
    assert [AddUnit] + [Digit(1)] == [AddUnit, Digit(1)];
    ScanDigitWord(s);
    assert [Digit(9)] + [AddUnit, Digit(1)] == [Digit(9), AddUnit, Digit(1)];
  }

  /**
   * Evaluation examples: nine times nine plus one; two digits in a row and a trailing `グ`
   * are rejected; a lone `ド` evaluates to zero, since the adder flushes an empty product.
   */
  lemma EvaluateExamples()
    ensures Evaluate([Digit(9), MulUnit, Digit(9), AddUnit, Digit(1)]) == Some(82)
    ensures Evaluate([Digit(9), Digit(1)]) == None
    ensures Evaluate([Digit(9), MulUnit]) == None
    ensures Evaluate([AddUnit]) == Some(0)
  {
  }

  /** The word for ten, nine plus one, is a numeral. */
  lemma NumeralTen()
    ensures ParseNumeral("バギンドパパン") == Some(10)
  {
    var s := "バギンドパパン";
    ScanNineAddOne();
    assert s !in DIGITS;
  }
}
