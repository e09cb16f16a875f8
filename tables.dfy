/** The frozen lookup tables of lib/grongigo/constants.rb. */
module Tables {

  /** The ten base-9 digit words; the index of a word is its value. */
  const DigitWords: seq<string> :=
    ["ゼゼソ", "パパン", "ドググ", "グシギ", "ズゴゴ", "ズガギ", "ギブグ", "ゲズン", "ゲギド", "バギン"]

  const DIGITS: map<string, nat> := map[
    "ゼゼソ" := 0, "パパン" := 1, "ドググ" := 2, "グシギ" := 3, "ズゴゴ" := 4,
    "ズガギ" := 5, "ギブグ" := 6, "ゲズン" := 7, "ゲギド" := 8, "バギン" := 9]

  datatype NumberOp = Add | Multiply

  const NUMBER_OPS: map<string, NumberOp> := map["ド" := Add, "グ" := Multiply]

  /** The in-numeral operator characters the numeral tokenizer tests for. */
  const AddChar: char := 'ド'
  const MultiplyChar: char := 'グ'

  const TYPE_KEYWORDS: map<string, string> := map[
    "ゲギグウ" := "int", "ロジ" := "char", "ズゾウ" := "float", "ザダダス" := "double",
    "バサ" := "void", "バゴ" := "long", "ジジバギ" := "short", "ブゾウ" := "unsigned"]

  const CONTROL_KEYWORDS: map<string, string> := map[
    "ジョウベン" := "if", "ゾバ" := "else", "ガギザ" := "while", "ブシバゲギ" := "for",
    "ロゾス" := "return", "ブゲス" := "break", "ヅヅゲス" := "continue", "ゲンダブ" := "switch",
    "ダガギ" := "case", "ビデギ" := "default", "ジョウジ" := "printf", "ジュウソブ" := "scanf"]

  /** `パザ`, the function marker, maps to the empty string. */
  const OTHER_KEYWORDS: map<string, string> := map[
    "ボウゾウ" := "struct", "バダデギギ" := "typedef", "ゴゴビガ" := "sizeof", "ル" := "NULL",
    "ギン" := "1", "ギ" := "0", "ゴロ" := "main", "パザ" := "", "ザジレ" := "{", "ゴパシ" := "}"]

  const OPERATORS: map<string, string> := map[
    "ダグ" := "+", "ジブ" := "-", "バゲス" := "*", "パス" := "/", "ガラシ" := "%",
    "ギセス" := "=", "ジドギギ" := "==", "ジドギグバギ" := "!=", "ギョウバシ" := "<",
    "ザギバシ" := ">", "ギバ" := "<=", "ギジョウ" := ">=", "バヅ" := "&&", "ラダパ" := "||",
    "ジデギ" := "!", "ガンド" := "&", "ゴゴ" := "|", "ダグダグ" := "++", "ジブジブ" := "--"]

  /** Ruby's `merge`: on a shared key the later table wins, as with Dafny's `+`. */
  const ALL_KEYWORDS: map<string, string> := TYPE_KEYWORDS + CONTROL_KEYWORDS + OTHER_KEYWORDS

  const PROPER_NOUNS: seq<string> :=
    ["クウガ", "リント", "ゲゲル", "グロンギ", "グセパ", "バグンダダ", "ゲリザギバスゲゲル", "ザギバスゲゲル"]

  /** The digit table is a bijection between the ten three-character words and 0..9. */
  lemma DigitsBijection()
    ensures |DigitWords| == 10
    ensures forall d :: 0 <= d < 10 ==> DigitWords[d] in DIGITS && DIGITS[DigitWords[d]] == d
    ensures forall w :: w in DIGITS ==> DIGITS[w] < 10 && DigitWords[DIGITS[w]] == w
    ensures forall d :: 0 <= d < 10 ==> |DigitWords[d]| == 3
    ensures DIGITS["バギン"] == 9
  {
  }

  /** `ド` adds and `グ` multiplies, and these are the characters the numeral tokenizer hard-codes. */
  lemma NumberOpsAgree()
    ensures NUMBER_OPS.Keys == {[AddChar], [MultiplyChar]}
    ensures NUMBER_OPS[[AddChar]] == Add && NUMBER_OPS[[MultiplyChar]] == Multiply
  {
  }

  /**
   * The first two characters of every control keyword, operator and digit word. No pair is
   * shared between two of these tables, which is what keeps their key sets apart; comparing
   * these pairs is far cheaper for the solver than comparing every word of one table with
   * every word of the other.
   */
  lemma ControlHeads()
    ensures forall w :: w in CONTROL_KEYWORDS ==> |w| >= 2 && (w[0], w[1]) in {('ジ', 'ョ'), ('ゾ', 'バ'), ('ガ', 'ギ'), ('ブ', 'シ'), ('ロ', 'ゾ'), ('ブ', 'ゲ'), ('ヅ', 'ヅ'), ('ゲ', 'ン'), ('ダ', 'ガ'), ('ビ', 'デ'), ('ジ', 'ュ')}
  {
  }

  lemma OperatorHeads()
    ensures forall w :: w in OPERATORS ==> |w| >= 2 && (w[0], w[1]) in {('ダ', 'グ'), ('ジ', 'ブ'), ('バ', 'ゲ'), ('パ', 'ス'), ('ガ', 'ラ'), ('ギ', 'セ'), ('ジ', 'ド'), ('ギ', 'ョ'), ('ザ', 'ギ'), ('ギ', 'バ'), ('ギ', 'ジ'), ('バ', 'ヅ'), ('ラ', 'ダ'), ('ジ', 'デ'), ('ガ', 'ン'), ('ゴ', 'ゴ')}
  {
  }

  lemma DigitHeads()
    ensures forall w :: w in DIGITS ==> |w| >= 2 && (w[0], w[1]) in {('ゼ', 'ゼ'), ('パ', 'パ'), ('ド', 'グ'), ('グ', 'シ'), ('ズ', 'ゴ'), ('ズ', 'ガ'), ('ギ', 'ブ'), ('ゲ', 'ズ'), ('ゲ', 'ギ'), ('バ', 'ギ')}
  {
  }

  lemma TypeControlDisjoint()
    ensures TYPE_KEYWORDS.Keys !! CONTROL_KEYWORDS.Keys
  {
  }

  lemma TypeOtherDisjoint()
    ensures TYPE_KEYWORDS.Keys !! OTHER_KEYWORDS.Keys
  {
  }

  lemma ControlOtherDisjoint()
    ensures CONTROL_KEYWORDS.Keys !! OTHER_KEYWORDS.Keys
  {
  }

  lemma OperatorsTypeDisjoint()
    ensures OPERATORS.Keys !! TYPE_KEYWORDS.Keys
  {
  }

  lemma OperatorsControlDisjoint()
    ensures OPERATORS.Keys !! CONTROL_KEYWORDS.Keys
  {
    OperatorHeads();
    ControlHeads();
  }

  lemma OperatorsOtherDisjoint()
    ensures OPERATORS.Keys !! OTHER_KEYWORDS.Keys
  {
  }

  lemma DigitsTypeDisjoint()
    ensures DIGITS.Keys !! TYPE_KEYWORDS.Keys
  {
  }

  lemma DigitsControlDisjoint()
    ensures DIGITS.Keys !! CONTROL_KEYWORDS.Keys
  {
    DigitHeads();
    ControlHeads();
  }

  lemma DigitsOtherDisjoint()
    ensures DIGITS.Keys !! OTHER_KEYWORDS.Keys
  {
  }

  lemma DigitsOperatorsDisjoint()
    ensures DIGITS.Keys !! OPERATORS.Keys
  {
    DigitHeads();
    OperatorHeads();
  }

  /**
   * The key sets of the type, control, other, operator and digit tables are pairwise
   * disjoint, so the `ALL_KEYWORDS` merge keeps every entry with its own value.
   */
  lemma KeywordTablesDisjoint()
    ensures TYPE_KEYWORDS.Keys !! CONTROL_KEYWORDS.Keys !! OTHER_KEYWORDS.Keys !! OPERATORS.Keys !! DIGITS.Keys
    ensures ALL_KEYWORDS.Keys == TYPE_KEYWORDS.Keys + CONTROL_KEYWORDS.Keys + OTHER_KEYWORDS.Keys
    ensures forall w :: w in TYPE_KEYWORDS ==> ALL_KEYWORDS[w] == TYPE_KEYWORDS[w]
    ensures forall w :: w in CONTROL_KEYWORDS ==> ALL_KEYWORDS[w] == CONTROL_KEYWORDS[w]
    ensures forall w :: w in OTHER_KEYWORDS ==> ALL_KEYWORDS[w] == OTHER_KEYWORDS[w]
  {
    TypeControlDisjoint();
    TypeOtherDisjoint();
    ControlOtherDisjoint();
    OperatorsTypeDisjoint();
    OperatorsControlDisjoint();
    OperatorsOtherDisjoint();
    DigitsTypeDisjoint();
    DigitsControlDisjoint();
    DigitsOtherDisjoint();
    DigitsOperatorsDisjoint();
  }
}
