/**
 * The expression grammar of lib/grongigo/parser.rb as a reference parser: one function per
 * parsing method, from a token index to the tree built and the index after it. The `Parser`
 * class in parser.dfy is proved to compute exactly these functions.
 *
 * The binding levels follow the parser's methods: 0 assignment, 1 to 6 the binary levels
 * (`||`, `&&`, equality, relational, additive, multiplicative), 7 the unary level (prefix
 * operators, then postfix operators, calls and indexing on a primary).
 */
module Grammar {
  import opened Wrappers
  import opened Tokens
  import opened Ast

  // ------------------------------------------------------------------ tokens

  /** The binary levels, loosest first: `||` 1, `&&` 2, equality 3, relational 4, additive 5, multiplicative 6. */
  function BinaryLevel(op: string): nat {
    if op == "||" then 1
    else if op == "&&" then 2
    else if op == "==" || op == "!=" then 3
    else if op == "<" || op == ">" || op == "<=" || op == ">=" then 4
    else if op == "+" || op == "-" then 5
    else if op == "*" || op == "/" || op == "%" then 6
    else 0
  }

  predicate IsBinaryOp(op: string) {
    BinaryLevel(op) > 0
  }

  predicate IsPrefixOp(op: string) {
    op == "!" || op == "-" || op == "++" || op == "--"
  }

  predicate IsPostfixOp(op: string) {
    op == "++" || op == "--"
  }

  /** A token of the given kind whose value is the given string. */
  predicate IsWord(t: Token, kind: TokenKind, text: string) {
    t.kind == kind && t.value == Str(text)
  }

  /** The tokens `parse_identifier_name` accepts. */
  predicate IsName(t: Token) {
    t.kind == TokenKind.Identifier || t.kind == OtherKeyword
  }

  /** An operator token of binary level exactly `k`: the loop of that level takes it. */
  predicate AtLevel(t: Token, k: nat) {
    t.kind == Operator && t.value.Str? && BinaryLevel(t.value.s) == k
  }

  /** An operator token of binary level `k` or tighter: a binary-level loop at level `k` or below would go on. */
  predicate BinaryFrom(t: Token, k: nat) {
    t.kind == Operator && t.value.Str? && 1 <= k <= BinaryLevel(t.value.s)
  }

  /** A prefix operator token, which `parse_unary` takes. */
  predicate AtPrefix(t: Token) {
    t.kind == Operator && t.value.Str? && IsPrefixOp(t.value.s)
  }

  /** A token after which the postfix loop goes on: a call, an index, or `++`/`--`. */
  predicate ContinuesPostfix(t: Token) {
    t.kind == OpenParen || t.kind == OpenBracket || IsWord(t, Operator, "++") || IsWord(t, Operator, "--")
  }

  // ------------------------------------------------------------------ parse outcomes

  /** A token list as the lexer produces it: it ends with eof. */
  predicate WellEnded(ts: seq<Token>) {
    0 < |ts| && ts[|ts| - 1].kind == Eof
  }

  /** What a successful parse of one construct yields: the value and the index after it. */
  datatype Parsed<+T> = Parsed(value: T, next: nat)

  /** A parse either yields a value, or raises a `ParseError`. */
  type Outcome<T> = Result<Parsed<T>, ParseError>

  /** A method's result `r` and final cursor `pos` are those the reference outcome `f` names. */
  ghost predicate Yields<T>(r: Result<T, ParseError>, pos: nat, f: Outcome<T>) {
    match f
    case Success(p) => r == Success(p.value) && pos == p.next
    case Failure(e) => r == Failure(e)
  }

  /** A list parsed after the items `front`: the outcome with `front` put before its list. */
  function Prepend<T>(front: seq<T>, r: Outcome<seq<T>>): Outcome<seq<T>> {
    match r
    case Success(p) => Success(Parsed(front + p.value, p.next))
    case Failure(e) => Failure(e)
  }

  /** Nothing put before a list outcome leaves it as it is. */
  lemma PrependNothing<T>(r: Outcome<seq<T>>)
    ensures Prepend([], r) == r
  {
    match r
    case Success(p) => assert [] + p.value == p.value;
    case Failure(_) =>
  }

  /** Putting `b` and then `a` before a list outcome puts `a + b` before it. */
  lemma PrependTwice<T>(a: seq<T>, b: seq<T>, r: Outcome<seq<T>>)
    ensures Prepend(a, Prepend(b, r)) == Prepend(a + b, r)
  {
    match r
    case Success(p) => assert a + (b + p.value) == (a + b) + p.value;
    case Failure(_) =>
  }

  /** `consume(kind)` at `i`: the token and the index after it, or an error at that token. */
  function Expect(ts: seq<Token>, i: nat, kind: TokenKind): (r: Outcome<Token>)
    requires WellEnded(ts) && i < |ts| && kind != Eof
    ensures r.Success? <==> ts[i].kind == kind
    ensures r.Success? ==> r.value.value == ts[i] && r.value.next == i + 1 < |ts|
    ensures r.Failure? ==> r.error == Expected(ts[i])
  {
    if ts[i].kind == kind then Success(Parsed(ts[i], i + 1)) else Failure(Expected(ts[i]))
  }

  // ------------------------------------------------------------------ precedence on trees

  /** How tightly an expression binds: assignment 0, a binary operator its level, anything else 7. */
  function Prec(e: Expr): (k: nat)
    ensures k <= 7
  {
    match e
    case Assign(_, _) => 0
    case Binary(_, op, _) => BinaryLevel(op)
    case _ => 7
  }

  /** Every operator in the tree is one the parser's levels accept in that position. */
  predicate Formed(e: Expr) {
    match e
    case Binary(l, op, r) => IsBinaryOp(op) && Formed(l) && Formed(r)
    case Unary(op, x, prefix) => (if prefix then IsPrefixOp(op) else IsPostfixOp(op)) && Formed(x)
    case Assign(t, v) => Formed(t) && Formed(v)
    case Call(c, args) => Formed(c) && forall a :: a in args ==> Formed(a)
    case Index(a, i) => Formed(a) && Formed(i)
    case _ => true
  }

  /**
   * Precedence and associativity on trees: a binary node's left operand binds at least as
   * tightly as the node and its right operand strictly more tightly (left associativity); an
   * assignment target binds more tightly than assignment while its value may be another
   * assignment (right associativity); unary, call and index operands are unary-level.
   */
  predicate WellNested(e: Expr) {
    match e
    case Binary(l, op, r) =>
      Prec(l) >= BinaryLevel(op) && Prec(r) > BinaryLevel(op) && WellNested(l) && WellNested(r)
    case Assign(t, v) => Prec(t) >= 1 && WellNested(t) && WellNested(v)
    case Unary(_, x, _) => Prec(x) == 7 && WellNested(x)
    case Call(c, args) => Prec(c) == 7 && WellNested(c) && forall a :: a in args ==> WellNested(a)
    case Index(a, i) => Prec(a) == 7 && WellNested(a) && WellNested(i)
    case _ => true
  }

  /** A formed, well-nested tree that binds at level `k` or tighter. */
  predicate Nested(e: Expr, k: nat) {
    Formed(e) && WellNested(e) && Prec(e) >= k
  }

  /** No `(` among tokens `lo` to `hi`: no grouping parentheses and no calls in that range. */
  predicate ParenFree(ts: seq<Token>, lo: nat, hi: nat)
    requires lo <= hi <= |ts|
  {
    forall i :: lo <= i < hi ==> ts[i].kind != OpenParen
  }

  // ------------------------------------------------------------------ the expression parser

  /** `parse_expression`, which is `parse_assignment`. */
  function ExpressionAt(ts: seq<Token>, i: nat): (r: Outcome<Expr>)
    requires WellEnded(ts) && i < |ts|
    decreases |ts| - i, 12
    ensures r.Success? ==> i < r.value.next < |ts|
    ensures r.Success? ==> !BinaryFrom(ts[r.value.next], 1) && !IsWord(ts[r.value.next], Operator, "=")
  {
    AssignmentAt(ts, i)
  }

  /**
   * `parse_assignment`: an or-expression, then optionally `=` and another assignment, so
   * `a = b = c` groups to the right.
   */
  function AssignmentAt(ts: seq<Token>, i: nat): (r: Outcome<Expr>)
    requires WellEnded(ts) && i < |ts|
    decreases |ts| - i, 11
    ensures r.Success? ==> i < r.value.next < |ts|
    ensures r.Success? ==> !BinaryFrom(ts[r.value.next], 1) && !IsWord(ts[r.value.next], Operator, "=")
  {
    var target :- LevelAt(ts, i, 1);
    if IsWord(ts[target.next], Operator, "=") then
      var value :- AssignmentAt(ts, target.next + 1);
      Success(Parsed(Assign(target.value, value.value), value.next))
    else
      Success(target)
  }

  /**
   * `parse_or`, `parse_and`, `parse_equality`, `parse_comparison`, `parse_term` and
   * `parse_factor` for `k` = 1 to 6: an operand of the next level, then the loop of level `k`.
   * The loop stops only at a token that is no operator of level `k` or tighter; without
   * parentheses the tree is well nested and binds at level `k` or tighter.
   */
  function LevelAt(ts: seq<Token>, i: nat, k: nat): (r: Outcome<Expr>)
    requires WellEnded(ts) && i < |ts| && 1 <= k <= 6
    decreases |ts| - i, 11 - k
    ensures r.Success? ==> i < r.value.next < |ts|
    ensures r.Success? ==> !BinaryFrom(ts[r.value.next], k)
  {
    var left :- if k == 6 then UnaryAt(ts, i) else LevelAt(ts, i, k + 1);
    LevelLoop(ts, k, left.value, left.next)
  }

  /**
   * The `while` loop of level `k` from index `j` with the expression `left` built so far:
   * each operator of level `k` makes `left op right` the new left operand (left associativity).
   */
  function LevelLoop(ts: seq<Token>, k: nat, left: Expr, j: nat): (r: Outcome<Expr>)
    requires WellEnded(ts) && j < |ts| && 1 <= k <= 6 && !BinaryFrom(ts[j], k + 1)
    decreases |ts| - j
    ensures r.Success? ==> j <= r.value.next < |ts|
    ensures r.Success? ==> !BinaryFrom(ts[r.value.next], k)
  {
    if AtLevel(ts[j], k) then
      var right :- if k == 6 then UnaryAt(ts, j + 1) else LevelAt(ts, j + 1, k + 1);
      LevelLoop(ts, k, Binary(left, ts[j].value.s, right.value), right.next)
    else
      Success(Parsed(left, j))
  }

  /** `parse_unary`: prefix `!`, `-`, `++`, `--` before another unary expression, else a postfix expression. */
  function UnaryAt(ts: seq<Token>, i: nat): (r: Outcome<Expr>)
    requires WellEnded(ts) && i < |ts|
    decreases |ts| - i, 4
    ensures r.Success? ==> i < r.value.next < |ts|
    ensures r.Success? ==> !ContinuesPostfix(ts[r.value.next])
  {
    if AtPrefix(ts[i]) then
      var operand :- UnaryAt(ts, i + 1);
      Success(Parsed(Unary(ts[i].value.s, operand.value, true), operand.next))
    else
      PostfixAt(ts, i)
  }

  /** `parse_postfix`: a primary, then the postfix loop. */
  function PostfixAt(ts: seq<Token>, i: nat): (r: Outcome<Expr>)
    requires WellEnded(ts) && i < |ts|
    decreases |ts| - i, 3
    ensures r.Success? ==> i < r.value.next < |ts|
    ensures r.Success? ==> !ContinuesPostfix(ts[r.value.next])
  {
    var primary :- PrimaryAt(ts, i);
    PostfixLoop(ts, primary.value, primary.next)
  }

  /** The postfix loop from index `j` on the expression `e` built so far: steps until none applies. */
  function PostfixLoop(ts: seq<Token>, e: Expr, j: nat): (r: Outcome<Expr>)
    requires WellEnded(ts) && j < |ts|
    decreases |ts| - j, 2
    ensures r.Success? ==> j <= r.value.next < |ts|
    ensures r.Success? ==> !ContinuesPostfix(ts[r.value.next])
  {
    var step :- PostfixStep(ts, e, j);
    match step.value
    case None => Success(Parsed(e, j))
    case Some(e') => PostfixLoop(ts, e', step.next)
  }

  /**
   * One round of the postfix loop: a call at `(`, an index at `[`, a postfix `++`/`--`, or
   * `None`, consuming nothing, when the token at `j` is none of these.
   */
  function PostfixStep(ts: seq<Token>, e: Expr, j: nat): (r: Outcome<Option<Expr>>)
    requires WellEnded(ts) && j < |ts|
    decreases |ts| - j, 1
    ensures r.Success? ==> (r.value.value.None? <==> !ContinuesPostfix(ts[j]))
    ensures r.Success? && r.value.value.None? ==> r.value.next == j
    ensures r.Success? && r.value.value.Some? ==> j < r.value.next < |ts|
    ensures r.Success? && r.value.value.Some? && IsWord(ts[j], Operator, "++") ==> r.value.value.value == Unary("++", e, false)
    ensures r.Success? && r.value.value.Some? && IsWord(ts[j], Operator, "--") ==> r.value.value.value == Unary("--", e, false)
  {
    if ts[j].kind == OpenParen then
      var call :- CallSuffixAt(ts, e, j);
      Success(Parsed(Some(call.value), call.next))
    else if ts[j].kind == OpenBracket then
      var index :- IndexSuffixAt(ts, e, j);
      Success(Parsed(Some(index.value), index.next))
    else if IsWord(ts[j], Operator, "++") || IsWord(ts[j], Operator, "--") then
      Success(Parsed(Some(Unary(ts[j].value.s, e, false)), j + 1))
    else
      Success(Parsed(None, j))
  }

  /** `( arguments )` at `j` after the callee `e`: a call, with no arguments when `)` follows at once. */
  function CallSuffixAt(ts: seq<Token>, e: Expr, j: nat): (r: Outcome<Expr>)
    requires WellEnded(ts) && j < |ts| && ts[j].kind == OpenParen
    decreases |ts| - j, 0
    ensures r.Success? ==> j < r.value.next < |ts| && ts[r.value.next - 1].kind == CloseParen
    ensures r.Success? ==> r.value.value.Call? && r.value.value.callee == e
    ensures r.Success? && ts[j + 1].kind == CloseParen ==> r.value.value.args == []
  {
    var args :- if ts[j + 1].kind == CloseParen then Success(Parsed([], j + 1)) else ArgumentsAt(ts, j + 1);
    var close :- Expect(ts, args.next, CloseParen);
    Success(Parsed(Call(e, args.value), close.next))
  }

  /** `[ expression ]` at `j` after the array `e`: an index operation. */
  function IndexSuffixAt(ts: seq<Token>, e: Expr, j: nat): (r: Outcome<Expr>)
    requires WellEnded(ts) && j < |ts| && ts[j].kind == OpenBracket
    decreases |ts| - j, 0
    ensures r.Success? ==> j < r.value.next < |ts| && ts[r.value.next - 1].kind == CloseBracket
    ensures r.Success? ==> r.value.value.Index? && r.value.value.base == e
  {
    var index :- ExpressionAt(ts, j + 1);
    var close :- Expect(ts, index.next, CloseBracket);
    Success(Parsed(Index(e, index.value), close.next))
  }

  /** The arguments of a call: expressions separated by commas, at least one. */
  function ArgumentsAt(ts: seq<Token>, i: nat): (r: Outcome<seq<Expr>>)
    requires WellEnded(ts) && i < |ts|
    decreases |ts| - i, 13
    ensures r.Success? ==> i < r.value.next < |ts| && |r.value.value| > 0 && ts[r.value.next].kind != Comma
  {
    var arg :- ExpressionAt(ts, i);
    if ts[arg.next].kind == Comma then
      var rest :- ArgumentsAt(ts, arg.next + 1);
      Success(Parsed([arg.value] + rest.value, rest.next))
    else
      Success(Parsed([arg.value], arg.next))
  }

  /**
   * `parse_primary`: a number, string or char literal, a name (identifier, other keyword or
   * control keyword), or `( expression )`; anything else fails at that token.
   */
  function PrimaryAt(ts: seq<Token>, i: nat): (r: Outcome<Expr>)
    requires WellEnded(ts) && i < |ts|
    decreases |ts| - i, 2
    ensures r.Success? ==> i < r.value.next < |ts|
    ensures ts[i].kind == Number ==> r == Success(Parsed(NumberLit(ts[i].value), i + 1))
    ensures ts[i].kind == StringLiteral ==> r == Success(Parsed(StringLit(ValueText(ts[i].value)), i + 1))
    ensures ts[i].kind == CharLiteral ==> r == Success(Parsed(CharLit(ValueText(ts[i].value)), i + 1))
    ensures IsName(ts[i]) || ts[i].kind == ControlKeyword ==>
      r == Success(Parsed(Expr.Identifier(ValueText(ts[i].value)), i + 1))
    ensures ts[i].kind == OpenParen && r.Success? ==> ts[r.value.next - 1].kind == CloseParen
    ensures r.Failure? && ts[i].kind != OpenParen ==> r.error == Expected(ts[i])
  {
    var t := ts[i];
    if t.kind == Number then Success(Parsed(NumberLit(t.value), i + 1))
    else if t.kind == StringLiteral then Success(Parsed(StringLit(ValueText(t.value)), i + 1))
    else if t.kind == CharLiteral then Success(Parsed(CharLit(ValueText(t.value)), i + 1))
    else if t.kind == TokenKind.Identifier || t.kind == OtherKeyword || t.kind == ControlKeyword then
      Success(Parsed(Expr.Identifier(ValueText(t.value)), i + 1))
    else if t.kind == OpenParen then GroupAt(ts, i + 1)
    else Failure(Expected(t))
  }

  /** At `(` a primary is the group after it; at a token that starts no primary it fails there. */
  lemma PrimaryGroupOrFailure(ts: seq<Token>, i: nat)
    requires WellEnded(ts) && i < |ts|
    ensures ts[i].kind == OpenParen ==> PrimaryAt(ts, i) == GroupAt(ts, i + 1)
    ensures ts[i].kind !in {Number, StringLiteral, CharLiteral, TokenKind.Identifier, OtherKeyword, ControlKeyword, OpenParen}
      ==> PrimaryAt(ts, i) == Failure(Expected(ts[i]))
  {
  }

  /** A parenthesised expression after its `(`: the expression, then the `)`. */
  function GroupAt(ts: seq<Token>, j: nat): (r: Outcome<Expr>)
    requires WellEnded(ts) && j < |ts|
    decreases |ts| - j, 13
    ensures r.Success? ==> j < r.value.next < |ts| && ts[r.value.next - 1].kind == CloseParen
  {
    var inner :- ExpressionAt(ts, j);
    var close :- Expect(ts, inner.next, CloseParen);
    Success(Parsed(inner.value, close.next))
  }

  // ------------------------------------------------------------------ statements' first tokens

  /** The statement form that the token starting a statement selects. */
  predicate StartsStatement(t: Token, s: Stmt) {
    if t.kind == OpenBrace then s.Block?
    else if IsWord(t, ControlKeyword, "if") then s.If?
    else if IsWord(t, ControlKeyword, "while") then s.While?
    else if IsWord(t, ControlKeyword, "for") then s.For?
    else if IsWord(t, ControlKeyword, "switch") then s.Switch?
    else if IsWord(t, ControlKeyword, "return") then s.Return?
    else if IsWord(t, ControlKeyword, "break") then s == Break
    else if IsWord(t, ControlKeyword, "continue") then s == Continue
    else if t.kind == TypeKeyword then s.VarDecl?
    else s.ExprStmt?
  }

  /** The tokens after which `return` has no value. */
  predicate EndsReturn(t: Token) {
    t.kind == CloseBrace || t.kind == Eof || t.kind == ControlKeyword || t.kind == TypeKeyword
  }
}
