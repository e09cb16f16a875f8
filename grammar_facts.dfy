/**
 * What the reference parser of lib/grongigo/parser.rb builds: without parentheses every
 * expression tree is formed and well nested (precedence and associativity), and concrete
 * token strings parse to the trees the precedence table promises.
 */
module GrammarFacts {
  import opened Wrappers
  import opened Tokens
  import opened Ast
  import opened Grammar

  // ------------------------------------------------------------------ precedence without parentheses

  /** `parse_expression` over a range without `(` builds a well-nested tree. */
  lemma {:induction false} ExpressionNested(ts: seq<Token>, i: nat)
    requires WellEnded(ts) && i < |ts|
    requires ExpressionAt(ts, i).Success? && ParenFree(ts, i, ExpressionAt(ts, i).value.next)
    decreases |ts| - i, 12
    ensures Nested(ExpressionAt(ts, i).value.value, 0)
  {
    AssignmentNested(ts, i);
  }

  /** `parse_assignment` without `(`: the target binds tighter than assignment, the value is any expression. */
  lemma {:induction false} AssignmentNested(ts: seq<Token>, i: nat)
    requires WellEnded(ts) && i < |ts|
    requires AssignmentAt(ts, i).Success? && ParenFree(ts, i, AssignmentAt(ts, i).value.next)
    decreases |ts| - i, 11
    ensures Nested(AssignmentAt(ts, i).value.value, 0)
  {
    var target := LevelAt(ts, i, 1).value;
    LevelNested(ts, i, 1);
    if IsWord(ts[target.next], Operator, "=") {
      AssignmentNested(ts, target.next + 1);
    }
  }

  /** A binary level `k` without `(` builds a well-nested tree that binds at level `k` or tighter. */
  lemma {:induction false} LevelNested(ts: seq<Token>, i: nat, k: nat)
    requires WellEnded(ts) && i < |ts| && 1 <= k <= 6
    requires LevelAt(ts, i, k).Success? && ParenFree(ts, i, LevelAt(ts, i, k).value.next)
    decreases |ts| - i, 11 - k
    ensures Nested(LevelAt(ts, i, k).value.value, k)
  {
    var left := (if k == 6 then UnaryAt(ts, i) else LevelAt(ts, i, k + 1)).value;
    if k == 6 {
      UnaryNested(ts, i);
    } else {
      LevelNested(ts, i, k + 1);
    }
    LevelLoopNested(ts, k, left.value, left.next);
  }

  /** The loop of level `k` keeps the tree well nested at level `k`: left operands may bind equally, right ones tighter. */
  lemma {:induction false} LevelLoopNested(ts: seq<Token>, k: nat, left: Expr, j: nat)
    requires WellEnded(ts) && j < |ts| && 1 <= k <= 6 && !BinaryFrom(ts[j], k + 1)
    requires Nested(left, k)
    requires LevelLoop(ts, k, left, j).Success? && ParenFree(ts, j, LevelLoop(ts, k, left, j).value.next)
    decreases |ts| - j
    ensures Nested(LevelLoop(ts, k, left, j).value.value, k)
  {
    if AtLevel(ts[j], k) {
      var right := (if k == 6 then UnaryAt(ts, j + 1) else LevelAt(ts, j + 1, k + 1)).value;
      if k == 6 {
        UnaryNested(ts, j + 1);
      } else {
        LevelNested(ts, j + 1, k + 1);
      }
      LevelLoopNested(ts, k, Binary(left, ts[j].value.s, right.value), right.next);
    }
  }

  /** `parse_unary` without `(`: a unary-level tree. */
  lemma {:induction false} UnaryNested(ts: seq<Token>, i: nat)
    requires WellEnded(ts) && i < |ts|
    requires UnaryAt(ts, i).Success? && ParenFree(ts, i, UnaryAt(ts, i).value.next)
    decreases |ts| - i, 4
    ensures Nested(UnaryAt(ts, i).value.value, 7)
  {
    if AtPrefix(ts[i]) {
      UnaryNested(ts, i + 1);
    } else {
      PostfixNested(ts, i);
    }
  }

  /** `parse_postfix` without `(`: a primary with indexes and `++`/`--` after it. */
  lemma {:induction false} PostfixNested(ts: seq<Token>, i: nat)
    requires WellEnded(ts) && i < |ts|
    requires PostfixAt(ts, i).Success? && ParenFree(ts, i, PostfixAt(ts, i).value.next)
    decreases |ts| - i, 3
    ensures Nested(PostfixAt(ts, i).value.value, 7)
  {
    var primary := PrimaryAt(ts, i).value;
    PrimaryNested(ts, i);
    PostfixLoopNested(ts, primary.value, primary.next);
  }

  /** The postfix loop keeps a unary-level tree. */
  lemma {:induction false} PostfixLoopNested(ts: seq<Token>, e: Expr, j: nat)
    requires WellEnded(ts) && j < |ts| && Nested(e, 7)
    requires PostfixLoop(ts, e, j).Success? && ParenFree(ts, j, PostfixLoop(ts, e, j).value.next)
    decreases |ts| - j, 2
    ensures Nested(PostfixLoop(ts, e, j).value.value, 7)
  {
    var step := PostfixStep(ts, e, j).value;
    if step.value.Some? {
      PostfixStepNested(ts, e, j);
      PostfixLoopNested(ts, step.value.value, step.next);
    }
  }

  /** One postfix step without `(`: an index or a postfix `++`/`--` on a unary-level tree. */
  lemma {:induction false} PostfixStepNested(ts: seq<Token>, e: Expr, j: nat)
    requires WellEnded(ts) && j < |ts| && Nested(e, 7)
    requires PostfixStep(ts, e, j).Success? && ParenFree(ts, j, PostfixStep(ts, e, j).value.next)
    decreases |ts| - j, 1
    ensures PostfixStep(ts, e, j).value.value.Some? ==> Nested(PostfixStep(ts, e, j).value.value.value, 7)
  {
    if ts[j].kind == OpenBracket {
      IndexSuffixNested(ts, e, j);
    }
  }

  /** `[ expression ]` without `(`: an index whose base is unary-level and whose index is well nested. */
  lemma {:induction false} IndexSuffixNested(ts: seq<Token>, e: Expr, j: nat)
    requires WellEnded(ts) && j < |ts| && ts[j].kind == OpenBracket && Nested(e, 7)
    requires IndexSuffixAt(ts, e, j).Success? && ParenFree(ts, j, IndexSuffixAt(ts, e, j).value.next)
    decreases |ts| - j, 0
    ensures Nested(IndexSuffixAt(ts, e, j).value.value, 7)
  {
    ExpressionNested(ts, j + 1);
  }

  /** `parse_primary` without `(`: a literal or a name. */
  lemma PrimaryNested(ts: seq<Token>, i: nat)
    requires WellEnded(ts) && i < |ts|
    requires PrimaryAt(ts, i).Success? && ParenFree(ts, i, PrimaryAt(ts, i).value.next)
    ensures Nested(PrimaryAt(ts, i).value.value, 7)
  {
  }

  // ------------------------------------------------------------------ concrete groupings

  /** A token that ends an expression: no operator, no call and no index follows. */
  predicate Ends(t: Token) {
    t.kind != Operator && t.kind != OpenParen && t.kind != OpenBracket
  }

  /** The name a name token parses to as a primary. */
  function NameExpr(t: Token): Expr {
    Expr.Identifier(ValueText(t.value))
  }

  /** A name followed by no postfix continuation is a whole unary expression. */
  lemma NameAtUnary(ts: seq<Token>, j: nat)
    requires WellEnded(ts) && j + 1 < |ts| && IsName(ts[j]) && !ContinuesPostfix(ts[j + 1])
    ensures UnaryAt(ts, j) == Success(Parsed(NameExpr(ts[j]), j + 1))
  {
    assert PrimaryAt(ts, j) == Success(Parsed(NameExpr(ts[j]), j + 1));
    assert PostfixStep(ts, NameExpr(ts[j]), j + 1) == Success(Parsed(None, j + 1));
    assert PostfixLoop(ts, NameExpr(ts[j]), j + 1) == Success(Parsed(NameExpr(ts[j]), j + 1));
    assert PostfixAt(ts, j) == Success(Parsed(NameExpr(ts[j]), j + 1));
  }

  /** A name followed by no operator of level `k` or tighter is a whole operand at level `k`. */
  lemma {:induction false} NameAtLevel(ts: seq<Token>, j: nat, k: nat)
    requires WellEnded(ts) && j + 1 < |ts| && 1 <= k <= 6
    requires IsName(ts[j]) && !ContinuesPostfix(ts[j + 1]) && !BinaryFrom(ts[j + 1], k)
    decreases 6 - k
    ensures LevelAt(ts, j, k) == Success(Parsed(NameExpr(ts[j]), j + 1))
  {
    if k == 6 {
      NameAtUnary(ts, j);
    } else {
      NameAtLevel(ts, j, k + 1);
    }
    assert LevelLoop(ts, k, NameExpr(ts[j]), j + 1) == Success(Parsed(NameExpr(ts[j]), j + 1));
  }

  /** A level-`k + 1` result followed by no operator of level `k` is also the result at level `k`. */
  lemma LevelLift(ts: seq<Token>, i: nat, k: nat, e: Expr, n: nat)
    requires WellEnded(ts) && i < n < |ts| && 1 <= k < 6
    requires LevelAt(ts, i, k + 1) == Success(Parsed(e, n)) && !BinaryFrom(ts[n], k)
    ensures LevelAt(ts, i, k) == Success(Parsed(e, n))
  {
    assert LevelLoop(ts, k, e, n) == Success(Parsed(e, n));
  }

  /** An additive result followed by a token that ends the expression is the whole expression. */
  lemma ExpressionFromAdditive(ts: seq<Token>, i: nat, e: Expr, n: nat)
    requires WellEnded(ts) && i < n < |ts| && Ends(ts[n])
    requires LevelAt(ts, i, 5) == Success(Parsed(e, n))
    ensures ExpressionAt(ts, i) == Success(Parsed(e, n))
  {
    LevelLift(ts, i, 4, e, n);
    LevelLift(ts, i, 3, e, n);
    LevelLift(ts, i, 2, e, n);
    LevelLift(ts, i, 1, e, n);
  }

  /** `a - b - c` groups to the left: `(a - b) - c`. */
  lemma SubtractionAssociatesLeft(ts: seq<Token>, lo: nat)
    requires WellEnded(ts) && lo + 5 < |ts|
    requires IsName(ts[lo]) && IsWord(ts[lo + 1], Operator, "-") && IsName(ts[lo + 2])
    requires IsWord(ts[lo + 3], Operator, "-") && IsName(ts[lo + 4]) && Ends(ts[lo + 5])
    ensures ExpressionAt(ts, lo) ==
      Success(Parsed(Binary(Binary(NameExpr(ts[lo]), "-", NameExpr(ts[lo + 2])), "-", NameExpr(ts[lo + 4])), lo + 5))
  {
    var a, b, c := NameExpr(ts[lo]), NameExpr(ts[lo + 2]), NameExpr(ts[lo + 4]);
    NameAtLevel(ts, lo, 6);
    NameAtLevel(ts, lo + 2, 6);
    NameAtLevel(ts, lo + 4, 6);
    assert LevelLoop(ts, 5, Binary(Binary(a, "-", b), "-", c), lo + 5) == Success(Parsed(Binary(Binary(a, "-", b), "-", c), lo + 5));
    assert LevelLoop(ts, 5, Binary(a, "-", b), lo + 3) == Success(Parsed(Binary(Binary(a, "-", b), "-", c), lo + 5));
    assert LevelLoop(ts, 5, a, lo + 1) == Success(Parsed(Binary(Binary(a, "-", b), "-", c), lo + 5));
    ExpressionFromAdditive(ts, lo, Binary(Binary(a, "-", b), "-", c), lo + 5);
  }

  /** `a + b * c` groups the product first: `a + (b * c)`. */
  lemma ProductBindsTighter(ts: seq<Token>, lo: nat)
    requires WellEnded(ts) && lo + 5 < |ts|
    requires IsName(ts[lo]) && IsWord(ts[lo + 1], Operator, "+") && IsName(ts[lo + 2])
    requires IsWord(ts[lo + 3], Operator, "*") && IsName(ts[lo + 4]) && Ends(ts[lo + 5])
    ensures ExpressionAt(ts, lo) ==
      Success(Parsed(Binary(NameExpr(ts[lo]), "+", Binary(NameExpr(ts[lo + 2]), "*", NameExpr(ts[lo + 4]))), lo + 5))
  {
    var a, b, c := NameExpr(ts[lo]), NameExpr(ts[lo + 2]), NameExpr(ts[lo + 4]);
    NameAtLevel(ts, lo, 6);
    NameAtUnary(ts, lo + 2);
    NameAtUnary(ts, lo + 4);
    assert LevelLoop(ts, 6, Binary(b, "*", c), lo + 5) == Success(Parsed(Binary(b, "*", c), lo + 5));
    assert LevelLoop(ts, 6, b, lo + 3) == Success(Parsed(Binary(b, "*", c), lo + 5));
    assert LevelAt(ts, lo + 2, 6) == Success(Parsed(Binary(b, "*", c), lo + 5));
    assert LevelLoop(ts, 5, Binary(a, "+", Binary(b, "*", c)), lo + 5) == Success(Parsed(Binary(a, "+", Binary(b, "*", c)), lo + 5));
    assert LevelLoop(ts, 5, a, lo + 1) == Success(Parsed(Binary(a, "+", Binary(b, "*", c)), lo + 5));
    ExpressionFromAdditive(ts, lo, Binary(a, "+", Binary(b, "*", c)), lo + 5);
  }

  /** `a = b = c` groups to the right: `a = (b = c)`. */
  lemma AssignmentAssociatesRight(ts: seq<Token>, lo: nat)
    requires WellEnded(ts) && lo + 5 < |ts|
    requires IsName(ts[lo]) && IsWord(ts[lo + 1], Operator, "=") && IsName(ts[lo + 2])
    requires IsWord(ts[lo + 3], Operator, "=") && IsName(ts[lo + 4]) && Ends(ts[lo + 5])
    ensures ExpressionAt(ts, lo) ==
      Success(Parsed(Assign(NameExpr(ts[lo]), Assign(NameExpr(ts[lo + 2]), NameExpr(ts[lo + 4]))), lo + 5))
  {
    var a, b, c := NameExpr(ts[lo]), NameExpr(ts[lo + 2]), NameExpr(ts[lo + 4]);
    NameAtLevel(ts, lo, 1);
    NameAtLevel(ts, lo + 2, 1);
    NameAtLevel(ts, lo + 4, 1);
    assert AssignmentAt(ts, lo + 4) == Success(Parsed(c, lo + 5));
    assert AssignmentAt(ts, lo + 2) == Success(Parsed(Assign(b, c), lo + 5));
    assert AssignmentAt(ts, lo) == Success(Parsed(Assign(a, Assign(b, c)), lo + 5));
  }
}
