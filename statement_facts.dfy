/**
 * Facts about the declaration and statement grammar of lib/grongigo/parser.rb that relate
 * whole constructs to the tokens they consume: the clauses of a `for` header between its two
 * commas, and the declaration error at a type keyword not followed by a name.
 */
module StatementFacts {
  import opened Wrappers
  import opened Tokens
  import opened Ast
  import opened Grammar
  import opened StatementGrammar

  /**
   * The rest of a `for` header consumes both commas and the `)`: the condition is absent exactly
   * when the second comma follows the first directly, the update exactly when `)` follows the
   * second comma directly, and a present clause is the expression parsed between its delimiters.
   */
  lemma ForTailCommas(ts: seq<Token>, c: nat)
    requires WellEnded(ts) && c < |ts| && ForTailAt(ts, c).Success?
    ensures var p := ForTailAt(ts, c).value;
      ts[c].kind == Comma && ts[p.next - 1].kind == CloseParen &&
      exists c2: nat ::
        && c < c2 < p.next - 1 && ts[c2].kind == Comma
        && (p.value.0.None? <==> c2 == c + 1)
        && (p.value.1.None? <==> p.next == c2 + 2)
        && (p.value.0.Some? ==> ExpressionAt(ts, c + 1) == Success(Parsed(p.value.0.value, c2)))
        && (p.value.1.Some? ==> ExpressionAt(ts, c2 + 1) == Success(Parsed(p.value.1.value, p.next - 1)))
  {
    var p := ForTailAt(ts, c).value;
    var cond := OptionalExpressionAt(ts, c + 1, Comma).value;
    var c2 := cond.next;
    var update := OptionalExpressionAt(ts, c2 + 1, CloseParen).value;
    assert p.value == (cond.value, update.value) && p.next == update.next + 1;
    assert
      && c < c2 < p.next - 1 && ts[c2].kind == Comma
      && (p.value.0.None? <==> c2 == c + 1)
      && (p.value.1.None? <==> p.next == c2 + 2)
      && (p.value.0.Some? ==> ExpressionAt(ts, c + 1) == Success(Parsed(p.value.0.value, c2)))
      && (p.value.1.Some? ==> ExpressionAt(ts, c2 + 1) == Success(Parsed(p.value.1.value, p.next - 1)));
  }

  /**
   * A `for (init, cond, update)` header: the initializer is absent exactly when the first comma
   * comes first, and what follows it is the tail `ForTailCommas` describes.
   */
  lemma ForClausesCommas(ts: seq<Token>, j: nat)
    requires WellEnded(ts) && j < |ts| && ForClausesAt(ts, j).Success?
    ensures var p := ForClausesAt(ts, j).value;
      exists c1: nat ::
        && j <= c1 < p.next && ForTailAt(ts, c1).Success?
        && (p.value.0.None? <==> c1 == j)
        && ForTailAt(ts, c1).value == Parsed((p.value.1, p.value.2), p.next)
  {
    var p := ForClausesAt(ts, j).value;
    var c1 := if ts[j].kind == Comma then j else ForInitAt(ts, j).value.next;
    assert ForTailAt(ts, c1).Success? && ForTailAt(ts, c1).value == Parsed((p.value.1, p.value.2), p.next);
    assert (p.value.0.None? <==> c1 == j);
  }

  /**
   * A declaration at a type keyword whose next token is no name fails at that token, in
   * `parse_identifier_name`: `ゲギグウ ゲギグウ` is an error.
   */
  lemma TypeWithoutNameFails(ts: seq<Token>, i: nat)
    requires WellEnded(ts) && i + 1 < |ts| && ts[i].kind == TypeKeyword && !IsName(ts[i + 1])
    ensures DeclarationAt(ts, i) == Failure(Expected(ts[i + 1]))
    ensures DeclarationsAt(ts, i) == Failure(Expected(ts[i + 1]))
  {
  }

  /** A program that opens with a type keyword and no name after it is rejected at the second token. */
  lemma ProgramTypeWithoutNameFails(ts: seq<Token>)
    requires WellEnded(ts) && 1 < |ts| && ts[0].kind == TypeKeyword && !IsName(ts[1])
    ensures ProgramAt(ts, 0) == Failure(Expected(ts[1]))
  {
    TypeWithoutNameFails(ts, 0);
  }
}
