/**
 * The declaration and statement grammar of lib/grongigo/parser.rb as a reference parser: one
 * function per parsing method, from a token index to the node built and the index after it.
 * The expression functions come from `Grammar`; the `Parser` class is proved to compute these.
 */
module StatementGrammar {
  import opened Wrappers
  import opened Tokens
  import opened Ast
  import opened Grammar

  // ------------------------------------------------------------------ names and parameters

  /** `parse_identifier_name`: an identifier or an other keyword, else an error at that token. */
  function IdentifierNameAt(ts: seq<Token>, i: nat): (r: Outcome<string>)
    requires WellEnded(ts) && i < |ts|
    ensures r.Success? <==> IsName(ts[i])
    ensures r.Success? ==> r.value == Parsed(ValueText(ts[i].value), i + 1) && i + 1 < |ts|
    ensures r.Failure? ==> r.error == Expected(ts[i])
  {
    if IsName(ts[i]) then Success(Parsed(ValueText(ts[i].value), i + 1)) else Failure(Expected(ts[i]))
  }

  /**
   * Parameter `m` of `ps` is made of the tokens at `i + 3m` (the type) and `i + 3m + 1` (the
   * name, an identifier or other keyword), and a comma separates it from the next one. In a
   * `typed` list every type token is a type keyword.
   */
  predicate ParamTriples(ts: seq<Token>, i: nat, ps: seq<Param>, typed: bool)
    requires i + 3 * |ps| <= |ts| + 1
  {
    forall m :: 0 <= m < |ps| ==>
      && IsName(ts[i + 3 * m + 1])
      && (typed ==> ts[i + 3 * m].kind == TypeKeyword)
      && ps[m] == Param(ValueText(ts[i + 3 * m].value), ValueText(ts[i + 3 * m + 1].value))
      && (m + 1 < |ps| ==> ts[i + 3 * m + 2].kind == Comma)
  }

  /** Putting one more parameter in front of a list of parameter triples. */
  lemma ParamTriplesCons(ts: seq<Token>, i: nat, p: Param, rest: seq<Param>, typed: bool)
    requires i + 3 * |rest| + 3 <= |ts| + 1 && ParamTriples(ts, i + 3, rest, typed)
    requires IsName(ts[i + 1]) && (typed ==> ts[i].kind == TypeKeyword)
    requires p == Param(ValueText(ts[i].value), ValueText(ts[i + 1].value))
    requires 0 < |rest| ==> ts[i + 2].kind == Comma
    ensures ParamTriples(ts, i, [p] + rest, typed)
  {
    var ps := [p] + rest;
    forall m | 0 <= m < |ps|
      ensures IsName(ts[i + 3 * m + 1]) && (typed ==> ts[i + 3 * m].kind == TypeKeyword)
      ensures ps[m] == Param(ValueText(ts[i + 3 * m].value), ValueText(ts[i + 3 * m + 1].value))
      ensures m + 1 < |ps| ==> ts[i + 3 * m + 2].kind == Comma
    {
      if 0 < m {
        assert ps[m] == rest[m - 1];
        assert i + 3 * m == (i + 3) + 3 * (m - 1);
      }
    }
  }

  /** A nonempty `type name, type name, …` list from `i`, ending before `next`, where no comma follows. */
  predicate ParamList(ts: seq<Token>, i: nat, ps: seq<Param>, next: nat) {
    && 0 < |ps| && next == i + 3 * |ps| - 1 && next < |ts|
    && ParamTriples(ts, i, ps, true) && ts[next].kind != Comma
  }

  /**
   * A bare parameter list from `i`: parameters as in `ParamTriples`, ended either by a block
   * right after a type token (that type is dropped) or by a name with no comma after it.
   */
  predicate BareList(ts: seq<Token>, i: nat, ps: seq<Param>, next: nat) {
    && i + 3 * |ps| <= |ts| + 1 && ParamTriples(ts, i, ps, false)
    && ((next == i + 3 * |ps| + 1 && next < |ts| && ts[next].kind == OpenBrace && (0 < |ps| ==> ts[next - 2].kind == Comma))
        || (0 < |ps| && next == i + 3 * |ps| - 1 && next < |ts| && ts[next].kind != Comma))
  }

  /** The `loop` over `type name` pairs joined by commas, in parentheses. */
  function ParameterListAt(ts: seq<Token>, i: nat): (r: Outcome<seq<Param>>)
    requires WellEnded(ts) && i < |ts|
    decreases |ts| - i
    ensures r.Success? ==> i + 2 <= r.value.next < |ts|
    ensures ts[i].kind != TypeKeyword ==> r == Failure(Expected(ts[i]))
  {
    var typ :- Expect(ts, i, TypeKeyword);
    var name :- IdentifierNameAt(ts, i + 1);
    var p := Param(ValueText(ts[i].value), name.value);
    if ts[i + 2].kind == Comma then
      var rest :- ParameterListAt(ts, i + 3);
      Success(Parsed([p] + rest.value, rest.next))
    else
      Success(Parsed([p], i + 2))
  }

  /** One round of the typed parameter loop, as the `Parser` method takes it. */
  lemma ParameterListStep(ts: seq<Token>, i: nat)
    requires WellEnded(ts) && i < |ts|
    ensures ts[i].kind != TypeKeyword ==> ParameterListAt(ts, i) == Failure(Expected(ts[i]))
    ensures ts[i].kind == TypeKeyword && !IsName(ts[i + 1]) ==> ParameterListAt(ts, i) == Failure(Expected(ts[i + 1]))
    ensures ts[i].kind == TypeKeyword && IsName(ts[i + 1]) ==>
      var p := Param(ValueText(ts[i].value), ValueText(ts[i + 1].value));
      ParameterListAt(ts, i) ==
        if ts[i + 2].kind == Comma then Prepend([p], ParameterListAt(ts, i + 3)) else Success(Parsed([p], i + 2))
  {
  }

  /**
   * One round of the typed parameter loop seen from where the loop started: with `params`
   * already read, each way the round ends gives the whole outcome, and a comma carries on.
   */
  lemma ParameterListRound(ts: seq<Token>, start: nat, i: nat, params: seq<Param>)
    requires WellEnded(ts) && start < |ts| && i < |ts|
    requires ParameterListAt(ts, start) == Prepend(params, ParameterListAt(ts, i))
    ensures ts[i].kind != TypeKeyword ==> ParameterListAt(ts, start) == Failure(Expected(ts[i]))
    ensures ts[i].kind == TypeKeyword && !IsName(ts[i + 1]) ==> ParameterListAt(ts, start) == Failure(Expected(ts[i + 1]))
    ensures ts[i].kind == TypeKeyword && IsName(ts[i + 1]) && ts[i + 2].kind == Comma ==>
      var p := Param(ValueText(ts[i].value), ValueText(ts[i + 1].value));
      ParameterListAt(ts, start) == Prepend(params + [p], ParameterListAt(ts, i + 3))
    ensures ts[i].kind == TypeKeyword && IsName(ts[i + 1]) && ts[i + 2].kind != Comma ==>
      var p := Param(ValueText(ts[i].value), ValueText(ts[i + 1].value));
      ParameterListAt(ts, start) == Success(Parsed(params + [p], i + 2))
  {
    ParameterListStep(ts, i);
    if ts[i].kind == TypeKeyword && IsName(ts[i + 1]) && ts[i + 2].kind == Comma {
      var p := Param(ValueText(ts[i].value), ValueText(ts[i + 1].value));
      PrependTwice(params, [p], ParameterListAt(ts, i + 3));
    }
  }

  /** What the typed parameter loop accepts: `type name` triples joined by commas, with no comma after the last. */
  lemma {:induction false} ParameterListTriples(ts: seq<Token>, i: nat)
    requires WellEnded(ts) && i < |ts|
    decreases |ts| - i
    ensures var r := ParameterListAt(ts, i); r.Success? ==> ParamList(ts, i, r.value.value, r.value.next)
  {
    var r := ParameterListAt(ts, i);
    ParameterListStep(ts, i);
    if r.Success? {
      var p := Param(ValueText(ts[i].value), ValueText(ts[i + 1].value));
      if ts[i + 2].kind == Comma {
        var rest := ParameterListAt(ts, i + 3);
        assert rest.Success? && r.value.value == [p] + rest.value.value && r.value.next == rest.value.next;
        ParameterListTriples(ts, i + 3);
        ParamTriplesCons(ts, i, p, rest.value.value, true);
      } else {
        ParamTriplesCons(ts, i, p, [], true);
      }
    }
  }

  /**
   * The bare parameter loop from `j`: any token is advanced over as a type; a `{` then ends
   * the list, otherwise a name follows and a comma continues the list. At eof the cursor
   * stays and the name that should follow is missing.
   */
  function BareParamsAt(ts: seq<Token>, j: nat): (r: Outcome<seq<Param>>)
    requires WellEnded(ts) && j < |ts|
    decreases |ts| - j
    ensures r.Success? ==> j < r.value.next < |ts|
  {
    if ts[j].kind == Eof then Failure(Expected(ts[j]))
    else if ts[j + 1].kind == OpenBrace then Success(Parsed([], j + 1))
    else
      var name :- IdentifierNameAt(ts, j + 1);
      var p := Param(ValueText(ts[j].value), name.value);
      if ts[j + 2].kind == Comma then
        var rest :- BareParamsAt(ts, j + 3);
        Success(Parsed([p] + rest.value, rest.next))
      else
        Success(Parsed([p], j + 2))
  }

  /** What the bare parameter loop accepts: the parameter triples up to a `{` or a name with no comma after it. */
  lemma {:induction false} BareParamsList(ts: seq<Token>, j: nat)
    requires WellEnded(ts) && j < |ts|
    decreases |ts| - j
    ensures var r := BareParamsAt(ts, j); r.Success? ==> BareList(ts, j, r.value.value, r.value.next)
  {
    var r := BareParamsAt(ts, j);
    BareParamsStep(ts, j);
    if r.Success? && ts[j + 1].kind != OpenBrace {
      var p := Param(ValueText(ts[j].value), ValueText(ts[j + 1].value));
      if ts[j + 2].kind == Comma {
        var rest := BareParamsAt(ts, j + 3);
        assert rest.Success? && r.value.value == [p] + rest.value.value && r.value.next == rest.value.next;
        BareParamsList(ts, j + 3);
        ParamTriplesCons(ts, j, p, rest.value.value, false);
      } else {
        assert r.value.value == [p] && r.value.next == j + 2;
        ParamTriplesCons(ts, j, p, [], false);
      }
    }
  }

  /** One round of the bare parameter loop, as the `Parser` method takes it. */
  lemma BareParamsStep(ts: seq<Token>, j: nat)
    requires WellEnded(ts) && j < |ts|
    ensures ts[j].kind == Eof ==> BareParamsAt(ts, j) == Failure(Expected(ts[j]))
    ensures ts[j].kind != Eof && ts[j + 1].kind == OpenBrace ==> BareParamsAt(ts, j) == Success(Parsed([], j + 1))
    ensures ts[j].kind != Eof && ts[j + 1].kind != OpenBrace && !IsName(ts[j + 1]) ==>
      BareParamsAt(ts, j) == Failure(Expected(ts[j + 1]))
    ensures ts[j].kind != Eof && ts[j + 1].kind != OpenBrace && IsName(ts[j + 1]) ==>
      var p := Param(ValueText(ts[j].value), ValueText(ts[j + 1].value));
      BareParamsAt(ts, j) ==
        if ts[j + 2].kind == Comma then Prepend([p], BareParamsAt(ts, j + 3)) else Success(Parsed([p], j + 2))
  {
  }

  /**
   * One round of the bare parameter loop seen from where the loop started: with `params`
   * already read, each way the round ends gives the whole outcome, and a comma carries on.
   */
  lemma BareParamsRound(ts: seq<Token>, start: nat, j: nat, params: seq<Param>)
    requires WellEnded(ts) && start < |ts| && j < |ts|
    requires BareParamsAt(ts, start) == Prepend(params, BareParamsAt(ts, j))
    ensures ts[j].kind == Eof ==> BareParamsAt(ts, start) == Failure(Expected(ts[j]))
    ensures ts[j].kind != Eof && ts[j + 1].kind == OpenBrace ==> BareParamsAt(ts, start) == Success(Parsed(params, j + 1))
    ensures ts[j].kind != Eof && ts[j + 1].kind != OpenBrace && !IsName(ts[j + 1]) ==>
      BareParamsAt(ts, start) == Failure(Expected(ts[j + 1]))
    ensures ts[j].kind != Eof && ts[j + 1].kind != OpenBrace && IsName(ts[j + 1]) ==>
      var p := Param(ValueText(ts[j].value), ValueText(ts[j + 1].value));
      BareParamsAt(ts, start) ==
        if ts[j + 2].kind == Comma then Prepend(params + [p], BareParamsAt(ts, j + 3)) else Success(Parsed(params + [p], j + 2))
  {
    BareParamsStep(ts, j);
    if ts[j].kind != Eof && ts[j + 1].kind == OpenBrace {
      assert params + [] == params;
    } else if ts[j].kind != Eof && IsName(ts[j + 1]) && ts[j + 2].kind == Comma {
      var p := Param(ValueText(ts[j].value), ValueText(ts[j + 1].value));
      PrependTwice(params, [p], BareParamsAt(ts, j + 3));
    }
  }

  /**
   * The parameters after the name in `parse_function_declaration`, from `k`: a parenthesised
   * list (empty for `()` and `(void)`), a bare `void` (none), a bare list, or nothing at all.
   */
  function ParametersAt(ts: seq<Token>, k: nat): (r: Outcome<seq<Param>>)
    requires WellEnded(ts) && k < |ts|
    ensures r.Success? ==> k <= r.value.next < |ts|
  {
    if ts[k].kind == OpenParen then
      var list :-
        if ts[k + 1].kind == CloseParen then Success(Parsed([], k + 1))
        else if IsWord(ts[k + 1], TypeKeyword, "void") then Success(Parsed([], k + 2))
        else ParameterListAt(ts, k + 1);
      var close :- Expect(ts, list.next, CloseParen);
      Success(Parsed(list.value, close.next))
    else if IsWord(ts[k], TypeKeyword, "void") then Success(Parsed([], k + 1))
    else if ts[k].kind == TypeKeyword then BareParamsAt(ts, k)
    else Success(Parsed([], k))
  }

  /**
   * The four parameter forms: in parentheses a typed list, empty for `()` and `(void)`; a bare
   * `void`, which is no parameters; a bare list after another type keyword; otherwise nothing.
   */
  lemma ParametersShape(ts: seq<Token>, k: nat)
    requires WellEnded(ts) && k < |ts|
    ensures var r := ParametersAt(ts, k);
      r.Success? && ts[k].kind == OpenParen ==>
        && k + 2 <= r.value.next && ts[r.value.next - 1].kind == CloseParen
        && (r.value.value == [] <==> ts[k + 1].kind == CloseParen || IsWord(ts[k + 1], TypeKeyword, "void"))
        && (r.value.value != [] ==> ParamList(ts, k + 1, r.value.value, r.value.next - 1))
    ensures IsWord(ts[k], TypeKeyword, "void") ==> ParametersAt(ts, k) == Success(Parsed([], k + 1))
    ensures var r := ParametersAt(ts, k);
      r.Success? && ts[k].kind == TypeKeyword && !IsWord(ts[k], TypeKeyword, "void") ==>
        BareList(ts, k, r.value.value, r.value.next)
    ensures ts[k].kind != OpenParen && ts[k].kind != TypeKeyword ==> ParametersAt(ts, k) == Success(Parsed([], k))
  {
    if ts[k].kind == OpenParen && ts[k + 1].kind != CloseParen && !IsWord(ts[k + 1], TypeKeyword, "void") {
      ParameterListTriples(ts, k + 1);
    } else if ts[k].kind == TypeKeyword {
      BareParamsList(ts, k);
    }
  }

  // ------------------------------------------------------------------ declarations

  /** `parse`: declarations in order until eof. */
  function ProgramAt(ts: seq<Token>, i: nat): (r: Outcome<Program>)
    requires WellEnded(ts) && i < |ts|
    ensures r.Success? ==> i <= r.value.next < |ts| && ts[r.value.next].kind == Eof
    ensures r.Success? ==> |r.value.value.decls| <= r.value.next - i
    ensures ts[i].kind == Eof ==> r == Success(Parsed(Program([]), i))
  {
    var decls :- DeclarationsAt(ts, i);
    Success(Parsed(Program(decls.value), decls.next))
  }

  /** The `until check(:eof)` loop of `parse`, from `i`. */
  function DeclarationsAt(ts: seq<Token>, i: nat): (r: Outcome<seq<Decl>>)
    requires WellEnded(ts) && i < |ts|
    decreases |ts| - i, 22
    ensures r.Success? ==> i <= r.value.next < |ts| && ts[r.value.next].kind == Eof
    ensures r.Success? ==> |r.value.value| <= r.value.next - i
  {
    if ts[i].kind == Eof then Success(Parsed([], i))
    else
      var decl :- DeclarationAt(ts, i);
      var rest :- DeclarationsAt(ts, decl.next);
      Success(Parsed((if decl.value.Some? then [decl.value.value] else []) + rest.value, rest.next))
  }

  /** `parse_declaration`: nothing at eof; a function after `パザ`; a declaration after a type keyword; else a statement. */
  function DeclarationAt(ts: seq<Token>, i: nat): (r: Outcome<Option<Decl>>)
    requires WellEnded(ts) && i < |ts|
    decreases |ts| - i, 21
    ensures ts[i].kind == Eof ==> r == Success(Parsed(None, i))
    ensures r.Success? && ts[i].kind != Eof ==> r.value.value.Some? && i < r.value.next < |ts|
    ensures r.Success? && IsWord(ts[i], OtherKeyword, "パザ") ==> r.value.value.value.FunctionDecl?
    ensures r.Success? && ts[i].kind == TypeKeyword ==>
      i + 2 < |ts| && (r.value.value.value.FunctionDecl? <==> ts[i + 2].kind == OpenParen)
    ensures r.Success? && ts[i].kind != Eof && ts[i].kind != TypeKeyword && !IsWord(ts[i], OtherKeyword, "パザ") ==>
      r.value.value.value.StmtDecl? && StartsStatement(ts[i], r.value.value.value.stmt)
  {
    if ts[i].kind == Eof then Success(Parsed(None, i))
    else if IsWord(ts[i], OtherKeyword, "パザ") then
      var decl :- FunctionDeclarationAt(ts, i);
      Success(Parsed(Some(decl.value), decl.next))
    else if ts[i].kind == TypeKeyword then
      var decl :- VarOrFuncAt(ts, i);
      Success(Parsed(Some(decl.value), decl.next))
    else
      var stmt :- StatementAt(ts, i);
      Success(Parsed(Some(StmtDecl(stmt.value.value)), stmt.next))
  }

  /**
   * `parse_function_declaration` at `パザ`: a return type keyword, a name, the parameters
   * (`ParametersAt`), then the body block.
   */
  function FunctionDeclarationAt(ts: seq<Token>, i: nat): (r: Outcome<Decl>)
    requires WellEnded(ts) && i < |ts| && IsWord(ts[i], OtherKeyword, "パザ")
    decreases |ts| - i, 20
    ensures r.Success? ==> i + 5 <= r.value.next < |ts| && ts[r.value.next - 1].kind == CloseBrace
    ensures r.Success? ==> r.value.value.FunctionDecl?
    ensures ts[i + 1].kind != TypeKeyword ==> r == Failure(Expected(ts[i + 1]))
  {
    var returnType :- Expect(ts, i + 1, TypeKeyword);
    FunctionSignatureAt(ts, returnType.next, ValueText(returnType.value.value))
  }

  /** A `パザ` function after its return type: a name, then the parameters and the body. */
  function FunctionSignatureAt(ts: seq<Token>, j: nat, returnType: string): (r: Outcome<Decl>)
    requires WellEnded(ts) && j < |ts|
    decreases |ts| - j, 20
    ensures r.Success? ==> j + 3 <= r.value.next < |ts| && ts[r.value.next - 1].kind == CloseBrace
    ensures r.Success? ==> r.value.value.FunctionDecl? && r.value.value.returnType == returnType
    ensures !IsName(ts[j]) ==> r == Failure(Expected(ts[j]))
  {
    var name :- IdentifierNameAt(ts, j);
    FunctionBodyAt(ts, j + 1, returnType, name.value)
  }

  /**
   * A function declaration parsed as `パザ`, the return type and then, when the type is there,
   * the signature: what the type and the signature yield is what `FunctionDeclarationAt` yields.
   */
  lemma FunctionDeclarationYields(ts: seq<Token>, i: nat, returnType: Result<Token, ParseError>,
                                  mid: nat, r: Result<Decl, ParseError>, next: nat)
    requires WellEnded(ts) && i < |ts| && IsWord(ts[i], OtherKeyword, "パザ")
    requires Yields(returnType, mid, Expect(ts, i + 1, TypeKeyword))
    requires returnType.Failure? ==> r == Failure(returnType.error)
    requires returnType.Success? ==> Yields(r, next, FunctionSignatureAt(ts, mid, ValueText(returnType.value.value)))
    ensures Yields(r, next, FunctionDeclarationAt(ts, i))
  {
    if ts[i + 1].kind == TypeKeyword {
      assert mid == i + 2 && returnType == Success(ts[i + 1]);
      assert FunctionDeclarationAt(ts, i) == FunctionSignatureAt(ts, i + 2, ValueText(ts[i + 1].value));
    }
  }

  /**
   * A signature parsed as a name and then, when the name is there, a body: what the name and
   * the body yield is what `FunctionSignatureAt` yields.
   */
  lemma SignatureYields(ts: seq<Token>, j: nat, returnType: string, name: Result<string, ParseError>,
                        mid: nat, r: Result<Decl, ParseError>, next: nat)
    requires WellEnded(ts) && j < |ts| && Yields(name, mid, IdentifierNameAt(ts, j))
    requires name.Failure? ==> r == Failure(name.error)
    requires name.Success? ==> Yields(r, next, FunctionBodyAt(ts, mid, returnType, name.value))
    ensures Yields(r, next, FunctionSignatureAt(ts, j, returnType))
  {
    if IsName(ts[j]) {
      assert mid == j + 1 && name == Success(ValueText(ts[j].value));
      assert FunctionSignatureAt(ts, j, returnType) == FunctionBodyAt(ts, j + 1, returnType, name.value);
    }
  }

  /** A `パザ` function from its parameters on: the parameters in one of their three forms, then the body. */
  function FunctionBodyAt(ts: seq<Token>, j: nat, returnType: string, name: string): (r: Outcome<Decl>)
    requires WellEnded(ts) && j < |ts|
    decreases |ts| - j, 19
    ensures r.Success? ==> j + 2 <= r.value.next < |ts| && ts[r.value.next - 1].kind == CloseBrace
    ensures r.Success? ==> r.value.value.FunctionDecl?
  {
    var params :- ParametersAt(ts, j);
    var body :- BlockAt(ts, params.next);
    Success(Parsed(FunctionDecl(returnType, name, params.value, body.value.stmts), body.next))
  }

  /** A function after `パザ` keeps its return type, its name and the parameters `ParametersAt` reads. */
  lemma FunctionDeclarationShape(ts: seq<Token>, i: nat)
    requires WellEnded(ts) && i < |ts| && IsWord(ts[i], OtherKeyword, "パザ")
    requires FunctionDeclarationAt(ts, i).Success?
    ensures var d := FunctionDeclarationAt(ts, i).value.value;
      && ts[i + 1].kind == TypeKeyword && d.returnType == ValueText(ts[i + 1].value)
      && IsName(ts[i + 2]) && d.name == ValueText(ts[i + 2].value)
      && ParametersAt(ts, i + 3).Success? && d.params == ParametersAt(ts, i + 3).value.value
  {
  }

  /**
   * `parse_var_or_func_declaration` at a type keyword: after the type and a name, `(` starts
   * a function with a typed parameter list (no `void` case here); anything else is a variable.
   */
  function VarOrFuncAt(ts: seq<Token>, i: nat): (r: Outcome<Decl>)
    requires WellEnded(ts) && i < |ts| && ts[i].kind == TypeKeyword
    decreases |ts| - i, 20
    ensures !IsName(ts[i + 1]) ==> r == Failure(Expected(ts[i + 1]))
    ensures r.Success? ==> i + 2 <= r.value.next < |ts| && IsName(ts[i + 1])
    ensures r.Success? ==> (r.value.value.FunctionDecl? <==> ts[i + 2].kind == OpenParen)
  {
    var name :- IdentifierNameAt(ts, i + 1);
    DeclarationRestAt(ts, i + 2, ValueText(ts[i].value), name.value)
  }

  /** After the type and the name of a top-level declaration: `(` starts a function, anything else a variable. */
  function DeclarationRestAt(ts: seq<Token>, j: nat, typeName: string, name: string): (r: Outcome<Decl>)
    requires WellEnded(ts) && j < |ts|
    decreases |ts| - j, 20
    ensures r.Success? ==> j <= r.value.next < |ts|
    ensures r.Success? ==> (r.value.value.FunctionDecl? <==> ts[j].kind == OpenParen)
  {
    if ts[j].kind == OpenParen then
      FunctionRestAt(ts, j + 1, typeName, name)
    else
      var init :- VariableInitAt(ts, j);
      Success(Parsed(StmtDecl(VarDecl(typeName, name, init.value)), init.next))
  }

  /** The function branch of `parse_var_or_func_declaration` from `j`, after `(`: typed parameters, `)`, the body. */
  function FunctionRestAt(ts: seq<Token>, j: nat, returnType: string, name: string): (r: Outcome<Decl>)
    requires WellEnded(ts) && j < |ts|
    decreases |ts| - j, 19
    ensures r.Success? ==> j < r.value.next < |ts| && r.value.value.FunctionDecl?
  {
    var params :- if ts[j].kind == CloseParen then Success(Parsed([], j)) else ParameterListAt(ts, j);
    var close :- Expect(ts, params.next, CloseParen);
    var body :- BlockAt(ts, close.next);
    Success(Parsed(FunctionDecl(returnType, name, params.value, body.value.stmts), body.next))
  }

  /**
   * A top-level declaration after a type keyword: a function keeps the type and the name and
   * has no parameters exactly when `)` follows `(`; a variable keeps them and its initializer.
   */
  lemma VarOrFuncShape(ts: seq<Token>, i: nat)
    requires WellEnded(ts) && i < |ts| && ts[i].kind == TypeKeyword
    requires VarOrFuncAt(ts, i).Success?
    ensures var d := VarOrFuncAt(ts, i).value.value;
      d.FunctionDecl? ==>
        && d.returnType == ValueText(ts[i].value) && d.name == ValueText(ts[i + 1].value)
        && (d.params == [] <==> ts[i + 3].kind == CloseParen)
        && (d.params != [] ==> ParamList(ts, i + 3, d.params, i + 3 * |d.params| + 2))
    ensures var d := VarOrFuncAt(ts, i).value.value;
      d.StmtDecl? ==>
        && VariableInitAt(ts, i + 2).Success?
        && d.stmt == VarDecl(ValueText(ts[i].value), ValueText(ts[i + 1].value), VariableInitAt(ts, i + 2).value.value)
  {
    var returnType, name := ValueText(ts[i].value), ValueText(ts[i + 1].value);
    VarOrFuncRest(ts, i);
    DeclarationRestCases(ts, i + 2, returnType, name);
    if ts[i + 2].kind == OpenParen {
      FunctionRestShape(ts, i + 3, returnType, name);
    }
  }

  /** After a type and a name, a declaration is what follows the name. */
  lemma VarOrFuncRest(ts: seq<Token>, i: nat)
    requires WellEnded(ts) && i < |ts| && ts[i].kind == TypeKeyword && IsName(ts[i + 1])
    ensures VarOrFuncAt(ts, i) == DeclarationRestAt(ts, i + 2, ValueText(ts[i].value), ValueText(ts[i + 1].value))
  {
  }

  /** After the name: a function at `(`, otherwise a variable with what `VariableInitAt` reads. */
  lemma DeclarationRestCases(ts: seq<Token>, j: nat, typeName: string, name: string)
    requires WellEnded(ts) && j < |ts|
    ensures ts[j].kind == OpenParen ==> DeclarationRestAt(ts, j, typeName, name) == FunctionRestAt(ts, j + 1, typeName, name)
    ensures ts[j].kind != OpenParen && VariableInitAt(ts, j).Success? ==>
      var init := VariableInitAt(ts, j).value;
      DeclarationRestAt(ts, j, typeName, name) == Success(Parsed(StmtDecl(VarDecl(typeName, name, init.value)), init.next))
    ensures ts[j].kind != OpenParen && VariableInitAt(ts, j).Failure? ==>
      DeclarationRestAt(ts, j, typeName, name) == Failure(VariableInitAt(ts, j).error)
  {
  }

  /** A function after its `(` keeps its return type and name; its typed parameters are those of `ParamList`. */
  lemma FunctionRestShape(ts: seq<Token>, j: nat, returnType: string, name: string)
    requires WellEnded(ts) && j < |ts| && FunctionRestAt(ts, j, returnType, name).Success?
    ensures var d := FunctionRestAt(ts, j, returnType, name).value.value;
      && d.returnType == returnType && d.name == name
      && (d.params == [] <==> ts[j].kind == CloseParen)
      && (d.params != [] ==> ParamList(ts, j, d.params, j + 3 * |d.params| - 1))
  {
    if ts[j].kind != CloseParen {
      ParameterListTriples(ts, j);
    }
  }

  /** The rest of a top-level variable: any operator is consumed, and only `=` brings an initializer. */
  function VariableInitAt(ts: seq<Token>, j: nat): (r: Outcome<Option<Expr>>)
    requires WellEnded(ts) && j < |ts|
    ensures r.Success? ==> j <= r.value.next < |ts|
    ensures r.Success? ==> (r.value.value.Some? <==> IsWord(ts[j], Operator, "="))
    ensures ts[j].kind != Operator ==> r == Success(Parsed(None, j))
    ensures ts[j].kind == Operator && !IsWord(ts[j], Operator, "=") ==> r == Success(Parsed(None, j + 1))
  {
    if ts[j].kind == Operator then
      if ts[j].value == Str("=") then
        var value :- ExpressionAt(ts, j + 1);
        Success(Parsed(Some(value.value), value.next))
      else
        Success(Parsed(None, j + 1))
    else
      Success(Parsed(None, j))
  }

  // ------------------------------------------------------------------ statements

  /** `parse_statement`: nothing at eof; otherwise the form its first token selects. */
  function StatementAt(ts: seq<Token>, i: nat): (r: Outcome<Option<Stmt>>)
    requires WellEnded(ts) && i < |ts|
    decreases |ts| - i, 16
    ensures ts[i].kind == Eof ==> r == Success(Parsed(None, i))
    ensures r.Success? && ts[i].kind != Eof ==>
      r.value.value.Some? && i < r.value.next < |ts| && StartsStatement(ts[i], r.value.value.value)
  {
    if ts[i].kind == Eof then Success(Parsed(None, i))
    else
      var stmt :-
        if ts[i].kind == OpenBrace then BlockAt(ts, i)
        else if IsWord(ts[i], ControlKeyword, "if") then IfStatementAt(ts, i)
        else if IsWord(ts[i], ControlKeyword, "while") then WhileStatementAt(ts, i)
        else if IsWord(ts[i], ControlKeyword, "for") then ForStatementAt(ts, i)
        else if IsWord(ts[i], ControlKeyword, "switch") then SwitchStatementAt(ts, i)
        else if IsWord(ts[i], ControlKeyword, "return") then ReturnStatementAt(ts, i)
        else if IsWord(ts[i], ControlKeyword, "break") then Success(Parsed(Break, i + 1))
        else if IsWord(ts[i], ControlKeyword, "continue") then Success(Parsed(Continue, i + 1))
        else if ts[i].kind == TypeKeyword then VarDeclarationAt(ts, i)
        else ExpressionStatementAt(ts, i);
      Success(Parsed(Some(stmt.value), stmt.next))
  }

  /** `parse_block`: `{`, statements until `}` or eof, then `}`. */
  function BlockAt(ts: seq<Token>, i: nat): (r: Outcome<Stmt>)
    requires WellEnded(ts) && i < |ts|
    decreases |ts| - i, 14
    ensures ts[i].kind != OpenBrace ==> r == Failure(Expected(ts[i]))
    ensures r.Success? ==> i + 2 <= r.value.next < |ts| && ts[r.value.next - 1].kind == CloseBrace
    ensures r.Success? ==> r.value.value.Block?
    ensures r.Success? ==> BlockItemsAt(ts, i + 1).Success? && r.value.value.stmts == BlockItemsAt(ts, i + 1).value.value
  {
    var open :- Expect(ts, i, OpenBrace);
    var items :- BlockItemsAt(ts, i + 1);
    var close :- Expect(ts, items.next, CloseBrace);
    Success(Parsed(Block(items.value), close.next))
  }

  /** The statements of a block from `j`: each the statement its first token selects, until `}` or eof. */
  function BlockItemsAt(ts: seq<Token>, j: nat): (r: Outcome<seq<Stmt>>)
    requires WellEnded(ts) && j < |ts|
    decreases |ts| - j, 17
    ensures r.Success? ==> j <= r.value.next < |ts|
    ensures r.Success? ==> ts[r.value.next].kind == CloseBrace || ts[r.value.next].kind == Eof
    ensures r.Success? && 0 < |r.value.value| ==> StartsStatement(ts[j], r.value.value[0])
  {
    if ts[j].kind == CloseBrace || ts[j].kind == Eof then Success(Parsed([], j))
    else
      var stmt :- StatementAt(ts, j);
      var rest :- BlockItemsAt(ts, stmt.next);
      Success(Parsed([stmt.value.value] + rest.value, rest.next))
  }

  /** `parse_if_statement` at `if`: a condition, a then branch, then the optional else branch. */
  function IfStatementAt(ts: seq<Token>, i: nat): (r: Outcome<Stmt>)
    requires WellEnded(ts) && i < |ts| && IsWord(ts[i], ControlKeyword, "if")
    decreases |ts| - i, 14
    ensures r.Success? ==> i + 1 < r.value.next < |ts| && r.value.value.If?
    ensures r.Success? ==> ExpressionAt(ts, i + 1).Success? && r.value.value.cond == ExpressionAt(ts, i + 1).value.value
  {
    var cond :- ExpressionAt(ts, i + 1);
    var thenBranch :- BlockOrStatementAt(ts, cond.next);
    var elseBranch :- ElseBranchAt(ts, thenBranch.next);
    Success(Parsed(If(cond.value, thenBranch.value, elseBranch.value), elseBranch.next))
  }

  /** The optional `else` at `j`: `else if` nests another `if`; a plain `else` takes a block or a statement. */
  function ElseBranchAt(ts: seq<Token>, j: nat): (r: Outcome<Option<Stmt>>)
    requires WellEnded(ts) && j < |ts|
    decreases |ts| - j, 13
    ensures !IsWord(ts[j], ControlKeyword, "else") ==> r == Success(Parsed(None, j))
    ensures r.Success? ==> j <= r.value.next < |ts|
    ensures r.Success? && IsWord(ts[j], ControlKeyword, "else") ==>
      ((r.value.value.Some? && r.value.value.value.If?) <==> IsWord(ts[j + 1], ControlKeyword, "if"))
  {
    if !IsWord(ts[j], ControlKeyword, "else") then Success(Parsed(None, j))
    else if IsWord(ts[j + 1], ControlKeyword, "if") then
      var nested :- IfStatementAt(ts, j + 1);
      Success(Parsed(Some(nested.value), nested.next))
    else
      BlockOrStatementAt(ts, j + 1)
  }

  /** `parse_while_statement` at `while`: a condition, then a body. */
  function WhileStatementAt(ts: seq<Token>, i: nat): (r: Outcome<Stmt>)
    requires WellEnded(ts) && i < |ts| && IsWord(ts[i], ControlKeyword, "while")
    decreases |ts| - i, 14
    ensures r.Success? ==> i + 1 < r.value.next < |ts| && r.value.value.While?
    ensures r.Success? ==> var c := ExpressionAt(ts, i + 1);
      && c.Success? && r.value.value.cond == c.value.value
      && BlockOrStatementAt(ts, c.value.next).Success?
      && r.value.value.body == BlockOrStatementAt(ts, c.value.next).value.value
  {
    var cond :- ExpressionAt(ts, i + 1);
    var body :- BlockOrStatementAt(ts, cond.next);
    Success(Parsed(While(cond.value, body.value), body.next))
  }

  /** `parse_for_statement` at `for`: `for (init, cond, update)` or a bare `for cond`, then a body. */
  function ForStatementAt(ts: seq<Token>, i: nat): (r: Outcome<Stmt>)
    requires WellEnded(ts) && i < |ts| && IsWord(ts[i], ControlKeyword, "for")
    decreases |ts| - i, 14
    ensures r.Success? ==> i + 1 < r.value.next < |ts| && r.value.value.For?
  {
    var header :- ForHeaderAt(ts, i + 1);
    var body :- BlockOrStatementAt(ts, header.next);
    Success(Parsed(For(header.value.0, header.value.1, header.value.2, body.value), body.next))
  }

  /** The `for` header from `j`, after the keyword: the clauses in parentheses, or a bare condition. */
  function ForHeaderAt(ts: seq<Token>, j: nat): (r: Outcome<(Option<ForInit>, Option<Expr>, Option<Expr>)>)
    requires WellEnded(ts) && j < |ts|
    decreases |ts| - j, 13
    ensures r.Success? ==> j < r.value.next < |ts|
  {
    if ts[j].kind == OpenParen then ForClausesAt(ts, j + 1)
    else
      var cond :- ExpressionAt(ts, j);
      Success(Parsed((None, Some(cond.value), None), cond.next))
  }

  /**
   * The two forms of `for`: without `(` the expression after the keyword is the condition and
   * there is no init or update; with `(` the three clauses are those of `ForClausesAt`.
   */
  lemma ForStatementShape(ts: seq<Token>, i: nat)
    requires WellEnded(ts) && i < |ts| && IsWord(ts[i], ControlKeyword, "for")
    requires ForStatementAt(ts, i).Success?
    ensures var f := ForStatementAt(ts, i).value.value;
      ts[i + 1].kind != OpenParen ==>
        && f.forInit.None? && f.update.None?
        && ExpressionAt(ts, i + 1).Success? && f.forCond == Some(ExpressionAt(ts, i + 1).value.value)
    ensures var f := ForStatementAt(ts, i).value.value;
      ts[i + 1].kind == OpenParen ==>
        && ForClausesAt(ts, i + 2).Success?
        && (f.forInit, f.forCond, f.update) == ForClausesAt(ts, i + 2).value.value
  {
  }

  /**
   * The parenthesised `for` header after `(`: an optional init, `,`, an optional condition,
   * `,`, an optional update, `)`; both commas are required.
   */
  function ForClausesAt(ts: seq<Token>, j: nat): (r: Outcome<(Option<ForInit>, Option<Expr>, Option<Expr>)>)
    requires WellEnded(ts) && j < |ts|
    decreases |ts| - j, 16
    ensures r.Success? ==> j + 3 <= r.value.next < |ts| && ts[r.value.next - 1].kind == CloseParen
    ensures r.Success? ==> (r.value.value.0.None? <==> ts[j].kind == Comma)
  {
    var init :-
      if ts[j].kind == Comma then Success(Parsed(None, j))
      else (var x :- ForInitAt(ts, j); Success(Parsed(Some(x.value), x.next)));
    var tail :- ForTailAt(ts, init.next);
    Success(Parsed((init.value, tail.value.0, tail.value.1), tail.next))
  }

  /** The rest of a `for` header from its first comma at `c`: `, cond , update )`, either clause optional. */
  function ForTailAt(ts: seq<Token>, c: nat): (r: Outcome<(Option<Expr>, Option<Expr>)>)
    requires WellEnded(ts) && c < |ts|
    ensures r.Success? ==> c + 3 <= r.value.next < |ts| && ts[r.value.next - 1].kind == CloseParen
  {
    var comma1 :- Expect(ts, c, Comma);
    var cond :- OptionalExpressionAt(ts, comma1.next, Comma);
    var comma2 :- Expect(ts, cond.next, Comma);
    var update :- OptionalExpressionAt(ts, comma2.next, CloseParen);
    var close :- Expect(ts, update.next, CloseParen);
    Success(Parsed((cond.value, update.value), close.next))
  }

  /** A `for` condition, update or array size: an expression unless the token `end` that closes it comes first. */
  function OptionalExpressionAt(ts: seq<Token>, j: nat, end: TokenKind): (r: Outcome<Option<Expr>>)
    requires WellEnded(ts) && j < |ts| && end != Eof
    ensures r.Success? ==> j <= r.value.next < |ts|
    ensures r.Success? ==> (r.value.value.None? <==> ts[j].kind == end)
    ensures r.Success? && r.value.value.None? ==> r.value.next == j
    ensures r.Success? && r.value.value.Some? ==> j < r.value.next
  {
    if ts[j].kind == end then Success(Parsed(None, j))
    else
      var e :- ExpressionAt(ts, j);
      Success(Parsed(Some(e.value), e.next))
  }

  /** `parse_for_init`: a variable declaration after a type keyword, else an expression. */
  function ForInitAt(ts: seq<Token>, j: nat): (r: Outcome<ForInit>)
    requires WellEnded(ts) && j < |ts|
    decreases |ts| - j, 15
    ensures r.Success? ==> j < r.value.next < |ts|
    ensures r.Success? ==> (r.value.value.InitVar? <==> ts[j].kind == TypeKeyword)
  {
    if ts[j].kind == TypeKeyword then
      var decl :- VarDeclarationAt(ts, j);
      Success(Parsed(InitVar(decl.value.typ, decl.value.name, decl.value.init), decl.next))
    else
      var e :- ExpressionAt(ts, j);
      Success(Parsed(InitExpr(e.value), e.next))
  }

  /** A clause of a `switch` body, in the order written. */
  datatype SwitchItem = CaseItem(caseClause: CaseClause) | DefaultItem(defaultClause: DefaultClause)

  /** The `case` clauses among `items`, in order. */
  function CasesOf(items: seq<SwitchItem>): (cases: seq<CaseClause>)
    ensures |cases| <= |items|
  {
    if items == [] then []
    else
      var last := items[|items| - 1];
      CasesOf(items[..|items| - 1]) + (if last.CaseItem? then [last.caseClause] else [])
  }

  /** The `case` clauses kept are exactly those among the items. */
  lemma {:induction false} CasesOfMembers(items: seq<SwitchItem>)
    ensures forall c :: c in CasesOf(items) <==> CaseItem(c) in items
  {
    if items != [] {
      var front := items[..|items| - 1];
      CasesOfMembers(front);
      assert items == front + [items[|items| - 1]];
    }
  }

  /** The `default` clause the switch keeps: each `default` overwrites the one before, so the last. */
  function LastDefault(items: seq<SwitchItem>): (d: Option<DefaultClause>)
  {
    if items == [] then None
    else if items[|items| - 1].DefaultItem? then Some(items[|items| - 1].defaultClause)
    else LastDefault(items[..|items| - 1])
  }

  /** No `default` is kept exactly when there is none. */
  lemma {:induction false} LastDefaultNone(items: seq<SwitchItem>)
    ensures LastDefault(items).None? <==> forall k :: 0 <= k < |items| ==> !items[k].DefaultItem?
  {
    if items != [] {
      var n := |items| - 1;
      var front := items[..n];
      LastDefaultNone(front);
      assert forall k :: 0 <= k < n ==> items[k] == front[k];
    }
  }

  /** The `default` kept is the last one: a `default` with no `default` after it. */
  lemma {:induction false} LastDefaultIsLast(items: seq<SwitchItem>)
    ensures forall k :: 0 <= k < |items| && items[k].DefaultItem? && (forall m :: k < m < |items| ==> !items[m].DefaultItem?) ==>
      LastDefault(items) == Some(items[k].defaultClause)
  {
    if items != [] {
      var n := |items| - 1;
      var front := items[..n];
      LastDefaultIsLast(front);
      assert forall k :: 0 <= k < n ==> items[k] == front[k];
      if !items[n].DefaultItem? {
        assert LastDefault(items) == LastDefault(front);
      }
    }
  }

  /** `parse_switch_statement` at `switch`: a subject, `{`, the clauses, `}`. */
  function SwitchStatementAt(ts: seq<Token>, i: nat): (r: Outcome<Stmt>)
    requires WellEnded(ts) && i < |ts| && IsWord(ts[i], ControlKeyword, "switch")
    decreases |ts| - i, 14
    ensures r.Success? ==> i + 3 < r.value.next < |ts| && ts[r.value.next - 1].kind == CloseBrace
  {
    var subject :- ExpressionAt(ts, i + 1);
    var open :- Expect(ts, subject.next, OpenBrace);
    var body :- SwitchBodyAt(ts, open.next);
    var close :- Expect(ts, body.next, CloseBrace);
    Success(Parsed(Switch(subject.value, body.value.0, body.value.1), close.next))
  }

  /** The clauses of a `switch` body from `j`, as the `case` clauses in order and the last `default` clause. */
  function SwitchBodyAt(ts: seq<Token>, j: nat): (r: Outcome<(seq<CaseClause>, Option<DefaultClause>)>)
    requires WellEnded(ts) && j < |ts|
    decreases |ts| - j, 18
    ensures r.Success? ==> j <= r.value.next < |ts|
  {
    var items :- SwitchClausesAt(ts, j);
    Success(Parsed((CasesOf(items.value), LastDefault(items.value)), items.next))
  }

  /** One more item adds its `case` clause to the kept ones, or makes its `default` clause the last. */
  lemma SwitchItemsAppend(items: seq<SwitchItem>, item: SwitchItem)
    ensures CasesOf(items + [item]) == CasesOf(items) + (if item.CaseItem? then [item.caseClause] else [])
    ensures LastDefault(items + [item]) == if item.DefaultItem? then Some(item.defaultClause) else LastDefault(items)
  {
    assert (items + [item])[..|items|] == items;
  }

  /**
   * The clause loop seen from where it started, with `items` read and `j` reached: it ends at a
   * token that starts no clause, and fails when the clauses from `j` fail.
   */
  lemma SwitchBodyFrom(ts: seq<Token>, start: nat, j: nat, items: seq<SwitchItem>)
    requires WellEnded(ts) && start < |ts| && j < |ts|
    requires SwitchClausesAt(ts, start) == Prepend(items, SwitchClausesAt(ts, j))
    ensures !IsWord(ts[j], ControlKeyword, "case") && !IsWord(ts[j], ControlKeyword, "default") ==>
      SwitchBodyAt(ts, start) == Success(Parsed((CasesOf(items), LastDefault(items)), j))
    ensures SwitchClausesAt(ts, j).Failure? ==> SwitchBodyAt(ts, start) == Failure(SwitchClausesAt(ts, j).error)
  {
    SwitchClausesStep(ts, j);
    assert items + [] == items;
  }

  /** A parsed `switch` holds its subject, its `case` clauses in order, and the last `default` clause. */
  lemma SwitchStatementShape(ts: seq<Token>, i: nat)
    requires WellEnded(ts) && i < |ts| && IsWord(ts[i], ControlKeyword, "switch")
    requires SwitchStatementAt(ts, i).Success?
    ensures var s := ExpressionAt(ts, i + 1);
      && s.Success? && ts[s.value.next].kind == OpenBrace
      && SwitchClausesAt(ts, s.value.next + 1).Success?
      && var items := SwitchClausesAt(ts, s.value.next + 1).value.value;
        SwitchStatementAt(ts, i).value.value == Switch(s.value.value, CasesOf(items), LastDefault(items))
  {
  }

  /** The clauses of a `switch` body from `j`: `case` and `default` clauses until `}`, eof or another token. */
  function SwitchClausesAt(ts: seq<Token>, j: nat): (r: Outcome<seq<SwitchItem>>)
    requires WellEnded(ts) && j < |ts|
    decreases |ts| - j, 15
    ensures r.Success? ==> j <= r.value.next < |ts|
    ensures r.Success? ==> var t := ts[r.value.next];
      !IsWord(t, ControlKeyword, "case") && !IsWord(t, ControlKeyword, "default")
  {
    if ts[j].kind == CloseBrace || ts[j].kind == Eof then Success(Parsed([], j))
    else if IsWord(ts[j], ControlKeyword, "case") then
      var clause :- CaseClauseAt(ts, j);
      var rest :- SwitchClausesAt(ts, clause.next);
      Success(Parsed([CaseItem(clause.value)] + rest.value, rest.next))
    else if IsWord(ts[j], ControlKeyword, "default") then
      var clause :- DefaultClauseAt(ts, j);
      var rest :- SwitchClausesAt(ts, clause.next);
      Success(Parsed([DefaultItem(clause.value)] + rest.value, rest.next))
    else
      Success(Parsed([], j))
  }

  /** One round of the clause loop of `parse_switch_statement`, as the `Parser` method takes it. */
  lemma SwitchClausesStep(ts: seq<Token>, j: nat)
    requires WellEnded(ts) && j < |ts|
    ensures !IsWord(ts[j], ControlKeyword, "case") && !IsWord(ts[j], ControlKeyword, "default") ==>
      SwitchClausesAt(ts, j) == Success(Parsed([], j))
    ensures IsWord(ts[j], ControlKeyword, "case") ==>
      SwitchClausesAt(ts, j) ==
        if CaseClauseAt(ts, j).Failure? then Failure(CaseClauseAt(ts, j).error)
        else Prepend([CaseItem(CaseClauseAt(ts, j).value.value)], SwitchClausesAt(ts, CaseClauseAt(ts, j).value.next))
    ensures IsWord(ts[j], ControlKeyword, "default") ==>
      SwitchClausesAt(ts, j) ==
        if DefaultClauseAt(ts, j).Failure? then Failure(DefaultClauseAt(ts, j).error)
        else Prepend([DefaultItem(DefaultClauseAt(ts, j).value.value)], SwitchClausesAt(ts, DefaultClauseAt(ts, j).value.next))
  {
  }

  /** `case value:` and the statements after it. */
  function CaseClauseAt(ts: seq<Token>, j: nat): (r: Outcome<CaseClause>)
    requires WellEnded(ts) && j < |ts| && IsWord(ts[j], ControlKeyword, "case")
    decreases |ts| - j, 13
    ensures r.Success? ==> j + 2 < r.value.next < |ts|
  {
    var value :- ExpressionAt(ts, j + 1);
    var colon :- Expect(ts, value.next, Colon);
    var stmts :- ClauseStatementsAt(ts, colon.next, true);
    Success(Parsed(CaseClause(value.value, stmts.value), stmts.next))
  }

  /** A parsed `case` holds the expression before the colon and the statements of its body. */
  lemma CaseClauseShape(ts: seq<Token>, j: nat)
    requires WellEnded(ts) && j < |ts| && IsWord(ts[j], ControlKeyword, "case")
    requires CaseClauseAt(ts, j).Success?
    ensures var v := ExpressionAt(ts, j + 1);
      && v.Success? && CaseClauseAt(ts, j).value.value.value == v.value.value && ts[v.value.next].kind == Colon
      && ClauseStatementsAt(ts, v.value.next + 1, true).Success?
      && CaseClauseAt(ts, j).value.value.stmts == ClauseStatementsAt(ts, v.value.next + 1, true).value.value
  {
  }

  /** `default:` and the statements after it. */
  function DefaultClauseAt(ts: seq<Token>, j: nat): (r: Outcome<DefaultClause>)
    requires WellEnded(ts) && j < |ts| && IsWord(ts[j], ControlKeyword, "default")
    decreases |ts| - j, 13
    ensures r.Success? ==> j + 1 < r.value.next < |ts| && ts[j + 1].kind == Colon
    ensures r.Success? ==>
      ClauseStatementsAt(ts, j + 2, false).Success? && r.value.value.stmts == ClauseStatementsAt(ts, j + 2, false).value.value
  {
    var colon :- Expect(ts, j + 1, Colon);
    var stmts :- ClauseStatementsAt(ts, colon.next, false);
    Success(Parsed(DefaultClause(stmts.value), stmts.next))
  }

  /** Where a clause body stops: at `case`, at `}`, and (in a `case` body only) at `default`. */
  predicate EndsClause(t: Token, inCase: bool) {
    IsWord(t, ControlKeyword, "case") || (inCase && IsWord(t, ControlKeyword, "default")) || t.kind == CloseBrace
  }

  /**
   * The statements of a `case` body (when `inCase`) or of the `default` body, from `j`, up to
   * where `EndsClause` holds. At eof the Ruby loop would append `nil` forever; here that is
   * the `Diverges` error.
   */
  function ClauseStatementsAt(ts: seq<Token>, j: nat, inCase: bool): (r: Outcome<seq<Stmt>>)
    requires WellEnded(ts) && j < |ts|
    decreases |ts| - j, 17
    ensures r.Success? ==> j <= r.value.next < |ts| && EndsClause(ts[r.value.next], inCase)
    ensures !EndsClause(ts[j], inCase) && ts[j].kind == Eof ==> r == Failure(Diverges(ts[j]))
  {
    if EndsClause(ts[j], inCase) then Success(Parsed([], j))
    else if ts[j].kind == Eof then Failure(Diverges(ts[j]))
    else
      var stmt :- StatementAt(ts, j);
      var rest :- ClauseStatementsAt(ts, stmt.next, inCase);
      Success(Parsed([stmt.value.value] + rest.value, rest.next))
  }

  /** `parse_return_statement` at `return`: a value unless `EndsReturn` holds of the next token. */
  function ReturnStatementAt(ts: seq<Token>, i: nat): (r: Outcome<Stmt>)
    requires WellEnded(ts) && i < |ts| && IsWord(ts[i], ControlKeyword, "return")
    decreases |ts| - i, 14
    ensures EndsReturn(ts[i + 1]) ==> r == Success(Parsed(Return(None), i + 1))
    ensures r.Success? ==> i < r.value.next < |ts| && r.value.value.Return?
    ensures !EndsReturn(ts[i + 1]) && r.Success? ==> var v := ExpressionAt(ts, i + 1);
      v.Success? && r.value.value == Return(Some(v.value.value))
  {
    if EndsReturn(ts[i + 1]) then Success(Parsed(Return(None), i + 1))
    else
      var value :- ExpressionAt(ts, i + 1);
      Success(Parsed(Return(Some(value.value)), value.next))
  }

  /** An optional `[size]` after a declared name: whether it was there; the size is parsed and dropped. */
  function ArraySuffixAt(ts: seq<Token>, j: nat): (r: Outcome<bool>)
    requires WellEnded(ts) && j < |ts|
    ensures r.Success? ==> j <= r.value.next < |ts|
    ensures r.Success? ==> (r.value.value <==> ts[j].kind == OpenBracket)
    ensures ts[j].kind != OpenBracket ==> r == Success(Parsed(false, j))
    ensures r.Success? && r.value.value ==> j + 2 <= r.value.next && ts[r.value.next - 1].kind == CloseBracket
  {
    if ts[j].kind == OpenBracket then
      var size :- OptionalExpressionAt(ts, j + 1, CloseBracket);
      var close :- Expect(ts, size.next, CloseBracket);
      Success(Parsed(true, close.next))
    else
      Success(Parsed(false, j))
  }

  /** An optional `= value` after a declaration. */
  function InitializerAt(ts: seq<Token>, j: nat): (r: Outcome<Option<Expr>>)
    requires WellEnded(ts) && j < |ts|
    ensures r.Success? ==> j <= r.value.next < |ts|
    ensures !IsWord(ts[j], Operator, "=") ==> r == Success(Parsed(None, j))
    ensures IsWord(ts[j], Operator, "=") && r.Success? ==> var v := ExpressionAt(ts, j + 1);
      v.Success? && r.value == Parsed(Some(v.value.value), v.value.next)
  {
    if IsWord(ts[j], Operator, "=") then
      var value :- ExpressionAt(ts, j + 1);
      Success(Parsed(Some(value.value), value.next))
    else
      Success(Parsed(None, j))
  }

  /**
   * `parse_var_declaration` at a type keyword: a name, an optional `[size]` (the size is
   * dropped and the type gets `[]`), then an optional `= value`.
   */
  function VarDeclarationAt(ts: seq<Token>, i: nat): (r: Outcome<Stmt>)
    requires WellEnded(ts) && i < |ts| && ts[i].kind == TypeKeyword
    decreases |ts| - i, 14
    ensures !IsName(ts[i + 1]) ==> r == Failure(Expected(ts[i + 1]))
    ensures r.Success? ==> i + 2 <= r.value.next < |ts| && r.value.value.VarDecl?
    ensures r.Success? ==>
      && r.value.value.typ == ValueText(ts[i].value) + (if ts[i + 2].kind == OpenBracket then "[]" else "")
      && r.value.value.name == ValueText(ts[i + 1].value)
  {
    var name :- IdentifierNameAt(ts, i + 1);
    var suffix :- ArraySuffixAt(ts, i + 2);
    var init :- InitializerAt(ts, suffix.next);
    Success(Parsed(VarDecl(ValueText(ts[i].value) + (if suffix.value then "[]" else ""), name.value, init.value), init.next))
  }

  /** `parse_block_or_statement`: a block at `{`, else a statement. */
  function BlockOrStatementAt(ts: seq<Token>, i: nat): (r: Outcome<Option<Stmt>>)
    requires WellEnded(ts) && i < |ts|
    decreases |ts| - i, 17
    ensures ts[i].kind == Eof ==> r == Success(Parsed(None, i))
    ensures r.Success? && ts[i].kind != Eof ==>
      r.value.value.Some? && i < r.value.next < |ts| && StartsStatement(ts[i], r.value.value.value)
  {
    if ts[i].kind == OpenBrace then
      var block :- BlockAt(ts, i);
      Success(Parsed(Some(block.value), block.next))
    else
      StatementAt(ts, i)
  }

  /** `parse_expression_statement`: an expression, with nothing after it required. */
  function ExpressionStatementAt(ts: seq<Token>, i: nat): (r: Outcome<Stmt>)
    requires WellEnded(ts) && i < |ts|
    decreases |ts| - i, 14
    ensures r.Success? ==> i < r.value.next < |ts| && r.value.value.ExprStmt?
    ensures r.Success? ==> var e := ExpressionAt(ts, i);
      e.Success? && r.value == Parsed(ExprStmt(e.value.value), e.value.next)
  {
    var e :- ExpressionAt(ts, i);
    Success(Parsed(ExprStmt(e.value), e.next))
  }
}
