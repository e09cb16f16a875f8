/**
 * The parser of lib/grongigo/parser.rb: recursive descent over the token sequence with one
 * cursor. A raised `ParseError` is a `Failure` carrying the token at which the parser stopped.
 * Every parsing method is proved to compute its reference function from `Grammar` or
 * `StatementGrammar`: the value, and on success the cursor after the construct.
 */
module Parser {
  import opened Wrappers
  import opened Tokens
  import opened Ast
  import opened Grammar
  import opened StatementGrammar

  class Parser {
    const tokens: seq<Token>
    var pos: nat

    /** The tokens end with eof, and the cursor never passes it. */
    ghost predicate Valid()
      reads this
    {
      WellEnded(tokens) && pos < |tokens|
    }

    constructor(tokens: seq<Token>)
      requires WellEnded(tokens)
      ensures this.tokens == tokens && pos == 0 && Valid()
    {
      this.tokens := tokens;
      pos := 0;
    }

    /** `check`: eof is tested by itself, and nothing else matches at eof; so it is a plain kind test. */
    predicate Check(kind: TokenKind)
      reads this
      requires Valid()
      ensures Check(kind) <==> tokens[pos].kind == kind
    {
      if kind == Eof then tokens[pos].kind == Eof
      else if tokens[pos].kind == Eof then false
      else tokens[pos].kind == kind
    }

    /** `check(kind) && current.value == text`. */
    predicate CheckWord(kind: TokenKind, text: string)
      reads this
      requires Valid()
      ensures CheckWord(kind, text) <==> IsWord(tokens[pos], kind, text)
    {
      Check(kind) && tokens[pos].value == Str(text)
    }

    /** The current token is one of the operators a binary level's loop lists. */
    predicate AtBinaryOp(level: nat)
      reads this
      requires Valid()
      ensures AtBinaryOp(level) <==> AtLevel(tokens[pos], level)
    {
      Check(Operator) && tokens[pos].value.Str? && BinaryLevel(tokens[pos].value.s) == level
    }

    /** `op = advance.value` in a binary level's loop: consumes the operator and returns its text. */
    method TakeBinaryOperator(level: nat) returns (op: string)
      requires Valid() && AtBinaryOp(level)
      modifies this`pos
      ensures Valid() && pos == old(pos) + 1
      ensures op == tokens[old(pos)].value.s
    {
      var previous := Advance();
      op := ValueText(previous.value);
    }

    /** `advance`: step past the current token unless it is eof, and return the token before the cursor. */
    method Advance() returns (previous: Token)
      requires Valid()
      modifies this`pos
      ensures Valid()
      ensures pos == if tokens[old(pos)].kind == Eof then old(pos) else old(pos) + 1
      ensures previous == if pos > 0 then tokens[pos - 1] else tokens[|tokens| - 1]
    {
      if tokens[pos].kind != Eof {
        pos := pos + 1;
      }
      previous := if pos > 0 then tokens[pos - 1] else tokens[|tokens| - 1];
    }

    /** `match(kind)`: advance over a token of that kind. */
    method Match(kind: TokenKind) returns (matched: bool)
      requires Valid()
      modifies this`pos
      ensures Valid()
      ensures matched <==> tokens[old(pos)].kind == kind
      ensures pos == if matched && kind != Eof then old(pos) + 1 else old(pos)
    {
      matched := Check(kind);
      if matched {
        var _ := Advance();
      }
    }

    /** `consume(kind)`: the token of that kind, advancing over it, or an error at the current token. */
    method Consume(kind: TokenKind) returns (r: Result<Token, ParseError>)
      requires Valid() && kind != Eof
      modifies this`pos
      ensures Valid() && Yields(r, pos, Expect(tokens, old(pos), kind))
      ensures r.Failure? ==> pos == old(pos)
    {
      if Check(kind) {
        var previous := Advance();
        return Success(previous);
      }
      return Failure(Expected(tokens[pos]));
    }

    /** `parse`: declarations in order until eof. */
    method Parse() returns (r: Result<Program, ParseError>)
      requires Valid()
      modifies this`pos
      ensures Valid() && Yields(r, pos, ProgramAt(tokens, old(pos)))
    {
      var decls: seq<Decl> := [];
      PrependNothing(DeclarationsAt(tokens, pos));
      while !Check(Eof)
        invariant Valid() && old(pos) <= pos
        invariant DeclarationsAt(tokens, old(pos)) == Prepend(decls, DeclarationsAt(tokens, pos))
        decreases |tokens| - pos
      {
        ghost var j := pos;
        var decl :- ParseDeclaration();
        var front := if decl.Some? then [decl.value] else [];
        assert DeclarationsAt(tokens, j) == Prepend(front, DeclarationsAt(tokens, pos));
        PrependTwice(decls, front, DeclarationsAt(tokens, pos));
        decls := decls + front;
      }
      assert decls + [] == decls;
      return Success(Program(decls));
    }

    /** `parse_declaration`: nothing at eof; a function after `パザ`; a declaration after a type keyword; else a statement. */
    method ParseDeclaration() returns (r: Result<Option<Decl>, ParseError>)
      requires Valid()
      modifies this`pos
      ensures Valid() && Yields(r, pos, DeclarationAt(tokens, old(pos)))
    {
      if Check(Eof) {
        return Success(None);
      }
      if CheckWord(OtherKeyword, "パザ") {
        var decl :- ParseFunctionDeclaration();
        return Success(Some(decl));
      }
      if Check(TypeKeyword) {
        var decl :- ParseVarOrFuncDeclaration();
        return Success(Some(decl));
      }
      var stmt :- ParseStatement();
      return Success(Some(StmtDecl(stmt.value)));
    }

    /** `parse_function_declaration`: `パザ`, a return type, a name, the parameters, then the body. */
    method ParseFunctionDeclaration() returns (r: Result<Decl, ParseError>)
      requires Valid() && CheckWord(OtherKeyword, "パザ")
      modifies this`pos
      ensures Valid() && Yields(r, pos, FunctionDeclarationAt(tokens, old(pos)))
    {
      ghost var start := pos;
      var marker := Advance();
      var returnType := Consume(TypeKeyword);
      ghost var mid := pos;
      if returnType.Failure? {
        r := Failure(returnType.error);
      } else {
        r := ParseFunctionSignature(ValueText(returnType.value.value));
      }
      FunctionDeclarationYields(tokens, start, returnType, mid, r, pos);
    }

    /** `parse_function_declaration` after the return type: the name, then the parameters and the body. */
    method ParseFunctionSignature(returnType: string) returns (r: Result<Decl, ParseError>)
      requires Valid()
      modifies this`pos
      ensures Valid() && Yields(r, pos, FunctionSignatureAt(tokens, old(pos), returnType))
    {
      ghost var start := pos;
      var name := ParseIdentifierName();
      ghost var mid := pos;
      if name.Failure? {
        r := Failure(name.error);
      } else {
        r := ParseFunctionBody(returnType, name.value);
      }
      SignatureYields(tokens, start, returnType, name, mid, r, pos);
    }

    /** The rest of `parse_function_declaration`, from the parameters: the parameters, then the body. */
    method ParseFunctionBody(returnType: string, name: string) returns (r: Result<Decl, ParseError>)
      requires Valid()
      modifies this`pos
      ensures Valid() && Yields(r, pos, FunctionBodyAt(tokens, old(pos), returnType, name))
    {
      var params :- ParseParameters();
      var body :- ParseBlock();
      return Success(FunctionDecl(returnType, name, params, body.stmts));
    }

    /** The three parameter forms of `parse_function_declaration`: in parentheses, a bare `void`, a bare list. */
    method ParseParameters() returns (r: Result<seq<Param>, ParseError>)
      requires Valid()
      modifies this`pos
      ensures Valid() && Yields(r, pos, ParametersAt(tokens, old(pos)))
    {
      var paren := Match(OpenParen);
      if paren {
        var params: seq<Param> := [];
        if !Check(CloseParen) {
          if CheckWord(TypeKeyword, "void") {
            var _ := Advance();
          } else {
            params :- ParseParameterList();
          }
        }
        var close :- Consume(CloseParen);
        return Success(params);
      } else if CheckWord(TypeKeyword, "void") {
        var _ := Advance();
        return Success([]);
      } else if Check(TypeKeyword) {
        r := ParseBareParameters();
      } else {
        return Success([]);
      }
    }

    /** A comma-separated list of typed parameters: each a type keyword and a name. */
    method ParseParameterList() returns (r: Result<seq<Param>, ParseError>)
      requires Valid()
      modifies this`pos
      ensures Valid() && Yields(r, pos, ParameterListAt(tokens, old(pos)))
    {
      var params: seq<Param> := [];
      PrependNothing(ParameterListAt(tokens, pos));
      while true
        invariant Valid() && old(pos) <= pos
        invariant ParameterListAt(tokens, old(pos)) == Prepend(params, ParameterListAt(tokens, pos))
        decreases |tokens| - pos
      {
        ghost var i := pos;
        ParameterListRound(tokens, old(pos), i, params);
        var paramType := Consume(TypeKeyword);
        if paramType.Failure? {
          return Failure(paramType.error);
        }
        assert paramType.value == tokens[i] && pos == i + 1;
        var paramName := ParseIdentifierName();
        if paramName.Failure? {
          return Failure(paramName.error);
        }
        assert paramName.value == ValueText(tokens[i + 1].value) && pos == i + 2;
        var param := Param(ValueText(paramType.value.value), paramName.value);
        var more := Match(Comma);
        if !more {
          assert ParameterListAt(tokens, old(pos)) == Success(Parsed(params + [param], pos));
          return Success(params + [param]);
        }
        assert ParameterListAt(tokens, old(pos)) == Prepend(params + [param], ParameterListAt(tokens, pos));
        params := params + [param];
      }
    }

    /**
     * The bare parameter list: any token is taken as a type, and the list ends where a
     * block starts after a type or where no comma follows a name.
     */
    method ParseBareParameters() returns (r: Result<seq<Param>, ParseError>)
      requires Valid()
      modifies this`pos
      ensures Valid() && Yields(r, pos, BareParamsAt(tokens, old(pos)))
    {
      var params: seq<Param> := [];
      PrependNothing(BareParamsAt(tokens, pos));
      while true
        invariant Valid() && old(pos) <= pos
        invariant BareParamsAt(tokens, old(pos)) == Prepend(params, BareParamsAt(tokens, pos))
        decreases |tokens| - pos
      {
        ghost var j := pos;
        BareParamsRound(tokens, old(pos), j, params);
        var paramType := Advance();
        if Check(OpenBrace) {
          return Success(params);
        }
        var paramName := ParseIdentifierName();
        if paramName.Failure? {
          return Failure(paramName.error);
        }
        var param := Param(ValueText(paramType.value), paramName.value);
        var more := Match(Comma);
        if !more {
          return Success(params + [param]);
        }
        params := params + [param];
      }
    }

    /**
     * `parse_var_or_func_declaration`: after a type and a name, `(` starts a function;
     * otherwise a variable, where any operator is consumed but only `=` brings an initializer.
     */
    method ParseVarOrFuncDeclaration() returns (r: Result<Decl, ParseError>)
      requires Valid() && Check(TypeKeyword)
      modifies this`pos
      ensures Valid() && Yields(r, pos, VarOrFuncAt(tokens, old(pos)))
    {
      ghost var start := pos;
      var typeToken := Advance();
      var name := ParseIdentifierName();
      if name.Failure? {
        return Failure(name.error);
      }
      VarOrFuncRest(tokens, start);
      r := ParseDeclarationRest(ValueText(typeToken.value), name.value);
    }

    /** The rest of `parse_var_or_func_declaration` after the name: `(` starts a function, anything else a variable. */
    method ParseDeclarationRest(typeName: string, name: string) returns (r: Result<Decl, ParseError>)
      requires Valid()
      modifies this`pos
      ensures Valid() && Yields(r, pos, DeclarationRestAt(tokens, old(pos), typeName, name))
    {
      var paren := Match(OpenParen);
      if paren {
        r := ParseFunctionRest(typeName, name);
        return;
      }
      var init :- ParseVariableInit();
      return Success(StmtDecl(VarDecl(typeName, name, init)));
    }

    /** The function branch of `parse_var_or_func_declaration`, after `(`: typed parameters, `)`, the body. */
    method ParseFunctionRest(returnType: string, name: string) returns (r: Result<Decl, ParseError>)
      requires Valid()
      modifies this`pos
      ensures Valid() && Yields(r, pos, FunctionRestAt(tokens, old(pos), returnType, name))
    {
      var params: seq<Param> := [];
      if !Check(CloseParen) {
        params :- ParseParameterList();
      }
      var close :- Consume(CloseParen);
      var body :- ParseBlock();
      return Success(FunctionDecl(returnType, name, params, body.stmts));
    }

    /** `match(:operator) && previous.value == '='` and the initializer after it. */
    method ParseVariableInit() returns (r: Result<Option<Expr>, ParseError>)
      requires Valid()
      modifies this`pos
      ensures Valid() && Yields(r, pos, VariableInitAt(tokens, old(pos)))
    {
      var isOperator := Match(Operator);
      if isOperator && tokens[pos - 1].value == Str("=") {
        var value :- ParseExpression();
        return Success(Some(value));
      }
      return Success(None);
    }

    /** `parse_identifier_name`: an identifier or an other keyword, else an error at that token. */
    method ParseIdentifierName() returns (r: Result<string, ParseError>)
      requires Valid()
      modifies this`pos
      ensures Valid() && Yields(r, pos, IdentifierNameAt(tokens, old(pos)))
    {
      if Check(TokenKind.Identifier) || Check(OtherKeyword) {
        var previous := Advance();
        return Success(ValueText(previous.value));
      }
      return Failure(Expected(tokens[pos]));
    }

    /** `parse_statement`: nothing at eof; otherwise the form the first token selects. */
    method ParseStatement() returns (r: Result<Option<Stmt>, ParseError>)
      requires Valid()
      modifies this`pos
      decreases |tokens| - pos, 16
      ensures Valid() && Yields(r, pos, StatementAt(tokens, old(pos)))
    {
      if Check(Eof) {
        return Success(None);
      }
      if Check(OpenBrace) {
        var block :- ParseBlock();
        return Success(Some(block));
      }
      if CheckWord(ControlKeyword, "if") {
        var stmt :- ParseIfStatement();
        return Success(Some(stmt));
      }
      if CheckWord(ControlKeyword, "while") {
        var stmt :- ParseWhileStatement();
        return Success(Some(stmt));
      }
      if CheckWord(ControlKeyword, "for") {
        var stmt :- ParseForStatement();
        return Success(Some(stmt));
      }
      if CheckWord(ControlKeyword, "switch") {
        var stmt :- ParseSwitchStatement();
        return Success(Some(stmt));
      }
      if CheckWord(ControlKeyword, "return") {
        var stmt :- ParseReturnStatement();
        return Success(Some(stmt));
      }
      if CheckWord(ControlKeyword, "break") {
        var _ := Advance();
        return Success(Some(Break));
      }
      if CheckWord(ControlKeyword, "continue") {
        var _ := Advance();
        return Success(Some(Continue));
      }
      if Check(TypeKeyword) {
        var stmt :- ParseVarDeclaration();
        return Success(Some(stmt));
      }
      var stmt :- ParseExpressionStatement();
      return Success(Some(stmt));
    }

    /** `parse_block`: `{`, statements until `}` or eof, then `}`. */
    method ParseBlock() returns (r: Result<Stmt, ParseError>)
      requires Valid()
      modifies this`pos
      decreases |tokens| - pos, 14
      ensures Valid() && Yields(r, pos, BlockAt(tokens, old(pos)))
    {
      var open :- Consume(OpenBrace);
      var stmts :- ParseBlockItems();
      var close :- Consume(CloseBrace);
      return Success(Block(stmts));
    }

    /** The loop of `parse_block`: statements until `}` or eof. */
    method ParseBlockItems() returns (r: Result<seq<Stmt>, ParseError>)
      requires Valid()
      modifies this`pos
      decreases |tokens| - pos, 17
      ensures Valid() && Yields(r, pos, BlockItemsAt(tokens, old(pos)))
    {
      var stmts: seq<Stmt> := [];
      PrependNothing(BlockItemsAt(tokens, pos));
      while !Check(CloseBrace) && !Check(Eof)
        invariant Valid() && old(pos) <= pos
        invariant BlockItemsAt(tokens, old(pos)) == Prepend(stmts, BlockItemsAt(tokens, pos))
        decreases |tokens| - pos
      {
        var stmt :- ParseStatement();
        PrependTwice(stmts, [stmt.value], BlockItemsAt(tokens, pos));
        stmts := stmts + [stmt.value];
      }
      assert stmts + [] == stmts;
      return Success(stmts);
    }

    /** `parse_if_statement`: a condition, a then branch, then the optional else branch. */
    method ParseIfStatement() returns (r: Result<Stmt, ParseError>)
      requires Valid() && CheckWord(ControlKeyword, "if")
      modifies this`pos
      decreases |tokens| - pos, 14
      ensures Valid() && Yields(r, pos, IfStatementAt(tokens, old(pos)))
    {
      var keyword := Advance();
      var cond :- ParseExpression();
      var thenBranch :- ParseBlockOrStatement();
      var elseBranch :- ParseElseBranch();
      return Success(If(cond, thenBranch, elseBranch));
    }

    /** The optional `else` of an `if`: `else if` nests another `if`; a plain `else` takes a block or a statement. */
    method ParseElseBranch() returns (r: Result<Option<Stmt>, ParseError>)
      requires Valid()
      modifies this`pos
      decreases |tokens| - pos, 13
      ensures Valid() && Yields(r, pos, ElseBranchAt(tokens, old(pos)))
    {
      if !CheckWord(ControlKeyword, "else") {
        return Success(None);
      }
      var _ := Advance();
      if CheckWord(ControlKeyword, "if") {
        var nested :- ParseIfStatement();
        return Success(Some(nested));
      }
      r := ParseBlockOrStatement();
    }

    /** `parse_while_statement`: a condition, then a body. */
    method ParseWhileStatement() returns (r: Result<Stmt, ParseError>)
      requires Valid() && CheckWord(ControlKeyword, "while")
      modifies this`pos
      decreases |tokens| - pos, 14
      ensures Valid() && Yields(r, pos, WhileStatementAt(tokens, old(pos)))
    {
      var keyword := Advance();
      var cond :- ParseExpression();
      var body :- ParseBlockOrStatement();
      return Success(While(cond, body));
    }

    /** `parse_for_statement`: `for (init, cond, update)` with each clause optional, or a bare `for cond`. */
    method ParseForStatement() returns (r: Result<Stmt, ParseError>)
      requires Valid() && CheckWord(ControlKeyword, "for")
      modifies this`pos
      decreases |tokens| - pos, 14
      ensures Valid() && Yields(r, pos, ForStatementAt(tokens, old(pos)))
    {
      var keyword := Advance();
      var header :- ParseForHeader();
      var body :- ParseBlockOrStatement();
      return Success(For(header.0, header.1, header.2, body));
    }

    /** The `for` header: `(init, cond, update)` after `(`, otherwise only a condition. */
    method ParseForHeader() returns (r: Result<(Option<ForInit>, Option<Expr>, Option<Expr>), ParseError>)
      requires Valid()
      modifies this`pos
      decreases |tokens| - pos, 13
      ensures Valid() && Yields(r, pos, ForHeaderAt(tokens, old(pos)))
    {
      var paren := Match(OpenParen);
      if paren {
        r := ParseForClauses();
        return;
      }
      var cond :- ParseExpression();
      return Success((None, Some(cond), None));
    }

    /** The parenthesised header of a `for`, after `(`: init, cond and update, each optional, and `)`. */
    method ParseForClauses() returns (r: Result<(Option<ForInit>, Option<Expr>, Option<Expr>), ParseError>)
      requires Valid()
      modifies this`pos
      decreases |tokens| - pos, 16
      ensures Valid() && Yields(r, pos, ForClausesAt(tokens, old(pos)))
    {
      var init: Option<ForInit> := None;
      if !Check(Comma) {
        var first :- ParseForInit();
        init := Some(first);
      }
      var tail :- ParseForTail();
      return Success((init, tail.0, tail.1));
    }

    /** The rest of a `for` header from its first comma: `, cond , update )`. */
    method ParseForTail() returns (r: Result<(Option<Expr>, Option<Expr>), ParseError>)
      requires Valid()
      modifies this`pos
      decreases |tokens| - pos, 14
      ensures Valid() && Yields(r, pos, ForTailAt(tokens, old(pos)))
    {
      var comma1 :- Consume(Comma);
      var cond :- ParseOptionalExpression(Comma);
      var comma2 :- Consume(Comma);
      var update :- ParseOptionalExpression(CloseParen);
      var close :- Consume(CloseParen);
      return Success((cond, update));
    }

    /** An expression unless the token that ends it comes first (`parse_expression unless check(end)`). */
    method ParseOptionalExpression(end: TokenKind) returns (r: Result<Option<Expr>, ParseError>)
      requires Valid() && end != Eof
      modifies this`pos
      decreases |tokens| - pos, 13
      ensures Valid() && Yields(r, pos, OptionalExpressionAt(tokens, old(pos), end))
    {
      if Check(end) {
        return Success(None);
      }
      var e :- ParseExpression();
      return Success(Some(e));
    }

    /** `parse_for_init`: a variable declaration after a type keyword, else an expression. */
    method ParseForInit() returns (r: Result<ForInit, ParseError>)
      requires Valid()
      modifies this`pos
      decreases |tokens| - pos, 15
      ensures Valid() && Yields(r, pos, ForInitAt(tokens, old(pos)))
    {
      if Check(TypeKeyword) {
        var decl :- ParseVarDeclaration();
        return Success(InitVar(decl.typ, decl.name, decl.init));
      }
      var expr :- ParseExpression();
      return Success(InitExpr(expr));
    }

    /**
     * `parse_switch_statement`: a subject, `{`, then `case v:` and `default:` clauses until `}`.
     * `items` records the clauses in order; a later `default` replaces an earlier one.
     */
    method ParseSwitchStatement() returns (r: Result<Stmt, ParseError>)
      requires Valid() && CheckWord(ControlKeyword, "switch")
      modifies this`pos
      decreases |tokens| - pos, 14
      ensures Valid() && Yields(r, pos, SwitchStatementAt(tokens, old(pos)))
    {
      var keyword := Advance();
      var subject :- ParseExpression();
      var open :- Consume(OpenBrace);
      var body :- ParseSwitchBody();
      var close :- Consume(CloseBrace);
      return Success(Switch(subject, body.0, body.1));
    }

    /** The clause loop of `parse_switch_statement`: `case` clauses collected in order, a `default` clause kept (the last wins). */
    method ParseSwitchBody() returns (r: Result<(seq<CaseClause>, Option<DefaultClause>), ParseError>)
      requires Valid()
      modifies this`pos
      decreases |tokens| - pos, 17
      ensures Valid() && Yields(r, pos, SwitchBodyAt(tokens, old(pos)))
    {
      var cases: seq<CaseClause> := [];
      var defaultCase: Option<DefaultClause> := None;
      ghost var items: seq<SwitchItem> := [];
      PrependNothing(SwitchClausesAt(tokens, pos));
      while !Check(CloseBrace) && !Check(Eof)
        invariant Valid() && old(pos) <= pos
        invariant SwitchClausesAt(tokens, old(pos)) == Prepend(items, SwitchClausesAt(tokens, pos))
        invariant cases == CasesOf(items) && defaultCase == LastDefault(items)
        decreases |tokens| - pos
      {
        if !CheckWord(ControlKeyword, "case") && !CheckWord(ControlKeyword, "default") {
          break;
        }
        ghost var j := pos;
        var item := ParseSwitchItem();
        if item.Failure? {
          SwitchBodyFrom(tokens, old(pos), j, items);
          return Failure(item.error);
        }
        PrependTwice(items, [item.value], SwitchClausesAt(tokens, pos));
        SwitchItemsAppend(items, item.value);
        match item.value {
          case CaseItem(clause) => cases := cases + [clause];
          case DefaultItem(clause) => defaultCase := Some(clause);
        }
        items := items + [item.value];
      }
      SwitchBodyFrom(tokens, old(pos), pos, items);
      return Success((cases, defaultCase));
    }

    /** One round of the clause loop of `parse_switch_statement`: a `case` or a `default` clause. */
    method ParseSwitchItem() returns (r: Result<SwitchItem, ParseError>)
      requires Valid() && (CheckWord(ControlKeyword, "case") || CheckWord(ControlKeyword, "default"))
      modifies this`pos
      decreases |tokens| - pos, 14
      ensures Valid() && (r.Success? ==> old(pos) < pos)
      ensures SwitchClausesAt(tokens, old(pos)) ==
        if r.Failure? then Failure(r.error) else Prepend([r.value], SwitchClausesAt(tokens, pos))
    {
      SwitchClausesStep(tokens, pos);
      if CheckWord(ControlKeyword, "case") {
        var clause :- ParseCaseClause();
        return Success(CaseItem(clause));
      }
      var clause :- ParseDefaultClause();
      return Success(DefaultItem(clause));
    }

    /** `case value:` and the statements after it. */
    method ParseCaseClause() returns (r: Result<CaseClause, ParseError>)
      requires Valid() && CheckWord(ControlKeyword, "case")
      modifies this`pos
      decreases |tokens| - pos, 13
      ensures Valid() && Yields(r, pos, CaseClauseAt(tokens, old(pos)))
    {
      var _ := Advance();
      var value :- ParseExpression();
      var colon :- Consume(Colon);
      var stmts :- ParseClauseStatements(true);
      return Success(CaseClause(value, stmts));
    }

    /** `default:` and the statements after it. */
    method ParseDefaultClause() returns (r: Result<DefaultClause, ParseError>)
      requires Valid() && CheckWord(ControlKeyword, "default")
      modifies this`pos
      decreases |tokens| - pos, 13
      ensures Valid() && Yields(r, pos, DefaultClauseAt(tokens, old(pos)))
    {
      var _ := Advance();
      var colon :- Consume(Colon);
      var stmts :- ParseClauseStatements(false);
      return Success(DefaultClause(stmts));
    }

    /**
     * The statements of one `case` (when `inCase`) or of the `default` clause: up to the next
     * `case`, the next `default` (only after a `case`) or `}`; eof first is the `Diverges` error.
     */
    method ParseClauseStatements(inCase: bool) returns (r: Result<seq<Stmt>, ParseError>)
      requires Valid()
      modifies this`pos
      decreases |tokens| - pos, 17
      ensures Valid() && Yields(r, pos, ClauseStatementsAt(tokens, old(pos), inCase))
    {
      var stmts: seq<Stmt> := [];
      PrependNothing(ClauseStatementsAt(tokens, pos, inCase));
      while !(CheckWord(ControlKeyword, "case") || (inCase && CheckWord(ControlKeyword, "default"))) && !Check(CloseBrace)
        invariant Valid() && old(pos) <= pos
        invariant ClauseStatementsAt(tokens, old(pos), inCase) == Prepend(stmts, ClauseStatementsAt(tokens, pos, inCase))
        decreases |tokens| - pos
      {
        if Check(Eof) {
          return Failure(Diverges(tokens[pos]));
        }
        var stmt :- ParseStatement();
        PrependTwice(stmts, [stmt.value], ClauseStatementsAt(tokens, pos, inCase));
        stmts := stmts + [stmt.value];
      }
      assert stmts + [] == stmts;
      return Success(stmts);
    }

    /** `parse_return_statement`: a value unless `}`, eof, a control keyword or a type keyword follows. */
    method ParseReturnStatement() returns (r: Result<Stmt, ParseError>)
      requires Valid() && CheckWord(ControlKeyword, "return")
      modifies this`pos
      decreases |tokens| - pos, 14
      ensures Valid() && Yields(r, pos, ReturnStatementAt(tokens, old(pos)))
    {
      var keyword := Advance();
      if Check(CloseBrace) || Check(Eof) || Check(ControlKeyword) || Check(TypeKeyword) {
        return Success(Return(None));
      }
      var value :- ParseExpression();
      return Success(Return(Some(value)));
    }

    /** `parse_var_declaration`: a type, a name, an optional `[size]` (size dropped, type + "[]"), an optional `= init`. */
    method ParseVarDeclaration() returns (r: Result<Stmt, ParseError>)
      requires Valid() && Check(TypeKeyword)
      modifies this`pos
      decreases |tokens| - pos, 14
      ensures Valid() && Yields(r, pos, VarDeclarationAt(tokens, old(pos)))
    {
      var typeToken := Advance();
      var name :- ParseIdentifierName();
      var isArray :- ParseArraySuffix();
      var init :- ParseInitializer();
      var typ := ValueText(typeToken.value) + (if isArray then "[]" else "");
      return Success(VarDecl(typ, name, init));
    }

    /** The `if match(:open_bracket)` part of `parse_var_declaration`: whether `[size]` follows the name. */
    method ParseArraySuffix() returns (r: Result<bool, ParseError>)
      requires Valid()
      modifies this`pos
      decreases |tokens| - pos, 13
      ensures Valid() && Yields(r, pos, ArraySuffixAt(tokens, old(pos)))
    {
      var isArray := Match(OpenBracket);
      if isArray {
        var size :- ParseOptionalExpression(CloseBracket);
        var close :- Consume(CloseBracket);
      }
      return Success(isArray);
    }

    /** The optional `= value` at the end of `parse_var_declaration`. */
    method ParseInitializer() returns (r: Result<Option<Expr>, ParseError>)
      requires Valid()
      modifies this`pos
      decreases |tokens| - pos, 13
      ensures Valid() && Yields(r, pos, InitializerAt(tokens, old(pos)))
    {
      if CheckWord(Operator, "=") {
        var _ := Advance();
        var value :- ParseExpression();
        return Success(Some(value));
      }
      return Success(None);
    }

    /** `parse_block_or_statement`. */
    method ParseBlockOrStatement() returns (r: Result<Option<Stmt>, ParseError>)
      requires Valid()
      modifies this`pos
      decreases |tokens| - pos, 17
      ensures Valid() && Yields(r, pos, BlockOrStatementAt(tokens, old(pos)))
    {
      if Check(OpenBrace) {
        var block :- ParseBlock();
        return Success(Some(block));
      }
      r := ParseStatement();
    }

    /** `parse_expression_statement`. */
    method ParseExpressionStatement() returns (r: Result<Stmt, ParseError>)
      requires Valid()
      modifies this`pos
      decreases |tokens| - pos, 14
      ensures Valid() && Yields(r, pos, ExpressionStatementAt(tokens, old(pos)))
    {
      var expr :- ParseExpression();
      return Success(ExprStmt(expr));
    }

    /** `parse_expression`, which is `parse_assignment`. */
    method ParseExpression() returns (r: Result<Expr, ParseError>)
      requires Valid()
      modifies this`pos
      decreases |tokens| - pos, 12
      ensures Valid() && Yields(r, pos, ExpressionAt(tokens, old(pos)))
    {
      r := ParseAssignment();
    }

    /** `parse_assignment`: an or-expression, then optionally `=` and another assignment. */
    method ParseAssignment() returns (r: Result<Expr, ParseError>)
      requires Valid()
      modifies this`pos
      decreases |tokens| - pos, 11
      ensures Valid() && Yields(r, pos, AssignmentAt(tokens, old(pos)))
    {
      var expr :- ParseOr();
      if CheckWord(Operator, "=") {
        var _ := Advance();
        var value :- ParseAssignment();
        return Success(Assign(expr, value));
      }
      return Success(expr);
    }

    /** `parse_or`: and-expressions joined by `||`. */
    method ParseOr() returns (r: Result<Expr, ParseError>)
      requires Valid()
      modifies this`pos
      decreases |tokens| - pos, 10
      ensures Valid() && Yields(r, pos, LevelAt(tokens, old(pos), 1))
    {
      var expr :- ParseAnd();
      r := ParseBinaryLoop(1, expr);
    }

    /** `parse_and`: equality expressions joined by `&&`. */
    method ParseAnd() returns (r: Result<Expr, ParseError>)
      requires Valid()
      modifies this`pos
      decreases |tokens| - pos, 9
      ensures Valid() && Yields(r, pos, LevelAt(tokens, old(pos), 2))
    {
      var expr :- ParseEquality();
      r := ParseBinaryLoop(2, expr);
    }

    /** `parse_equality`: comparisons joined by `==` and `!=`. */
    method ParseEquality() returns (r: Result<Expr, ParseError>)
      requires Valid()
      modifies this`pos
      decreases |tokens| - pos, 8
      ensures Valid() && Yields(r, pos, LevelAt(tokens, old(pos), 3))
    {
      var expr :- ParseComparison();
      r := ParseBinaryLoop(3, expr);
    }

    /** `parse_comparison`: terms joined by `<`, `>`, `<=`, `>=`. */
    method ParseComparison() returns (r: Result<Expr, ParseError>)
      requires Valid()
      modifies this`pos
      decreases |tokens| - pos, 7
      ensures Valid() && Yields(r, pos, LevelAt(tokens, old(pos), 4))
    {
      var expr :- ParseTerm();
      r := ParseBinaryLoop(4, expr);
    }

    /** `parse_term`: factors joined by `+` and `-`. */
    method ParseTerm() returns (r: Result<Expr, ParseError>)
      requires Valid()
      modifies this`pos
      decreases |tokens| - pos, 6
      ensures Valid() && Yields(r, pos, LevelAt(tokens, old(pos), 5))
    {
      var expr :- ParseFactor();
      r := ParseBinaryLoop(5, expr);
    }

    /** `parse_factor`: unary expressions joined by `*`, `/`, `%`. */
    method ParseFactor() returns (r: Result<Expr, ParseError>)
      requires Valid()
      modifies this`pos
      decreases |tokens| - pos, 5
      ensures Valid() && Yields(r, pos, LevelAt(tokens, old(pos), 6))
    {
      var expr :- ParseUnary();
      r := ParseBinaryLoop(6, expr);
    }

    /**
     * The `while` loop shared by the six binary levels: while the current token is an operator
     * of level `k`, consume it and the operand after it, and make `left op right` the new left.
     */
    method ParseBinaryLoop(k: nat, left: Expr) returns (r: Result<Expr, ParseError>)
      requires Valid() && 1 <= k <= 6 && !BinaryFrom(tokens[pos], k + 1)
      modifies this`pos
      decreases |tokens| - pos, 3
      ensures Valid() && Yields(r, pos, LevelLoop(tokens, k, left, old(pos)))
    {
      var expr := left;
      while AtBinaryOp(k)
        invariant Valid() && old(pos) <= pos && !BinaryFrom(tokens[pos], k + 1)
        invariant LevelLoop(tokens, k, left, old(pos)) == LevelLoop(tokens, k, expr, pos)
        decreases |tokens| - pos
      {
        var op := TakeBinaryOperator(k);
        var right :- ParseOperand(k);
        expr := Binary(expr, op, right);
      }
      return Success(expr);
    }

    /** The operand of a level-`k` operator: the next tighter level, or a unary expression after `*`, `/`, `%`. */
    method ParseOperand(k: nat) returns (r: Result<Expr, ParseError>)
      requires Valid() && 1 <= k <= 6
      modifies this`pos
      decreases |tokens| - pos, 10
      ensures Valid() && Yields(r, pos, if k == 6 then UnaryAt(tokens, old(pos)) else LevelAt(tokens, old(pos), k + 1))
    {
      if k == 1 {
        r := ParseAnd();
      } else if k == 2 {
        r := ParseEquality();
      } else if k == 3 {
        r := ParseComparison();
      } else if k == 4 {
        r := ParseTerm();
      } else if k == 5 {
        r := ParseFactor();
      } else {
        r := ParseUnary();
      }
    }

    /** `parse_unary`: prefix `!`, `-`, `++`, `--` applied to another unary expression. */
    method ParseUnary() returns (r: Result<Expr, ParseError>)
      requires Valid()
      modifies this`pos
      decreases |tokens| - pos, 4
      ensures Valid() && Yields(r, pos, UnaryAt(tokens, old(pos)))
    {
      if CheckWord(Operator, "!") || CheckWord(Operator, "-") || CheckWord(Operator, "++") || CheckWord(Operator, "--") {
        var op := Advance();
        var operand :- ParseUnary();
        return Success(Unary(ValueText(op.value), operand, true));
      }
      r := ParsePostfix();
    }

    /** `parse_postfix`: a primary followed by calls, index operations and postfix `++`/`--`, left to right. */
    method ParsePostfix() returns (r: Result<Expr, ParseError>)
      requires Valid()
      modifies this`pos
      decreases |tokens| - pos, 3
      ensures Valid() && Yields(r, pos, PostfixAt(tokens, old(pos)))
    {
      var expr :- ParsePrimary();
      while true
        invariant Valid() && PostfixAt(tokens, old(pos)) == PostfixLoop(tokens, expr, pos)
        decreases |tokens| - pos
      {
        var next :- ParsePostfixOperator(expr);
        match next
        case None => return Success(expr);
        case Some(e) => expr := e;
      }
    }

    /** One round of the postfix loop: a call, an index or `++`/`--` applied to `expr`, or `None` when none follows. */
    method ParsePostfixOperator(expr: Expr) returns (r: Result<Option<Expr>, ParseError>)
      requires Valid()
      modifies this`pos
      decreases |tokens| - pos, 2
      ensures Valid() && Yields(r, pos, PostfixStep(tokens, expr, old(pos)))
    {
      if Check(OpenParen) {
        var call :- ParseCallSuffix(expr);
        return Success(Some(call));
      }
      if Check(OpenBracket) {
        var index :- ParseIndexSuffix(expr);
        return Success(Some(index));
      }
      if CheckWord(Operator, "++") || CheckWord(Operator, "--") {
        var op := Advance();
        return Success(Some(Unary(ValueText(op.value), expr, false)));
      }
      return Success(None);
    }

    /** `( arguments )` after `expr`: a call. */
    method ParseCallSuffix(expr: Expr) returns (r: Result<Expr, ParseError>)
      requires Valid() && Check(OpenParen)
      modifies this`pos
      decreases |tokens| - pos, 1
      ensures Valid() && Yields(r, pos, CallSuffixAt(tokens, expr, old(pos)))
    {
      var _ := Advance();
      var args: seq<Expr> := [];
      if !Check(CloseParen) {
        args :- ParseArguments();
      }
      var close :- Consume(CloseParen);
      return Success(Call(expr, args));
    }

    /** `[ expression ]` after `expr`: an index operation. */
    method ParseIndexSuffix(expr: Expr) returns (r: Result<Expr, ParseError>)
      requires Valid() && Check(OpenBracket)
      modifies this`pos
      decreases |tokens| - pos, 1
      ensures Valid() && Yields(r, pos, IndexSuffixAt(tokens, expr, old(pos)))
    {
      var _ := Advance();
      var index :- ParseExpression();
      var close :- Consume(CloseBracket);
      return Success(Index(expr, index));
    }

    /** The comma-separated arguments of a call. */
    method ParseArguments() returns (r: Result<seq<Expr>, ParseError>)
      requires Valid()
      modifies this`pos
      decreases |tokens| - pos, 13
      ensures Valid() && Yields(r, pos, ArgumentsAt(tokens, old(pos)))
    {
      var args: seq<Expr> := [];
      PrependNothing(ArgumentsAt(tokens, pos));
      while true
        invariant Valid() && old(pos) <= pos
        invariant ArgumentsAt(tokens, old(pos)) == Prepend(args, ArgumentsAt(tokens, pos))
        decreases |tokens| - pos
      {
        var arg :- ParseExpression();
        var more := Match(Comma);
        if !more {
          return Success(args + [arg]);
        }
        PrependTwice(args, [arg], ArgumentsAt(tokens, pos));
        args := args + [arg];
      }
    }

    /** `parse_primary`: a literal, a name (identifier, other keyword or control keyword), or `( expression )`. */
    method ParsePrimary() returns (r: Result<Expr, ParseError>)
      requires Valid()
      modifies this`pos
      decreases |tokens| - pos, 2
      ensures Valid() && Yields(r, pos, PrimaryAt(tokens, old(pos)))
    {
      ghost var i := pos;
      PrimaryGroupOrFailure(tokens, i);
      if Check(Number) {
        var _ := Advance();
        return Success(NumberLit(tokens[pos - 1].value));
      }
      assert pos == i;
      var isString := Match(StringLiteral);
      if isString {
        return Success(StringLit(ValueText(tokens[pos - 1].value)));
      }
      assert pos == i;
      var isChar := Match(CharLiteral);
      if isChar {
        return Success(CharLit(ValueText(tokens[pos - 1].value)));
      }
      assert pos == i;
      var isName := Match(TokenKind.Identifier);
      if isName {
        return Success(Expr.Identifier(ValueText(tokens[pos - 1].value)));
      }
      assert pos == i;
      var isKeyword := Match(OtherKeyword);
      if isKeyword {
        return Success(Expr.Identifier(ValueText(tokens[pos - 1].value)));
      }
      assert pos == i;
      var isControl := Match(ControlKeyword);
      if isControl {
        return Success(Expr.Identifier(ValueText(tokens[pos - 1].value)));
      }
      assert pos == i;
      var isGroup := Match(OpenParen);
      if isGroup {
        r := ParseGroup();
        return;
      }
      return Failure(Expected(tokens[pos]));
    }

    /** The `(` branch of `parse_primary`, after the `(`: an expression, then `)`. */
    method ParseGroup() returns (r: Result<Expr, ParseError>)
      requires Valid()
      modifies this`pos
      decreases |tokens| - pos, 14
      ensures Valid() && Yields(r, pos, GroupAt(tokens, old(pos)))
    {
      var expr :- ParseExpression();
      var close :- Consume(CloseParen);
      return Success(expr);
    }
  }
}
