/** The syntax tree of the node classes under lib/grongigo/ast as closed datatypes. */
module Ast {
  import opened Wrappers
  import opened Tokens

  datatype Expr =
    | Binary(left: Expr, op: string, right: Expr)
    | Unary(op: string, operand: Expr, prefix: bool)
    | Assign(target: Expr, value: Expr)
    | Call(callee: Expr, args: seq<Expr>)
    | Index(base: Expr, index: Expr)
    | Identifier(name: string)
    | NumberLit(number: TokenValue)
    | StringLit(text: string)
    | CharLit(text: string)

  datatype Param = Param(typ: string, name: string)

  /** The initialiser of a `for` header: a variable declaration or an expression. */
  datatype ForInit =
    | InitVar(typ: string, name: string, init: Option<Expr>)
    | InitExpr(expr: Expr)

  /**
   * A statement. The body of an `if`, `while` or `for` is None where the source parser
   * met eof and stored nil.
   */
  datatype Stmt =
    | Block(stmts: seq<Stmt>)
    | VarDecl(typ: string, name: string, init: Option<Expr>)
    | If(cond: Expr, thenBranch: Option<Stmt>, elseBranch: Option<Stmt>)
    | While(cond: Expr, body: Option<Stmt>)
    | For(forInit: Option<ForInit>, forCond: Option<Expr>, update: Option<Expr>, body: Option<Stmt>)
    | Switch(subject: Expr, cases: seq<CaseClause>, default: Option<DefaultClause>)
    | Return(value: Option<Expr>)
    | Break
    | Continue
    | ExprStmt(expr: Expr)

  datatype CaseClause = CaseClause(value: Expr, stmts: seq<Stmt>)

  datatype DefaultClause = DefaultClause(stmts: seq<Stmt>)

  /** A top-level declaration: a function, or any statement (a variable declaration among them). */
  datatype Decl =
    | FunctionDecl(returnType: string, name: string, params: seq<Param>, body: seq<Stmt>)
    | StmtDecl(stmt: Stmt)

  datatype Program = Program(decls: seq<Decl>)
}
