/**
 * The lines lib/grongigo/codegen.rb emits for each declaration and statement, as functions of
 * the tree and the indentation level, and the properties of that layout: every line is
 * indented at least to its statement's level, and braces are well bracketed.
 *
 * A statement whose `if`, `while` or `for` body is missing (the parser stores nil when it
 * meets eof there) makes the source raise; `Complete` says that no body is missing.
 */
module CodeLines {
  import opened Wrappers
  import opened Text
  import opened Ast
  import opened CodeText

  // ---------------------------------------------------------------------------------------
  // Which trees the generator accepts

  predicate Complete(s: Stmt) {
    match s
    case Block(ss) => AllComplete(ss)
    case If(_, t, e) => t.Some? && Complete(t.value) && (e.Some? ==> Complete(e.value))
    case While(_, b) => b.Some? && Complete(b.value)
    case For(_, _, _, b) => b.Some? && Complete(b.value)
    case Switch(_, cases, d) => CasesComplete(cases) && (d.Some? ==> AllComplete(d.value.stmts))
    case _ => true
  }

  predicate AllComplete(ss: seq<Stmt>) {
    forall i :: 0 <= i < |ss| ==> Complete(ss[i])
  }

  predicate CasesComplete(cases: seq<CaseClause>) {
    forall i :: 0 <= i < |cases| ==> AllComplete(cases[i].stmts)
  }

  predicate DeclComplete(d: Decl) {
    match d
    case FunctionDecl(_, _, _, body) => AllComplete(body)
    case StmtDecl(s) => Complete(s)
  }

  predicate ProgramComplete(p: Program) {
    forall i :: 0 <= i < |p.decls| ==> DeclComplete(p.decls[i])
  }

  // ---------------------------------------------------------------------------------------
  // Line texts

  /**
   * `generate_var_decl`: an array type `T[]` is written as `T name[]`; the line always ends
   * in `;`.
   */
  function VarDeclText(typ: string, name: string, init: Option<Expr>): (r: string)
    ensures |r| > 0 && r[|r| - 1] == ';'
    ensures EndsWith(typ, "[]") ==> StartsWith(r, typ[..|typ| - 2] + " " + SanitizeName(name) + "[]")
    ensures !EndsWith(typ, "[]") ==> StartsWith(r, typ + " " + SanitizeName(name))
  {
    var n := SanitizeName(name);
    var tail := if init.Some? then " = " + GenerateExpr(init.value) + ";" else ";";
    assert tail[|tail| - 1] == ';';
    if EndsWith(typ, "[]") then typ[..|typ| - 2] + " " + n + "[]" + tail
    else typ + " " + n + tail
  }

  /**
   * `generate_for_init`: a declaration is written as its declaration line without the `;`,
   * except that the array rule of `generate_var_decl` is not applied.
   */
  function ForInitText(init: ForInit): (r: string)
    ensures init.InitVar? ==> StartsWith(r, init.typ + " " + SanitizeName(init.name))
    ensures init.InitVar? ==>
      (r + ";" == VarDeclText(init.typ, init.name, init.init) <==> !EndsWith(init.typ, "[]"))
  {
    match init
    case InitVar(typ, name, value) =>
      var text := typ + " " + SanitizeName(name) + (if value.Some? then " = " + GenerateExpr(value.value) else "");
      assert EndsWith(typ, "[]") ==>
        (text + ";")[|typ| - 2] == '[' && VarDeclText(typ, name, value)[|typ| - 2] == ' ';
      text
    case InitExpr(e) => GenerateExpr(e)
  }

  function OptionalExprText(e: Option<Expr>): string {
    if e.Some? then GenerateExpr(e.value) else ""
  }

  /** The header of `generate_for`; a missing clause is empty. */
  function ForHeader(init: Option<ForInit>, cond: Option<Expr>, update: Option<Expr>): string {
    var i := if init.Some? then ForInitText(init.value) else "";
    "for (" + i + "; " + OptionalExprText(cond) + "; " + OptionalExprText(update) + ")"
  }

  function ParamText(p: Param): string {
    p.typ + " " + SanitizeName(p.name)
  }

  /**
   * The parameter list of `generate_function`: the parameters joined by `, `, and `void` for a
   * parameterless `main` only.
   */
  function ParamsText(name: string, params: seq<Param>): (r: string)
    ensures r == "void" <==> params == [] && name == "main"
    ensures params == [] && name != "main" ==> r == ""
    ensures params != [] ==> StartsWith(r, ParamText(params[0]))
  {
    var texts := seq(|params|, i requires 0 <= i < |params| => ParamText(params[i]));
    var listed := Join(texts, ", ");
    if params == [] && name == "main" then "void"
    else if params == [] then listed
    else
      assert texts[0] == ParamText(params[0]);
      assert listed[..|texts[0]|] == texts[0];
      assert listed[|params[0].typ|] == ' ';
      listed
  }

  /** The header line of `generate_function`: `(void)` closes it exactly for a parameterless `main`. */
  function FunctionHeader(returnType: string, name: string, params: seq<Param>): (r: string)
    ensures StartsWith(r, returnType + " " + SanitizeName(name) + "(") && r[|r| - 1] == ')'
    ensures params == [] ==> (EndsWith(r, "(void)") <==> name == "main")
  {
    var r := returnType + " " + SanitizeName(name) + "(" + ParamsText(name, params) + ")";
    assert params == [] && name != "main" ==> r[|r| - 2] == '(';
    r
  }

  // ---------------------------------------------------------------------------------------
  // Statement lines

  function StmtLines(s: Stmt, level: nat): seq<string>
    requires Complete(s)
    decreases s, 1
  {
    match s
    case Block(ss) => BlockLines(ss, level)
    case VarDecl(typ, name, init) => [Pad(level) + VarDeclText(typ, name, init)]
    case If(c, t, e) => [Pad(level) + ("if (" + GenerateExpr(c) + ")")] + BodyLines(t.value, level) + ElseLines(e, level)
    case While(c, b) => [Pad(level) + ("while (" + GenerateExpr(c) + ")")] + BodyLines(b.value, level)
    case For(i, c, u, b) => [Pad(level) + ForHeader(i, c, u)] + BodyLines(b.value, level)
    case Switch(x, cases, d) =>
      [Pad(level) + ("switch (" + GenerateExpr(x) + ")"), Pad(level) + "{"]
        + CasesLines(cases, level) + DefaultLines(d, level) + [Pad(level) + "}"]
    case Return(v) => [Pad(level) + (if v.Some? then "return " + GenerateExpr(v.value) + ";" else "return;")]
    case Break => [Pad(level) + "break;"]
    case Continue => [Pad(level) + "continue;"]
    case ExprStmt(e) => [Pad(level) + (GenerateExpr(e) + ";")]
  }

  /** A body: a block at the statement's level, any other statement one level deeper. */
  function BodyLines(b: Stmt, level: nat): seq<string>
    requires Complete(b)
    decreases b, 2
  {
    if b.Block? then BlockLines(b.stmts, level) else StmtLines(b, level + 1)
  }

  /** The else part: `else if (c)` on one line for a nested `if`, otherwise `else` and a body. */
  function ElseLines(e: Option<Stmt>, level: nat): seq<string>
    requires e.Some? ==> Complete(e.value)
    decreases e, 0
  {
    match e
    case None => []
    case Some(x) =>
      if x.If? then
        [Pad(level) + ("else if (" + GenerateExpr(x.cond) + ")")]
          + BodyLines(x.thenBranch.value, level) + ElseLines(x.elseBranch, level)
      else [Pad(level) + "else"] + BodyLines(x, level)
  }

  function BlockLines(ss: seq<Stmt>, level: nat): seq<string>
    requires AllComplete(ss)
    decreases ss, 1
  {
    [Pad(level) + "{"] + StmtsLines(ss, level + 1) + [Pad(level) + "}"]
  }

  function StmtsLines(ss: seq<Stmt>, level: nat): seq<string>
    requires AllComplete(ss)
    decreases ss, 0
  {
    if |ss| == 0 then [] else StmtsLines(ss[..|ss| - 1], level) + StmtLines(ss[|ss| - 1], level)
  }

  /** Each `case v:` one level out from its statements. */
  function CasesLines(cases: seq<CaseClause>, level: nat): seq<string>
    requires CasesComplete(cases)
    decreases cases
  {
    if |cases| == 0 then []
    else
      var c := cases[|cases| - 1];
      CasesLines(cases[..|cases| - 1], level)
        + [Pad(level) + ("case " + GenerateExpr(c.value) + ":")] + StmtsLines(c.stmts, level + 1)
  }

  function DefaultLines(d: Option<DefaultClause>, level: nat): seq<string>
    requires d.Some? ==> AllComplete(d.value.stmts)
  {
    if d.Some? then [Pad(level) + "default:"] + StmtsLines(d.value.stmts, level + 1) else []
  }

  // ---------------------------------------------------------------------------------------
  // Declarations and the program

  function DeclLines(d: Decl, level: nat): seq<string>
    requires DeclComplete(d)
  {
    match d
    case FunctionDecl(rt, name, params, body) => [Pad(level) + FunctionHeader(rt, name, params)] + BlockLines(body, level)
    case StmtDecl(s) => StmtLines(s, level)
  }

  /** Each declaration followed by an empty line. */
  function DeclsLines(ds: seq<Decl>, level: nat): seq<string>
    requires forall i :: 0 <= i < |ds| ==> DeclComplete(ds[i])
  {
    if |ds| == 0 then []
    else DeclsLines(ds[..|ds| - 1], level) + DeclLines(ds[|ds| - 1], level) + [Pad(level)]
  }

  function Preamble(level: nat): seq<string> {
    [Pad(level) + "#include <stdio.h>", Pad(level) + "#include <stdlib.h>", Pad(level) + "#include <string.h>", Pad(level)]
  }

  function ProgramLines(p: Program, level: nat): seq<string>
    requires ProgramComplete(p)
  {
    Preamble(level) + DeclsLines(p.decls, level)
  }

  // ---------------------------------------------------------------------------------------
  // Indentation

  /** Every line starts with the padding of `level`. */
  predicate IndentedAt(lines: seq<string>, level: nat) {
    forall i :: 0 <= i < |lines| ==> StartsWith(lines[i], Pad(level))
  }

  lemma PadGrows(level: nat)
    ensures StartsWith(Pad(level + 1), Pad(level))
  {
  }

  lemma StartsWithTrans(a: string, b: string, c: string)
    requires StartsWith(a, b) && StartsWith(b, c)
    ensures StartsWith(a, c)
  {
    assert a[..|c|] == a[..|b|][..|c|];
  }

  lemma PadPrefix(level: nat, rest: string)
    ensures StartsWith(Pad(level) + rest, Pad(level))
  {
    assert (Pad(level) + rest)[..|Pad(level)|] == Pad(level);
  }

  lemma IndentedDeeper(lines: seq<string>, level: nat)
    requires IndentedAt(lines, level + 1)
    ensures IndentedAt(lines, level)
  {
    PadGrows(level);
    forall i | 0 <= i < |lines|
      ensures StartsWith(lines[i], Pad(level))
    {
      StartsWithTrans(lines[i], Pad(level + 1), Pad(level));
    }
  }

  lemma {:induction false} StmtLinesIndented(s: Stmt, level: nat)
    requires Complete(s)
    ensures IndentedAt(StmtLines(s, level), level)
    decreases s, 1
  {
    match s {
      case Block(ss) => BlockLinesIndented(ss, level);
      case If(_, _, _) => IfLinesIndented(s, level);
      case While(_, _) => LoopLinesIndented(s, level);
      case For(_, _, _, _) => LoopLinesIndented(s, level);
      case Switch(_, _, _) => SwitchLinesIndented(s, level);
      case _ => SimpleLineIndented(s, level);
    }
  }

  /** The statements emitted as a single line. */
  predicate IsSimple(s: Stmt) {
    s.VarDecl? || s.Return? || s.Break? || s.Continue? || s.ExprStmt?
  }

  lemma SimpleLineIndented(s: Stmt, level: nat)
    requires IsSimple(s)
    ensures IndentedAt(StmtLines(s, level), level)
  {
    var line := StmtLines(s, level)[0];
    assert StmtLines(s, level) == [line];
    PadPrefix(level, line[|Pad(level)|..]);
    assert line == Pad(level) + line[|Pad(level)|..];
  }

  lemma {:induction false} IfLinesIndented(s: Stmt, level: nat)
    requires s.If? && Complete(s)
    ensures IndentedAt(StmtLines(s, level), level)
    decreases s, 0
  {
    PadPrefix(level, "if (" + GenerateExpr(s.cond) + ")");
    BodyLinesIndented(s.thenBranch.value, level);
    ElseLinesIndented(s.elseBranch, level);
  }

  lemma {:induction false} LoopLinesIndented(s: Stmt, level: nat)
    requires (s.While? || s.For?) && Complete(s)
    ensures IndentedAt(StmtLines(s, level), level)
    decreases s, 0
  {
    if s.While? {
      PadPrefix(level, "while (" + GenerateExpr(s.cond) + ")");
    } else {
      PadPrefix(level, ForHeader(s.forInit, s.forCond, s.update));
    }
    BodyLinesIndented(s.body.value, level);
  }

  lemma {:induction false} SwitchLinesIndented(s: Stmt, level: nat)
    requires s.Switch? && Complete(s)
    ensures IndentedAt(StmtLines(s, level), level)
    decreases s, 0
  {
    PadPrefix(level, "switch (" + GenerateExpr(s.subject) + ")");
    PadPrefix(level, "{");
    PadPrefix(level, "}");
    CasesLinesIndented(s.cases, level);
    DefaultLinesIndented(s.default, level);
  }

  lemma {:induction false} BodyLinesIndented(b: Stmt, level: nat)
    requires Complete(b)
    ensures IndentedAt(BodyLines(b, level), level)
    decreases b, 2
  {
    if b.Block? {
      BlockLinesIndented(b.stmts, level);
    } else {
      StmtLinesIndented(b, level + 1);
      IndentedDeeper(StmtLines(b, level + 1), level);
    }
  }

  lemma {:induction false} ElseLinesIndented(e: Option<Stmt>, level: nat)
    requires e.Some? ==> Complete(e.value)
    ensures IndentedAt(ElseLines(e, level), level)
    decreases e, 0
  {
    if e.Some? {
      var x := e.value;
      if x.If? {
        PadPrefix(level, "else if (" + GenerateExpr(x.cond) + ")");
        BodyLinesIndented(x.thenBranch.value, level);
        ElseLinesIndented(x.elseBranch, level);
      } else {
        PadPrefix(level, "else");
        BodyLinesIndented(x, level);
      }
    }
  }

  lemma {:induction false} BlockLinesIndented(ss: seq<Stmt>, level: nat)
    requires AllComplete(ss)
    ensures IndentedAt(BlockLines(ss, level), level)
    decreases ss, 1
  {
    PadPrefix(level, "{");
    PadPrefix(level, "}");
    StmtsLinesIndented(ss, level + 1);
    IndentedDeeper(StmtsLines(ss, level + 1), level);
  }

  lemma {:induction false} StmtsLinesIndented(ss: seq<Stmt>, level: nat)
    requires AllComplete(ss)
    ensures IndentedAt(StmtsLines(ss, level), level)
    decreases ss, 0
  {
    if |ss| > 0 {
      StmtsLinesIndented(ss[..|ss| - 1], level);
      StmtLinesIndented(ss[|ss| - 1], level);
    }
  }

  lemma {:induction false} CasesLinesIndented(cases: seq<CaseClause>, level: nat)
    requires CasesComplete(cases)
    ensures IndentedAt(CasesLines(cases, level), level)
    decreases cases
  {
    if |cases| > 0 {
      var c := cases[|cases| - 1];
      CasesLinesIndented(cases[..|cases| - 1], level);
      PadPrefix(level, "case " + GenerateExpr(c.value) + ":");
      StmtsLinesIndented(c.stmts, level + 1);
      IndentedDeeper(StmtsLines(c.stmts, level + 1), level);
    }
  }

  lemma DefaultLinesIndented(d: Option<DefaultClause>, level: nat)
    requires d.Some? ==> AllComplete(d.value.stmts)
    ensures IndentedAt(DefaultLines(d, level), level)
  {
    if d.Some? {
      PadPrefix(level, "default:");
      StmtsLinesIndented(d.value.stmts, level + 1);
      IndentedDeeper(StmtsLines(d.value.stmts, level + 1), level);
    }
  }

  // ---------------------------------------------------------------------------------------
  // Brace matching

  /** A line that is a `{` after spaces only; its padding is the number of spaces. */
  predicate IsOpenLine(line: string) {
    |line| > 0 && line[|line| - 1] == '{' && forall i :: 0 <= i < |line| - 1 ==> line[i] == ' '
  }

  /** A line that is a `}` after spaces only; its padding is the number of spaces. */
  predicate IsCloseLine(line: string) {
    |line| > 0 && line[|line| - 1] == '}' && forall i :: 0 <= i < |line| - 1 ==> line[i] == ' '
  }

  /**
   * The paddings of the `{` lines still open after `line`, innermost last, or `None` when
   * `line` is a `}` line that does not close the innermost open `{` line at its own padding.
   */
  function Step(open: seq<nat>, line: string): Option<seq<nat>> {
    if IsOpenLine(line) then Some(open + [|line| - 1])
    else if IsCloseLine(line) then
      if |open| > 0 && open[|open| - 1] == |line| - 1 then Some(open[..|open| - 1]) else None
    else Some(open)
  }

  /** `Step` over `lines` in order, from the open paddings `open`. */
  function Run(open: seq<nat>, lines: seq<string>): Option<seq<nat>>
    decreases |lines|
  {
    if |lines| == 0 then Some(open)
    else
      match Step(open, lines[0])
      case None => None
      case Some(next) => Run(next, lines[1..])
  }

  /** Every `}` line closes the innermost open `{` line, at the same padding, and every `{` line is closed. */
  predicate Bracketed(lines: seq<string>) {
    Run([], lines) == Some([])
  }

  lemma {:induction false} RunAppend(open: seq<nat>, a: seq<string>, b: seq<string>)
    decreases |a|
    ensures Run(open, a + b) == if Run(open, a).Some? then Run(Run(open, a).value, b) else None
  {
    if |a| == 0 {
      assert a + b == b;
    } else {
      assert (a + b)[0] == a[0] && (a + b)[1..] == a[1..] + b;
      match Step(open, a[0])
      case None =>
      case Some(next) => RunAppend(next, a[1..], b);
    }
  }

  /** Paddings opened further out do not change how a line closes. */
  lemma StepUnder(outer: seq<nat>, open: seq<nat>, line: string)
    requires Step(open, line).Some?
    ensures Step(outer + open, line) == Some(outer + Step(open, line).value)
  {
    if IsOpenLine(line) {
      assert (outer + open) + [|line| - 1] == outer + (open + [|line| - 1]);
    } else if IsCloseLine(line) {
      assert (outer + open)[..|outer + open| - 1] == outer + open[..|open| - 1];
    }
  }

  lemma {:induction false} RunUnder(outer: seq<nat>, open: seq<nat>, lines: seq<string>)
    requires Run(open, lines).Some?
    decreases |lines|
    ensures Run(outer + open, lines) == Some(outer + Run(open, lines).value)
  {
    if |lines| > 0 {
      StepUnder(outer, open, lines[0]);
      RunUnder(outer, Step(open, lines[0]).value, lines[1..]);
    }
  }

  lemma BracketedAppend(a: seq<string>, b: seq<string>)
    requires Bracketed(a) && Bracketed(b)
    ensures Bracketed(a + b)
  {
    RunAppend([], a, b);
  }

  /** A line that is neither kind of brace line keeps bracketing. */
  lemma PlainLineBracketed(line: string)
    requires !IsOpenLine(line) && !IsCloseLine(line)
    ensures Bracketed([line])
  {
    assert [line][0] == line && [line][1..] == [];
  }

  /** A line ending in something other than a brace is not a brace line. */
  lemma PlainEnding(line: string)
    requires |line| > 0 && line[|line| - 1] != '{' && line[|line| - 1] != '}'
    ensures !IsOpenLine(line) && !IsCloseLine(line)
  {
  }

  lemma PadLineBracketed(level: nat, text: string)
    requires |text| > 0 && text[|text| - 1] != '{' && text[|text| - 1] != '}'
    ensures Bracketed([Pad(level) + text])
  {
    PlainEnding(Pad(level) + text);
    PlainLineBracketed(Pad(level) + text);
  }

  lemma PadBraceLines(level: nat)
    ensures IsOpenLine(Pad(level) + "{") && IsCloseLine(Pad(level) + "}")
    ensures |Pad(level) + "{"| - 1 == |Pad(level) + "}"| - 1 == 4 * level
  {
  }

  /** A `{` line, bracketed lines, and the `}` line at the same padding are bracketed. */
  lemma BracketedWrap(level: nat, inner: seq<string>)
    requires Bracketed(inner)
    ensures Bracketed([Pad(level) + "{"] + inner + [Pad(level) + "}"])
  {
    var open, close := Pad(level) + "{", Pad(level) + "}";
    PadBraceLines(level);
    assert [open][0] == open && [open][1..] == [];
    assert [close][0] == close && [close][1..] == [];
    assert [] + [4 * level] == [4 * level];
    assert Step([], open) == Some([4 * level]);
    assert Run([], [open]) == Run([4 * level], []);
    RunUnder([4 * level], [], inner);
    assert [4 * level] + [] == [4 * level];
    RunAppend([], [open], inner);
    assert Run([], [open] + inner) == Some([4 * level]);
    assert Run([4 * level], [close]) == Some([]);
    RunAppend([], [open] + inner, [close]);
  }

  lemma {:induction false} StmtLinesBracketed(s: Stmt, level: nat)
    requires Complete(s)
    ensures Bracketed(StmtLines(s, level))
    decreases s, 1
  {
    match s {
      case Block(ss) => BlockLinesBracketed(ss, level);
      case If(_, _, _) => IfLinesBracketed(s, level);
      case While(_, _) => LoopLinesBracketed(s, level);
      case For(_, _, _, _) => LoopLinesBracketed(s, level);
      case Switch(_, _, _) => SwitchLinesBracketed(s, level);
      case _ => SimpleLineBracketed(s, level);
    }
  }

  lemma SimpleLineBracketed(s: Stmt, level: nat)
    requires IsSimple(s)
    ensures Bracketed(StmtLines(s, level))
  {
    match s {
      case VarDecl(typ, name, init) =>
        PadLineBracketed(level, VarDeclText(typ, name, init));
      case Return(v) =>
        if v.Some? {
          SemicolonLineBracketed(level, "return " + GenerateExpr(v.value));
        } else {
          PadLineBracketed(level, "return;");
        }
      case Break => PadLineBracketed(level, "break;");
      case Continue => PadLineBracketed(level, "continue;");
      case ExprStmt(e) => SemicolonLineBracketed(level, GenerateExpr(e));
    }
  }

  /** A line ending in `;` is not a brace line. */
  lemma SemicolonLineBracketed(level: nat, text: string)
    ensures Bracketed([Pad(level) + (text + ";")])
  {
    var line := text + ";";
    assert line[|line| - 1] == ';';
    PadLineBracketed(level, line);
  }

  lemma {:induction false} IfLinesBracketed(s: Stmt, level: nat)
    requires s.If? && Complete(s)
    ensures Bracketed(StmtLines(s, level))
    decreases s, 0
  {
    var head := Pad(level) + ("if (" + GenerateExpr(s.cond) + ")");
    var body := BodyLines(s.thenBranch.value, level);
    PadLineBracketed(level, "if (" + GenerateExpr(s.cond) + ")");
    BodyLinesBracketed(s.thenBranch.value, level);
    ElseLinesBracketed(s.elseBranch, level);
    BracketedAppend([head], body);
    BracketedAppend([head] + body, ElseLines(s.elseBranch, level));
  }

  lemma {:induction false} LoopLinesBracketed(s: Stmt, level: nat)
    requires (s.While? || s.For?) && Complete(s)
    ensures Bracketed(StmtLines(s, level))
    decreases s, 0
  {
    var text := if s.While? then "while (" + GenerateExpr(s.cond) + ")" else ForHeader(s.forInit, s.forCond, s.update);
    assert StmtLines(s, level) == [Pad(level) + text] + BodyLines(s.body.value, level);
    PadLineBracketed(level, text);
    BodyLinesBracketed(s.body.value, level);
    BracketedAppend([Pad(level) + text], BodyLines(s.body.value, level));
  }

  lemma {:induction false} SwitchLinesBracketed(s: Stmt, level: nat)
    requires s.Switch? && Complete(s)
    ensures Bracketed(StmtLines(s, level))
    decreases s, 0
  {
    var text := "switch (" + GenerateExpr(s.subject) + ")";
    var cs, ds := CasesLines(s.cases, level), DefaultLines(s.default, level);
    var open, close := Pad(level) + "{", Pad(level) + "}";
    CasesLinesBracketed(s.cases, level);
    DefaultLinesBracketed(s.default, level);
    BracketedAppend(cs, ds);
    BracketedWrap(level, cs + ds);
    PadLineBracketed(level, text);
    BracketedAppend([Pad(level) + text], [open] + (cs + ds) + [close]);
    SwitchLinesShape(s, level);
  }

  /** One more statement: its lines follow those of the statements before it. */
  lemma StmtsLinesStep(start: seq<string>, ss: seq<Stmt>, i: nat, level: nat)
    requires i < |ss| && AllComplete(ss[..i]) && Complete(ss[i])
    ensures AllComplete(ss[..i + 1])
    ensures start + StmtsLines(ss[..i], level) + StmtLines(ss[i], level) == start + StmtsLines(ss[..i + 1], level)
  {
    assert ss[..i + 1][..i] == ss[..i];
  }

  /** One more `case` clause: its label and statements follow the clauses before it. */
  lemma CasesLinesStep(start: seq<string>, cases: seq<CaseClause>, i: nat, level: nat)
    requires i < |cases| && CasesComplete(cases[..i]) && AllComplete(cases[i].stmts)
    ensures CasesComplete(cases[..i + 1])
    ensures start + CasesLines(cases[..i], level) + [Pad(level) + ("case " + GenerateExpr(cases[i].value) + ":")]
        + StmtsLines(cases[i].stmts, level + 1)
      == start + CasesLines(cases[..i + 1], level)
  {
    assert cases[..i + 1][..i] == cases[..i] && cases[..i + 1][i] == cases[i];
  }

  /** One more declaration: its lines and an empty line follow the declarations before it. */
  lemma DeclsLinesStep(start: seq<string>, ds: seq<Decl>, i: nat, level: nat)
    requires i < |ds| && (forall j :: 0 <= j < i ==> DeclComplete(ds[j])) && DeclComplete(ds[i])
    ensures forall j :: 0 <= j <= i ==> DeclComplete(ds[j])
    ensures start + DeclsLines(ds[..i], level) + DeclLines(ds[i], level) + [Pad(level)] == start + DeclsLines(ds[..i + 1], level)
  {
    assert ds[..i + 1] == ds[..i] + [ds[i]];
    DeclsLinesSnoc(ds[..i], ds[i], level);
  }

  lemma DeclsLinesSnoc(ds: seq<Decl>, d: Decl, level: nat)
    requires (forall j :: 0 <= j < |ds| ==> DeclComplete(ds[j])) && DeclComplete(d)
    ensures forall j :: 0 <= j < |ds + [d]| ==> DeclComplete((ds + [d])[j])
    ensures DeclsLines(ds + [d], level) == DeclsLines(ds, level) + DeclLines(d, level) + [Pad(level)]
  {
    assert (ds + [d])[..|ds|] == ds;
  }

  /** An `if` is accepted when its then-branch is present and accepted and its else part, if any, is; its lines are the header, the body and the else part. */
  lemma IfLinesShape(s: Stmt, level: nat)
    requires s.If?
    ensures Complete(s) <==> s.thenBranch.Some? && Complete(s.thenBranch.value) && (s.elseBranch.Some? ==> Complete(s.elseBranch.value))
    ensures Complete(s) ==>
      StmtLines(s, level)
      == [Pad(level) + ("if (" + GenerateExpr(s.cond) + ")")] + BodyLines(s.thenBranch.value, level) + ElseLines(s.elseBranch, level)
  {
  }

  /** A `while` or `for` is accepted when its body is present and accepted; its lines are the header and the body. */
  lemma LoopLinesShape(s: Stmt, level: nat)
    requires s.While? || s.For?
    ensures Complete(s) <==> s.body.Some? && Complete(s.body.value)
    ensures Complete(s) ==>
      StmtLines(s, level)
      == [Pad(level) + (if s.While? then "while (" + GenerateExpr(s.cond) + ")" else ForHeader(s.forInit, s.forCond, s.update))]
        + BodyLines(s.body.value, level)
  {
  }

  /** A `switch` is accepted when all its clauses are; its lines are the header and the braced clauses. */
  lemma SwitchLinesShape(s: Stmt, level: nat)
    requires s.Switch?
    ensures Complete(s) <==> CasesComplete(s.cases) && (s.default.Some? ==> AllComplete(s.default.value.stmts))
    ensures Complete(s) ==>
      StmtLines(s, level)
      == [Pad(level) + ("switch (" + GenerateExpr(s.subject) + ")")]
        + ([Pad(level) + "{"] + (CasesLines(s.cases, level) + DefaultLines(s.default, level)) + [Pad(level) + "}"])
  {
    if Complete(s) {
      SwitchLinesRegroup(s, level);
    }
  }

  lemma SwitchLinesRegroup(s: Stmt, level: nat)
    requires s.Switch? && Complete(s)
    ensures
      StmtLines(s, level)
      == [Pad(level) + ("switch (" + GenerateExpr(s.subject) + ")")]
        + ([Pad(level) + "{"] + (CasesLines(s.cases, level) + DefaultLines(s.default, level)) + [Pad(level) + "}"])
  {
    var head, open, close := Pad(level) + ("switch (" + GenerateExpr(s.subject) + ")"), Pad(level) + "{", Pad(level) + "}";
    var cs, ds := CasesLines(s.cases, level), DefaultLines(s.default, level);
    assert StmtLines(s, level) == [head, open] + cs + ds + [close];
    assert [head, open] + cs + ds + [close] == [head] + ([open] + (cs + ds) + [close]);
  }

  lemma {:induction false} BodyLinesBracketed(b: Stmt, level: nat)
    requires Complete(b)
    ensures Bracketed(BodyLines(b, level))
    decreases b, 2
  {
    if b.Block? {
      BlockLinesBracketed(b.stmts, level);
    } else {
      StmtLinesBracketed(b, level + 1);
    }
  }

  lemma {:induction false} ElseLinesBracketed(e: Option<Stmt>, level: nat)
    requires e.Some? ==> Complete(e.value)
    ensures Bracketed(ElseLines(e, level))
    decreases e, 0
  {
    if e.Some? {
      var x := e.value;
      if x.If? {
        var head := Pad(level) + ("else if (" + GenerateExpr(x.cond) + ")");
        PadLineBracketed(level, "else if (" + GenerateExpr(x.cond) + ")");
        BodyLinesBracketed(x.thenBranch.value, level);
        ElseLinesBracketed(x.elseBranch, level);
        BracketedAppend([head], BodyLines(x.thenBranch.value, level));
        BracketedAppend([head] + BodyLines(x.thenBranch.value, level), ElseLines(x.elseBranch, level));
      } else {
        PadLineBracketed(level, "else");
        BodyLinesBracketed(x, level);
        BracketedAppend([Pad(level) + "else"], BodyLines(x, level));
      }
    } else {
      assert ElseLines(e, level) == [];
      assert ElseLines(e, level)[..0] == [];
    }
  }

  lemma {:induction false} BlockLinesBracketed(ss: seq<Stmt>, level: nat)
    requires AllComplete(ss)
    ensures Bracketed(BlockLines(ss, level))
    decreases ss, 1
  {
    StmtsLinesBracketed(ss, level + 1);
    BracketedWrap(level, StmtsLines(ss, level + 1));
  }

  lemma {:induction false} StmtsLinesBracketed(ss: seq<Stmt>, level: nat)
    requires AllComplete(ss)
    ensures Bracketed(StmtsLines(ss, level))
    decreases ss, 0
  {
    if |ss| > 0 {
      StmtsLinesBracketed(ss[..|ss| - 1], level);
      StmtLinesBracketed(ss[|ss| - 1], level);
      BracketedAppend(StmtsLines(ss[..|ss| - 1], level), StmtLines(ss[|ss| - 1], level));
    } else {
      assert StmtsLines(ss, level)[..0] == [];
    }
  }

  lemma {:induction false} CasesLinesBracketed(cases: seq<CaseClause>, level: nat)
    requires CasesComplete(cases)
    ensures Bracketed(CasesLines(cases, level))
    decreases cases
  {
    if |cases| > 0 {
      var c := cases[|cases| - 1];
      var head := Pad(level) + ("case " + GenerateExpr(c.value) + ":");
      CasesLinesBracketed(cases[..|cases| - 1], level);
      PadLineBracketed(level, "case " + GenerateExpr(c.value) + ":");
      StmtsLinesBracketed(c.stmts, level + 1);
      BracketedAppend(CasesLines(cases[..|cases| - 1], level), [head]);
      BracketedAppend(CasesLines(cases[..|cases| - 1], level) + [head], StmtsLines(c.stmts, level + 1));
    } else {
      assert CasesLines(cases, level)[..0] == [];
    }
  }

  lemma DefaultLinesBracketed(d: Option<DefaultClause>, level: nat)
    requires d.Some? ==> AllComplete(d.value.stmts)
    ensures Bracketed(DefaultLines(d, level))
  {
    if d.Some? {
      PadLineBracketed(level, "default:");
      StmtsLinesBracketed(d.value.stmts, level + 1);
      BracketedAppend([Pad(level) + "default:"], StmtsLines(d.value.stmts, level + 1));
    } else {
      assert DefaultLines(d, level)[..0] == [];
    }
  }

  // ---------------------------------------------------------------------------------------
  // The whole program

  lemma DeclLinesIndented(d: Decl, level: nat)
    requires DeclComplete(d)
    ensures IndentedAt(DeclLines(d, level), level)
  {
    match d {
      case FunctionDecl(rt, name, params, body) =>
        PadPrefix(level, FunctionHeader(rt, name, params));
        BlockLinesIndented(body, level);
      case StmtDecl(s) => StmtLinesIndented(s, level);
    }
  }

  lemma {:induction false} DeclsLinesIndented(ds: seq<Decl>, level: nat)
    requires forall i :: 0 <= i < |ds| ==> DeclComplete(ds[i])
    ensures IndentedAt(DeclsLines(ds, level), level)
  {
    if |ds| > 0 {
      DeclsLinesIndented(ds[..|ds| - 1], level);
      DeclLinesIndented(ds[|ds| - 1], level);
      PadPrefix(level, "");
      assert Pad(level) + "" == Pad(level);
    }
  }

  /** Every line of the generated program carries at least the starting indentation. */
  lemma ProgramLinesIndented(p: Program, level: nat)
    requires ProgramComplete(p)
    ensures IndentedAt(ProgramLines(p, level), level)
  {
    PadPrefix(level, "#include <stdio.h>");
    PadPrefix(level, "#include <stdlib.h>");
    PadPrefix(level, "#include <string.h>");
    PadPrefix(level, "");
    assert Pad(level) + "" == Pad(level);
    DeclsLinesIndented(p.decls, level);
  }

  /** An empty line is not a brace line. */
  lemma BlankLineBracketed(level: nat)
    ensures Bracketed([Pad(level)])
  {
    if level > 0 {
      PlainEnding(Pad(level));
    }
    PlainLineBracketed(Pad(level));
  }

  lemma DeclLinesBracketed(d: Decl, level: nat)
    requires DeclComplete(d)
    ensures Bracketed(DeclLines(d, level))
  {
    match d {
      case FunctionDecl(rt, name, params, body) =>
        var header := FunctionHeader(rt, name, params);
        assert header[|header| - 1] == ')';
        PadLineBracketed(level, header);
        BlockLinesBracketed(body, level);
        BracketedAppend([Pad(level) + header], BlockLines(body, level));
      case StmtDecl(s) => StmtLinesBracketed(s, level);
    }
  }

  lemma {:induction false} DeclsLinesBracketed(ds: seq<Decl>, level: nat)
    requires forall i :: 0 <= i < |ds| ==> DeclComplete(ds[i])
    ensures Bracketed(DeclsLines(ds, level))
  {
    if |ds| > 0 {
      var init := DeclsLines(ds[..|ds| - 1], level);
      var last := DeclLines(ds[|ds| - 1], level);
      DeclsLinesBracketed(ds[..|ds| - 1], level);
      DeclLinesBracketed(ds[|ds| - 1], level);
      BlankLineBracketed(level);
      BracketedAppend(init, last);
      BracketedAppend(init + last, [Pad(level)]);
    } else {
      assert DeclsLines(ds, level)[..0] == [];
    }
  }

  /** Every `{` line of the generated program is closed by a later `}` line, and none is closed twice. */
  lemma ProgramLinesBracketed(p: Program, level: nat)
    requires ProgramComplete(p)
    ensures Bracketed(ProgramLines(p, level))
  {
    var a, b, c := Pad(level) + "#include <stdio.h>", Pad(level) + "#include <stdlib.h>", Pad(level) + "#include <string.h>";
    PadLineBracketed(level, "#include <stdio.h>");
    PadLineBracketed(level, "#include <stdlib.h>");
    PadLineBracketed(level, "#include <string.h>");
    BlankLineBracketed(level);
    BracketedAppend([a], [b]);
    assert [a] + [b] == [a, b];
    BracketedAppend([a, b], [c]);
    assert [a, b] + [c] == [a, b, c];
    BracketedAppend([a, b, c], [Pad(level)]);
    assert [a, b, c] + [Pad(level)] == Preamble(level);
    DeclsLinesBracketed(p.decls, level);
    BracketedAppend(Preamble(level), DeclsLines(p.decls, level));
  }
}
