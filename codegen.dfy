/**
 * The line emitter of lib/grongigo/codegen.rb: a generator holding the emitted lines and the
 * current indentation level. Each statement emitter is proved to append exactly the lines
 * `CodeLines` describes for that statement and to leave the level as it found it.
 *
 * Where the source raises (a missing `if`, `while` or `for` body reaches `generate_statement`
 * as nil), the emitters return `false`; what they leave in `output` then is not specified.
 */
module CodeGen {
  import opened Wrappers
  import opened Text
  import opened Ast
  import opened CodeText
  import opened CodeLines

  /** The message Ruby raises when `generate_statement` meets nil. */
  const MissingStatement: string := "Unknown statement type: NilClass"

  class CodeGenerator {
    var output: seq<string>
    var indentLevel: nat

    constructor ()
      ensures output == [] && indentLevel == 0
    {
      output := [];
      indentLevel := 0;
    }

    /** `emit`: one line, indented by four spaces per level. */
    method Emit(code: string)
      modifies this
      ensures output == old(output) + [Pad(indentLevel) + code]
      ensures indentLevel == old(indentLevel)
    {
      output := output + [Pad(indentLevel) + code];
    }

    method Indent()
      modifies this
      ensures indentLevel == old(indentLevel) + 1 && output == old(output)
    {
      indentLevel := indentLevel + 1;
    }

    /** `dedent`, which every emitter calls only after a matching `indent`. */
    method Dedent()
      requires indentLevel > 0
      modifies this
      ensures indentLevel == old(indentLevel) - 1 && output == old(output)
    {
      indentLevel := indentLevel - 1;
    }

    /** `generate`: the headers, each declaration followed by an empty line, joined by newlines. */
    method Generate(p: Program) returns (r: Result<string, string>)
      modifies this
      ensures r.Success? <==> ProgramComplete(p)
      ensures r.Failure? ==> r.error == MissingStatement
      ensures r.Success? ==>
        output == ProgramLines(p, old(indentLevel)) && r.value == Join(output, "\n")
        && indentLevel == old(indentLevel)
    {
      var level := indentLevel;
      output := [];
      EmitPreamble();
      var ds := p.decls;
      for i := 0 to |ds|
        invariant indentLevel == level
        invariant forall j :: 0 <= j < i ==> DeclComplete(ds[j])
        invariant output == Preamble(level) + DeclsLines(ds[..i], level)
      {
        var ok := GenerateDeclarationLines(ds[i]);
        if !ok {
          return Failure(MissingStatement);
        }
        DeclsLinesStep(Preamble(level), ds, i, level);
      }
      assert ds[..|ds|] == ds;
      r := Success(Join(output, "\n"));
    }

    /** The three `#include` lines and the empty line after them. */
    method EmitPreamble()
      modifies this
      ensures output == old(output) + Preamble(indentLevel) && indentLevel == old(indentLevel)
    {
      Emit("#include <stdio.h>");
      Emit("#include <stdlib.h>");
      Emit("#include <string.h>");
      Emit("");
      assert Pad(indentLevel) + "" == Pad(indentLevel);
    }

    /** One pass of the loop of `generate`: a declaration, then an empty line. */
    method GenerateDeclarationLines(d: Decl) returns (ok: bool)
      modifies this
      ensures ok <==> DeclComplete(d)
      ensures ok ==> output == old(output) + DeclLines(d, old(indentLevel)) + [Pad(old(indentLevel))] && indentLevel == old(indentLevel)
    {
      ok := GenerateDeclaration(d);
      if !ok {
        return;
      }
      Emit("");
      assert Pad(indentLevel) + "" == Pad(indentLevel);
    }

    /** `generate_declaration`: a function, or any statement (variable declarations included). */
    method GenerateDeclaration(d: Decl) returns (ok: bool)
      modifies this
      ensures ok <==> DeclComplete(d)
      ensures ok ==> output == old(output) + DeclLines(d, old(indentLevel)) && indentLevel == old(indentLevel)
    {
      if d.FunctionDecl? {
        ok := GenerateFunction(d);
      } else {
        ok := GenerateStatement(d.stmt);
      }
    }

    /** `generate_function`: the signature line, then the body block. */
    method GenerateFunction(d: Decl) returns (ok: bool)
      requires d.FunctionDecl?
      modifies this
      ensures ok <==> AllComplete(d.body)
      ensures ok ==> output == old(output) + DeclLines(d, old(indentLevel)) && indentLevel == old(indentLevel)
    {
      ghost var start, level := output, indentLevel;
      Emit(FunctionHeader(d.returnType, d.name, d.params));
      ok := GenerateBlock(d.body);
      if ok {
        FunctionDeclLines(start, d, level);
      }
    }

    /** `generate_block`: `{`, the statements one level deeper, `}`. */
    method GenerateBlock(ss: seq<Stmt>) returns (ok: bool)
      modifies this
      ensures ok <==> AllComplete(ss)
      ensures ok ==> output == old(output) + BlockLines(ss, old(indentLevel)) && indentLevel == old(indentLevel)
      decreases ss, 1
    {
      Emit("{");
      Indent();
      ok := GenerateStatements(ss);
      if !ok {
        return;
      }
      Dedent();
      Emit("}");
      AppendLines(old(output), [Pad(indentLevel) + "{"], StmtsLines(ss, indentLevel + 1), [Pad(indentLevel) + "}"]);
    }

    /** The statements of a block or a switch clause, in order, stopping at the first that raises. */
    method GenerateStatements(ss: seq<Stmt>) returns (ok: bool)
      modifies this
      ensures ok <==> AllComplete(ss)
      ensures ok ==> output == old(output) + StmtsLines(ss, old(indentLevel)) && indentLevel == old(indentLevel)
      decreases ss, 0
    {
      var level := indentLevel;
      for i := 0 to |ss|
        invariant indentLevel == level
        invariant AllComplete(ss[..i])
        invariant output == old(output) + StmtsLines(ss[..i], level)
      {
        ok := GenerateStatement(ss[i]);
        if !ok {
          return;
        }
        StmtsLinesStep(old(output), ss, i, level);
      }
      assert ss[..|ss|] == ss;
      ok := true;
    }

    /** `generate_statement`: the exhaustive dispatch on the statement kind. */
    method GenerateStatement(s: Stmt) returns (ok: bool)
      modifies this
      ensures ok <==> Complete(s)
      ensures ok ==> output == old(output) + StmtLines(s, old(indentLevel)) && indentLevel == old(indentLevel)
      decreases s, 2
    {
      match s {
        case Block(ss) => ok := GenerateBlock(ss);
        case VarDecl(typ, name, init) =>
          Emit(VarDeclText(typ, name, init));
          ok := true;
        case If(_, _, _) => ok := GenerateIf(s);
        case While(_, _) => ok := GenerateLoop(s);
        case For(_, _, _, _) => ok := GenerateLoop(s);
        case Switch(_, _, _) => ok := GenerateSwitch(s);
        case Return(v) =>
          Emit(if v.Some? then "return " + GenerateExpr(v.value) + ";" else "return;");
          ok := true;
        case Break =>
          Emit("break;");
          ok := true;
        case Continue =>
          Emit("continue;");
          ok := true;
        case ExprStmt(e) =>
          Emit(GenerateExpr(e) + ";");
          ok := true;
      }
    }

    /** A body: a block stays at the level, any other statement goes one level deeper. */
    method GenerateBody(b: Option<Stmt>) returns (ok: bool)
      modifies this
      ensures ok <==> b.Some? && Complete(b.value)
      ensures ok ==> output == old(output) + BodyLines(b.value, old(indentLevel)) && indentLevel == old(indentLevel)
      decreases b, 0
    {
      if b.Some? && b.value.Block? {
        ok := GenerateBlock(b.value.stmts);
        assert Complete(b.value) == AllComplete(b.value.stmts);
      } else {
        Indent();
        if b.None? {
          return false;
        }
        ok := GenerateStatement(b.value);
        if !ok {
          return;
        }
        Dedent();
        assert BodyLines(b.value, indentLevel) == StmtLines(b.value, indentLevel + 1);
      }
    }

    /** `generate_if`. */
    method GenerateIf(s: Stmt) returns (ok: bool)
      requires s.If?
      modifies this
      ensures ok <==> Complete(s)
      ensures ok ==> output == old(output) + StmtLines(s, old(indentLevel)) && indentLevel == old(indentLevel)
      decreases s, 1
    {
      ghost var start := output;
      IfLinesShape(s, indentLevel);
      Emit("if (" + GenerateExpr(s.cond) + ")");
      ok := GenerateBody(s.thenBranch);
      if !ok {
        return;
      }
      ok := GenerateElse(s.elseBranch);
      if ok {
        AppendLines(start, [Pad(indentLevel) + ("if (" + GenerateExpr(s.cond) + ")")],
          BodyLines(s.thenBranch.value, indentLevel), ElseLines(s.elseBranch, indentLevel));
      }
    }

    /** The else part shared by `generate_if` and `generate_if_as_else`. */
    method GenerateElse(e: Option<Stmt>) returns (ok: bool)
      modifies this
      ensures ok <==> (e.Some? ==> Complete(e.value))
      ensures ok ==> output == old(output) + ElseLines(e, old(indentLevel)) && indentLevel == old(indentLevel)
      decreases e, 1
    {
      if e.None? {
        return true;
      }
      if e.value.If? {
        ok := GenerateElseIf(e.value);
      } else {
        Emit("else");
        ok := GenerateBody(e);
      }
    }

    /** An `else` line completed by `generate_if_as_else` to `else if (cond)`. */
    method GenerateElseIf(x: Stmt) returns (ok: bool)
      requires x.If?
      modifies this
      ensures ok <==> Complete(x)
      ensures ok ==> output == old(output) + ElseLines(Some(x), old(indentLevel)) && indentLevel == old(indentLevel)
      decreases x, 2
    {
      ghost var before := output;
      Emit("else");
      assert output[..|output| - 1] == before;
      ok := GenerateIfAsElse(x);
      if ok {
        ElseIfLines(before, x, old(indentLevel));
      }
    }

    /** `generate_if_as_else`: completes the last line to `... if (cond)`, then the body and else part. */
    method GenerateIfAsElse(x: Stmt) returns (ok: bool)
      requires x.If? && |output| > 0
      modifies this
      ensures ok <==> Complete(x)
      ensures ok ==>
        output == old(output[..|output| - 1]) + [old(output[|output| - 1]) + (" if (" + GenerateExpr(x.cond) + ")")]
          + BodyLines(x.thenBranch.value, old(indentLevel)) + ElseLines(x.elseBranch, old(indentLevel))
        && indentLevel == old(indentLevel)
      decreases x, 1
    {
      output := output[..|output| - 1] + [output[|output| - 1] + (" if (" + GenerateExpr(x.cond) + ")")];
      ok := GenerateBody(x.thenBranch);
      if !ok {
        return;
      }
      ok := GenerateElse(x.elseBranch);
    }

    /** `generate_while` and `generate_for`: the header line, then the body. */
    method GenerateLoop(s: Stmt) returns (ok: bool)
      requires s.While? || s.For?
      modifies this
      ensures ok <==> Complete(s)
      ensures ok ==> output == old(output) + StmtLines(s, old(indentLevel)) && indentLevel == old(indentLevel)
      decreases s, 1
    {
      LoopLinesShape(s, indentLevel);
      if s.While? {
        Emit("while (" + GenerateExpr(s.cond) + ")");
      } else {
        Emit(ForHeader(s.forInit, s.forCond, s.update));
      }
      ok := GenerateBody(s.body);
    }

    /** `generate_switch`: each `case`/`default` label one level out from its statements. */
    method GenerateSwitch(s: Stmt) returns (ok: bool)
      requires s.Switch?
      modifies this
      ensures ok <==> Complete(s)
      ensures ok ==> output == old(output) + StmtLines(s, old(indentLevel)) && indentLevel == old(indentLevel)
      decreases s, 1
    {
      SwitchLinesShape(s, indentLevel);
      Emit("switch (" + GenerateExpr(s.subject) + ")");
      ok := GenerateSwitchBlock(s);
    }

    /** The braces of `generate_switch` with the clauses between them. */
    method GenerateSwitchBlock(s: Stmt) returns (ok: bool)
      requires s.Switch?
      modifies this
      ensures ok <==> CasesComplete(s.cases) && (s.default.Some? ==> AllComplete(s.default.value.stmts))
      ensures ok ==>
        output == old(output)
          + ([Pad(old(indentLevel)) + "{"] + (CasesLines(s.cases, old(indentLevel)) + DefaultLines(s.default, old(indentLevel)))
            + [Pad(old(indentLevel)) + "}"])
        && indentLevel == old(indentLevel)
      decreases s, 0
    {
      Emit("{");
      Indent();
      ok := GenerateCases(s.cases);
      if !ok {
        return;
      }
      ok := GenerateDefault(s.default);
      if !ok {
        return;
      }
      Dedent();
      Emit("}");
      SwitchBlockAppend(old(output), [Pad(indentLevel) + "{"], CasesLines(s.cases, indentLevel), DefaultLines(s.default, indentLevel),
        [Pad(indentLevel) + "}"]);
    }

    /** The `case` clauses of `generate_switch`, entered one level inside the braces. */
    method GenerateCases(cases: seq<CaseClause>) returns (ok: bool)
      requires indentLevel > 0
      modifies this
      ensures ok <==> CasesComplete(cases)
      ensures ok ==> output == old(output) + CasesLines(cases, old(indentLevel) - 1) && indentLevel == old(indentLevel)
      decreases cases, 0
    {
      var level := indentLevel - 1;
      assert CasesLines(cases[..0], level) == [];
      for i := 0 to |cases|
        invariant indentLevel == level + 1
        invariant CasesComplete(cases[..i])
        invariant output == old(output) + CasesLines(cases[..i], level)
      {
        ok := GenerateCase(cases[i]);
        if !ok {
          return;
        }
        CasesLinesStep(old(output), cases, i, level);
      }
      assert cases[..|cases|] == cases;
      ok := true;
    }

    /** One `case` clause: its label one level out, then its statements. */
    method GenerateCase(c: CaseClause) returns (ok: bool)
      requires indentLevel > 0
      modifies this
      ensures ok <==> AllComplete(c.stmts)
      ensures ok ==>
        output == old(output) + [Pad(old(indentLevel) - 1) + ("case " + GenerateExpr(c.value) + ":")]
          + StmtsLines(c.stmts, old(indentLevel)) && indentLevel == old(indentLevel)
      decreases c
    {
      Dedent();
      Emit("case " + GenerateExpr(c.value) + ":");
      Indent();
      ok := GenerateStatements(c.stmts);
    }

    /** The `default` clause of `generate_switch`, if there is one. */
    method GenerateDefault(d: Option<DefaultClause>) returns (ok: bool)
      requires indentLevel > 0
      modifies this
      ensures ok <==> (d.Some? ==> AllComplete(d.value.stmts))
      ensures ok ==> output == old(output) + DefaultLines(d, old(indentLevel) - 1) && indentLevel == old(indentLevel)
      decreases d
    {
      if d.None? {
        return true;
      }
      Dedent();
      Emit("default:");
      Indent();
      ok := GenerateStatements(d.value.stmts);
    }
  }

  /** `katakana2roman`, with its `while` loop over the text. */
  method Katakana2Roman(text: string) returns (r: string)
    ensures r == Romanize(text)
  {
    var result := "";
    var i := 0;
    while i < |text|
      invariant 0 <= i <= |text|
      invariant result + RomanizeFrom(text, i) == RomanizeFrom(text, 0)
      decreases |text| - i
    {
      var unit, width := RomanUnit(text, i);
      assert (result + unit) + RomanizeFrom(text, i + width) == result + RomanizeFrom(text, i);
      result := result + unit;
      i := i + width;
    }
    RomanizeGuards(text, result);
    if SomeLineStartsWithDigit(result) {
      result := "_" + result;
    }
    if result == "" {
      result := "var";
    }
    r := result;
  }

  /** After the loop: the digit guard does not fire, and only an empty transcription becomes `var`. */
  lemma RomanizeGuards(text: string, core: string)
    requires core == RomanizeFrom(text, 0)
    ensures !SomeLineStartsWithDigit(core)
    ensures Romanize(text) == if core == "" then "var" else core
  {
    RomanizeNeverStartsWithDigit(text);
  }

  /** One step of the loop: the two-character entry first, then the one-character entry, else `_`. */
  method RomanUnit(text: string, i: nat) returns (unit: string, width: nat)
    requires i < |text|
    ensures 1 <= width <= 2 && i + width <= |text|
    ensures unit + RomanizeFrom(text, i + width) == RomanizeFrom(text, i)
  {
    if i + 1 < |text| && RomanPair(text[i], text[i + 1]).Some? {
      unit, width := RomanPair(text[i], text[i + 1]).value, 2;
    } else if RomanChar(text[i]).Some? {
      unit, width := RomanChar(text[i]).value, 1;
    } else {
      unit, width := "_", 1;
    }
  }

  /** A function's lines are its header line and then its body block. */
  lemma FunctionDeclLines(start: seq<string>, d: Decl, level: nat)
    requires d.FunctionDecl? && AllComplete(d.body)
    ensures start + [Pad(level) + FunctionHeader(d.returnType, d.name, d.params)] + BlockLines(d.body, level)
      == start + DeclLines(d, level)
  {
  }

  /**
   * Lines appended in three steps are the three pieces appended at once: regroups the output
   * of `GenerateBlock` (`{`, the statements, `}`), `GenerateIf` (header, body, else part) and
   * the `else if` chain of `ElseIfLines`.
   */
  lemma AppendLines(start: seq<string>, a: seq<string>, b: seq<string>, c: seq<string>)
    ensures start + a + b + c == start + (a + b + c)
  {
  }

  /**
   * The brace lines and the two clause parts of a switch, appended one after another: regroups
   * the output of `GenerateSwitchBlock` as `SwitchLines` groups it.
   */
  lemma SwitchBlockAppend(start: seq<string>, open: seq<string>, cases: seq<string>, default: seq<string>, close: seq<string>)
    ensures start + open + cases + default + close == start + (open + (cases + default) + close)
  {
  }

  /** The `else` line completed to `else if (c)`, then the nested body and else part, are the else lines of the nested `if`. */
  lemma ElseIfLines(before: seq<string>, x: Stmt, level: nat)
    requires x.If? && Complete(x)
    ensures before + [(Pad(level) + "else") + (" if (" + GenerateExpr(x.cond) + ")")]
        + BodyLines(x.thenBranch.value, level) + ElseLines(x.elseBranch, level)
      == before + ElseLines(Some(x), level)
  {
    ElseIfLine(Pad(level), GenerateExpr(x.cond));
    ElseLinesIf(x, level);
    AppendLines(before, [Pad(level) + ("else if (" + GenerateExpr(x.cond) + ")")],
      BodyLines(x.thenBranch.value, level), ElseLines(x.elseBranch, level));
  }

  lemma ElseLinesIf(x: Stmt, level: nat)
    requires x.If? && Complete(x)
    ensures ElseLines(Some(x), level)
      == [Pad(level) + ("else if (" + GenerateExpr(x.cond) + ")")]
        + BodyLines(x.thenBranch.value, level) + ElseLines(x.elseBranch, level)
  {
  }

  /**
   * Appending ` if (c)` to an `else` line gives the `else if (c)` line: the step of
   * `GenerateIfAsElse`, which completes the last emitted line in place.
   */
  lemma ElseIfLine(pad: string, c: string)
    ensures (pad + "else") + (" if (" + c + ")") == pad + ("else if (" + c + ")")
  {
    assert "else" + " if (" == "else if (";
  }

  /** The three header lines `generate` emits first. */
  const Includes: seq<string> := ["#include <stdio.h>", "#include <stdlib.h>", "#include <string.h>"]

  /** Generated C text always opens with the three `#include` lines, each ended by a newline. */
  lemma GeneratedTextStartsWithIncludes(p: Program)
    requires ProgramComplete(p)
    ensures StartsWith(Join(ProgramLines(p, 0), "\n"), Join(Includes, "\n") + "\n")
  {
    var lines := ProgramLines(p, 0);
    IncludesAtLevelZero();
    assert lines[..3] == Includes;
    JoinSplit(lines, 3, "\n");
    var head := Join(Includes, "\n") + "\n";
    assert Join(lines, "\n") == head + Join(lines[3..], "\n");
    assert Join(lines, "\n")[..|head|] == head;
  }

  /** An empty program is the three `#include` lines followed by a newline. */
  lemma EmptyProgramText()
    ensures Join(ProgramLines(Program([]), 0), "\n") == Join(Includes, "\n") + "\n"
  {
    var lines := ProgramLines(Program([]), 0);
    IncludesAtLevelZero();
    assert lines == Includes + [""];
    JoinSplit(lines, 3, "\n");
    assert lines[..3] == Includes && lines[3..] == [""];
  }

  /** The preamble `EmitPreamble` writes at level 0 is the include lines and a blank line. */
  lemma IncludesAtLevelZero()
    ensures Preamble(0) == Includes + [""]
  {
    assert Pad(0) == "";
    assert forall s: string :: "" + s == s;
  }

  /** A parameterless `main` is declared `(void)`; other parameterless functions get `()`. */
  lemma MainTakesVoid(returnType: string, name: string)
    requires IsCIdentifier(name)
    ensures FunctionHeader(returnType, "main", []) == returnType + " main(void)"
    ensures name != "main" ==> FunctionHeader(returnType, name, []) == returnType + " " + name + "()"
  {
    IdentifierIsOwnLine(name);
    IdentifierIsOwnLine("main");
  }
}
