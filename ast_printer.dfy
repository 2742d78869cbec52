/**
 * The AST pretty-printer.  The text of every node is a pure function of the
 * node, the printer's options and the indentation level; the printer object
 * keeps that level in a field, and its statement-list, call, declaration-list
 * and indentation visits are the loops of the original, each proved to
 * produce the text the pure function describes.
 */
module Printing {
  import opened Wrappers
  import opened Text
  import opened CruxTypes
  import opened Symbols
  import opened Ast

  /**
   * What the printer was built with: the checker's node types when a checker
   * was supplied, and whether symbol types are printed.
   */
  datatype Options = Options(checker: Option<map<Node, Type>>, typesEnabled: bool)

  /** `needSemi`: no semicolon after text ending in a closing brace. */
  function NeedSemi(s: string): (r: string)
    requires |s| > 0
    ensures r == "" <==> s[|s| - 1] == '}'
    ensures r == "" || r == ";"
  {
    if s[|s| - 1] == '}' then "" else ";"
  }

  /** `indent()`: two spaces per level. */
  function IndentText(level: nat): (r: string)
    ensures |r| == 2 * level
    ensures forall k :: 0 <= k < |r| ==> r[k] == ' '
  {
    if level == 0 then "" else IndentText(level - 1) + "  "
  }

  /** `visit(Symbol)`: the name, preceded by the type when types are enabled. */
  function SymbolName(o: Options, s: Symbol): string
  {
    if o.typesEnabled then OptTypeText(s.ty) + " " + s.name else s.name
  }

  /** The "/*type*/ " prefix a node gets when the checker typed it. */
  function Annotated(o: Options, n: Node, s: string): string
  {
    if o.checker.Some? && n in o.checker.value then "/*" + ToString(o.checker.value[n]) + "*/ " + s
    else s
  }

  /** The text of node n printed at indentation level `level`. */
  function Print(o: Options, n: Node, level: nat): (r: string)
    ensures n.OpExpr? && !(o.checker.Some? && n in o.checker.value) ==> |r| >= 2 && r[0] == '(' && r[|r| - 1] == ')'
    ensures n.Call? ==> n.callee.name + "(" <= r && r[|r| - 1] == ')'
    decreases n, 1
  {
    match n
    case ArrayAccess(_, base, index) =>
      var name := if o.checker.Some? then "(/*" + OptTypeText(base.ty) + "*/ " + base.name + ")" else base.name;
      Annotated(o, n, name + "[" + Print(o, index, level) + "]")
    case ArrayDeclaration(_, sym) => SymbolName(o, sym)
    case Assignment(_, location, value) => Print(o, location, level) + " = " + Print(o, value, level)
    case Break(_) => "break"
    case Call(_, callee, args) => callee.name + "(" + Join(", ", PrintEach(o, args, level)) + ")"
    case DeclarationList(_, decls) => DeclText("\n", o, decls, level)
    case FunctionDefinition(_, sym, params, body) =>
      sym.name + "(" + Join(", ", SymbolNames(o, params)) + ") " + Print(o, body, level)
    case IfElseBranch(_, c, t, e) =>
      "if (" + Print(o, c, level) + ")" + " " + Print(o, t, level) + " else " + Print(o, e, level)
    case LiteralBool(_, b) => Annotated(o, n, if b then "true" else "false")
    case LiteralInt(_, v) => Annotated(o, n, IntToString(v))
    case For(_, init, cond, inc, body) =>
      "for(" + Print(o, init, level) + ";" + Print(o, cond, level) + ";" + Print(o, inc, level) + ") " + Print(o, body, level)
    case OpExpr(_, op, l, r) =>
      if r.None? then Annotated(o, n, "(" + OpSymbol(op) + Print(o, l, level) + ")")
      else Annotated(o, n, "(" + Print(o, l, level) + " " + OpSymbol(op) + " " + Print(o, r.value, level) + ")")
    case Return(_, v) => if v.Some? then "return " + Print(o, v.value, level) else "return"
    case StatementList(_, stmts) => ListText("{\n", o, stmts, level + 1) + IndentText(level) + "}"
    case VarAccess(_, sym) => Annotated(o, n, sym.name)
    case VariableDeclaration(_, sym) => SymbolName(o, sym)
  }

  /** The texts of xs, in order. */
  function PrintEach(o: Options, xs: seq<Node>, level: nat): (r: seq<string>)
    ensures |r| == |xs|
    decreases xs, 0
  {
    if |xs| == 0 then [] else PrintEach(o, xs[..|xs| - 1], level) + [Print(o, xs[|xs| - 1], level)]
  }

  function SymbolNames(o: Options, ps: seq<Symbol>): (r: seq<string>)
    ensures |r| == |ps|
  {
    if |ps| == 0 then [] else SymbolNames(o, ps[..|ps| - 1]) + [SymbolName(o, ps[|ps| - 1])]
  }

  /**
   * The statement-list loop with the level already raised: each statement
   * is appended after the indentation, then a semicolon unless the text so
   * far ends in '}', then a newline.
   */
  function ListText(acc: string, o: Options, xs: seq<Node>, inner: nat): string
    requires |acc| > 0
    decreases xs, 0
  {
    if |xs| == 0 then acc
    else
      var line := acc + IndentText(inner) + Print(o, xs[0], inner);
      ListText(line + NeedSemi(line) + "\n", o, xs[1..], inner)
  }

  /** The declaration-list loop: like ListText, without indentation. */
  function DeclText(acc: string, o: Options, xs: seq<Node>, level: nat): string
    requires |acc| > 0
    decreases xs, 0
  {
    if |xs| == 0 then acc
    else
      var line := acc + Print(o, xs[0], level);
      DeclText(line + NeedSemi(line) + "\n", o, xs[1..], level)
  }

  /**
   * The line a statement contributes to a list at level inner >= 1: its
   * semicolon depends only on the statement's own text.
   */
  function StatementLine(o: Options, s: Node, inner: nat): string
  {
    var t := Print(o, s, inner);
    IndentText(inner) + t + (if |t| > 0 && t[|t| - 1] == '}' then "" else ";") + "\n"
  }

  function StatementLines(o: Options, xs: seq<Node>, inner: nat): (r: seq<string>)
    ensures |r| == |xs|
  {
    if |xs| == 0 then [] else [StatementLine(o, xs[0], inner)] + StatementLines(o, xs[1..], inner)
  }

  lemma {:induction false} ConcatCons(x: string, xs: seq<string>)
    ensures Concat([x] + xs) == x + Concat(xs)
    decreases |xs|
  {
    if |xs| == 0 {
      assert [x] + xs == [x];
      assert Concat([x]) == Concat([]) + x;
    } else {
      var ys := [x] + xs;
      assert ys[..|ys| - 1] == [x] + xs[..|xs| - 1];
      ConcatCons(x, xs[..|xs| - 1]);
    }
  }

  /** The statement-list loop is the concatenation of one independent line per statement. */
  lemma {:induction false} ListTextLines(acc: string, o: Options, xs: seq<Node>, inner: nat)
    requires |acc| > 0 && inner >= 1
    ensures ListText(acc, o, xs, inner) == acc + Concat(StatementLines(o, xs, inner))
    decreases xs
  {
    if |xs| == 0 {
    } else {
      var t := Print(o, xs[0], inner);
      var ind := IndentText(inner);
      var line := acc + ind + t;
      assert line[|line| - 1] == (if |t| > 0 then t[|t| - 1] else ind[|ind| - 1]);
      assert line + NeedSemi(line) + "\n" == acc + StatementLine(o, xs[0], inner);
      ListTextLines(acc + StatementLine(o, xs[0], inner), o, xs[1..], inner);
      ConcatCons(StatementLine(o, xs[0], inner), StatementLines(o, xs[1..], inner));
    }
  }

  /**
   * A statement list prints as "{\n", one line per statement indented one
   * level deeper with a semicolon unless the statement ends in '}', and the
   * closing brace at the list's own level.
   */
  lemma StatementListText(o: Options, n: Node, level: nat)
    requires n.StatementList?
    ensures Print(o, n, level) == "{\n" + Concat(StatementLines(o, n.stmts, level + 1)) + IndentText(level) + "}"
  {
    var body := ListText("{\n", o, n.stmts, level + 1);
    assert Print(o, n, level) == body + IndentText(level) + "}";
    ListTextLines("{\n", o, n.stmts, level + 1);
  }

  /** Blocks, branches, loops and functions end in '}', so no semicolon follows them. */
  lemma BlocksEndInBrace(o: Options, n: Node, level: nat)
    requires n.StatementList? || (n.IfElseBranch? && n.elseBlock.StatementList?)
          || (n.For? && n.body.StatementList?) || (n.FunctionDefinition? && n.statements.StatementList?)
    ensures var t := Print(o, n, level); |t| > 0 && t[|t| - 1] == '}'
  {
  }

  /** The printer object of the original: its indentation level is the only state. */
  class PrinterVisitor {
    const options: Options
    var indentlevel: nat

    constructor (options: Options)
      ensures this.options == options && indentlevel == 0
    {
      this.options := options;
      indentlevel := 0;
    }

    /** `indent()`. */
    method Indent() returns (s: string)
      ensures s == IndentText(indentlevel)
    {
      s := "";
      var i := 0;
      while i < indentlevel
        invariant 0 <= i <= indentlevel
        invariant s == IndentText(i)
      {
        s := s + "  ";
        i := i + 1;
      }
    }

    /** `visit(StatementList)`: the level is raised for the statements and restored afterwards. */
    method VisitStatementList(n: Node) returns (s: string)
      requires n.StatementList?
      modifies this`indentlevel
      ensures s == Print(options, n, old(indentlevel))
      ensures indentlevel == old(indentlevel)
    {
      indentlevel := indentlevel + 1;
      s := PrintStatements(n.stmts);
      indentlevel := indentlevel - 1;
      var ind := Indent();
      s := s + ind + "}";
    }

    /** The loop of `visit(StatementList)`: each statement on its own indented line, after the opening brace. */
    method PrintStatements(stmts: seq<Node>) returns (s: string)
      ensures s == ListText("{\n", options, stmts, indentlevel)
    {
      s := "{\n";
      var i := 0;
      while i < |stmts|
        invariant 0 <= i <= |stmts| && |s| > 0
        invariant ListText(s, options, stmts[i..], indentlevel) == ListText("{\n", options, stmts, indentlevel)
      {
        var ind := Indent();
        var line := s + ind + Print(options, stmts[i], indentlevel);
        assert stmts[i..][1..] == stmts[i + 1..];
        s := line + NeedSemi(line) + "\n";
        i := i + 1;
      }
    }

    /** `visit(DeclarationList)`. */
    method VisitDeclarationList(n: Node) returns (s: string)
      requires n.DeclarationList?
      ensures s == Print(options, n, indentlevel)
    {
      s := "\n";
      var i := 0;
      while i < |n.decls|
        invariant 0 <= i <= |n.decls| && |s| > 0
        invariant DeclText(s, options, n.decls[i..], indentlevel) == DeclText("\n", options, n.decls, indentlevel)
      {
        s := s + Print(options, n.decls[i], indentlevel);
        s := s + NeedSemi(s) + "\n";
        assert n.decls[i..][1..] == n.decls[i + 1..];
        i := i + 1;
      }
    }

    /** `visit(Call)`: the arguments separated by ", ". */
    method VisitCall(n: Node) returns (s: string)
      requires n.Call?
      ensures s == Print(options, n, indentlevel)
    {
      var texts := PrintEach(options, n.arguments, indentlevel);
      s := n.callee.name + "(";
      var isFirst := true;
      var i := 0;
      while i < |n.arguments|
        invariant 0 <= i <= |n.arguments|
        invariant isFirst <==> i == 0
        invariant s == n.callee.name + "(" + Join(", ", texts[..i])
      {
        if isFirst {
          isFirst := false;
        } else {
          s := s + ", ";
        }
        s := s + Print(options, n.arguments[i], indentlevel);
        assert texts[..i + 1][..i] == texts[..i];
        PrintEachAt(options, n.arguments, indentlevel, i);
        i := i + 1;
      }
      assert texts[..i] == texts;
      s := s + ")";
    }

    /** `visit(FunctionDefinition)`: the parameters separated by ", ", then the body. */
    method VisitFunctionDefinition(n: Node) returns (s: string)
      requires n.FunctionDefinition?
      ensures s == Print(options, n, indentlevel)
    {
      var names := SymbolNames(options, n.parameters);
      s := n.symbol.name + "(";
      var isFirst := true;
      var i := 0;
      while i < |n.parameters|
        invariant 0 <= i <= |n.parameters|
        invariant isFirst <==> i == 0
        invariant s == n.symbol.name + "(" + Join(", ", names[..i])
      {
        if isFirst {
          isFirst := false;
        } else {
          s := s + ", ";
        }
        s := s + SymbolName(options, n.parameters[i]);
        assert names[..i + 1][..i] == names[..i];
        SymbolNamesAt(options, n.parameters, i);
        i := i + 1;
      }
      assert names[..i] == names;
      s := s + ") " + Print(options, n.statements, indentlevel);
    }
  }

  lemma {:induction false} PrintEachAt(o: Options, xs: seq<Node>, level: nat, i: nat)
    requires i < |xs|
    ensures PrintEach(o, xs, level)[i] == Print(o, xs[i], level)
    decreases |xs|
  {
    if i < |xs| - 1 {
      PrintEachAt(o, xs[..|xs| - 1], level, i);
    }
  }

  lemma {:induction false} SymbolNamesAt(o: Options, ps: seq<Symbol>, i: nat)
    requires i < |ps|
    ensures SymbolNames(o, ps)[i] == SymbolName(o, ps[i])
    decreases |ps|
  {
    if i < |ps| - 1 {
      SymbolNamesAt(o, ps[..|ps| - 1], i);
    }
  }
}
