/**
 * The parse tree the Crux grammar produces, as far as the lowering to the AST
 * reads it, and the pure parts of the lowering: the type-name table, the
 * operator-text tables, literal parsing, and the AST shape each parse tree
 * must lower to.
 */
module ParseTree {
  import opened Wrappers
  import opened Text
  import opened CruxTypes
  import opened Symbols
  import opened Ast

  // ------------------------------------------------------- Parse contexts

  /**
   * Expression contexts, one constructor per grammar alternative.  An
   * `expression0` is a first operand followed by any number of comparison
   * operators and operands (`expression1 (op0 expression1)*`);
   * `expression1` and `expression2` are left-recursive, so their left
   * operand is optional and comes with the operator text.
   */
  datatype ExprCtx =
    | Expression0(pos: Position, first: ExprCtx, comparisons: seq<(string, ExprCtx)>)
    | Expression1(pos: Position, additive: Option<(ExprCtx, string)>, operand: ExprCtx)
    | Expression2(pos: Position, multiplicative: Option<(ExprCtx, string)>, operand: ExprCtx)
    | NotExpr(pos: Position, operand: ExprCtx)
    | ParenExpr(pos: Position, inner: ExprCtx)
    | DesignatorExpr(designator: DesignatorCtx)
    | CallExpr(call: CallCtx)
    | Literal(pos: Position, text: string)

  /** A name followed by any number of bracketed index expressions. */
  datatype DesignatorCtx = DesignatorCtx(pos: Position, name: string, indices: seq<ExprCtx>)

  datatype CallCtx = CallCtx(pos: Position, name: string, args: seq<ExprCtx>)

  datatype AssignCtx = AssignCtx(pos: Position, target: DesignatorCtx, value: ExprCtx)

  /** A statement list with the position of its first token. */
  datatype BlockCtx = BlockCtx(pos: Position, stmts: seq<StmtCtx>)

  datatype StmtCtx =
    | VarDeclStmt(pos: Position, name: string, typeName: string)
    | CallStmt(call: CallCtx)
    | AssignStmt(assign: AssignCtx)
    | IfStmt(pos: Position, cond: ExprCtx, thenBlock: BlockCtx, elseBlocks: seq<BlockCtx>)
    | ForStmt(pos: Position, init: AssignCtx, cond: ExprCtx, increment: AssignCtx, body: BlockCtx)
    | BreakStmt(pos: Position)
    | ReturnStmt(pos: Position, value: ExprCtx)

  datatype ParamCtx = ParamCtx(pos: Position, name: string, typeName: string)

  /** Declarations; a function definition's type comes before its name, as in the grammar. */
  datatype DeclCtx =
    | VarDecl(pos: Position, name: string, typeName: string)
    | ArrayDecl(pos: Position, name: string, typeName: string, size: string)
    | FuncDef(pos: Position, retTypeName: string, name: string, params: seq<ParamCtx>, body: BlockCtx)

  datatype ProgramCtx = ProgramCtx(pos: Position, decls: seq<DeclCtx>)

  // ------------------------------------------------------------ Tables

  /** `getType`: the three scalar type names, anything else an ErrorType naming it. */
  function TypeNamed(name: string): (t: Type)
    ensures name == "bool" <==> t == BoolType
    ensures name == "void" <==> t == VoidType
    ensures name == "int" <==> t == IntType
    ensures !(name in {"bool", "void", "int"}) <==> t == ErrorType(name)
  {
    if name == "bool" then BoolType
    else if name == "void" then VoidType
    else if name == "int" then IntType
    else ErrorType(name)
  }

  /** A scalar type name survives `getType` followed by `toString`. */
  lemma TypeNamedRoundTrip(name: string)
    ensures name in {"bool", "void", "int"} <==> ToString(TypeNamed(name)) == name
  {
    if ToString(TypeNamed(name)) == name {
      assert |ToString(ErrorType(name))| > |name|;
    }
  }

  /** The comparison operators of `visitExpression0`; any other text lowers to null. */
  function ComparisonOp(text: string): (r: Option<Operation>)
    ensures r.Some? ==> IsComparison(r.value) && OpSymbol(r.value) == text
  {
    if text == ">=" then Some(GE)
    else if text == "<=" then Some(LE)
    else if text == "!=" then Some(NE)
    else if text == "==" then Some(EQ)
    else if text == ">" then Some(GT)
    else if text == "<" then Some(LT)
    else None
  }

  /** The additive operators of `visitExpression1`; any other text lowers to null. */
  function AdditiveOp(text: string): (r: Option<Operation>)
    ensures r.Some? ==> r.value in {ADD, SUB, LOGIC_OR} && OpSymbol(r.value) == text
  {
    if text == "+" then Some(ADD)
    else if text == "-" then Some(SUB)
    else if text == "||" then Some(LOGIC_OR)
    else None
  }

  /** The multiplicative operators of `visitExpression2`; any other text becomes LOGIC_OR. */
  function MultiplicativeOp(text: string): (r: Operation)
    ensures r in {MULT, DIV, LOGIC_AND, LOGIC_OR}
    ensures r != LOGIC_OR ==> OpSymbol(r) == text
  {
    if text == "*" then MULT
    else if text == "/" then DIV
    else if text == "&&" then LOGIC_AND
    else LOGIC_OR
  }

  /** Each table reads back the symbol of every operator of its own level. */
  lemma OperatorTablesInvert(op: Operation)
    ensures ComparisonOp(OpSymbol(op)) == Some(op) <==> IsComparison(op)
    ensures AdditiveOp(OpSymbol(op)) == Some(op) <==> op in {ADD, SUB, LOGIC_OR}
    ensures MultiplicativeOp(OpSymbol(op)) == op <==> op in {MULT, DIV, LOGIC_AND, LOGIC_OR}
  {
    OpSymbolRoundTrip(op, op);
    if MultiplicativeOp(OpSymbol(op)) == op && op == LOGIC_OR {
      assert OpSymbol(op) == "||";
    }
  }

  // ------------------------------------------------------- Long.parseLong

  const LongMin: int := -0x8000_0000_0000_0000
  const LongMax: int := 0x7fff_ffff_ffff_ffff

  predicate AllDigits(s: string)
  {
    forall k :: 0 <= k < |s| ==> '0' <= s[k] <= '9'
  }

  /** The value of a string of decimal digits, most significant first. */
  function DigitsValue(s: string): (v: nat)
    requires AllDigits(s)
    decreases |s|
  {
    if |s| == 0 then 0
    else DigitsValue(s[..|s| - 1]) * 10 + (s[|s| - 1] as int - '0' as int)
  }

  /**
   * `Long.parseLong`: an optional sign and at least one digit, in the range
   * of a 64-bit long; anything else throws, modelled as no value.
   */
  function ParseLong(s: string): (r: Option<int>)
    ensures r.Some? ==> LongMin <= r.value <= LongMax
  {
    var negative := |s| > 0 && s[0] == '-';
    var digits := if |s| > 0 && (s[0] == '-' || s[0] == '+') then s[1..] else s;
    if |digits| == 0 || !AllDigits(digits) then None
    else
      var d: int := DigitsValue(digits);
      var v := if negative then -d else d;
      if LongMin <= v <= LongMax then Some(v) else None
  }

  lemma {:induction false} DigitsValueOfNat(n: nat)
    ensures AllDigits(NatToString(n)) && DigitsValue(NatToString(n)) == n
    decreases n
  {
    var s := NatToString(n);
    DigitCharValue(n % 10);
    if n >= 10 {
      DigitsValueOfNat(n / 10);
      assert s[..|s| - 1] == NatToString(n / 10);
    }
  }

  lemma DigitCharValue(d: nat)
    requires d < 10
    ensures DigitChar(d) as int - '0' as int == d
  {
  }

  /** Every long printed in decimal parses back to itself. */
  lemma ParseLongRoundTrip(i: int)
    requires LongMin <= i <= LongMax
    ensures ParseLong(IntToString(i)) == Some(i)
  {
    if i < 0 {
      ParseNegative(-i);
    } else {
      ParseNonNegative(i);
    }
  }

  lemma ParseNonNegative(n: nat)
    requires n <= LongMax
    ensures ParseLong(NatToString(n)) == Some(n)
  {
    DigitsValueOfNat(n);
    var s := NatToString(n);
    assert s[0] != '-' && s[0] != '+';
  }

  lemma ParseNegative(n: nat)
    requires 0 < n <= -LongMin
    ensures ParseLong("-" + NatToString(n)) == Some(-(n as int))
  {
    DigitsValueOfNat(n);
    var s := "-" + NatToString(n);
    assert s[1..] == NatToString(n);
  }

  // ---------------------------------------------- The AST shape expected

  /**
   * An AST with every symbol replaced by its name: what the lowering's
   * result is compared against.
   */
  datatype Tree =
    | TDecls(pos: Position, items: seq<Tree>)
    | TFunc(pos: Position, name: string, params: seq<string>, body: Tree)
    | TVarDecl(pos: Position, name: string)
    | TArrayDecl(pos: Position, name: string)
    | TStmts(pos: Position, items: seq<Tree>)
    | TAssign(pos: Position, location: Tree, value: Tree)
    | TCall(pos: Position, name: string, args: seq<Tree>)
    | TIf(pos: Position, cond: Tree, thenTree: Tree, elseTree: Tree)
    | TFor(pos: Position, init: Tree, cond: Tree, increment: Tree, body: Tree)
    | TBreak(pos: Position)
    | TReturn(pos: Position, result: Option<Tree>)
    | TVar(pos: Position, name: string)
    | TIndex(pos: Position, name: string, index: Tree)
    | TBool(pos: Position, boolValue: bool)
    | TInt(pos: Position, intValue: int)
    | TOp(pos: Position, op: Operation, left: Tree, right: Option<Tree>)

  function Names(ss: seq<Symbol>): (r: seq<string>)
    ensures |r| == |ss| && forall i :: 0 <= i < |ss| ==> r[i] == ss[i].name
  {
    seq(|ss|, i requires 0 <= i < |ss| => ss[i].name)
  }

  /** The AST with its symbols replaced by their names. */
  function Erase(n: Node): Tree
    decreases n, 1
  {
    match n
    case DeclarationList(p, ds) => TDecls(p, EraseAll(ds))
    case FunctionDefinition(p, s, ps, body) => TFunc(p, s.name, Names(ps), Erase(body))
    case VariableDeclaration(p, s) => TVarDecl(p, s.name)
    case ArrayDeclaration(p, s) => TArrayDecl(p, s.name)
    case StatementList(p, ss) => TStmts(p, EraseAll(ss))
    case Assignment(p, l, v) => TAssign(p, Erase(l), Erase(v))
    case Call(p, s, args) => TCall(p, s.name, EraseAll(args))
    case IfElseBranch(p, c, t, e) => TIf(p, Erase(c), Erase(t), Erase(e))
    case For(p, i, c, inc, b) => TFor(p, Erase(i), Erase(c), Erase(inc), Erase(b))
    case Break(p) => TBreak(p)
    case Return(p, v) => TReturn(p, if v.Some? then Some(Erase(v.value)) else None)
    case VarAccess(p, s) => TVar(p, s.name)
    case ArrayAccess(p, s, idx) => TIndex(p, s.name, Erase(idx))
    case LiteralBool(p, b) => TBool(p, b)
    case LiteralInt(p, v) => TInt(p, v)
    case OpExpr(p, op, l, r) => TOp(p, op, Erase(l), if r.Some? then Some(Erase(r.value)) else None)
  }

  function EraseAll(ns: seq<Node>): (r: seq<Tree>)
    ensures |r| == |ns| && forall i :: 0 <= i < |ns| ==> r[i] == Erase(ns[i])
    decreases ns, 0
  {
    seq(|ns|, i requires 0 <= i < |ns| => Erase(ns[i]))
  }

  /** Erasing a list with one more node at its end. */
  lemma EraseAllSnoc(ns: seq<Node>, n: Node)
    ensures EraseAll(ns + [n]) == EraseAll(ns) + [Erase(n)]
  {
    var l, r := EraseAll(ns + [n]), EraseAll(ns) + [Erase(n)];
    assert forall i :: 0 <= i < |l| ==> l[i] == r[i] by {
      forall i | 0 <= i < |l| ensures l[i] == r[i] {
        if i < |ns| { assert (ns + [n])[i] == ns[i]; }
      }
    }
  }

  /** A possibly-null lowering result, erased. */
  function EraseOpt(r: Option<Node>): Option<Tree>
  {
    if r.Some? then Some(Erase(r.value)) else None
  }

  /**
   * `visitLiteral`: "true" and "false" are booleans; any other text is
   * parsed as a long, and text that does not parse throws (no node).
   */
  function LiteralNode(pos: Position, text: string): (r: Option<Node>)
    ensures text == "true" ==> r == Some(LiteralBool(pos, true))
    ensures text == "false" ==> r == Some(LiteralBool(pos, false))
    ensures text != "true" && text != "false" ==>
      (r.Some? <==> ParseLong(text).Some?) && (r.Some? ==> r.value == LiteralInt(pos, ParseLong(text).value))
  {
    if text == "true" then Some(LiteralBool(pos, true))
    else if text == "false" then Some(LiteralBool(pos, false))
    else
      var v := ParseLong(text);
      if v.Some? then Some(LiteralInt(pos, v.value)) else None
  }

  /** An integer literal printed in decimal lowers back to a literal of the same value. */
  lemma LiteralIntRoundTrip(pos: Position, i: int)
    requires LongMin <= i <= LongMax
    ensures LiteralNode(pos, IntToString(i)) == Some(LiteralInt(pos, i))
  {
    ParseLongRoundTrip(i);
    var s := IntToString(i);
    assert s != "true" && s != "false" by {
      if i < 0 {
        assert s[0] == '-';
      } else {
        assert '0' <= s[0] <= '9';
      }
    }
  }

  /** A list with a possibly missing head: missing if the head or the rest is. */
  function Cons<T>(head: Option<T>, rest: Option<seq<T>>): (r: Option<seq<T>>)
    ensures r.Some? <==> head.Some? && rest.Some?
    ensures r.Some? ==> |r.value| == |rest.value| + 1 && r.value[0] == head.value && r.value[1..] == rest.value
  {
    if head.Some? && rest.Some? then Some([head.value] + rest.value) else None
  }

  /** The items done so far followed by the items still to come, if those exist. */
  function Prepend<T>(done: seq<T>, rest: Option<seq<T>>): Option<seq<T>>
  {
    if rest.Some? then Some(done + rest.value) else None
  }

  /** Nothing done yet. */
  lemma PrependNothing<T>(rest: Option<seq<T>>)
    ensures Prepend([], rest) == rest
  {
    if rest.Some? {
      assert [] + rest.value == rest.value;
    }
  }

  /** Moving one item from the items to come to the items done. */
  lemma PrependCons<T>(done: seq<T>, head: Option<T>, rest: Option<seq<T>>)
    ensures Prepend(done, Cons(head, rest)) == if head.Some? then Prepend(done + [head.value], rest) else None
  {
    if head.Some? && rest.Some? {
      assert done + ([head.value] + rest.value) == (done + [head.value]) + rest.value;
    }
  }

  /** A binary operator node, when both operands and the operator exist. */
  function Binary(pos: Position, op: Option<Operation>, l: Option<Tree>, r: Option<Tree>): Option<Tree>
  {
    if op.Some? && l.Some? && r.Some? then Some(TOp(pos, op.value, l.value, Some(r.value))) else None
  }

  /**
   * The tree an expression context lowers to: no tree when an operator
   * text is not the grammar's or a literal does not parse.
   */
  function ExpectedExpr(e: ExprCtx): Option<Tree>
    decreases e
  {
    match e
    case Expression0(pos, first, cmps) =>
      if |cmps| == 0 then ExpectedExpr(first)
      else Binary(pos, ComparisonOp(cmps[0].0), ExpectedExpr(first), ExpectedExpr(cmps[0].1))
    case Expression1(pos, add, operand) =>
      if add.None? then ExpectedExpr(operand)
      else Binary(pos, AdditiveOp(add.value.1), ExpectedExpr(add.value.0), ExpectedExpr(operand))
    case Expression2(pos, mul, operand) =>
      if mul.None? then ExpectedExpr(operand)
      else Binary(pos, Some(MultiplicativeOp(mul.value.1)), ExpectedExpr(mul.value.0), ExpectedExpr(operand))
    case NotExpr(pos, operand) =>
      var inner := ExpectedExpr(operand);
      if inner.Some? then Some(TOp(pos, LOGIC_NOT, inner.value, None)) else None
    case ParenExpr(_, inner) => ExpectedExpr(inner)
    case DesignatorExpr(d) => ExpectedDesignator(d)
    case CallExpr(c) => ExpectedCall(c)
    case Literal(pos, text) => EraseOpt(LiteralNode(pos, text))
  }

  /** `visitDesignator`: a variable, or an access indexed by the first bracketed expression. */
  function ExpectedDesignator(d: DesignatorCtx): Option<Tree>
    decreases d
  {
    if |d.indices| == 0 then Some(TVar(d.pos, d.name))
    else
      var idx := ExpectedExpr(d.indices[0]);
      if idx.Some? then Some(TIndex(d.pos, d.name, idx.value)) else None
  }

  function ExpectedCall(c: CallCtx): Option<Tree>
    decreases c
  {
    var args := ExpectedExprs(c.args);
    if args.Some? then Some(TCall(c.pos, c.name, args.value)) else None
  }

  function ExpectedExprs(es: seq<ExprCtx>): (r: Option<seq<Tree>>)
    ensures r.Some? ==> |r.value| == |es|
    decreases es
  {
    if |es| == 0 then Some([])
    else
      Cons(ExpectedExpr(es[0]), ExpectedExprs(es[1..]))
  }

  function ExpectedAssign(a: AssignCtx): Option<Tree>
  {
    var l := ExpectedDesignator(a.target);
    var v := ExpectedExpr(a.value);
    if l.Some? && v.Some? then Some(TAssign(a.pos, l.value, v.value)) else None
  }

  /** The tree a statement lowers to when no symbol error occurs. */
  function ExpectedStmt(s: StmtCtx): Option<Tree>
    decreases s
  {
    match s
    case VarDeclStmt(pos, name, _) => Some(TVarDecl(pos, name))
    case CallStmt(c) => ExpectedCall(c)
    case AssignStmt(a) => ExpectedAssign(a)
    case IfStmt(pos, cond, thenBlock, elseBlocks) =>
      var c := ExpectedExpr(cond);
      var t := ExpectedBlock(thenBlock);
      var e := if |elseBlocks| >= 1 then ExpectedBlock(elseBlocks[0]) else Some(TStmts(pos, []));
      if c.Some? && t.Some? && e.Some? then Some(TIf(pos, c.value, t.value, e.value)) else None
    case ForStmt(pos, init, cond, inc, body) =>
      var i := ExpectedAssign(init);
      var c := ExpectedExpr(cond);
      var n := ExpectedAssign(inc);
      var b := ExpectedBlock(body);
      if i.Some? && c.Some? && n.Some? && b.Some? then Some(TFor(pos, i.value, c.value, n.value, b.value))
      else None
    case BreakStmt(pos) => Some(TBreak(pos))
    case ReturnStmt(pos, v) =>
      var t := ExpectedExpr(v);
      if t.Some? then Some(TReturn(pos, Some(t.value))) else None
  }

  function ExpectedBlock(b: BlockCtx): Option<Tree>
    decreases b
  {
    var items := ExpectedStmts(b.stmts);
    if items.Some? then Some(TStmts(b.pos, items.value)) else None
  }

  function ExpectedStmts(ss: seq<StmtCtx>): (r: Option<seq<Tree>>)
    ensures r.Some? ==> |r.value| == |ss|
    decreases ss
  {
    if |ss| == 0 then Some([])
    else
      Cons(ExpectedStmt(ss[0]), ExpectedStmts(ss[1..]))
  }

  function ParamNames(ps: seq<ParamCtx>): (r: seq<string>)
    ensures |r| == |ps| && forall i :: 0 <= i < |ps| ==> r[i] == ps[i].name
  {
    seq(|ps|, i requires 0 <= i < |ps| => ps[i].name)
  }

  /** The parameter types a function definition declares, in order. */
  function ParamTypes(ps: seq<ParamCtx>): (r: seq<Type>)
    ensures |r| == |ps| && forall i :: 0 <= i < |ps| ==> r[i] == TypeNamed(ps[i].typeName)
  {
    if |ps| == 0 then [] else [TypeNamed(ps[0].typeName)] + ParamTypes(ps[1..])
  }

  function ExpectedDecl(d: DeclCtx): Option<Tree>
  {
    match d
    case VarDecl(pos, name, _) => Some(TVarDecl(pos, name))
    case ArrayDecl(pos, name, _, size) => if ParseLong(size).Some? then Some(TArrayDecl(pos, name)) else None
    case FuncDef(pos, _, name, params, body) =>
      var b := ExpectedBlock(body);
      if b.Some? then Some(TFunc(pos, name, ParamNames(params), b.value)) else None
  }

  function ExpectedDecls(ds: seq<DeclCtx>): (r: Option<seq<Tree>>)
    ensures r.Some? ==> |r.value| == |ds|
  {
    if |ds| == 0 then Some([])
    else
      Cons(ExpectedDecl(ds[0]), ExpectedDecls(ds[1..]))
  }

  function ExpectedProgram(p: ProgramCtx): Option<Tree>
  {
    var items := ExpectedDecls(p.decls);
    if items.Some? then Some(TDecls(p.pos, items.value)) else None
  }

  // ------------------------------------------- The function return type

  /**
   * The return type `visitFunctionDefinition` gives a function as written:
   * the type named by the function's own identifier.
   */
  function DeclaredReturnTypeAsWritten(d: DeclCtx): Type
    requires d.FuncDef?
  {
    TypeNamed(d.name)
  }

  /** A `void main` function gets the ErrorType "main" as its return type, not VoidType. */
  lemma ReturnTypeAsWrittenIgnoresDeclaredType(pos: Position, body: BlockCtx)
    ensures var d := FuncDef(pos, "void", "main", [], body);
      DeclaredReturnTypeAsWritten(d) == ErrorType("main") && DeclaredReturnType(d) == VoidType
  {
  }

  /** The return type the definition declares: the type named before the function's name. */
  function DeclaredReturnType(d: DeclCtx): (t: Type)
    requires d.FuncDef?
  {
    TypeNamed(d.retTypeName)
  }

  /** A function declared with a scalar return type prints that type, whatever its name. */
  lemma DeclaredReturnTypePrints(d: DeclCtx)
    requires d.FuncDef?
    ensures d.retTypeName in {"bool", "void", "int"} <==> ToString(DeclaredReturnType(d)) == d.retTypeName
  {
    TypeNamedRoundTrip(d.retTypeName);
  }
}
