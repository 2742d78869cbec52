/**
 * The type checker: a tree walk that records a type for expression nodes,
 * assignments, returns and array declarations, and appends error strings.
 *
 * `Check` is the walk as a pure function of the checker's state; the
 * `TypeChecker` class holds the same state in fields and its visit methods
 * are proved to leave exactly the state `Check` describes.  `ExprType` is an
 * independent, state-free definition of an expression's type, and every
 * walk is proved to record that type.
 */
module TypeCheck {
  import opened Wrappers
  import opened Text
  import opened CruxTypes
  import opened Symbols
  import opened Ast

  /**
   * The checker's state: the error list, the type stored on each node, the
   * function being checked and whether the last statement returned.
   */
  datatype CheckState = CheckState(
    errors: seq<TypeError>,
    types: map<Node, Type>,
    current: Option<Symbol>,
    lastReturns: bool)

  /** One recorded error: the offending node's position and the message. */
  datatype TypeError = TypeError(pos: Position, message: string)

  /** The string `addTypeError` appends: "TypeError(line)[message]". */
  function TypeErrorText(e: TypeError): string
  {
    "TypeError" + PositionText(e.pos) + "[" + e.message + "]"
  }

  /** `getErrors`: the recorded errors as the strings of the error list. */
  function ErrorTexts(errs: seq<TypeError>): (r: seq<string>)
    ensures |r| == |errs| && forall i :: 0 <= i < |errs| ==> r[i] == TypeErrorText(errs[i])
  {
    seq(|errs|, i requires 0 <= i < |errs| => TypeErrorText(errs[i]))
  }

  /** `addTypeError`: exactly one more error, naming n's position. */
  function AddError(st: CheckState, n: Node, message: string): (r: CheckState)
    ensures r.errors == st.errors + [TypeError(n.pos, message)]
    ensures r.types == st.types && r.current == st.current && r.lastReturns == st.lastReturns
  {
    st.(errors := st.errors + [TypeError(n.pos, message)])
  }

  /** The error an expression node itself contributes: one exactly when its type is an ErrorType. */
  function ErrorOf(n: Node, t: Type): (r: seq<TypeError>)
    ensures |r| <= 1 && (r == [] <==> !t.ErrorType?)
  {
    if t.ErrorType? then [TypeError(n.pos, t.message)] else []
  }

  /**
   * `setNodeType`: the type is always stored on the node, and an error with
   * the ErrorType's message is appended exactly when the type is an ErrorType.
   */
  function SetNodeType(st: CheckState, n: Node, t: Type): (r: CheckState)
    ensures r.types == st.types[n := t]
    ensures r.errors == st.errors + ErrorOf(n, t)
    ensures r.current == st.current && r.lastReturns == st.lastReturns
  {
    var s := st.(types := st.types[n := t]);
    if t.ErrorType? then AddError(s, n, t.message) else s
  }

  // ------------------------------------------------- What the walk may assume

  /**
   * Expressions the checker can type without a null dereference or a failed
   * cast: every symbol it reads has a type, a callee is a FuncType, and an
   * operator without a right operand is `!`.
   */
  predicate ExprOk(e: Node)
    ensures ExprOk(e) ==> IsExpression(e)
    decreases e
  {
    match e
    case VarAccess(_, s) => s.ty.Some?
    case LiteralBool(_, _) => true
    case LiteralInt(_, _) => true
    case ArrayAccess(_, b, idx) => b.ty.Some? && ExprOk(idx)
    case Call(_, c, args) =>
      c.ty.Some? && c.ty.value.FuncType? && forall i :: 0 <= i < |args| ==> ExprOk(args[i])
    case OpExpr(_, op, l, r) =>
      ExprOk(l) && (r.Some? ==> ExprOk(r.value)) && (r.None? ==> op == LOGIC_NOT)
    case _ => false
  }

  /**
   * Nodes the checker can walk: expressions as above, Expression-typed
   * children that are expressions, typed declarations, a FuncType function
   * symbol with typed parameters and a statement-list body, and a `return`
   * with a value, inside a function.
   */
  predicate Checkable(n: Node, inFunction: bool)
    decreases n
  {
    if IsExpression(n) then ExprOk(n)
    else match n
    case DeclarationList(_, ds) => forall i :: 0 <= i < |ds| ==> Checkable(ds[i], inFunction)
    case FunctionDefinition(_, s, ps, body) =>
      s.ty.Some? && s.ty.value.FuncType? &&
      (forall i :: 0 <= i < |ps| ==> ps[i].ty.Some?) &&
      body.StatementList? && forall i :: 0 <= i < |body.stmts| ==> Checkable(body.stmts[i], true)
    case VariableDeclaration(_, s) => s.ty.Some?
    case ArrayDeclaration(_, s) => s.ty.Some? && s.ty.value.ArrayType?
    case StatementList(_, ss) => forall i :: 0 <= i < |ss| ==> Checkable(ss[i], inFunction)
    case Assignment(_, l, v) => ExprOk(l) && ExprOk(v)
    case IfElseBranch(_, c, t, e) => ExprOk(c) && Checkable(t, inFunction) && Checkable(e, inFunction)
    case For(_, i, c, inc, b) =>
      Checkable(i, inFunction) && ExprOk(c) && Checkable(inc, inFunction) && Checkable(b, inFunction)
    case Break(_) => true
    case Return(_, v) => inFunction && v.Some? && ExprOk(v.value)
    case _ => false
  }

  /** The current function, once set, is a FuncType symbol. */
  predicate CurrentOk(st: CheckState)
  {
    st.current.Some? ==> st.current.value.ty.Some? && st.current.value.ty.value.FuncType?
  }

  // ----------------------------------------------------- The reference typing

  /** The result type of operator op applied to the operand types. */
  function OpRule(op: Operation, lt: Type, rt: Option<Type>): (r: Type)
    requires op != LOGIC_NOT ==> rt.Some?
    ensures r == IntType <==> op in {ADD, SUB, MULT, DIV} && lt.IntType? && rt.value.IntType?
    ensures r == BoolType <==>
      (IsComparison(op) && lt.IntType? && rt.value.IntType?) ||
      ((op == LOGIC_AND || op == LOGIC_OR) && lt.BoolType? && rt.value.BoolType?) ||
      (op == LOGIC_NOT && lt.BoolType?)
    ensures r != IntType && r != BoolType ==> r.ErrorType?
  {
    if IsComparison(op) then Compare(lt, rt.value)
    else if op == ADD then Add(lt, rt.value)
    else if op == SUB then Sub(lt, rt.value)
    else if op == MULT then Mul(lt, rt.value)
    else if op == DIV then Div(lt, rt.value)
    else if op == LOGIC_AND then And(lt, rt.value)
    else if op == LOGIC_OR then Or(lt, rt.value)
    else Not(lt)
  }

  /** The type an expression gets, independent of any checker state. */
  function ExprType(e: Node): Type
    requires ExprOk(e)
    decreases e, 1
  {
    match e
    case VarAccess(_, s) => s.ty.value
    case LiteralBool(_, _) => BoolType
    case LiteralInt(_, _) => IntType
    case ArrayAccess(_, b, idx) => Index(b.ty.value, ExprType(idx))
    case Call(_, c, args) => CruxTypes.Call(c.ty.value, TypeList(ExprTypes(args)))
    case OpExpr(_, op, l, r) =>
      OpRule(op, ExprType(l), if r.Some? then Some(ExprType(r.value)) else None)
  }

  function ExprTypes(es: seq<Node>): (r: seq<Type>)
    requires forall i :: 0 <= i < |es| ==> ExprOk(es[i])
    ensures |r| == |es|
    decreases es, 0
  {
    if |es| == 0 then [] else [ExprType(es[0])] + ExprTypes(es[1..])
  }

  /** No statement list carries a type. */
  predicate NoBlockTypes(m: map<Node, Type>)
  {
    forall k :: k in m ==> !k.StatementList?
  }

  /**
   * What every step of the walk keeps: errors are only appended, types only
   * added or overwritten, no block gets a type, and a current function stays
   * a FuncType symbol.
   */
  predicate Grows(st: CheckState, r: CheckState)
  {
    st.errors <= r.errors &&
    st.types.Keys <= r.types.Keys &&
    (NoBlockTypes(st.types) ==> NoBlockTypes(r.types)) &&
    (CurrentOk(st) ==> CurrentOk(r)) &&
    (st.current.Some? ==> r.current.Some?)
  }

  // ------------------------------------------------------------- The walk

  /**
   * The visits of the expression nodes: an expression's operands are
   * expressions, so this part of the walk never leaves them.  Every visit
   * stores a type on the expression and leaves the current function alone.
   */
  function CheckExpr(st: CheckState, e: Node): (r: CheckState)
    requires ExprOk(e)
    ensures Grows(st, r) && e in r.types && r.current == st.current
    decreases e, 1
  {
    match e
    case VarAccess(_, s) => SetNodeType(st, e, s.ty.value)
    case LiteralBool(_, _) => SetNodeType(st, e, BoolType)
    case LiteralInt(_, _) => SetNodeType(st, e, IntType)
    case ArrayAccess(_, b, idx) =>
      var s1 := CheckExpr(st, idx);
      SetNodeType(s1, e, Index(b.ty.value, s1.types[idx]))
    case Call(_, _, _) => CheckCall(st, e)
    case OpExpr(_, _, _, _) => CheckOp(st, e)
  }

  /** The call's argument loop: each argument is checked, then its type appended to the list. */
  function CheckArgs(st: CheckState, xs: seq<Node>): (r: (CheckState, seq<Type>))
    requires forall i :: 0 <= i < |xs| ==> ExprOk(xs[i])
    ensures Grows(st, r.0) && |r.1| == |xs| && r.0.current == st.current
    decreases xs, 2
  {
    if |xs| == 0 then (st, [])
    else
      var s1 := CheckExpr(st, xs[0]);
      var rest := CheckArgs(s1, xs[1..]);
      (rest.0, [s1.types[xs[0]]] + rest.1)
  }

  /** `visit(Call)`: the callee's `call` of the argument TypeList; the last statement did not return. */
  function CheckCall(st: CheckState, n: Node): (r: CheckState)
    requires n.Call? && ExprOk(n)
    ensures Grows(st, r) && n in r.types && r.current == st.current
    decreases n, 0
  {
    var (s1, ts) := CheckArgs(st, n.arguments);
    SetNodeType(s1, n, CruxTypes.Call(n.callee.ty.value, TypeList(ts))).(lastReturns := false)
  }

  /** `visit(OpExpr)`: both operands, then the operator's typing rule. */
  function CheckOp(st: CheckState, n: Node): (r: CheckState)
    requires n.OpExpr? && ExprOk(n)
    ensures Grows(st, r) && n in r.types && r.current == st.current
    decreases n, 0
  {
    var s1 := CheckExpr(st, n.left);
    var lt := s1.types[n.left];
    var s2 := if n.right.Some? then CheckExpr(s1, n.right.value) else s1;
    var rt := if n.right.Some? then Some(s2.types[n.right.value]) else None;
    SetNodeType(s2, n, OpRule(n.op, lt, rt))
  }

  /** `TypeInferenceVisitor.visit`, dispatched on the node's kind. */
  function Check(st: CheckState, n: Node): (r: CheckState)
    requires Checkable(n, st.current.Some?) && CurrentOk(st)
    ensures Grows(st, r)
    decreases n, 1
  {
    if IsExpression(n) then CheckExpr(st, n)
    else match n
    case DeclarationList(_, ds) => CheckAll(st, ds)
    case StatementList(_, ss) => CheckAll(st, ss)
    case FunctionDefinition(_, _, _, _) => CheckFunction(st, n)
    case VariableDeclaration(_, s) =>
      var s1 := if s.ty.value.IntType? || s.ty.value.BoolType? then st
                else AddError(st, n, "variableDeclaration is Void type");
      s1.(lastReturns := false)
    case ArrayDeclaration(_, s) =>
      var b := s.ty.value.base;
      var s1 := if !b.BoolType? && !b.IntType? then AddError(st, n, "arrayDeclaration is void type")
                else SetNodeType(st, n, s.ty.value);
      s1.(lastReturns := false)
    case Assignment(_, l, v) =>
      var s1 := CheckExpr(st, l);
      var lt := s1.types[l];
      var s2 := CheckExpr(s1, v);
      SetNodeType(s2, n, Assign(lt, s2.types[v])).(lastReturns := false)
    case Break(_) => st.(lastReturns := false)
    case IfElseBranch(_, _, _, _) => CheckIf(st, n)
    case For(_, _, _, _, _) => CheckFor(st, n)
    case Return(_, _) => CheckReturn(st, n)
  }

  /** The declaration- and statement-list loops: each child in order. */
  function CheckAll(st: CheckState, xs: seq<Node>): (r: CheckState)
    requires forall i :: 0 <= i < |xs| ==> Checkable(xs[i], st.current.Some?)
    requires CurrentOk(st)
    ensures Grows(st, r)
    decreases xs, 2
  {
    if |xs| == 0 then st
    else
      var s1 := Check(st, xs[0]);
      assert forall i :: 1 <= i < |xs| ==> Checkable(xs[i], s1.current.Some?) by {
        if st.current.Some? {
          assert s1.current.Some?;
        } else {
          forall i | 1 <= i < |xs| ensures Checkable(xs[i], s1.current.Some?) {
            CheckableInFunction(xs[i]);
          }
        }
      }
      CheckAll(s1, xs[1..])
  }

  /**
   * `visit(IfElseBranch)`: a condition that is not BoolType is an error; the
   * else block is checked before the then block; the last statement returned
   * exactly when the then block carries a type other than void.
   */
  function CheckIf(st: CheckState, n: Node): (r: CheckState)
    requires n.IfElseBranch? && Checkable(n, st.current.Some?) && CurrentOk(st)
    ensures Grows(st, r)
    decreases n, 0
  {
    var s2 := CheckCondition(st, n);
    var s3 := Check(s2, n.elseBlock);
    CheckableInFunction(n.thenBlock);
    var s4 := Check(s3, n.thenBlock);
    ThenReturns(s4, n)
  }

  /** The condition of an if: typed, and an error when it is not BoolType. */
  function CheckCondition(st: CheckState, n: Node): (r: CheckState)
    requires n.IfElseBranch? && ExprOk(n.condition)
    ensures Grows(st, r)
    ensures n.condition in r.types
    ensures r.current == st.current
    decreases n, 0
  {
    var s1 := CheckExpr(st, n.condition);
    if !s1.types[n.condition].BoolType? then AddError(s1, n, "IfElseBranch's condition has to be Bool type") else s1
  }

  /** After an if, the last statement returned exactly when the then block has a type other than void. */
  function ThenReturns(st: CheckState, n: Node): (r: CheckState)
    requires n.IfElseBranch?
    ensures r.lastReturns <==> n.thenBlock in st.types && ToString(st.types[n.thenBlock]) != "void"
    ensures r == st.(lastReturns := r.lastReturns)
  {
    var t := if n.thenBlock in st.types then Some(st.types[n.thenBlock]) else None;
    st.(lastReturns := !(t.None? || ToString(t.value) == "void"))
  }

  /**
   * `visit(For)`: a condition that is not BoolType is an error and nothing
   * else is checked; otherwise body, increment and init, in that order.
   */
  function CheckFor(st: CheckState, n: Node): (r: CheckState)
    requires n.For? && Checkable(n, st.current.Some?) && CurrentOk(st)
    ensures Grows(st, r)
    decreases n, 0
  {
    var s1 := CheckExpr(st, n.cond);
    if !s1.types[n.cond].BoolType? then AddError(s1, n, "For Loop's condition has to be Bool type")
    else
      var s2 := Check(s1, n.body);
      CheckableInFunction(n.increment);
      CheckableInFunction(n.init);
      var s3 := Check(s2, n.increment);
      Check(s3, n.init)
  }

  /**
   * `visit(Return)`: a value whose type is equivalent to the current
   * function's type is an error; otherwise the return takes the value's type.
   * Either way the last statement returned.
   */
  function CheckReturn(st: CheckState, n: Node): (r: CheckState)
    requires n.Return? && Checkable(n, st.current.Some?) && CurrentOk(st)
    ensures Grows(st, r)
    decreases n, 0
  {
    var v := n.retValue.value;
    var s1 := CheckExpr(st, v);
    var vt := s1.types[v];
    var s2 := if Equivalent(vt, st.current.value.ty.value) then AddError(s1, n, "Return type is Error")
              else SetNodeType(s1, n, vt);
    s2.(lastReturns := true)
  }

  /** The text a FunctionDefinition contributes to the return-type messages. */
  function FunctionText(n: Node): string
    requires n.FunctionDefinition?
  {
    n.symbol.name
  }

  /**
   * `visit(FunctionDefinition)`: the function becomes current, parameters
   * not printed as bool, int or void are errors, the body's statements are
   * checked with the return checks, and a function whose last statement
   * returned is an error when its return type prints as "void".
   */
  function CheckFunction(st: CheckState, n: Node): (r: CheckState)
    requires n.FunctionDefinition? && Checkable(n, st.current.Some?) && CurrentOk(st)
    ensures Grows(st, r)
    decreases n, 0
  {
    var s1 := CheckParams(st.(current := Some(n.symbol)), n, n.parameters);
    var s2 := CheckBody(s1, n, n.statements.stmts);
    if s2.lastReturns && ToString(n.symbol.ty.value.ret) == "void" then
      AddError(s2, n, "Exists return when return type is not void using")
    else s2
  }

  /** The parameter loop of `visit(FunctionDefinition)`. */
  function CheckParams(st: CheckState, n: Node, ps: seq<Symbol>): (r: CheckState)
    requires n.FunctionDefinition? && forall i :: 0 <= i < |ps| ==> ps[i].ty.Some?
    ensures Grows(st, r) && r.types == st.types && r.current == st.current && r.lastReturns == st.lastReturns
    decreases ps
  {
    if |ps| == 0 then st
    else
      var name := ToString(ps[0].ty.value);
      var s1 := if !(name == "bool" || name == "int" || name == "void")
                then AddError(st, n, "Arguments is Invalid Type in Function Definition.") else st;
      CheckParams(s1, n, ps[1..])
  }

  /**
   * The body loop of `visit(FunctionDefinition)`: after a `return` with no
   * type the message says the return type is different; after one whose
   * type prints differently from the function's return type it says it is
   * not the same; both make the last statement count as not returning.
   */
  function CheckBody(st: CheckState, f: Node, xs: seq<Node>): (r: CheckState)
    requires f.FunctionDefinition? && f.symbol.ty.Some? && f.symbol.ty.value.FuncType?
    requires st.current.Some? && CurrentOk(st)
    requires forall i :: 0 <= i < |xs| ==> Checkable(xs[i], true)
    ensures Grows(st, r)
    decreases xs, 2
  {
    if |xs| == 0 then st
    else
      var c := xs[0];
      var s1 := Check(st, c);
      CheckBody(ReturnCheck(s1, f, c), f, xs[1..])
  }

  /**
   * The return checks of the body loop: a `return` with no type, or with a
   * type that prints differently from the function's return type, is an
   * error and makes the last statement count as not returning.
   */
  function ReturnCheck(st: CheckState, f: Node, c: Node): (r: CheckState)
    requires f.FunctionDefinition? && f.symbol.ty.Some? && f.symbol.ty.value.FuncType?
    ensures Grows(st, r) && r.types == st.types && r.current == st.current
    ensures !c.Return? ==> r == st
    ensures |r.errors| == |st.errors| <==>
            !c.Return? || (c in st.types && ToString(st.types[c]) == ToString(f.symbol.ty.value.ret))
  {
    if !c.Return? then st
    else if c !in st.types then
      AddError(st, c, "Function " + FunctionText(f) + " return type is different.").(lastReturns := false)
    else if ToString(st.types[c]) != ToString(f.symbol.ty.value.ret) then
      AddError(st, c, "Function " + FunctionText(f) + " return type is not same.").(lastReturns := false)
    else st
  }

  /** An expression the checker can type is checkable anywhere. */
  lemma ExprCheckable(e: Node, inFunction: bool)
    requires ExprOk(e)
    ensures Checkable(e, inFunction)
  {
  }

  /** A node checkable outside a function is checkable inside one. */
  lemma {:induction false} CheckableInFunction(n: Node)
    ensures Checkable(n, false) ==> Checkable(n, true)
    decreases n
  {
    if Checkable(n, false) && !IsExpression(n) {
      match n
      case DeclarationList(_, ds) =>
        forall i | 0 <= i < |ds| ensures Checkable(ds[i], true) { CheckableInFunction(ds[i]); }
      case StatementList(_, ss) =>
        forall i | 0 <= i < |ss| ensures Checkable(ss[i], true) { CheckableInFunction(ss[i]); }
      case IfElseBranch(_, _, t, e) =>
        CheckableInFunction(t);
        CheckableInFunction(e);
      case For(_, i, _, inc, b) =>
        CheckableInFunction(i);
        CheckableInFunction(inc);
        CheckableInFunction(b);
      case _ =>
    }
  }

  // ----------------------------------------------------------------- Lemmas

  // ------------------------------------------------------- Expression errors

  /**
   * The error list after checking an expression, starting from acc: its
   * operands' errors in visiting order, then its own.
   */
  function ErrorsAfter(acc: seq<TypeError>, e: Node): (r: seq<TypeError>)
    requires ExprOk(e)
    ensures |r| >= |acc|
    decreases e, 1
  {
    match e
    case VarAccess(_, s) => acc + ErrorOf(e, s.ty.value)
    case LiteralBool(_, _) => acc
    case LiteralInt(_, _) => acc
    case ArrayAccess(_, _, idx) => ErrorsAfter(acc, idx) + ErrorOf(e, ExprType(e))
    case Call(_, _, args) => ArgsErrorsAfter(acc, args) + ErrorOf(e, ExprType(e))
    case OpExpr(_, _, l, r) =>
      var a1 := ErrorsAfter(acc, l);
      var a2 := if r.Some? then ErrorsAfter(a1, r.value) else a1;
      a2 + ErrorOf(e, ExprType(e))
  }

  /** The error list after checking the arguments in order, starting from acc. */
  function ArgsErrorsAfter(acc: seq<TypeError>, es: seq<Node>): (r: seq<TypeError>)
    requires forall i :: 0 <= i < |es| ==> ExprOk(es[i])
    ensures |r| >= |acc|
    decreases es, 0
  {
    if |es| == 0 then acc else ArgsErrorsAfter(ErrorsAfter(acc, es[0]), es[1..])
  }

  /** Checking an expression records its reference type, whatever the checker's state. */
  lemma {:induction false} ExprTyped(st: CheckState, e: Node)
    requires ExprOk(e)
    ensures CheckExpr(st, e).types[e] == ExprType(e)
    decreases e, 1
  {
    match e
    case VarAccess(_, _) =>
    case LiteralBool(_, _) =>
    case LiteralInt(_, _) =>
    case ArrayAccess(_, _, idx) => ExprTyped(st, idx);
    case Call(_, _, args) => ArgsTyped(st, args);
    case OpExpr(_, _, l, r) =>
      ExprTyped(st, l);
      if r.Some? {
        ExprTyped(CheckExpr(st, l), r.value);
      }
  }

  /** The argument loop collects the arguments' reference types, in order. */
  lemma {:induction false} ArgsTyped(st: CheckState, xs: seq<Node>)
    requires forall i :: 0 <= i < |xs| ==> ExprOk(xs[i])
    ensures CheckArgs(st, xs).1 == ExprTypes(xs)
    decreases xs, 2
  {
    if |xs| > 0 {
      ExprTyped(st, xs[0]);
      ArgsTyped(CheckExpr(st, xs[0]), xs[1..]);
    }
  }

  /** Checking an expression leaves exactly the error list ErrorsAfter describes. */
  lemma {:induction false} ExprChecked(st: CheckState, e: Node)
    requires ExprOk(e)
    ensures CheckExpr(st, e).errors == ErrorsAfter(st.errors, e)
    decreases e, 1
  {
    ExprTyped(st, e);
    match e
    case VarAccess(_, _) =>
    case LiteralBool(_, _) =>
    case LiteralInt(_, _) =>
    case ArrayAccess(_, _, idx) => ExprChecked(st, idx);
    case Call(_, _, args) => ArgsChecked(st, args);
    case OpExpr(_, _, l, r) =>
      ExprChecked(st, l);
      if r.Some? {
        ExprChecked(CheckExpr(st, l), r.value);
      }
  }

  lemma {:induction false} ArgsChecked(st: CheckState, xs: seq<Node>)
    requires forall i :: 0 <= i < |xs| ==> ExprOk(xs[i])
    ensures CheckArgs(st, xs).0.errors == ArgsErrorsAfter(st.errors, xs)
    decreases xs, 2
  {
    if |xs| > 0 {
      ExprChecked(st, xs[0]);
      ArgsChecked(CheckExpr(st, xs[0]), xs[1..]);
    }
  }

  /** Every `!` is unary, as the parse-tree lowering builds it. */
  predicate NotsUnary(e: Node)
    requires ExprOk(e)
    decreases e
  {
    match e
    case ArrayAccess(_, _, idx) => NotsUnary(idx)
    case Call(_, _, args) => forall i :: 0 <= i < |args| ==> NotsUnary(args[i])
    case OpExpr(_, op, l, r) =>
      (op == LOGIC_NOT ==> r.None?) && NotsUnary(l) && (r.Some? ==> NotsUnary(r.value))
    case _ => true
  }

  lemma {:induction false} ExprTypesAt(es: seq<Node>, i: nat)
    requires forall k :: 0 <= k < |es| ==> ExprOk(es[k])
    requires i < |es|
    ensures ExprTypes(es)[i] == ExprType(es[i])
    decreases es
  {
    if i > 0 {
      ExprTypesAt(es[1..], i - 1);
    }
  }

  /**
   * An expression produces an error exactly when its own type is an
   * ErrorType: an ErrorType anywhere inside it makes every enclosing
   * operator, index and call an ErrorType too.
   */
  lemma {:induction false} ErrorIffErrorType(acc: seq<TypeError>, e: Node)
    requires ExprOk(e) && NotsUnary(e)
    ensures |ErrorsAfter(acc, e)| == |acc| <==> !ExprType(e).ErrorType?
    decreases e, 1
  {
    match e
    case VarAccess(_, _) =>
    case LiteralBool(_, _) =>
    case LiteralInt(_, _) =>
    case ArrayAccess(_, _, idx) =>
      ErrorIffErrorType(acc, idx);
    case Call(_, c, args) =>
      ArgsErrorIff(acc, args);
      if |ArgsErrorsAfter(acc, args)| != |acc| {
        var i :| 0 <= i < |args| && ExprType(args[i]).ErrorType?;
        ExprTypesAt(args, i);
        if |c.ty.value.args| == |args| {
          assert !ElementEquivalent(ExprTypes(args)[i], c.ty.value.args[i]);
        }
      }
    case OpExpr(_, _, l, r) =>
      ErrorIffErrorType(acc, l);
      if r.Some? {
        ErrorIffErrorType(ErrorsAfter(acc, l), r.value);
      }
  }

  lemma {:induction false} ArgsErrorIff(acc: seq<TypeError>, es: seq<Node>)
    requires forall i :: 0 <= i < |es| ==> ExprOk(es[i]) && NotsUnary(es[i])
    ensures |ArgsErrorsAfter(acc, es)| == |acc| <==> forall i :: 0 <= i < |es| ==> !ExprType(es[i]).ErrorType?
    decreases es, 0
  {
    if |es| > 0 {
      var a1 := ErrorsAfter(acc, es[0]);
      var rest := es[1..];
      ErrorIffErrorType(acc, es[0]);
      ArgsErrorIff(a1, rest);
      assert ArgsErrorsAfter(acc, es) == ArgsErrorsAfter(a1, rest);
      assert (forall i :: 0 <= i < |es| ==> !ExprType(es[i]).ErrorType?) <==>
             !ExprType(es[0]).ErrorType? && forall i :: 0 <= i < |rest| ==> !ExprType(rest[i]).ErrorType? by {
        assert forall i :: 1 <= i < |es| ==> es[i] == rest[i - 1];
      }
    }
  }

  // ------------------------------------------------------- Statement rules

  /** An assignment's type is the location type's `assign` of the value type; it never returns. */
  lemma AssignmentTyped(st: CheckState, n: Node)
    requires n.Assignment? && Checkable(n, st.current.Some?) && CurrentOk(st)
    ensures Check(st, n).types[n] == Assign(ExprType(n.location), ExprType(n.value))
    ensures !Check(st, n).lastReturns
  {
    ExprTyped(st, n.location);
    var s1 := CheckExpr(st, n.location);
    ExprTyped(s1, n.value);
  }

  /** A loop whose condition is not BoolType gets one error and none of its other parts is checked. */
  lemma ForBadCondition(st: CheckState, n: Node)
    requires n.For? && Checkable(n, st.current.Some?) && CurrentOk(st)
    requires !ExprType(n.cond).BoolType?
    ensures Check(st, n) == AddError(CheckExpr(st, n.cond), n, "For Loop's condition has to be Bool type")
  {
    ExprTyped(st, n.cond);
  }

  /** A loop whose condition is BoolType checks body, increment and init, in that order, and adds no error of its own. */
  lemma ForGoodCondition(st: CheckState, n: Node)
    requires n.For? && st.current.Some? && Checkable(n, true) && CurrentOk(st)
    requires ExprType(n.cond).BoolType?
    ensures var s1 := CheckExpr(st, n.cond);
            var s2 := Check(s1, n.body); var s3 := Check(s2, n.increment);
            Check(st, n) == Check(s3, n.init)
  {
    ExprTyped(st, n.cond);
  }

  /**
   * A statement list never carries a type, so after an if/else the last
   * statement never counts as returning.
   */
  lemma IfElseNeverReturns(st: CheckState, n: Node)
    requires n.IfElseBranch? && Checkable(n, st.current.Some?) && CurrentOk(st)
    requires n.thenBlock.StatementList? && NoBlockTypes(st.types)
    ensures !Check(st, n).lastReturns
  {
  }

  /** A variable declaration adds an error exactly when its type is neither int nor bool. */
  lemma VariableDeclarationError(st: CheckState, n: Node)
    requires n.VariableDeclaration? && n.symbol.ty.Some? && CurrentOk(st)
    ensures var r := Check(st, n);
      (r.errors == st.errors <==> n.symbol.ty.value.IntType? || n.symbol.ty.value.BoolType?) &&
      (r.errors != st.errors ==> r.errors == st.errors + [TypeError(n.pos, "variableDeclaration is Void type")]) &&
      r.types == st.types && !r.lastReturns
  {
  }

  /** After a `return` the last statement counts as returning. */
  lemma ReturnReturns(st: CheckState, n: Node)
    requires n.Return? && Checkable(n, st.current.Some?) && CurrentOk(st)
    ensures Check(st, n).lastReturns
  {
  }

  // ------------------------------------------------------------- The checker

  /**
   * `TypeChecker` and its inference visitor as one object: the error list
   * and the types stored on the nodes outlive a `check`, the current
   * function and the returned flag belong to the visitor each `check`
   * creates.  Every visit is proved to leave the state the walk above
   * describes.
   */
  class TypeChecker {
    var errors: seq<TypeError>
    var types: map<Node, Type>
    var current: Option<Symbol>
    var lastReturns: bool

    function State(): CheckState
      reads this
    {
      CheckState(errors, types, current, lastReturns)
    }

    constructor()
      ensures State() == CheckState([], map[], None, false)
    {
      errors := [];
      types := map[];
      current := None;
      lastReturns := false;
    }

    /** `getErrors`. */
    function GetErrors(): (r: seq<string>)
      reads this
      ensures |r| == |errors|
    {
      ErrorTexts(errors)
    }

    /** `check`: a fresh visitor walks the program. */
    method CheckProgram(ast: Node)
      requires ast.DeclarationList? && Checkable(ast, false)
      modifies this
      ensures State() == Check(CheckState(old(errors), old(types), None, false), ast)
    {
      current := None;
      lastReturns := false;
      Visit(ast);
    }

    /** `addTypeError`. */
    method AddTypeError(n: Node, message: string)
      modifies this
      ensures State() == AddError(old(State()), n, message)
    {
      errors := errors + [TypeError(n.pos, message)];
    }

    /** `setNodeType`. */
    method SetType(n: Node, t: Type)
      modifies this
      ensures State() == SetNodeType(old(State()), n, t)
    {
      types := types[n := t];
      if t.ErrorType? {
        AddTypeError(n, t.message);
      }
    }

    /** The visitor's dispatch on the node's kind. */
    method Visit(n: Node)
      requires Checkable(n, current.Some?) && CurrentOk(State())
      modifies this
      ensures State() == Check(old(State()), n)
      decreases n, 2
    {
      if IsExpression(n) {
        VisitExpr(n);
      } else {
        match n
        case DeclarationList(_, ds) => VisitList(ds);
        case StatementList(_, ss) => VisitList(ss);
        case FunctionDefinition(_, _, _, _) => VisitFunction(n);
        case VariableDeclaration(_, s) =>
          if !(s.ty.value.IntType? || s.ty.value.BoolType?) {
            AddTypeError(n, "variableDeclaration is Void type");
          }
          lastReturns := false;
        case ArrayDeclaration(_, s) =>
          var b := s.ty.value.base;
          if !b.BoolType? && !b.IntType? {
            AddTypeError(n, "arrayDeclaration is void type");
          } else {
            SetType(n, s.ty.value);
          }
          lastReturns := false;
        case Assignment(_, l, v) =>
          VisitExpr(l);
          var lt := types[l];
          VisitExpr(v);
          SetType(n, Assign(lt, types[v]));
          lastReturns := false;
        case Break(_) => lastReturns := false;
        case IfElseBranch(_, _, _, _) => VisitIf(n);
        case For(_, _, _, _, _) => VisitFor(n);
        case Return(_, _) => VisitReturn(n);
      }
    }

    /** The visits of the expression nodes. */
    method VisitExpr(e: Node)
      requires ExprOk(e)
      modifies this
      ensures State() == CheckExpr(old(State()), e)
      decreases e, 1
    {
      match e
      case VarAccess(_, s) => SetType(e, s.ty.value);
      case LiteralBool(_, _) => SetType(e, BoolType);
      case LiteralInt(_, _) => SetType(e, IntType);
      case ArrayAccess(_, b, idx) =>
        VisitExpr(idx);
        SetType(e, Index(b.ty.value, types[idx]));
      case Call(_, _, _) => VisitCall(e);
      case OpExpr(_, _, _, _) => VisitOp(e);
    }

    /** `visit(Call)`: the argument loop builds the TypeList the callee's type is called with. */
    method VisitCall(n: Node)
      requires n.Call? && ExprOk(n)
      modifies this
      ensures State() == CheckCall(old(State()), n)
      decreases n, 0
    {
      var args := n.arguments;
      var ts: seq<Type> := [];
      var i := 0;
      assert args[0..] == args;
      assert CheckArgs(old(State()), args).1 == ts + CheckArgs(old(State()), args).1;
      while i < |args|
        invariant 0 <= i <= |args|
        invariant var rest := CheckArgs(State(), args[i..]);
          CheckArgs(old(State()), args) == (rest.0, ts + rest.1)
      {
        ts := VisitArgument(args, i, ts);
        i := i + 1;
      }
      assert args[i..] == [];
      assert ts + [] == ts;
      SetType(n, CruxTypes.Call(n.callee.ty.value, TypeList(ts)));
      lastReturns := false;
    }

    /** One turn of the argument loop of `visit(Call)`: the argument is checked and its type appended. */
    method VisitArgument(args: seq<Node>, i: nat, ts: seq<Type>) returns (ts': seq<Type>)
      requires i < |args| && forall k :: 0 <= k < |args| ==> ExprOk(args[k])
      modifies this
      ensures args[i] in types && ts' == ts + [types[args[i]]]
      ensures var before := CheckArgs(old(State()), args[i..]);
              var after := CheckArgs(State(), args[i + 1..]);
              before == (after.0, before.1) && ts + before.1 == ts' + after.1
    {
      assert args[i..][0] == args[i] && args[i..][1..] == args[i + 1..];
      VisitExpr(args[i]);
      ghost var rest := CheckArgs(State(), args[i + 1..]);
      ConsAssoc(ts, types[args[i]], rest.1);
      ts' := ts + [types[args[i]]];
    }

    /** `visit(OpExpr)`: the operands, then the operator's rule on their types. */
    method VisitOp(n: Node)
      requires n.OpExpr? && ExprOk(n)
      modifies this
      ensures State() == CheckOp(old(State()), n)
      decreases n, 0
    {
      VisitExpr(n.left);
      var lt := types[n.left];
      var rt: Option<Type> := None;
      if n.right.Some? {
        VisitExpr(n.right.value);
        rt := Some(types[n.right.value]);
      }
      SetType(n, OpRule(n.op, lt, rt));
    }

    /** The declaration- and statement-list loops. */
    method VisitList(xs: seq<Node>)
      requires forall i :: 0 <= i < |xs| ==> Checkable(xs[i], current.Some?)
      requires CurrentOk(State())
      modifies this
      ensures State() == CheckAll(old(State()), xs)
      decreases xs, 2
    {
      var i := 0;
      while i < |xs|
        invariant 0 <= i <= |xs| && CurrentOk(State())
        invariant forall k :: i <= k < |xs| ==> Checkable(xs[k], current.Some?)
        invariant CheckAll(State(), xs[i..]) == CheckAll(old(State()), xs)
      {
        assert xs[i..][0] == xs[i] && xs[i..][1..] == xs[i + 1..];
        ghost var wasIn := current.Some?;
        Visit(xs[i]);
        if !wasIn {
          forall k | i < k < |xs| ensures Checkable(xs[k], current.Some?) {
            CheckableInFunction(xs[k]);
          }
        }
        i := i + 1;
      }
    }

    /** `visit(IfElseBranch)`. */
    method VisitIf(n: Node)
      requires n.IfElseBranch? && Checkable(n, current.Some?) && CurrentOk(State())
      modifies this
      ensures State() == CheckIf(old(State()), n)
      decreases n, 0
    {
      VisitCondition(n);
      Visit(n.elseBlock);
      CheckableInFunction(n.thenBlock);
      Visit(n.thenBlock);
      lastReturns := !(n.thenBlock !in types || ToString(types[n.thenBlock]) == "void");
    }

    /** The condition part of `visit(IfElseBranch)`. */
    method VisitCondition(n: Node)
      requires n.IfElseBranch? && ExprOk(n.condition)
      modifies this
      ensures State() == CheckCondition(old(State()), n)
    {
      VisitExpr(n.condition);
      if !types[n.condition].BoolType? {
        AddTypeError(n, "IfElseBranch's condition has to be Bool type");
      }
    }

    /** `visit(For)`. */
    method VisitFor(n: Node)
      requires n.For? && Checkable(n, current.Some?) && CurrentOk(State())
      modifies this
      ensures State() == CheckFor(old(State()), n)
      decreases n, 0
    {
      VisitExpr(n.cond);
      if !types[n.cond].BoolType? {
        AddTypeError(n, "For Loop's condition has to be Bool type");
      } else {
        Visit(n.body);
        CheckableInFunction(n.increment);
        CheckableInFunction(n.init);
        Visit(n.increment);
        Visit(n.init);
      }
    }

    /** `visit(Return)`. */
    method VisitReturn(n: Node)
      requires n.Return? && Checkable(n, current.Some?) && CurrentOk(State())
      modifies this
      ensures State() == CheckReturn(old(State()), n)
      decreases n, 0
    {
      var v := n.retValue.value;
      VisitExpr(v);
      var vt := types[v];
      if Equivalent(vt, current.value.ty.value) {
        AddTypeError(n, "Return type is Error");
      } else {
        SetType(n, vt);
      }
      lastReturns := true;
    }

    /** `visit(FunctionDefinition)`: the parameter loop, the body loop, then the void check. */
    method VisitFunction(n: Node)
      requires n.FunctionDefinition? && Checkable(n, current.Some?) && CurrentOk(State())
      modifies this
      ensures State() == CheckFunction(old(State()), n)
      decreases n, 1
    {
      current := Some(n.symbol);
      VisitParams(n);
      VisitBody(n);
      if lastReturns && ToString(n.symbol.ty.value.ret) == "void" {
        AddTypeError(n, "Exists return when return type is not void using");
      }
    }

    /** The parameter loop of `visit(FunctionDefinition)`. */
    method VisitParams(n: Node)
      requires n.FunctionDefinition? && forall i :: 0 <= i < |n.parameters| ==> n.parameters[i].ty.Some?
      modifies this
      ensures State() == CheckParams(old(State()), n, n.parameters)
    {
      var ps := n.parameters;
      var i := 0;
      while i < |ps|
        invariant 0 <= i <= |ps|
        invariant CheckParams(State(), n, ps[i..]) == CheckParams(old(State()), n, ps)
      {
        assert ps[i..][1..] == ps[i + 1..];
        var name := ToString(ps[i].ty.value);
        if !(name == "bool" || name == "int" || name == "void") {
          AddTypeError(n, "Arguments is Invalid Type in Function Definition.");
        }
        i := i + 1;
      }
    }

    /** The body loop of `visit(FunctionDefinition)`, with its two return checks. */
    method VisitBody(n: Node)
      requires n.FunctionDefinition? && n.symbol.ty.Some? && n.symbol.ty.value.FuncType?
      requires n.statements.StatementList?
      requires current.Some? && CurrentOk(State())
      requires forall i :: 0 <= i < |n.statements.stmts| ==> Checkable(n.statements.stmts[i], true)
      modifies this
      ensures State() == CheckBody(old(State()), n, n.statements.stmts)
      decreases n, 0
    {
      var xs := n.statements.stmts;
      var i := 0;
      while i < |xs|
        invariant 0 <= i <= |xs| && current.Some? && CurrentOk(State())
        invariant CheckBody(State(), n, xs[i..]) == CheckBody(old(State()), n, xs)
      {
        assert xs[i..][0] == xs[i] && xs[i..][1..] == xs[i + 1..];
        var c := xs[i];
        Visit(c);
        CheckReturnType(n, c);
        i := i + 1;
      }
    }

    /** The return checks after one statement of the body loop. */
    method CheckReturnType(n: Node, c: Node)
      requires n.FunctionDefinition? && n.symbol.ty.Some? && n.symbol.ty.value.FuncType?
      modifies this
      ensures State() == ReturnCheck(old(State()), n, c)
    {
      var ret := n.symbol.ty.value.ret;
      if c.Return? {
        if c !in types {
          AddTypeError(c, "Function " + FunctionText(n) + " return type is different.");
          lastReturns := false;
        } else if ToString(types[c]) != ToString(ret) {
          AddTypeError(c, "Function " + FunctionText(n) + " return type is not same.");
          lastReturns := false;
        }
      }
    }
  }

  lemma ConsAssoc<T>(a: seq<T>, x: T, b: seq<T>)
    ensures a + ([x] + b) == (a + [x]) + b
  {
  }
}
