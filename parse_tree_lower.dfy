/**
 * The lowering from parse tree to AST (`ParseTreeLower`): a walk over the
 * parse contexts that declares and resolves names in a symbol table as it
 * goes.  Every visit answers a node, or no node where the compiler answers
 * null or throws.
 */
module ParseTreeLowering {
  import opened Wrappers
  import opened CruxTypes
  import opened Symbols
  import opened Ast
  import opened ParseTree

  // ------------------------------------------------- Name resolution

  /** Every name the lowering of the expression looks up is declared in the scopes. */
  predicate ExprResolves(e: ExprCtx, scopes: seq<Scope>)
    decreases e
  {
    match e
    case Expression0(_, first, cmps) =>
      ExprResolves(first, scopes) && (|cmps| > 0 ==> ExprResolves(cmps[0].1, scopes))
    case Expression1(_, add, operand) =>
      ExprResolves(operand, scopes) && (add.Some? ==> ExprResolves(add.value.0, scopes))
    case Expression2(_, mul, operand) =>
      ExprResolves(operand, scopes) && (mul.Some? ==> ExprResolves(mul.value.0, scopes))
    case NotExpr(_, operand) => ExprResolves(operand, scopes)
    case ParenExpr(_, inner) => ExprResolves(inner, scopes)
    case DesignatorExpr(d) => DesignatorResolves(d, scopes)
    case CallExpr(c) => CallResolves(c, scopes)
    case Literal(_, _) => true
  }

  /**
   * Only the first comparison of an `expression0` is lowered: comparisons
   * after it (`a < b < c`) change neither the tree nor which names must
   * resolve, so an undeclared name among them records no error.
   */
  lemma ComparisonTailIgnored(pos: Position, first: ExprCtx, cmps: seq<(string, ExprCtx)>,
                              more: seq<(string, ExprCtx)>, scopes: seq<Scope>)
    requires |cmps| > 0 && |more| > 0 && more[0] == cmps[0]
    ensures ExpectedExpr(Expression0(pos, first, more)) == ExpectedExpr(Expression0(pos, first, cmps))
    ensures ExprResolves(Expression0(pos, first, more), scopes) == ExprResolves(Expression0(pos, first, cmps), scopes)
  {
  }

  /** Only the first index of a designator is lowered, so only its names count. */
  predicate DesignatorResolves(d: DesignatorCtx, scopes: seq<Scope>)
    decreases d
  {
    Resolve(scopes, d.name).Some? && (|d.indices| > 0 ==> ExprResolves(d.indices[0], scopes))
  }

  predicate CallResolves(c: CallCtx, scopes: seq<Scope>)
    decreases c
  {
    Resolve(scopes, c.name).Some? && forall i :: 0 <= i < |c.args| ==> ExprResolves(c.args[i], scopes)
  }

  predicate AssignResolves(a: AssignCtx, scopes: seq<Scope>)
  {
    DesignatorResolves(a.target, scopes) && ExprResolves(a.value, scopes)
  }

  /**
   * What a statement list may do to the scopes: the same depth, the outer
   * scopes untouched, and names only ever added to the innermost one.
   */
  predicate InnermostGrows(before: seq<Scope>, after: seq<Scope>)
  {
    |after| == |before| >= 1 &&
    after[..|after| - 1] == before[..|before| - 1] &&
    before[|before| - 1].Keys <= after[|after| - 1].Keys
  }

  /**
   * The symbol a use of name is bound to by `symTab.lookup`: the innermost
   * declaration of the name, or a new error symbol when there is none.
   */
  predicate BoundTo(s: Symbol, scopes: seq<Scope>, name: string)
  {
    (Resolve(scopes, name).Some? ==> s == Resolve(scopes, name).value) &&
    (Resolve(scopes, name).None? ==>
      s.name == name && s.ty.None? && s.error == Some("ResolveSymbolError"))
  }

  /** The symbol an access node reads. */
  function AccessedSymbol(n: Node): Symbol
    requires n.VarAccess? || n.ArrayAccess?
  {
    if n.VarAccess? then n.symbol else n.base
  }

  /** The type a function's symbol is declared with: its parameter types and declared return type. */
  predicate HasSignature(s: Symbol, d: DeclCtx)
    requires d.FuncDef?
  {
    s.ty.Some? && s.ty.value.FuncType? &&
    s.ty.value.args == ParamTypes(d.params) && s.ty.value.ret == DeclaredReturnType(d)
  }

  /** The innermost scope of a non-empty scope stack, or the empty scope. */
  function Innermost(scopes: seq<Scope>): Scope
  {
    if |scopes| == 0 then map[] else scopes[|scopes| - 1]
  }

  // ---------------------------------------------------------- The walk

  class ParseTreeLower {
    const symTab: SymbolTable

    /** A lowering with a fresh symbol table holding only the built-ins. */
    constructor ()
      ensures fresh(symTab) && Valid()
      ensures |symTab.scopes| == 1 && symTab.scopes[0].Keys == BuiltinNames && !symTab.encounteredError
    {
      symTab := new SymbolTable();
    }

    /** At least the global scope, and every symbol filed under its own name. */
    predicate Valid()
      reads this, symTab
    {
      |symTab.scopes| >= 1 && NamesMatch(symTab.scopes)
    }

    /** `hasEncounteredError`: the symbol table's error flag. */
    method HasEncounteredError() returns (b: bool)
      ensures b == symTab.encounteredError
    {
      b := symTab.HasEncounteredError();
    }

    /**
     * `lower(ProgramContext)`: each declaration in order, into the
     * innermost scope; no program once any symbol error has occurred.
     */
    method Lower(p: ProgramCtx) returns (r: Option<Node>)
      requires Valid()
      modifies symTab
      ensures Valid() && InnermostGrows(old(symTab.scopes), symTab.scopes)
      ensures symTab.encounteredError ==> r.None?
      ensures !symTab.encounteredError ==> EraseOpt(r) == ExpectedProgram(p)
    {
      var items: seq<Node> := [];
      var ok := true;
      var i := 0;
      assert p.decls[0..] == p.decls;
      PrependNothing(ExpectedDecls(p.decls));
      while i < |p.decls|
        invariant 0 <= i <= |p.decls|
        invariant Valid() && InnermostGrows(old(symTab.scopes), symTab.scopes)
        invariant !symTab.encounteredError ==>
          ExpectedDecls(p.decls) == if ok then Prepend(EraseAll(items), ExpectedDecls(p.decls[i..])) else None
      {
        assert p.decls[i..][1..] == p.decls[i + 1..];
        PrependCons(EraseAll(items), ExpectedDecl(p.decls[i]), ExpectedDecls(p.decls[i + 1..]));
        var d := VisitDecl(p.decls[i]);
        if d.Some? {
          EraseAllSnoc(items, d.value);
          items := items + [d.value];
        } else {
          ok := false;
        }
        i := i + 1;
      }
      var failed := HasEncounteredError();
      if failed || !ok {
        return None;
      }
      assert p.decls[i..] == [];
      assert EraseAll(items) + [] == EraseAll(items);
      r := Some(DeclarationList(p.pos, items));
    }

    /** `lower(StatementListContext)`: each statement in order; no list once any symbol error has occurred. */
    method LowerList(b: BlockCtx) returns (r: Option<Node>)
      requires Valid()
      modifies symTab
      ensures Valid() && InnermostGrows(old(symTab.scopes), symTab.scopes)
      ensures old(symTab.encounteredError) ==> symTab.encounteredError
      ensures symTab.encounteredError ==> r.None?
      ensures !symTab.encounteredError ==> EraseOpt(r) == ExpectedBlock(b)
      decreases b, 0
    {
      var items: seq<Node> := [];
      var ok := true;
      var i := 0;
      assert b.stmts[0..] == b.stmts;
      PrependNothing(ExpectedStmts(b.stmts));
      while i < |b.stmts|
        invariant 0 <= i <= |b.stmts|
        invariant Valid() && InnermostGrows(old(symTab.scopes), symTab.scopes)
        invariant old(symTab.encounteredError) ==> symTab.encounteredError
        invariant !symTab.encounteredError ==>
          ExpectedStmts(b.stmts) == if ok then Prepend(EraseAll(items), ExpectedStmts(b.stmts[i..])) else None
      {
        assert b.stmts[i..][1..] == b.stmts[i + 1..];
        PrependCons(EraseAll(items), ExpectedStmt(b.stmts[i]), ExpectedStmts(b.stmts[i + 1..]));
        var s := VisitStmt(b.stmts[i]);
        if s.Some? {
          EraseAllSnoc(items, s.value);
          items := items + [s.value];
        } else {
          ok := false;
        }
        i := i + 1;
      }
      var failed := HasEncounteredError();
      if failed || !ok {
        return None;
      }
      assert b.stmts[i..] == [];
      assert EraseAll(items) + [] == EraseAll(items);
      r := Some(StatementList(b.pos, items));
    }

    /** `lower(StatementBlockContext)`: the list inside a scope of its own, so the scopes come back as they were. */
    method LowerBlock(b: BlockCtx) returns (r: Option<Node>)
      requires Valid()
      modifies symTab
      ensures Valid() && symTab.scopes == old(symTab.scopes)
      ensures old(symTab.encounteredError) ==> symTab.encounteredError
      ensures symTab.encounteredError ==> r.None?
      ensures !symTab.encounteredError ==> EraseOpt(r) == ExpectedBlock(b)
      decreases b, 1
    {
      ghost var outer := symTab.scopes;
      symTab.Enter();
      assert symTab.scopes[..|symTab.scopes| - 1] == outer;
      r := LowerList(b);
      symTab.Exit();
    }

    // ------------------------------------------------- Declarations

    method VisitDecl(d: DeclCtx) returns (r: Option<Node>)
      requires Valid()
      modifies symTab
      ensures Valid() && InnermostGrows(old(symTab.scopes), symTab.scopes)
      ensures old(symTab.encounteredError) ==> symTab.encounteredError
      ensures !symTab.encounteredError ==> EraseOpt(r) == ExpectedDecl(d)
    {
      match d
      case VarDecl(pos, name, typeName) =>
        r := VisitVariableDeclaration(pos, name, typeName);
      case ArrayDecl(_, _, _, _) =>
        r := VisitArrayDeclaration(d);
      case FuncDef(_, _, _, _, _) =>
        r := VisitFunctionDefinition(d);
    }

    /**
     * `visitVariableDeclaration`: declare the name with the named type in
     * the innermost scope; a redeclaration there is a symbol error.
     */
    method VisitVariableDeclaration(pos: Position, name: string, typeName: string) returns (r: Option<Node>)
      requires Valid()
      modifies symTab
      ensures Valid() && InnermostGrows(old(symTab.scopes), symTab.scopes)
      ensures r.Some? && r.value.VariableDeclaration? && r.value.pos == pos && r.value.symbol.name == name
      ensures name in old(symTab.scopes[|symTab.scopes| - 1]) ==>
        symTab.scopes == old(symTab.scopes) && symTab.encounteredError &&
        r.value.symbol.error == Some("DeclareSymbolError")
      ensures name !in old(symTab.scopes[|symTab.scopes| - 1]) ==>
        Resolve(symTab.scopes, name) == Some(r.value.symbol) &&
        r.value.symbol.ty == Some(TypeNamed(typeName)) &&
        symTab.encounteredError == old(symTab.encounteredError)
    {
      ghost var before := symTab.scopes;
      var s := symTab.Add(name, TypeNamed(typeName));
      if name !in before[|before| - 1] {
        AddShadows(before, name, s, name);
        assert symTab.scopes[..|before| - 1] == before[..|before| - 1];
      }
      r := Some(VariableDeclaration(pos, s));
    }

    /**
     * `visitArrayDeclaration`: the size is parsed as a long before anything
     * is declared; a size that does not parse throws, declaring nothing.
     */
    method VisitArrayDeclaration(d: DeclCtx) returns (r: Option<Node>)
      requires d.ArrayDecl? && Valid()
      modifies symTab
      ensures Valid() && InnermostGrows(old(symTab.scopes), symTab.scopes)
      ensures ParseLong(d.size).None? ==>
        r.None? && symTab.scopes == old(symTab.scopes) && symTab.encounteredError == old(symTab.encounteredError)
      ensures ParseLong(d.size).Some? ==>
        r.Some? && r.value.ArrayDeclaration? && r.value.pos == d.pos && r.value.symbol.name == d.name
      ensures ParseLong(d.size).Some? && d.name in old(symTab.scopes[|symTab.scopes| - 1]) ==>
        symTab.scopes == old(symTab.scopes) && symTab.encounteredError
      ensures ParseLong(d.size).Some? && d.name !in old(symTab.scopes[|symTab.scopes| - 1]) ==>
        Resolve(symTab.scopes, d.name) == Some(r.value.symbol) &&
        r.value.symbol.ty == Some(ArrayType(ParseLong(d.size).value, TypeNamed(d.typeName))) &&
        symTab.encounteredError == old(symTab.encounteredError)
    {
      var size := ParseLong(d.size);
      if size.None? {
        return None;
      }
      ghost var before := symTab.scopes;
      var s := symTab.Add(d.name, ArrayType(size.value, TypeNamed(d.typeName)));
      if d.name !in before[|before| - 1] {
        AddShadows(before, d.name, s, d.name);
        assert symTab.scopes[..|before| - 1] == before[..|before| - 1];
      }
      r := Some(ArrayDeclaration(d.pos, s));
    }

    /**
     * `visitFunctionDefinition`: declare the function in the innermost
     * scope with its parameter types and declared return type, then lower
     * the parameters and the body's statements in one new scope.
     */
    method VisitFunctionDefinition(d: DeclCtx) returns (r: Option<Node>)
      requires d.FuncDef? && Valid()
      modifies symTab
      ensures Valid() && InnermostGrows(old(symTab.scopes), symTab.scopes)
      ensures old(symTab.encounteredError) ==> symTab.encounteredError
      ensures !symTab.encounteredError ==> EraseOpt(r) == ExpectedDecl(d)
      ensures !symTab.encounteredError && r.Some? ==>
        r.value.FunctionDefinition? &&
        Resolve(symTab.scopes, d.name) == Some(r.value.symbol) && HasSignature(r.value.symbol, d)
    {
      var fsym := DeclareFunction(d);
      ghost var outer := symTab.scopes;
      symTab.Enter();
      assert symTab.scopes[..|symTab.scopes| - 1] == outer;
      var params := DeclareParams(d.params);
      var body := LowerList(d.body);
      symTab.Exit();
      assert symTab.scopes == outer;
      if body.Some? {
        r := Some(FunctionDefinition(d.pos, fsym, params, body.value));
      } else {
        r := None;
      }
    }

    /** The function's own symbol, declared in the innermost scope with its signature. */
    method DeclareFunction(d: DeclCtx) returns (fsym: Symbol)
      requires d.FuncDef? && Valid()
      modifies symTab
      ensures Valid() && InnermostGrows(old(symTab.scopes), symTab.scopes)
      ensures fsym.name == d.name
      ensures old(symTab.encounteredError) ==> symTab.encounteredError
      ensures !symTab.encounteredError ==>
        Resolve(symTab.scopes, d.name) == Some(fsym) && HasSignature(fsym, d)
    {
      var argTypes := ParamTypeList(d.params);
      var id := new TypeId();
      ghost var before := symTab.scopes;
      fsym := symTab.Add(d.name, FuncType(argTypes, DeclaredReturnType(d), id));
      if d.name !in before[|before| - 1] {
        AddShadows(before, d.name, fsym, d.name);
        assert symTab.scopes[..|before| - 1] == before[..|before| - 1];
      }
    }

    /** The loop building the function's TypeList: one type per parameter, in order. */
    method ParamTypeList(ps: seq<ParamCtx>) returns (ts: seq<Type>)
      ensures ts == ParamTypes(ps)
    {
      ts := [];
      for j := 0 to |ps|
        invariant |ts| == j && forall k :: 0 <= k < j ==> ts[k] == TypeNamed(ps[k].typeName)
      {
        ts := ts + [TypeNamed(ps[j].typeName)];
      }
    }

    /** The parameters declared in order in the innermost scope, a symbol for each. */
    method DeclareParams(ps: seq<ParamCtx>) returns (syms: seq<Symbol>)
      requires Valid()
      modifies symTab
      ensures Valid() && InnermostGrows(old(symTab.scopes), symTab.scopes)
      ensures old(symTab.encounteredError) ==> symTab.encounteredError
      ensures Names(syms) == ParamNames(ps)
      ensures forall k :: 0 <= k < |syms| ==>
        syms[k].ty == Some(TypeNamed(ps[k].typeName)) ||
        (syms[k].ty.None? && syms[k].error == Some("DeclareSymbolError") && symTab.encounteredError)
      ensures !symTab.encounteredError ==> forall k :: 0 <= k < |syms| ==>
        syms[k].ty == Some(TypeNamed(ps[k].typeName)) &&
        ps[k].name in Innermost(symTab.scopes) && Innermost(symTab.scopes)[ps[k].name] == syms[k] &&
        Resolve(symTab.scopes, ps[k].name) == Some(syms[k])
    {
      syms := [];
      for j := 0 to |ps|
        invariant Valid() && InnermostGrows(old(symTab.scopes), symTab.scopes)
        invariant old(symTab.encounteredError) ==> symTab.encounteredError
        invariant |syms| == j && forall k :: 0 <= k < j ==> syms[k].name == ps[k].name
        invariant forall k :: 0 <= k < j ==>
          syms[k].ty == Some(TypeNamed(ps[k].typeName)) ||
          (syms[k].ty.None? && syms[k].error == Some("DeclareSymbolError") && symTab.encounteredError)
        invariant !symTab.encounteredError ==> forall k :: 0 <= k < j ==>
          syms[k].ty == Some(TypeNamed(ps[k].typeName)) &&
          ps[k].name in Innermost(symTab.scopes) && Innermost(symTab.scopes)[ps[k].name] == syms[k]
      {
        ghost var before := symTab.scopes;
        var s := symTab.Add(ps[j].name, TypeNamed(ps[j].typeName));
        assert symTab.scopes[..|before| - 1] == before[..|before| - 1];
        syms := syms + [s];
      }
      forall k | 0 <= k < |syms| && !symTab.encounteredError
        ensures Resolve(symTab.scopes, ps[k].name) == Some(syms[k])
      {
      }
    }

    // --------------------------------------------------- Statements

    /** A statement; only a variable declaration changes the scopes, and only the innermost one. */
    method VisitStmt(s: StmtCtx) returns (r: Option<Node>)
      requires Valid()
      modifies symTab
      ensures Valid() && InnermostGrows(old(symTab.scopes), symTab.scopes)
      ensures !s.VarDeclStmt? ==> symTab.scopes == old(symTab.scopes)
      ensures old(symTab.encounteredError) ==> symTab.encounteredError
      ensures !symTab.encounteredError ==> EraseOpt(r) == ExpectedStmt(s)
      decreases s, 1
    {
      match s
      case VarDeclStmt(pos, name, typeName) =>
        r := VisitVariableDeclaration(pos, name, typeName);
        assert EraseOpt(r) == Some(TVarDecl(pos, name));
      case CallStmt(c) =>
        r := VisitCall(c);
        assert EraseOpt(r) == ExpectedCall(c);
      case AssignStmt(a) =>
        r := VisitAssignment(a);
        assert EraseOpt(r) == ExpectedAssign(a);
      case IfStmt(_, _, _, _) =>
        r := VisitIf(s);
      case ForStmt(_, _, _, _, _) =>
        r := VisitFor(s);
      case BreakStmt(pos) =>
        r := Some(Break(pos));
        assert EraseOpt(r) == Some(TBreak(pos));
      case ReturnStmt(pos, value) =>
        var v := VisitExpr(value);
        if v.Some? {
          r := Some(Return(pos, Some(v.value)));
          assert Erase(r.value) == TReturn(pos, Some(Erase(v.value)));
        } else {
          r := None;
        }
    }

    /** `visitAssignmentStatement`: the designator, then the value. */
    method VisitAssignment(a: AssignCtx) returns (r: Option<Node>)
      requires Valid()
      modifies symTab
      ensures Valid() && symTab.scopes == old(symTab.scopes)
      ensures symTab.encounteredError == (old(symTab.encounteredError) || !AssignResolves(a, symTab.scopes))
      ensures EraseOpt(r) == ExpectedAssign(a)
      decreases a
    {
      var l := VisitDesignator(a.target);
      var v := VisitExpr(a.value);
      r := if l.Some? && v.Some? then Some(Assignment(a.pos, l.value, v.value)) else None;
    }

    /**
     * `visitIfStatement`: the condition, then the blocks; with a single
     * block the else branch is an empty statement list at the if's position.
     */
    method VisitIf(s: StmtCtx) returns (r: Option<Node>)
      requires s.IfStmt? && Valid()
      modifies symTab
      ensures Valid() && symTab.scopes == old(symTab.scopes)
      ensures old(symTab.encounteredError) ==> symTab.encounteredError
      ensures !symTab.encounteredError ==> EraseOpt(r) == ExpectedStmt(s)
      decreases s, 0
    {
      var c := VisitExpr(s.cond);
      var t, e;
      if |s.elseBlocks| >= 1 {
        t := LowerBlock(s.thenBlock);
        e := LowerBlock(s.elseBlocks[0]);
      } else {
        e := Some(StatementList(s.pos, []));
        assert Erase(e.value) == TStmts(s.pos, []);
        t := LowerBlock(s.thenBlock);
      }
      assert !symTab.encounteredError ==>
        EraseOpt(c) == ExpectedExpr(s.cond) && EraseOpt(t) == ExpectedBlock(s.thenBlock) &&
        EraseOpt(e) == if |s.elseBlocks| >= 1 then ExpectedBlock(s.elseBlocks[0]) else Some(TStmts(s.pos, []));
      r := if c.Some? && t.Some? && e.Some? then Some(IfElseBranch(s.pos, c.value, t.value, e.value)) else None;
    }

    /**
     * `visitForStatement`: initialisation, condition, increment and body,
     * all inside one new scope, the body in a further one of its own.
     */
    method VisitFor(s: StmtCtx) returns (r: Option<Node>)
      requires s.ForStmt? && Valid()
      modifies symTab
      ensures Valid() && symTab.scopes == old(symTab.scopes)
      ensures old(symTab.encounteredError) ==> symTab.encounteredError
      ensures !symTab.encounteredError ==> EraseOpt(r) == ExpectedStmt(s)
      decreases s, 0
    {
      ghost var outer := symTab.scopes;
      symTab.Enter();
      var init := VisitAssignment(s.init);
      var cond := VisitExpr(s.cond);
      var inc := VisitAssignment(s.increment);
      var body := LowerBlock(s.body);
      assert symTab.scopes[..|symTab.scopes| - 1] == outer;
      symTab.Exit();
      r := if init.Some? && cond.Some? && inc.Some? && body.Some?
        then Some(For(s.pos, init.value, cond.value, inc.value, body.value))
        else None;
    }

    // -------------------------------------------------- Expressions

    /**
     * An expression: the tree the context calls for, with the scopes
     * unchanged and a symbol error recorded iff some looked-up name is
     * undeclared.
     */
    method VisitExpr(e: ExprCtx) returns (r: Option<Node>)
      requires Valid()
      modifies symTab
      ensures Valid() && symTab.scopes == old(symTab.scopes)
      ensures symTab.encounteredError == (old(symTab.encounteredError) || !ExprResolves(e, symTab.scopes))
      ensures EraseOpt(r) == ExpectedExpr(e)
      decreases e, 1
    {
      match e
      case Expression0(_, _, _) =>
        r := VisitExpression0(e);
      case Expression1(_, _, _) =>
        r := VisitExpression1(e);
      case Expression2(_, _, _) =>
        r := VisitExpression2(e);
      case NotExpr(pos, operand) =>
        var inner := VisitExpr(operand);
        r := if inner.Some? then Some(OpExpr(pos, LOGIC_NOT, inner.value, None)) else None;
      case ParenExpr(_, inner) =>
        r := VisitExpr(inner);
      case DesignatorExpr(d) =>
        r := VisitDesignator(d);
      case CallExpr(c) =>
        r := VisitCall(c);
      case Literal(pos, text) =>
        r := LiteralNode(pos, text);
    }

    /**
     * `visitExpression0`: the first operand, and a comparison with the
     * second when there is one; further comparisons are not lowered.
     */
    method VisitExpression0(e: ExprCtx) returns (r: Option<Node>)
      requires e.Expression0? && Valid()
      modifies symTab
      ensures Valid() && symTab.scopes == old(symTab.scopes)
      ensures symTab.encounteredError == (old(symTab.encounteredError) || !ExprResolves(e, symTab.scopes))
      ensures EraseOpt(r) == ExpectedExpr(e)
      decreases e, 0
    {
      var left := VisitExpr(e.first);
      if |e.comparisons| == 0 {
        return left;
      }
      var right := VisitExpr(e.comparisons[0].1);
      var op := ComparisonOp(e.comparisons[0].0);
      r := if op.Some? && left.Some? && right.Some? then Some(OpExpr(e.pos, op.value, left.value, Some(right.value))) else None;
    }

    /**
     * `visitExpression1`: the right operand is lowered first on its own,
     * and lowered again after the left operand when there is an operator.
     */
    method VisitExpression1(e: ExprCtx) returns (r: Option<Node>)
      requires e.Expression1? && Valid()
      modifies symTab
      ensures Valid() && symTab.scopes == old(symTab.scopes)
      ensures symTab.encounteredError == (old(symTab.encounteredError) || !ExprResolves(e, symTab.scopes))
      ensures EraseOpt(r) == ExpectedExpr(e)
      decreases e, 0
    {
      var mine := VisitExpr(e.operand);
      if e.additive.None? {
        return mine;
      }
      var left := VisitExpr(e.additive.value.0);
      var right := VisitExpr(e.operand);
      var op := AdditiveOp(e.additive.value.1);
      r := if op.Some? && left.Some? && right.Some? then Some(OpExpr(e.pos, op.value, left.value, Some(right.value))) else None;
    }

    /** `visitExpression2`: as `visitExpression1`, with the multiplicative operators. */
    method VisitExpression2(e: ExprCtx) returns (r: Option<Node>)
      requires e.Expression2? && Valid()
      modifies symTab
      ensures Valid() && symTab.scopes == old(symTab.scopes)
      ensures symTab.encounteredError == (old(symTab.encounteredError) || !ExprResolves(e, symTab.scopes))
      ensures EraseOpt(r) == ExpectedExpr(e)
      decreases e, 0
    {
      var mine := VisitExpr(e.operand);
      if e.multiplicative.None? {
        return mine;
      }
      var left := VisitExpr(e.multiplicative.value.0);
      var right := VisitExpr(e.operand);
      var op := MultiplicativeOp(e.multiplicative.value.1);
      r := if left.Some? && right.Some? then Some(OpExpr(e.pos, op, left.value, Some(right.value))) else None;
    }

    /** `visitCallExpression`: look the callee up, then lower the arguments left to right. */
    method VisitCall(c: CallCtx) returns (r: Option<Node>)
      requires Valid()
      modifies symTab
      ensures Valid() && symTab.scopes == old(symTab.scopes)
      ensures symTab.encounteredError == (old(symTab.encounteredError) || !CallResolves(c, symTab.scopes))
      ensures EraseOpt(r) == ExpectedCall(c)
      ensures r.Some? ==> r.value.Call? && BoundTo(r.value.callee, symTab.scopes, c.name)
      ensures r.Some? && Resolve(symTab.scopes, c.name).None? ==> fresh(r.value.callee)
      decreases c
    {
      var callee := symTab.Lookup(c.name);
      var ok, args := VisitArgs(c.args);
      r := if ok then Some(Call(c.pos, callee, args)) else None;
    }

    /** The argument loop of `visitCallExpression`: each argument in order, left to right. */
    method VisitArgs(es: seq<ExprCtx>) returns (ok: bool, args: seq<Node>)
      requires Valid()
      modifies symTab
      ensures Valid() && symTab.scopes == old(symTab.scopes)
      ensures symTab.encounteredError ==
        (old(symTab.encounteredError) || exists j :: 0 <= j < |es| && !ExprResolves(es[j], symTab.scopes))
      ensures ExpectedExprs(es) == if ok then Some(EraseAll(args)) else None
      decreases es
    {
      args := [];
      ok := true;
      var i := 0;
      assert es[0..] == es;
      PrependNothing(ExpectedExprs(es));
      while i < |es|
        invariant 0 <= i <= |es|
        invariant Valid() && symTab.scopes == old(symTab.scopes)
        invariant symTab.encounteredError ==
          (old(symTab.encounteredError) || exists j :: 0 <= j < i && !ExprResolves(es[j], symTab.scopes))
        invariant ExpectedExprs(es) == if ok then Prepend(EraseAll(args), ExpectedExprs(es[i..])) else None
      {
        assert es[i..][1..] == es[i + 1..];
        PrependCons(EraseAll(args), ExpectedExpr(es[i]), ExpectedExprs(es[i + 1..]));
        var a := VisitExpr(es[i]);
        if a.Some? {
          EraseAllSnoc(args, a.value);
          args := args + [a.value];
        } else {
          ok := false;
        }
        i := i + 1;
      }
      assert es[i..] == [];
      assert EraseAll(args) + [] == EraseAll(args);
    }

    /** `visitDesignator`: a variable access, or the first index lowered and then the name looked up. */
    method VisitDesignator(d: DesignatorCtx) returns (r: Option<Node>)
      requires Valid()
      modifies symTab
      ensures Valid() && symTab.scopes == old(symTab.scopes)
      ensures symTab.encounteredError == (old(symTab.encounteredError) || !DesignatorResolves(d, symTab.scopes))
      ensures EraseOpt(r) == ExpectedDesignator(d)
      ensures r.Some? ==> r.value.VarAccess? || r.value.ArrayAccess?
      ensures r.Some? ==> BoundTo(AccessedSymbol(r.value), symTab.scopes, d.name)
      ensures r.Some? && Resolve(symTab.scopes, d.name).None? ==> fresh(AccessedSymbol(r.value))
      decreases d
    {
      if |d.indices| == 0 {
        var s := symTab.Lookup(d.name);
        r := Some(VarAccess(d.pos, s));
      } else {
        var index := VisitExpr(d.indices[0]);
        var s := symTab.Lookup(d.name);
        r := if index.Some? then Some(ArrayAccess(d.pos, s, index.value)) else None;
      }
    }
  }
}
