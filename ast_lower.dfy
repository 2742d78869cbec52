/**
 * ASTLower: the typed AST of a program is turned into a control-flow graph of
 * instructions per function.  Every construct lowers to a fragment (InstPair):
 * an entry node, an exit node and, for expressions, the LocalVar holding the
 * value.  Fragments are wired through the successor slots of the arena nodes.
 *
 * A visit that would throw in the compiler (a null operand passed to an
 * instruction constructor, a failed cast, `record.pop()` on an empty stack, a
 * null fragment used by the parent) returns None here.
 */
module AstLowering {
  import opened Wrappers
  import opened CruxTypes
  import opened Symbols
  import opened Ast
  import opened Ir

  /** `InstPair`: entry node, exit node, and the value's LocalVar (null for statements). */
  datatype InstPair = InstPair(start: nat, end: nat, value: Option<Value>)

  /**
   * A fragment lowered while the arena grew from lo to hi nodes: its exit is
   * one of the new nodes, its entry is a node of the arena, and its value, if
   * any, is a LocalVar.
   */
  predicate Made(lo: nat, hi: nat, p: InstPair)
  {
    lo <= p.end < hi && p.start < hi && (p.value.Some? ==> p.value.value.LocalVar?)
  }

  /** The placeholder a fragment output holds when that part was not lowered. */
  const Unlowered: InstPair := InstPair(0, 0, None)

  /** For loops minus breaks in n: how much lowering n grows the `record` stack. */
  function RecordDelta(n: Node): int
    decreases n, 1
  {
    match n
    case DeclarationList(_, ds) => RecordDeltaAll(ds)
    case FunctionDefinition(_, _, _, body) => RecordDelta(body)
    case VariableDeclaration(_, _) => 0
    case ArrayDeclaration(_, _) => 0
    case StatementList(_, ss) => RecordDeltaAll(ss)
    case Assignment(_, l, v) => RecordDelta(l) + RecordDelta(v)
    case Call(_, _, args) => RecordDeltaAll(args)
    case IfElseBranch(_, c, t, e) => RecordDelta(c) + RecordDelta(t) + RecordDelta(e)
    case For(_, i, c, inc, b) => 1 + RecordDelta(i) + RecordDelta(c) + RecordDelta(b) + RecordDelta(inc)
    case Break(_) => -1
    case Return(_, v) => if v.Some? then RecordDelta(v.value) else 0
    case VarAccess(_, _) => 0
    case ArrayAccess(_, _, idx) => RecordDelta(idx)
    case LiteralBool(_, _) => 0
    case LiteralInt(_, _) => 0
    case OpExpr(_, _, l, r) => RecordDelta(l) + (if r.Some? then RecordDelta(r.value) else 0)
  }

  function RecordDeltaAll(ns: seq<Node>): int
    decreases ns, 0
  {
    if |ns| == 0 then 0 else RecordDeltaAll(ns[..|ns| - 1]) + RecordDelta(ns[|ns| - 1])
  }

  /** The values of fragments that all have one. */
  function Present(vs: seq<Option<Value>>): (r: seq<Value>)
    requires forall k :: 0 <= k < |vs| ==> vs[k].Some?
    ensures |r| == |vs| && forall k :: 0 <= k < |vs| ==> r[k] == vs[k].value
  {
    if |vs| == 0 then [] else Present(vs[..|vs| - 1]) + [vs[|vs| - 1].value]
  }

  /** The values of a sequence of fragments. */
  function ValuesOf(ps: seq<InstPair>): (r: seq<Option<Value>>)
    ensures |r| == |ps| && forall k :: 0 <= k < |ps| ==> r[k] == ps[k].value
  {
    if |ps| == 0 then [] else ValuesOf(ps[..|ps| - 1]) + [ps[|ps| - 1].value]
  }

  /** The Predicate an operator lowers to: the six comparison symbols. */
  function ComparePredicate(op: Operation): (r: Option<Predicate>)
    ensures r.Some? <==> IsComparison(op)
  {
    match op
    case EQ => Some(Predicate.EQ)
    case NE => Some(Predicate.NE)
    case GT => Some(Predicate.GT)
    case LT => Some(Predicate.LT)
    case GE => Some(Predicate.GE)
    case LE => Some(Predicate.LE)
    case _ => None
  }

  /** The BinaryOperator.Op an operator lowers to: "+", "-", "*", "/". */
  function ArithmeticOp(op: Operation): (r: Option<BinaryOp>)
    ensures r.Some? <==> op in {ADD, SUB, MULT, DIV}
  {
    match op
    case ADD => Some(Add)
    case SUB => Some(Sub)
    case MULT => Some(Mul)
    case DIV => Some(Div)
    case _ => None
  }

  /** The arguments of a function: its first temporaries, in parameter order. */
  function ArgVars(count: nat): (r: seq<Value>)
    ensures |r| == count && forall k :: 0 <= k < count ==> r[k] == LocalVar(k)
  {
    if count == 0 then [] else ArgVars(count - 1) + [LocalVar(count - 1)]
  }

  /** The global declarations one top-level declaration adds. */
  function DeclaredGlobals(d: Node): seq<GlobalDecl>
  {
    match d
    case VariableDeclaration(_, s) => [GlobalDecl(s, 1)]
    case ArrayDeclaration(_, s) =>
      if s.ty.Some? && s.ty.value.ArrayType? then [GlobalDecl(s, s.ty.value.extent)] else []
    case _ => []
  }

  /** The global declarations of a declaration list, in source order. */
  function GlobalsOf(ds: seq<Node>): seq<GlobalDecl>
  {
    if |ds| == 0 then [] else GlobalsOf(ds[..|ds| - 1]) + DeclaredGlobals(ds[|ds| - 1])
  }

  /** The names of the functions a declaration list defines, in source order. */
  function DefinedNames(ds: seq<Node>): seq<string>
  {
    if |ds| == 0 then [] else DefinedNames(ds[..|ds| - 1]) + DefinedName(ds[|ds| - 1])
  }

  /** The local map after binding the parameters: each one to the temporary of its position. */
  function ParamMap(params: seq<Symbol>): map<Symbol, Value>
  {
    if |params| == 0 then map[]
    else ParamMap(params[..|params| - 1])[params[|params| - 1] := LocalVar(|params| - 1)]
  }

  /** Every parameter is bound, to a LocalVar below the parameter count, and nothing else is. */
  lemma {:induction false} ParamMapBound(params: seq<Symbol>)
    ensures forall s :: s in ParamMap(params) <==> s in params
    ensures forall s :: s in ParamMap(params) ==>
      ParamMap(params)[s].LocalVar? && ParamMap(params)[s].id < |params|
  {
    if |params| > 0 {
      ParamMapBound(params[..|params| - 1]);
      assert params == params[..|params| - 1] + [params[|params| - 1]];
    }
  }

  /** With distinct parameter names, the i-th parameter is the i-th temporary. */
  lemma {:induction false} ParamMapDistinct(params: seq<Symbol>, i: nat)
    requires i < |params|
    requires forall j, k :: 0 <= j < k < |params| ==> params[j] != params[k]
    ensures params[i] in ParamMap(params) && ParamMap(params)[params[i]] == LocalVar(i)
  {
    var last := |params| - 1;
    if i < last {
      ParamMapDistinct(params[..last], i);
    }
  }

  /** The name a top-level declaration defines a function under, if it is a definition. */
  function DefinedName(d: Node): seq<string>
  {
    if d.FunctionDefinition? then [d.symbol.name] else []
  }

  function FunctionNames(fs: seq<Function>): (r: seq<string>)
    ensures |r| == |fs| && forall k :: 0 <= k < |fs| ==> r[k] == fs[k].name
  {
    if |fs| == 0 then [] else FunctionNames(fs[..|fs| - 1]) + [fs[|fs| - 1].name]
  }

  /** Node `from` continues at `target` through successor 0. */
  ghost predicate Edge(cells: seq<Cell>, from: nat, target: nat)
  {
    from < |cells| && cells[from].next0 == Some(target)
  }

  /** A node of an arena of the given size: a well-formed instruction whose successors are nodes. */
  predicate CellOk(c: Cell, size: nat)
  {
    WellFormed(c.inst) &&
    (c.next0.Some? ==> c.next0.value < size) && (c.next1.Some? ==> c.next1.value < size)
  }

  /** b is a later state of arena a in which only the nodes in touched have changed. */
  ghost predicate Only(a: seq<Cell>, b: seq<Cell>, touched: set<nat>)
  {
    |a| <= |b| && forall k :: 0 <= k < |a| && k !in touched ==> b[k] == a[k]
  }

  /** The node a chain of fragments currently ends at: the head, or the last exit. */
  function Tail(head: nat, parts: seq<InstPair>): nat
  {
    if |parts| == 0 then head else parts[|parts| - 1].end
  }

  /**
   * Fragments chained after a head node: each lowered after the head and
   * after the one before it, the head leading to the first entry and every
   * exit to the next entry.
   */
  ghost predicate Chain(cells: seq<Cell>, head: nat, parts: seq<InstPair>)
  {
    head < |cells| &&
    (forall k :: 0 <= k < |parts| ==> Made(head + 1, |cells|, parts[k])) &&
    (forall k, l :: 0 <= k < l < |parts| ==> parts[k].end < parts[l].end) &&
    (|parts| > 0 ==> Edge(cells, head, parts[0].start)) &&
    (forall k :: 0 <= k < |parts| - 1 ==> Edge(cells, parts[k].end, parts[k + 1].start))
  }

  /** Linking a chain's tail onward keeps it a chain. */
  lemma ChainClosed(before: seq<Cell>, after: seq<Cell>, head: nat, parts: seq<InstPair>, target: nat)
    requires Chain(before, head, parts) && Tail(head, parts) < |before| <= |after|
    requires forall k :: 0 <= k < |before| && k != Tail(head, parts) ==> after[k] == before[k]
    requires after[Tail(head, parts)] == Link(before[Tail(head, parts)], 0, target)
    ensures Chain(after, head, parts) && Edge(after, Tail(head, parts), target)
    ensures after[head].inst == before[head].inst
  {
    var t := Tail(head, parts);
    forall k | 0 <= k < |parts| - 1
      ensures Edge(after, parts[k].end, parts[k + 1].start)
    {
      assert parts[k].end < parts[|parts| - 1].end;
    }
    if |parts| > 0 {
      assert parts[0].end <= t;
    }
  }

  /**
   * Lowering one more fragment and linking the chain's tail to its entry
   * gives a chain one longer; the head keeps its instruction.
   */
  lemma ChainGrows(before: seq<Cell>, mid: seq<Cell>, after: seq<Cell>, head: nat, parts: seq<InstPair>, p: InstPair)
    requires Chain(before, head, parts) && Extends(before, mid) && Made(|before|, |mid|, p)
    requires Tail(head, parts) < |before|
    requires after == mid[Tail(head, parts) := Link(mid[Tail(head, parts)], 0, p.start)]
    ensures Chain(after, head, parts + [p]) && Tail(head, parts + [p]) == p.end
    ensures after[head].inst == before[head].inst
    ensures forall k :: 0 <= k < |after| && k != Tail(head, parts) ==> after[k] == mid[k]
  {
    var t := Tail(head, parts);
    var ps := parts + [p];
    forall k | 0 <= k < |ps| - 1
      ensures Edge(after, ps[k].end, ps[k + 1].start)
    {
      if k < |parts| - 1 {
        assert parts[k].end < parts[|parts| - 1].end;
      }
    }
    if |parts| > 0 {
      assert parts[0].end <= t;
      if head != t {
        assert after[head] == before[head];
      }
    }
  }

  class ASTLower {
    /** `mCurrentProgram`. */
    const program: Program
    /** The temporary counter of `mCurrentFunction`. */
    var temps: nat
    /** `mCurrentFunction != null`. */
    var inFunction: bool
    /** `mCurrentLocalVarMap`. */
    var locals: map<Symbol, Value>
    /** `record`: the exit nodes of the enclosing loops, innermost last. */
    var record: seq<nat>

    /**
     * The arena is closed under successors and holds well-formed
     * instructions; loop exits and function entries are arena nodes; every
     * local is a LocalVar older than the next temporary.
     */
    ghost predicate Valid()
      reads this, program
    {
      (forall k {:trigger CellOk(program.cells[k], |program.cells|)} :: 0 <= k < |program.cells| ==> CellOk(program.cells[k], |program.cells|)) &&
      (forall k :: 0 <= k < |record| ==> record[k] < |program.cells|) &&
      (forall s :: s in locals ==> locals[s].LocalVar? && locals[s].id < temps) &&
      (forall k :: 0 <= k < |program.functions| ==> program.functions[k].start < |program.cells|)
    }

    /**
     * What every visit inside a function keeps: earlier nodes are untouched,
     * temporaries are only added, and the program's lists are unchanged.
     */
    twostate predicate Stable()
      reads this, program
    {
      Extends(old(program.cells), program.cells) && old(temps) <= temps &&
      inFunction == old(inFunction) &&
      program.globals == old(program.globals) && program.functions == old(program.functions)
    }

    /** What the glue steps keep: the lowering state and the program's lists. */
    twostate predicate Glued()
      reads this, program
    {
      record == old(record) && locals == old(locals) && inFunction == old(inFunction) &&
      old(temps) <= temps &&
      program.globals == old(program.globals) && program.functions == old(program.functions)
    }

    constructor ()
      ensures Valid() && fresh(program)
      ensures program.cells == [] && program.globals == [] && program.functions == []
      ensures temps == 0 && !inFunction && locals == map[] && record == []
    {
      program := new Program();
      temps := 0;
      inFunction := false;
      locals := map[];
      record := [];
    }

    /** Creating an instruction object: a new arena node with no successors. */
    method Emit(inst: Instruction) returns (k: nat)
      requires Valid() && WellFormed(inst)
      modifies program
      ensures k == |old(program.cells)| && |program.cells| == k + 1 && program.cells[k] == Cell(inst, None, None)
      ensures forall j :: 0 <= j < k ==> program.cells[j] == old(program.cells)[j]
      ensures program.globals == old(program.globals) && program.functions == old(program.functions)
      ensures Valid()
    {
      k := |program.cells|;
      ghost var before := program.cells;
      program.cells := program.cells + [Cell(inst, None, None)];
      forall j | 0 <= j < k
        ensures CellOk(program.cells[j], |program.cells|)
      {
        assert CellOk(before[j], |before|);
      }
    }

    /** `from.setNext(slot, target)`. */
    method SetNext(from: nat, slot: nat, target: nat)
      requires Valid() && from < |program.cells| && target < |program.cells| && slot < 2
      modifies program
      ensures |program.cells| == |old(program.cells)| && program.cells[from] == Link(old(program.cells)[from], slot, target)
      ensures forall k :: 0 <= k < |program.cells| && k != from ==> program.cells[k] == old(program.cells)[k]
      ensures program.globals == old(program.globals) && program.functions == old(program.functions)
      ensures Valid()
    {
      ghost var before := program.cells;
      program.cells := program.cells[from := Link(program.cells[from], slot, target)];
      forall j | 0 <= j < |program.cells|
        ensures CellOk(program.cells[j], |program.cells|)
      {
        assert CellOk(before[j], |before|);
      }
    }

    /** `mCurrentFunction.getTempVar(type)`: a LocalVar no earlier variable has. */
    method TempVar() returns (v: Value)
      requires Valid()
      modifies this
      ensures v == LocalVar(old(temps)) && temps == old(temps) + 1
      ensures locals == old(locals) && record == old(record) && inFunction == old(inFunction)
      ensures Valid()
    {
      v := LocalVar(temps);
      temps := temps + 1;
    }

    /** `mCurrentFunction.getTempAddressVar(type)`. */
    method TempAddressVar() returns (v: Value)
      requires Valid()
      modifies this
      ensures v == AddressVar(old(temps)) && temps == old(temps) + 1
      ensures locals == old(locals) && record == old(record) && inFunction == old(inFunction)
      ensures Valid()
    {
      v := AddressVar(temps);
      temps := temps + 1;
    }

    /** `node.accept(this)` inside a function body. */
    method Visit(n: Node) returns (r: Option<InstPair>)
      requires Valid() && inFunction
      modifies this, program
      ensures Valid() && Stable()
      ensures r.Some? ==> Made(old(|program.cells|), |program.cells|, r.value)
      ensures r.Some? ==> |record| == |old(record)| + RecordDelta(n)
      decreases n, 2
    {
      match n {
        case VarAccess(_, _) =>
          var p := VisitVarAccess(n);
          r := Some(p);
        case LiteralBool(_, _) =>
          var p := VisitLiteral(n);
          r := Some(p);
        case LiteralInt(_, _) =>
          var p := VisitLiteral(n);
          r := Some(p);
        case ArrayAccess(_, _, _) =>
          var index;
          r, index := VisitArrayAccess(n);
        case OpExpr(_, _, _, _) =>
          var left, right, mid;
          r, left, right, mid := VisitOpExpr(n);
        case Call(_, _, _) =>
          var args;
          r, args := VisitCall(n);
        case Assignment(_, _, _) =>
          r := VisitAssignment(n);
        case Return(_, _) =>
          var value;
          r, value := VisitReturn(n);
        case Break(_) =>
          r := VisitBreak(n);
        case IfElseBranch(_, _, _, _) =>
          var cond, elsePart, thenPart, jump;
          r, cond, elsePart, thenPart, jump := VisitIf(n);
        case For(_, _, _, _, _) =>
          var init, cond, body, incr;
          r, init, cond, body, incr := VisitFor(n);
        case StatementList(_, _) =>
          var parts;
          r, parts := VisitStatementList(n);
        case VariableDeclaration(_, _) =>
          var p := VisitVariableDeclaration(n);
          r := Some(p);
        case ArrayDeclaration(_, _) =>
          // visit(ArrayDeclaration) returns null, which the parent dereferences.
          r := None;
        case FunctionDefinition(_, _, _, _) =>
          r := None;
        case DeclarationList(_, _) =>
          r := None;
      }
    }

    /**
     * `visit(VarAccess)`: a local yields its mapped LocalVar through a single
     * Nop; any other symbol is read through AddressAt into a fresh AddressVar
     * followed by a Load into a fresh LocalVar.
     */
    method VisitVarAccess(n: Node) returns (p: InstPair)
      requires Valid() && inFunction && n.VarAccess?
      modifies this, program
      ensures Valid() && Stable() && record == old(record) && locals == old(locals)
      ensures Made(old(|program.cells|), |program.cells|, p)
      ensures var k := |old(program.cells)|;
        if n.symbol in old(locals) then
          program.cells == old(program.cells) + [Cell(NopInst(), None, None)] &&
          temps == old(temps) && p == InstPair(k, k, Some(old(locals)[n.symbol]))
        else
          program.cells == old(program.cells) + [
            Cell(AddressAtInst(AddressVar(old(temps)), n.symbol, None), Some(k + 1), None),
            Cell(LoadInst(LocalVar(old(temps) + 1), AddressVar(old(temps))), None, None)] &&
          temps == old(temps) + 2 && p == InstPair(k, k + 1, Some(LocalVar(old(temps) + 1)))
    {
      if n.symbol !in locals {
        var addr := TempAddressVar();
        var a := Emit(AddressAtInst(addr, n.symbol, None));
        var v := TempVar();
        var l := Emit(LoadInst(v, addr));
        SetNext(a, 0, l);
        p := InstPair(a, l, Some(v));
      } else {
        var v := locals[n.symbol];
        var b := Emit(NopInst());
        p := InstPair(b, b, Some(v));
      }
    }

    /** `visit(LiteralBool)` and `visit(LiteralInt)`: one Copy of the constant into a fresh LocalVar. */
    method VisitLiteral(n: Node) returns (p: InstPair)
      requires Valid() && inFunction && (n.LiteralBool? || n.LiteralInt?)
      modifies this, program
      ensures Valid() && Stable() && record == old(record) && locals == old(locals)
      ensures Made(old(|program.cells|), |program.cells|, p)
      ensures var k := |old(program.cells)|;
        var c := if n.LiteralBool? then BoolConst(n.boolValue) else IntConst(n.intValue);
        program.cells == old(program.cells) + [Cell(CopyInst(LocalVar(old(temps)), c), None, None)] &&
        temps == old(temps) + 1 && p == InstPair(k, k, Some(LocalVar(old(temps))))
    {
      var c := if n.LiteralBool? then BoolConst(n.boolValue) else IntConst(n.intValue);
      var v := TempVar();
      var k := Emit(CopyInst(v, c));
      p := InstPair(k, k, Some(v));
    }

    /**
     * `visit(ArrayAccess)`: the index is lowered first; its exit continues at
     * AddressAt(base, index value) into a fresh AddressVar, then a Load into a
     * fresh LocalVar, which is the fragment's exit and value.
     */
    method VisitArrayAccess(n: Node) returns (r: Option<InstPair>, index: InstPair)
      requires Valid() && inFunction && n.ArrayAccess?
      modifies this, program
      ensures Valid() && Stable()
      ensures r.Some? ==> Made(old(|program.cells|), |program.cells|, r.value)
      ensures r.Some? ==> |record| == |old(record)| + RecordDelta(n)
      ensures n.base.ty.Some? && !n.base.ty.value.ArrayType? ==> r.None?
      ensures r.Some? ==>
        var cells := program.cells;
        old(temps) + 2 <= temps && old(|program.cells|) + 2 <= |cells| &&
        var a := |cells| - 2;
        Made(old(|program.cells|), a, index) && index.value.Some? &&
        Edge(cells, index.end, a) &&
        cells[a] == Cell(AddressAtInst(AddressVar(temps - 2), n.base, index.value), Some(a + 1), None) &&
        cells[a + 1] == Cell(LoadInst(LocalVar(temps - 1), AddressVar(temps - 2)), None, None) &&
        r.value == InstPair(index.start, a + 1, Some(LocalVar(temps - 1)))
      decreases n, 1
    {
      index := Unlowered;
      if n.base.ty.Some? && !n.base.ty.value.ArrayType? {
        // The cast to ArrayType fails.
        r := None;
        return;
      }
      var ir := Visit(n.index);
      if ir.None? || ir.value.value.None? {
        r := None;
        return;
      }
      index := ir.value;
      var p := JoinAccess(index, n.base);
      r := Some(p);
    }

    /** The ArrayAccess glue: index exit -> AddressAt(base, index value) -> Load. */
    method JoinAccess(index: InstPair, base: Symbol) returns (p: InstPair)
      requires Valid() && index.end < |program.cells| && index.start < |program.cells|
      requires index.value.Some? && index.value.value.LocalVar?
      modifies this, program
      ensures Valid() && Glued() && temps == old(temps) + 2
      ensures Only(old(program.cells), program.cells, {index.end})
      ensures var a := |old(program.cells)|;
        |program.cells| == a + 2 &&
        program.cells[index.end] == Link(old(program.cells)[index.end], 0, a) &&
        program.cells[a] == Cell(AddressAtInst(AddressVar(old(temps)), base, index.value), Some(a + 1), None) &&
        program.cells[a + 1] == Cell(LoadInst(LocalVar(old(temps) + 1), AddressVar(old(temps))), None, None) &&
        p == InstPair(index.start, a + 1, Some(LocalVar(old(temps) + 1)))
    {
      var addr := TempAddressVar();
      var v := TempVar();
      var a := Emit(AddressAtInst(addr, base, index.value));
      SetNext(index.end, 0, a);
      var l := Emit(LoadInst(v, addr));
      SetNext(a, 0, l);
      p := InstPair(index.start, l, Some(v));
    }

    /**
     * `visit(OpExpr)`.  Without a right operand the left one is negated
     * whatever the operator.  Otherwise both operands are lowered, left
     * first, and joined: comparisons and arithmetic by one instruction,
     * `&&` and `||` by a jump on the left value and two copies meeting at a
     * merge Nop.  A binary `!` yields null.
     */
    method VisitOpExpr(n: Node) returns (r: Option<InstPair>, left: InstPair, right: InstPair, mid: nat)
      requires Valid() && inFunction && n.OpExpr?
      modifies this, program
      ensures Valid() && Stable()
      ensures r.Some? ==> Made(old(|program.cells|), |program.cells|, r.value)
      ensures r.Some? ==> |record| == |old(record)| + RecordDelta(n)
      ensures r.Some? ==> Made(old(|program.cells|), mid, left) && left.value.Some? && old(temps) < temps
      ensures r.Some? && n.right.None? ==>
        mid == |program.cells| - 1 &&
        Edge(program.cells, left.end, mid) &&
        program.cells[mid] == Cell(UnaryNotInst(LocalVar(temps - 1), left.value.value), None, None) &&
        r.value == InstPair(left.start, mid, Some(LocalVar(temps - 1)))
      ensures r.Some? && n.right.Some? ==> BinaryShape(program.cells, n.op, left, right, mid, LocalVar(temps - 1), r.value)
      ensures n.right.Some? && n.op == LOGIC_NOT ==> r.None?
      decreases n, 1
    {
      left, right, mid := Unlowered, Unlowered, 0;
      var lr := Visit(n.left);
      if lr.None? {
        r := None;
        return;
      }
      left := lr.value;
      mid := |program.cells|;
      if n.right.None? {
        r := JoinUnary(left);
        return;
      }
      r, right := VisitBinary(n, left);
    }

    /** The two-operand case of `visit(OpExpr)`, after the left operand. */
    method VisitBinary(n: Node, left: InstPair) returns (r: Option<InstPair>, right: InstPair)
      requires Valid() && inFunction && n.OpExpr? && n.right.Some?
      requires left.end < |program.cells| && left.start < |program.cells|
      requires left.value.Some? ==> left.value.value.LocalVar?
      modifies this, program
      ensures Valid() && old(temps) <= temps && inFunction == old(inFunction)
      ensures program.globals == old(program.globals) && program.functions == old(program.functions)
      ensures Only(old(program.cells), program.cells, {left.end})
      ensures r.Some? ==> |record| == |old(record)| + RecordDelta(n.right.value)
      ensures r.Some? ==> (left.value.Some? && old(temps) < temps &&
        BinaryShape(program.cells, n.op, left, right, |old(program.cells)|, LocalVar(temps - 1), r.value))
      ensures n.op == LOGIC_NOT ==> r.None?
      decreases n, 0
    {
      right := Unlowered;
      ghost var mid := |program.cells|;
      var rr := Visit(n.right.value);
      if rr.None? {
        r := None;
        return;
      }
      right := rr.value;
      r := JoinBinary(n.op, left, right, mid);
    }


    /**
     * The operator glue of `visit(OpExpr)` once both operands are lowered:
     * one instruction for a comparison or arithmetic, the short-circuit
     * nodes for `&&` and `||`, null for any other operator.
     */
    method JoinBinary(op: Operation, left: InstPair, right: InstPair, ghost mid: nat) returns (r: Option<InstPair>)
      requires Valid() && left.end < mid && left.start < mid && Made(mid, |program.cells|, right)
      requires left.value.Some? ==> left.value.value.LocalVar?
      modifies this, program
      ensures Valid() && Glued()
      ensures Only(old(program.cells), program.cells, {left.end, right.end})
      ensures r.Some? ==> left.value.Some? && old(temps) < temps
      ensures r.Some? ==> BinaryShape(program.cells, op, left, right, mid, LocalVar(temps - 1), r.value)
      ensures op == LOGIC_NOT ==> r.None?
    {
      if IsComparison(op) || ArithmeticOp(op).Some? {
        r := JoinInstruction(op, left, right, mid);
      } else if op == LOGIC_AND || op == LOGIC_OR {
        r := JoinLogic(op, left, right, mid);
      } else {
        r := None;
      }
    }

    /** The glue of a comparison or an arithmetic operator: its one instruction. */
    method JoinInstruction(op: Operation, left: InstPair, right: InstPair, ghost mid: nat) returns (r: Option<InstPair>)
      requires Valid() && left.end < mid && left.start < mid && Made(mid, |program.cells|, right)
      requires left.value.Some? ==> left.value.value.LocalVar?
      requires IsComparison(op) || ArithmeticOp(op).Some?
      modifies this, program
      ensures Valid() && Glued()
      ensures Only(old(program.cells), program.cells, {left.end, right.end})
      ensures r.Some? ==> (left.value.Some? && old(temps) < temps &&
        InstructionShape(program.cells, op, left, right, mid, LocalVar(temps - 1), r.value))
      ensures op != LOGIC_NOT
    {
      var kind := if IsComparison(op) then CompareKind(ComparePredicate(op).value)
                  else BinaryKind(ArithmeticOp(op).value);
      r := JoinOperands(left, right, kind);
    }

    /** The glue of `&&` or `||`: the short-circuit nodes. */
    method JoinLogic(op: Operation, left: InstPair, right: InstPair, ghost mid: nat) returns (r: Option<InstPair>)
      requires Valid() && left.end < mid && left.start < mid && Made(mid, |program.cells|, right)
      requires left.value.Some? ==> left.value.value.LocalVar?
      requires op == LOGIC_AND || op == LOGIC_OR
      modifies this, program
      ensures Valid() && Glued()
      ensures Only(old(program.cells), program.cells, {left.end, right.end})
      ensures r.Some? ==> (left.value.Some? && old(temps) < temps &&
        LogicShape(program.cells, op, left, right, mid, LocalVar(temps - 1), r.value))
      ensures op != LOGIC_NOT
    {
      r := JoinShortCircuit(left, right, op == LOGIC_AND);
    }
    /** The unary glue: left exit -> UnaryNot(fresh, left value). */
    method JoinUnary(left: InstPair) returns (r: Option<InstPair>)
      requires Valid() && left.end < |program.cells| && left.start < |program.cells|
      requires left.value.Some? ==> left.value.value.LocalVar?
      modifies this, program
      ensures Valid() && record == old(record) && locals == old(locals) && inFunction == old(inFunction)
      ensures program.globals == old(program.globals) && program.functions == old(program.functions)
      ensures old(temps) <= temps && |old(program.cells)| <= |program.cells|
      ensures forall k :: 0 <= k < |old(program.cells)| && k != left.end ==> program.cells[k] == old(program.cells)[k]
      ensures left.value.None? ==> r.None?
      ensures left.value.Some? ==>
        var k := |old(program.cells)|;
        |program.cells| == k + 1 && temps == old(temps) + 1 &&
        program.cells[left.end] == Link(old(program.cells)[left.end], 0, k) &&
        program.cells[k] == Cell(UnaryNotInst(LocalVar(old(temps)), left.value.value), None, None) &&
        r == Some(InstPair(left.start, k, Some(LocalVar(old(temps)))))
    {
      if left.value.None? {
        r := None;
        return;
      }
      var v := TempVar();
      var k := Emit(UnaryNotInst(v, left.value.value));
      SetNext(left.end, 0, k);
      r := Some(InstPair(left.start, k, Some(v)));
    }

    /**
     * The comparison and arithmetic glue: left exit -> right entry, right
     * exit -> one instruction reading both values into a fresh LocalVar.
     */
    method JoinOperands(left: InstPair, right: InstPair, kind: Kind) returns (r: Option<InstPair>)
      requires Valid() && (kind.CompareKind? || kind.BinaryKind?)
      requires left.end < right.end < |program.cells| && left.start < |program.cells| && right.start < |program.cells|
      requires left.value.Some? ==> left.value.value.LocalVar?
      requires right.value.Some? ==> right.value.value.LocalVar?
      modifies this, program
      ensures Valid() && record == old(record) && locals == old(locals) && inFunction == old(inFunction)
      ensures program.globals == old(program.globals) && program.functions == old(program.functions)
      ensures old(temps) <= temps && |old(program.cells)| <= |program.cells|
      ensures forall k :: 0 <= k < |old(program.cells)| && k != left.end && k != right.end ==>
        program.cells[k] == old(program.cells)[k]
      ensures left.value.None? || right.value.None? ==> r.None?
      ensures left.value.Some? && right.value.Some? ==>
        var k := |old(program.cells)|;
        |program.cells| == k + 1 && temps == old(temps) + 1 &&
        program.cells[left.end] == Link(old(program.cells)[left.end], 0, right.start) &&
        program.cells[right.end] == Link(old(program.cells)[right.end], 0, k) &&
        program.cells[k] ==
          Cell(Instruction(kind, Some(LocalVar(old(temps))), [left.value.value, right.value.value]), None, None) &&
        r == Some(InstPair(left.start, k, Some(LocalVar(old(temps)))))
    {
      if left.value.None? || right.value.None? {
        r := None;
        return;
      }
      var v := TempVar();
      var k := Emit(Instruction(kind, Some(v), [left.value.value, right.value.value]));
      SetNext(left.end, 0, right.start);
      SetNext(right.end, 0, k);
      r := Some(InstPair(left.start, k, Some(v)));
    }

    /**
     * The `&&`/`||` glue.  An unused then-branch Nop comes first; then the
     * Jump on the left value, the copy of the left value, the copy of the
     * right value, and the merge Nop both copies continue at.
     */
    method JoinShortCircuit(left: InstPair, right: InstPair, isAnd: bool) returns (r: Option<InstPair>)
      requires Valid()
      requires left.end < right.end < |program.cells| && left.start < |program.cells| && right.start < |program.cells|
      requires left.value.Some? ==> left.value.value.LocalVar?
      requires right.value.Some? ==> right.value.value.LocalVar?
      modifies this, program
      ensures Valid() && Glued()
      ensures Only(old(program.cells), program.cells, {left.end, right.end})
      ensures left.value.None? || right.value.None? ==> r.None?
      ensures left.value.Some? && right.value.Some? ==>
        var j := |old(program.cells)| + 1;
        |program.cells| == j + 4 && temps == old(temps) + 1 &&
        program.cells[left.end] == Link(old(program.cells)[left.end], 0, j) &&
        program.cells[right.end] == Link(old(program.cells)[right.end], 0, j + 2) &&
        ShortCircuitNodes(program.cells, left, right, isAnd, j, LocalVar(old(temps))) &&
        r == Some(InstPair(left.start, j + 3, Some(LocalVar(old(temps)))))
    {
      if left.value.None? || right.value.None? {
        r := None;
        return;
      }
      var jump, v := ShortCircuitBranch(left, right, isAnd);
      var merge := Emit(NopInst());
      SetNext(right.end, 0, jump + 2);
      SetNext(jump + 1, 0, merge);
      SetNext(jump + 2, 0, merge);
      r := Some(InstPair(left.start, merge, Some(v)));
    }

    /**
     * The first half of the `&&`/`||` glue: the unused then-branch Nop, a
     * fresh temporary, the Jump on the left value after the left exit, and
     * the copies of both values into the temporary.
     */
    method ShortCircuitBranch(left: InstPair, right: InstPair, isAnd: bool) returns (jump: nat, v: Value)
      requires Valid() && left.end < |program.cells| && right.start < |program.cells|
      requires left.value.Some? && left.value.value.LocalVar?
      requires right.value.Some? && right.value.value.LocalVar?
      modifies this, program
      ensures Valid() && Glued()
      ensures Only(old(program.cells), program.cells, {left.end})
      ensures jump == |old(program.cells)| + 1 && |program.cells| == jump + 3
      ensures v == LocalVar(old(temps)) && temps == old(temps) + 1
      ensures program.cells[left.end] == Link(old(program.cells)[left.end], 0, jump)
      ensures program.cells[jump - 1] == Cell(NopInst(), None, None)
      ensures program.cells[jump] == Cell(JumpInst(left.value.value),
                                          Some(if isAnd then jump + 1 else right.start),
                                          Some(if isAnd then right.start else jump + 1))
      ensures program.cells[jump + 1] == Cell(CopyInst(v, left.value.value), None, None)
      ensures program.cells[jump + 2] == Cell(CopyInst(v, right.value.value), None, None)
    {
      var thenBranch := Emit(NopInst());
      v := TempVar();
      jump := Emit(JumpInst(left.value.value));
      SetNext(left.end, 0, jump);
      ShortCircuitCopies(jump, v, left.value.value, right.value.value, right.start, isAnd);
    }

    /**
     * The copies of the `&&`/`||` glue after its Jump: the left value's copy
     * is where the Jump goes when the left value decides the result, the
     * right operand's entry where it does not.
     */
    method ShortCircuitCopies(jump: nat, v: Value, lv: Value, rv: Value, rightStart: nat, isAnd: bool)
      requires Valid() && jump == |program.cells| - 1 && rightStart < |program.cells|
      requires v.LocalVar? && program.cells[jump].next0.None? && program.cells[jump].next1.None?
      modifies program
      ensures Valid() && program.globals == old(program.globals) && program.functions == old(program.functions)
      ensures |program.cells| == jump + 3
      ensures forall k :: 0 <= k < jump ==> program.cells[k] == old(program.cells)[k]
      ensures program.cells[jump] == Cell(old(program.cells)[jump].inst,
                                          Some(if isAnd then jump + 1 else rightStart),
                                          Some(if isAnd then rightStart else jump + 1))
      ensures program.cells[jump + 1] == Cell(CopyInst(v, lv), None, None)
      ensures program.cells[jump + 2] == Cell(CopyInst(v, rv), None, None)
    {
      var copy0 := Emit(CopyInst(v, lv));
      var copy1 := Emit(CopyInst(v, rv));
      if isAnd {
        SetNext(jump, 0, copy0);
        SetNext(jump, 1, rightStart);
      } else {
        SetNext(jump, 0, rightStart);
        SetNext(jump, 1, copy0);
      }
    }

    /**
     * `visit(Call)`: a head Nop, then the arguments lowered left to right and
     * chained through successor 0, then the CallInst, which has a fresh
     * destination exactly when the callee does not return void.
     */
    method VisitCall(n: Node) returns (r: Option<InstPair>, args: seq<InstPair>)
      requires Valid() && inFunction && n.Call?
      modifies this, program
      ensures Valid() && Stable()
      ensures r.Some? ==> Made(old(|program.cells|), |program.cells|, r.value)
      ensures r.Some? ==> |record| == |old(record)| + RecordDelta(n)
      ensures !(n.callee.ty.Some? && n.callee.ty.value.FuncType?) ==> r.None?
      ensures r.Some? ==> (|args| == |n.arguments| &&
        CallShape(program.cells, |old(program.cells)|, n.callee, args, old(temps), temps, r.value))
      decreases n, 1
    {
      var head := Emit(NopInst());
      var ok;
      ok, args := LowerChain(n, n.arguments, head);
      if !ok {
        r := None;
        return;
      }
      r := FinishCall(n.callee, head, args);
    }

    /** The end of `visit(Call)` once its arguments are chained after the head. */
    method FinishCall(callee: Symbol, head: nat, args: seq<InstPair>) returns (r: Option<InstPair>)
      requires Valid() && Chain(program.cells, head, args) && Tail(head, args) < |program.cells|
      requires program.cells[head].inst == NopInst()
      modifies this, program
      ensures Valid() && Glued()
      ensures Extends(old(program.cells)[..head], program.cells) && head < |program.cells|
      ensures !(callee.ty.Some? && callee.ty.value.FuncType?) ==> r.None?
      ensures r.Some? ==> Made(head, |program.cells|, r.value)
      ensures r.Some? ==> CallShape(program.cells, head, callee, args, old(temps), temps, r.value)
    {
      ghost var before := program.cells;
      var call := EmitCall(callee, Tail(head, args), ValuesOf(args));
      if call.None? {
        r := None;
        return;
      }
      ChainClosed(before, program.cells, head, args, call.value.0);
      r := Some(InstPair(head, call.value.0, call.value.1));
    }
    /**
     * The child loop shared by `visit(Call)` and `visit(StatementList)`: each
     * child lowered in order, the first entered from the head Nop and every
     * later one from the previous exit, through successor 0.
     */
    method LowerChain(n: Node, ns: seq<Node>, head: nat) returns (ok: bool, parts: seq<InstPair>)
      requires Valid() && inFunction
      requires (n.Call? && ns == n.arguments) || (n.StatementList? && ns == n.stmts)
      requires head == |program.cells| - 1 && program.cells[head] == Cell(NopInst(), None, None)
      modifies this, program
      ensures Valid() && old(temps) <= temps && inFunction == old(inFunction)
      ensures program.globals == old(program.globals) && program.functions == old(program.functions)
      ensures Extends(old(program.cells)[..head], program.cells) && head < |program.cells|
      ensures program.cells[head].inst == NopInst()
      ensures ok ==>
        |parts| == |ns| && Chain(program.cells, head, parts) &&
        Tail(head, parts) < |program.cells| &&
        (|parts| == 0 ==> program.cells[head] == Cell(NopInst(), None, None)) &&
        |record| == |old(record)| + RecordDeltaAll(ns)
      decreases n, 0
    {
      parts := [];
      var tail := head;
      var i := 0;
      while i < |ns|
        invariant 0 <= i <= |ns| && |parts| == i
        invariant Valid() && old(temps) <= temps && inFunction == old(inFunction)
        invariant program.globals == old(program.globals) && program.functions == old(program.functions)
        invariant Extends(old(program.cells)[..head], program.cells) && head < |program.cells|
        invariant program.cells[head].inst == NopInst()
        invariant i == 0 ==> program.cells[head] == Cell(NopInst(), None, None)
        invariant tail == Tail(head, parts) && tail < |program.cells|
        invariant Chain(program.cells, head, parts)
        invariant |record| == |old(record)| + RecordDeltaAll(ns[..i])
      {
        ghost var before := program.cells;
        var a := Visit(ns[i]);
        if a.None? {
          ok := false;
          return;
        }
        ExtendChain(head, parts, a.value, before);
        tail := a.value.end;
        parts := parts + [a.value];
        assert ns[..i + 1][..i] == ns[..i];
        i := i + 1;
      }
      assert ns[..i] == ns;
      ok := true;
    }

    /** Linking a chain's tail to a newly lowered fragment, which becomes its last part. */
    method ExtendChain(head: nat, parts: seq<InstPair>, p: InstPair, ghost before: seq<Cell>)
      requires Valid() && Chain(before, head, parts) && Tail(head, parts) < |before|
      requires Extends(before, program.cells) && Made(|before|, |program.cells|, p)
      modifies program
      ensures Valid() && program.globals == old(program.globals) && program.functions == old(program.functions)
      ensures Chain(program.cells, head, parts + [p]) && Tail(head, parts + [p]) == p.end
      ensures program.cells[head].inst == before[head].inst
      ensures |program.cells| == |old(program.cells)|
      ensures forall k :: 0 <= k < |program.cells| && k != Tail(head, parts) ==> program.cells[k] == old(program.cells)[k]
    {
      SetNext(Tail(head, parts), 0, p.start);
      ChainGrows(before, old(program.cells), program.cells, head, parts, p);
    }
    /**
     * The end of `visit(Call)`: the CallInst over the argument values, with a
     * fresh destination unless the callee returns void, after the last
     * argument's exit.
     */
    method EmitCall(callee: Symbol, tail: nat, values: seq<Option<Value>>) returns (r: Option<(nat, Option<Value>)>)
      requires Valid() && tail < |program.cells|
      requires forall k :: 0 <= k < |values| && values[k].Some? ==> values[k].value.LocalVar?
      modifies this, program
      ensures Valid() && record == old(record) && locals == old(locals) && inFunction == old(inFunction)
      ensures program.globals == old(program.globals) && program.functions == old(program.functions)
      ensures old(temps) <= temps && |old(program.cells)| <= |program.cells|
      ensures forall k :: 0 <= k < |old(program.cells)| && k != tail ==> program.cells[k] == old(program.cells)[k]
      ensures !(callee.ty.Some? && callee.ty.value.FuncType?) ==> r.None?
      ensures (exists k :: 0 <= k < |values| && values[k].None?) ==> r.None?
      ensures r.Some? ==>
        var c := |old(program.cells)|;
        callee.ty.Some? && callee.ty.value.FuncType? &&
        (forall k :: 0 <= k < |values| ==> values[k].Some?) &&
        |program.cells| == c + 1 &&
        program.cells[tail] == Link(old(program.cells)[tail], 0, c) &&
        r.value.0 == c &&
        (if callee.ty.value.ret.VoidType? then r.value.1 == None && temps == old(temps)
         else r.value.1 == Some(LocalVar(old(temps))) && temps == old(temps) + 1) &&
        program.cells[c] == Cell(CallInst(r.value.1, callee, Present(values)), None, None)
    {
      if !(callee.ty.Some? && callee.ty.value.FuncType?) {
        // `(FuncType) callee.getType()` fails, or `getRet()` is called on null.
        r := None;
        return;
      }
      if exists k :: 0 <= k < |values| && values[k].None? {
        // `List.of` in CallInst.convert rejects a null argument.
        r := None;
        return;
      }
      var ops := Convert(Present(values));
      if callee.ty.value.ret.VoidType? {
        var c := Emit(CallInst(None, callee, ops));
        SetNext(tail, 0, c);
        r := Some((c, None));
      } else {
        var dst := TempVar();
        var c := Emit(CallInst(Some(dst), callee, ops));
        SetNext(tail, 0, c);
        r := Some((c, Some(dst)));
      }
    }

    /**
     * `visit(Assignment)`: an array element, a global or a local, by the
     * location's kind and whether its symbol is mapped to a LocalVar.
     */
    method VisitAssignment(n: Node) returns (r: Option<InstPair>)
      requires Valid() && inFunction && n.Assignment?
      modifies this, program
      ensures Valid() && Stable()
      ensures r.Some? ==> Made(old(|program.cells|), |program.cells|, r.value)
      ensures r.Some? ==> |record| == |old(record)| + RecordDelta(n)
      ensures !n.location.ArrayAccess? && !n.location.VarAccess? ==> r.None?
      decreases n, 1
    {
      if n.location.ArrayAccess? {
        var index, value, addr;
        r, index, value, addr := AssignElement(n);
      } else if n.location.VarAccess? && n.location.symbol !in locals {
        var value;
        r, value := AssignGlobal(n);
      } else if n.location.VarAccess? {
        var value;
        r, value := AssignLocal(n);
      } else {
        // The cast of the location to VarAccess fails.
        r := None;
      }
    }

    /**
     * Assignment to an array element: index -> AddressAt(base, index value)
     * into a fresh AddressVar -> value -> Store of the value through it.  The
     * Store is created before the AddressAt.
     */
    method AssignElement(n: Node) returns (r: Option<InstPair>, index: InstPair, value: InstPair, addr: Value)
      requires Valid() && inFunction && n.Assignment? && n.location.ArrayAccess?
      modifies this, program
      ensures Valid() && Stable()
      ensures r.Some? ==> Made(old(|program.cells|), |program.cells|, r.value)
      ensures r.Some? ==> |record| == |old(record)| + RecordDelta(n)
      ensures r.Some? ==>
        var cells := program.cells;
        old(|program.cells|) + 2 <= |cells| &&
        var s := |cells| - 2;
        Made(old(|program.cells|), s, index) && Made(index.end + 1, s, value) &&
        index.value.Some? && value.value.Some? &&
        addr.AddressVar? && old(temps) <= addr.id < temps &&
        Edge(cells, index.end, s + 1) &&
        cells[s + 1] == Cell(AddressAtInst(addr, n.location.base, index.value), Some(value.start), None) &&
        Edge(cells, value.end, s) &&
        cells[s] == Cell(StoreInst(value.value.value, addr), None, None) &&
        r.value == InstPair(index.start, s, None)
      decreases n, 0
    {
      index, value, addr := Unlowered, Unlowered, AddressVar(0);
      var ir := Visit(n.location.index);
      if ir.None? {
        r := None;
        return;
      }
      index := ir.value;
      addr := TempAddressVar();
      var vr := Visit(n.value);
      if vr.None? || vr.value.value.None? || index.value.None? {
        // StoreInst or AddressAt is given a null operand.
        r := None;
        return;
      }
      value := vr.value;
      var s := JoinElementStore(index, value, addr, n.location.base);
      r := Some(InstPair(index.start, s, None));
    }

    /** The array-element store glue: Store, then AddressAt, wired index -> AddressAt -> value -> Store. */
    method JoinElementStore(index: InstPair, value: InstPair, addr: Value, base: Symbol) returns (s: nat)
      requires Valid() && index.end < value.end < |program.cells| && value.start < |program.cells|
      requires index.value.Some? && index.value.value.LocalVar? && value.value.Some? && value.value.value.LocalVar?
      requires addr.AddressVar?
      modifies program
      ensures Valid() && program.globals == old(program.globals) && program.functions == old(program.functions)
      ensures Only(old(program.cells), program.cells, {index.end, value.end})
      ensures s == |old(program.cells)| && |program.cells| == s + 2
      ensures program.cells[s] == Cell(StoreInst(value.value.value, addr), None, None)
      ensures program.cells[s + 1] == Cell(AddressAtInst(addr, base, index.value), Some(value.start), None)
      ensures program.cells[index.end] == Link(old(program.cells)[index.end], 0, s + 1)
      ensures program.cells[value.end] == Link(old(program.cells)[value.end], 0, s)
    {
      s := Emit(StoreInst(value.value.value, addr));
      var a := Emit(AddressAtInst(addr, base, index.value));
      SetNext(index.end, 0, a);
      SetNext(a, 0, value.start);
      SetNext(value.end, 0, s);
    }

    /**
     * Assignment to a global: value, then AddressAt of the symbol into a
     * fresh AddressVar, which is the fragment's entry and leads to the value;
     * the value's exit leads to the Store through it.
     */
    method AssignGlobal(n: Node) returns (r: Option<InstPair>, value: InstPair)
      requires Valid() && inFunction && n.Assignment? && n.location.VarAccess? && n.location.symbol !in locals
      modifies this, program
      ensures Valid() && Stable()
      ensures r.Some? ==> Made(old(|program.cells|), |program.cells|, r.value)
      ensures r.Some? ==> |record| == |old(record)| + RecordDelta(n)
      ensures r.Some? ==>
        var cells := program.cells;
        old(|program.cells|) + 2 <= |cells| && old(temps) < temps &&
        var s := |cells| - 2;
        Made(old(|program.cells|), s, value) && value.value.Some? &&
        cells[s + 1] == Cell(AddressAtInst(AddressVar(temps - 1), n.location.symbol, None), Some(value.start), None) &&
        Edge(cells, value.end, s) &&
        cells[s] == Cell(StoreInst(value.value.value, AddressVar(temps - 1)), None, None) &&
        r.value == InstPair(s + 1, s, None)
      decreases n, 0
    {
      value := Unlowered;
      var vr := Visit(n.value);
      if vr.None? || vr.value.value.None? {
        r := None;
        return;
      }
      value := vr.value;
      var s := JoinGlobalStore(value, n.location.symbol);
      r := Some(InstPair(s + 1, s, None));
    }

    /**
     * The global store glue: a fresh AddressVar, the Store through it, then
     * AddressAt of the symbol leading to the value, whose exit leads to the
     * Store.
     */
    method JoinGlobalStore(value: InstPair, symbol: Symbol) returns (s: nat)
      requires Valid() && value.end < |program.cells| && value.start < |program.cells|
      requires value.value.Some? && value.value.value.LocalVar?
      modifies this, program
      ensures Valid() && Glued() && temps == old(temps) + 1
      ensures Only(old(program.cells), program.cells, {value.end})
      ensures s == |old(program.cells)| && |program.cells| == s + 2
      ensures program.cells[s] == Cell(StoreInst(value.value.value, AddressVar(old(temps))), None, None)
      ensures program.cells[s + 1] == Cell(AddressAtInst(AddressVar(old(temps)), symbol, None), Some(value.start), None)
      ensures program.cells[value.end] == Link(old(program.cells)[value.end], 0, s)
    {
      var addr := TempAddressVar();
      s := Emit(StoreInst(value.value.value, addr));
      var a := Emit(AddressAtInst(addr, symbol, None));
      SetNext(a, 0, value.start);
      SetNext(value.end, 0, s);
    }

    /** Assignment to a local: value, then a Copy of it into the mapped LocalVar. */
    method AssignLocal(n: Node) returns (r: Option<InstPair>, value: InstPair)
      requires Valid() && inFunction && n.Assignment? && n.location.VarAccess? && n.location.symbol in locals
      modifies this, program
      ensures Valid() && Stable()
      ensures r.Some? ==> Made(old(|program.cells|), |program.cells|, r.value)
      ensures r.Some? ==> |record| == |old(record)| + RecordDelta(n)
      ensures r.Some? ==>
        var cells := program.cells;
        old(|program.cells|) < |cells| &&
        var c := |cells| - 1;
        Made(old(|program.cells|), c, value) && value.value.Some? &&
        Edge(cells, value.end, c) &&
        cells[c] == Cell(CopyInst(old(locals)[n.location.symbol], value.value.value), None, None) &&
        r.value == InstPair(value.start, c, None)
      decreases n, 0
    {
      value := Unlowered;
      var target := locals[n.location.symbol];
      var vr := Visit(n.value);
      if vr.None? || vr.value.value.None? {
        r := None;
        return;
      }
      value := vr.value;
      var c := Emit(CopyInst(target, value.value.value));
      SetNext(value.end, 0, c);
      r := Some(InstPair(value.start, c, None));
    }

    /** `visit(Return)`: the value's fragment, then a ReturnInst of its value. */
    method VisitReturn(n: Node) returns (r: Option<InstPair>, value: InstPair)
      requires Valid() && inFunction && n.Return?
      modifies this, program
      ensures Valid() && Stable()
      ensures r.Some? ==> Made(old(|program.cells|), |program.cells|, r.value)
      ensures r.Some? ==> |record| == |old(record)| + RecordDelta(n)
      ensures n.retValue.None? ==> r.None?
      ensures r.Some? ==>
        var ret := |program.cells| - 1;
        Made(old(|program.cells|), ret, value) && value.value.Some? &&
        Edge(program.cells, value.end, ret) &&
        program.cells[ret] == Cell(ReturnInst(value.value.value), None, None) &&
        r.value == InstPair(value.start, ret, None)
      decreases n, 1
    {
      value := Unlowered;
      if n.retValue.None? {
        r := None;
        return;
      }
      var vr := Visit(n.retValue.value);
      if vr.None? || vr.value.value.None? {
        r := None;
        return;
      }
      value := vr.value;
      var ret := Emit(ReturnInst(value.value.value));
      SetNext(value.end, 0, ret);
      r := Some(InstPair(value.start, ret, None));
    }

    /**
     * `visit(Break)`: pops the innermost loop exit, which becomes the
     * fragment's entry; the exit is a fresh Nop nothing leads to.
     */
    method VisitBreak(n: Node) returns (r: Option<InstPair>)
      requires Valid() && inFunction && n.Break?
      modifies this, program
      ensures Valid() && Stable()
      ensures |old(record)| == 0 ==> r.None?
      ensures |old(record)| > 0 ==>
        var k := |old(program.cells)|;
        record == old(record)[..|old(record)| - 1] &&
        program.cells == old(program.cells) + [Cell(NopInst(), None, None)] &&
        r == Some(InstPair(old(record)[|old(record)| - 1], k, None))
      ensures r.Some? ==> Made(old(|program.cells|), |program.cells|, r.value)
      ensures r.Some? ==> |record| == |old(record)| + RecordDelta(n)
    {
      if |record| == 0 {
        // `record.pop()` on an empty stack.
        r := None;
        return;
      }
      var exit := record[|record| - 1];
      record := record[..|record| - 1];
      var b := Emit(NopInst());
      r := Some(InstPair(exit, b, None));
    }

    /**
     * `visit(IfElseBranch)`: the condition, a Jump on its value, then the else
     * block and after it the then block.  The Jump continues at the else
     * entry (slot 0) or the then entry (slot 1); both block exits continue at
     * one exit Nop.
     */
    method VisitIf(n: Node) returns (r: Option<InstPair>, cond: InstPair, elsePart: InstPair,
                                     thenPart: InstPair, jump: nat)
      requires Valid() && inFunction && n.IfElseBranch?
      modifies this, program
      ensures Valid() && Stable()
      ensures r.Some? ==> Made(old(|program.cells|), |program.cells|, r.value)
      ensures r.Some? ==> |record| == |old(record)| + RecordDelta(n)
      ensures r.Some? ==>
        Made(old(|program.cells|), jump, cond) && cond.value.Some? &&
        Edge(program.cells, cond.end, jump) &&
        BranchShape(program.cells, cond.value.value, jump, elsePart, thenPart) &&
        r.value == InstPair(cond.start, |program.cells| - 1, None)
      decreases n, 1
    {
      cond, elsePart, thenPart, jump := Unlowered, Unlowered, Unlowered, 0;
      var cr := Visit(n.condition);
      if cr.None? || cr.value.value.None? {
        r := None;
        return;
      }
      cond := cr.value;
      jump := Emit(JumpInst(cond.value.value));
      SetNext(cond.end, 0, jump);
      var exit;
      exit, elsePart, thenPart := VisitBranches(n, cond.value.value, jump);
      if exit.None? {
        r := None;
        return;
      }
      r := Some(InstPair(cond.start, exit.value, None));
    }

    /** The blocks of `visit(IfElseBranch)` after its Jump: else first, then the then block, then the glue. */
    method VisitBranches(n: Node, condition: Value, jump: nat) returns (exit: Option<nat>, elsePart: InstPair, thenPart: InstPair)
      requires Valid() && inFunction && n.IfElseBranch?
      requires jump == |program.cells| - 1 && program.cells[jump] == Cell(JumpInst(condition), None, None)
      modifies this, program
      ensures Valid() && old(temps) <= temps && inFunction == old(inFunction)
      ensures program.globals == old(program.globals) && program.functions == old(program.functions)
      ensures Only(old(program.cells), program.cells, {jump})
      ensures exit.Some? ==>
        |record| == |old(record)| + RecordDelta(n.elseBlock) + RecordDelta(n.thenBlock) &&
        exit.value == |program.cells| - 1 &&
        BranchShape(program.cells, condition, jump, elsePart, thenPart)
      decreases n, 0
    {
      elsePart, thenPart := Unlowered, Unlowered;
      var er := Visit(n.elseBlock);
      if er.None? {
        exit := None;
        return;
      }
      elsePart := er.value;
      var tr := Visit(n.thenBlock);
      if tr.None? {
        exit := None;
        return;
      }
      thenPart := tr.value;
      var e := JoinBranches(jump, elsePart, thenPart);
      exit := Some(e);
    }

    /**
     * The if/else glue: the Jump continues at the else entry (slot 0), a new
     * exit Nop follows the else exit, the Jump's slot 1 goes to the then
     * entry and the then exit goes to the exit Nop.
     */
    method JoinBranches(jump: nat, elsePart: InstPair, thenPart: InstPair) returns (exit: nat)
      requires Valid() && jump < elsePart.end < thenPart.end < |program.cells|
      requires elsePart.start < |program.cells| && thenPart.start < |program.cells|
      modifies program
      ensures Valid() && program.globals == old(program.globals) && program.functions == old(program.functions)
      ensures Only(old(program.cells), program.cells, {jump, elsePart.end, thenPart.end})
      ensures exit == |old(program.cells)| && |program.cells| == exit + 1
      ensures program.cells[exit] == Cell(NopInst(), None, None)
      ensures program.cells[jump] == Link(Link(old(program.cells)[jump], 0, elsePart.start), 1, thenPart.start)
      ensures program.cells[elsePart.end] == Link(old(program.cells)[elsePart.end], 0, exit)
      ensures program.cells[thenPart.end] == Link(old(program.cells)[thenPart.end], 0, exit)
    {
      SetNext(jump, 0, elsePart.start);
      exit := Emit(NopInst());
      SetNext(elsePart.end, 0, exit);
      SetNext(jump, 1, thenPart.start);
      SetNext(thenPart.end, 0, exit);
    }

    /**
     * `visit(For)`: the exit Nop is created and pushed on `record` (and never
     * popped here); then init, condition, body and increment are lowered in
     * that order and wired init -> condition -> Jump (slot 0 to the exit,
     * slot 1 to the body) and body -> increment -> condition.
     */
    method VisitFor(n: Node) returns (r: Option<InstPair>, init: InstPair, cond: InstPair,
                                      body: InstPair, incr: InstPair)
      requires Valid() && inFunction && n.For?
      modifies this, program
      ensures Valid() && Stable()
      ensures r.Some? ==> Made(old(|program.cells|), |program.cells|, r.value)
      ensures r.Some? ==> |record| == |old(record)| + RecordDelta(n)
      ensures r.Some? ==>
        var exit := |old(program.cells)|;
        Made(exit + 1, cond.end, init) && Made(init.end + 1, body.end, cond) &&
        program.cells[exit] == Cell(NopInst(), None, None) &&
        LoopShape(program.cells, exit, init, cond, body, incr) &&
        r.value == InstPair(init.start, exit, None)
      decreases n, 1
    {
      body, incr := Unlowered, Unlowered;
      var exit := Emit(NopInst());
      record := record + [exit];
      var ok;
      ok, init, cond := VisitLoopHead(n);
      if !ok {
        r := None;
        return;
      }
      ok, body, incr := VisitLoopBody(n, exit, init, cond);
      if !ok {
        r := None;
        return;
      }
      r := Some(InstPair(init.start, exit, None));
    }

    /** The start of `visit(For)` after the exit Nop: the init, then the condition. */
    method VisitLoopHead(n: Node) returns (ok: bool, init: InstPair, cond: InstPair)
      requires Valid() && inFunction && n.For?
      modifies this, program
      ensures Valid() && Stable()
      ensures ok ==>
        Made(|old(program.cells)|, cond.end, init) && Made(init.end + 1, |program.cells|, cond) &&
        |record| == |old(record)| + RecordDelta(n.init) + RecordDelta(n.cond)
      decreases n, 0
    {
      init, cond := Unlowered, Unlowered;
      var ir := Visit(n.init);
      if ir.None? {
        ok := false;
        return;
      }
      init := ir.value;
      var cr := Visit(n.cond);
      if cr.None? {
        ok := false;
        return;
      }
      cond := cr.value;
      ok := true;
    }
    /** The rest of `visit(For)` after the condition: body, increment, then the loop glue. */
    method VisitLoopBody(n: Node, exit: nat, init: InstPair, cond: InstPair) returns (ok: bool, body: InstPair, incr: InstPair)
      requires Valid() && inFunction && n.For?
      requires exit < init.end < cond.end < |program.cells| && init.start < |program.cells| && cond.start < |program.cells|
      requires cond.value.Some? ==> cond.value.value.LocalVar?
      modifies this, program
      ensures Valid() && old(temps) <= temps && inFunction == old(inFunction)
      ensures program.globals == old(program.globals) && program.functions == old(program.functions)
      ensures Only(old(program.cells), program.cells, {init.end, cond.end})
      ensures ok ==>
        |record| == |old(record)| + RecordDelta(n.body) + RecordDelta(n.increment) &&
        LoopShape(program.cells, exit, init, cond, body, incr) &&
        Made(|old(program.cells)|, incr.end, body)
      decreases n, 0
    {
      body, incr := Unlowered, Unlowered;
      var br := Visit(n.body);
      if br.None? {
        ok := false;
        return;
      }
      body := br.value;
      var xr := Visit(n.increment);
      if xr.None? || cond.value.None? {
        // JumpInst is given a null condition.
        ok := false;
        return;
      }
      incr := xr.value;
      var jump := JoinLoop(exit, init, cond, body, incr);
      ok := true;
    }

    /**
     * The loop glue: init exit -> condition entry; a Jump on the condition
     * after the condition exit, slot 0 to the loop exit and slot 1 to the
     * body; body exit -> increment entry; increment exit -> condition entry.
     */
    method JoinLoop(exit: nat, init: InstPair, cond: InstPair, body: InstPair, incr: InstPair) returns (jump: nat)
      requires Valid() && exit < |program.cells| && init.end < cond.end < body.end < incr.end < |program.cells|
      requires cond.start < |program.cells| && body.start < |program.cells| && incr.start < |program.cells|
      requires cond.value.Some? && cond.value.value.LocalVar?
      modifies program
      ensures Valid() && program.globals == old(program.globals) && program.functions == old(program.functions)
      ensures Only(old(program.cells), program.cells, {init.end, cond.end, body.end, incr.end})
      ensures jump == |old(program.cells)| && |program.cells| == jump + 1
      ensures program.cells[jump] == Cell(JumpInst(cond.value.value), Some(exit), Some(body.start))
      ensures program.cells[init.end] == Link(old(program.cells)[init.end], 0, cond.start)
      ensures program.cells[cond.end] == Link(old(program.cells)[cond.end], 0, jump)
      ensures program.cells[body.end] == Link(old(program.cells)[body.end], 0, incr.start)
      ensures program.cells[incr.end] == Link(old(program.cells)[incr.end], 0, cond.start)
    {
      SetNext(init.end, 0, cond.start);
      jump := EmitLoopJump(cond.end, cond.value.value, exit, body.start);
      SetNext(body.end, 0, incr.start);
      SetNext(incr.end, 0, cond.start);
    }

    /** The loop's Jump after the condition exit: slot 0 to the loop exit, slot 1 to the body. */
    method EmitLoopJump(from: nat, condition: Value, exit: nat, bodyStart: nat) returns (jump: nat)
      requires Valid() && from < |program.cells| && exit < |program.cells| && bodyStart < |program.cells|
      requires condition.LocalVar?
      modifies program
      ensures Valid() && program.globals == old(program.globals) && program.functions == old(program.functions)
      ensures jump == |old(program.cells)| && |program.cells| == jump + 1
      ensures forall k :: 0 <= k < jump && k != from ==> program.cells[k] == old(program.cells)[k]
      ensures program.cells[jump] == Cell(JumpInst(condition), Some(exit), Some(bodyStart))
      ensures program.cells[from] == Link(old(program.cells)[from], 0, jump)
    {
      jump := Emit(JumpInst(condition));
      SetNext(from, 0, jump);
      SetNext(jump, 0, exit);
      SetNext(jump, 1, bodyStart);
    }
    /**
     * `visit(StatementList)`: a head Nop, alone when the list is empty;
     * otherwise each statement's fragment follows the previous exit through
     * successor 0, in source order, and the last exit ends the list.
     */
    method VisitStatementList(n: Node) returns (r: Option<InstPair>, parts: seq<InstPair>)
      requires Valid() && inFunction && n.StatementList?
      modifies this, program
      ensures Valid() && Stable()
      ensures r.Some? ==> Made(old(|program.cells|), |program.cells|, r.value)
      ensures r.Some? ==> |record| == |old(record)| + RecordDelta(n)
      ensures r.Some? ==>
        var cells := program.cells;
        var head := |old(program.cells)|;
        |parts| == |n.stmts| && cells[head].inst == NopInst() &&
        (|parts| == 0 ==> cells[head] == Cell(NopInst(), None, None)) &&
        Chain(cells, head, parts) &&
        r.value == InstPair(head, Tail(head, parts), None)
      decreases n, 1
    {
      var head := Emit(NopInst());
      var ok;
      ok, parts := LowerChain(n, n.stmts, head);
      if !ok {
        r := None;
        return;
      }
      r := Some(InstPair(head, Tail(head, parts), None));
    }
    /**
     * `visit(VariableDeclaration)`: outside a function a GlobalDecl of one
     * element is added; inside one the symbol is mapped to a fresh LocalVar.
     * Either way the fragment is a lone Nop.
     */
    method VisitVariableDeclaration(n: Node) returns (p: InstPair)
      requires Valid() && n.VariableDeclaration?
      modifies this, program
      ensures Valid() && inFunction == old(inFunction) && record == old(record)
      ensures program.functions == old(program.functions)
      ensures var k := |old(program.cells)|;
        program.cells == old(program.cells) + [Cell(NopInst(), None, None)] && p == InstPair(k, k, None)
      ensures !inFunction ==>
        program.globals == old(program.globals) + [GlobalDecl(n.symbol, 1)] &&
        temps == old(temps) && locals == old(locals)
      ensures inFunction ==>
        program.globals == old(program.globals) && temps == old(temps) + 1 &&
        locals == old(locals)[n.symbol := LocalVar(old(temps))]
    {
      if !inFunction {
        program.globals := program.globals + [GlobalDecl(n.symbol, 1)];
      } else {
        var v := TempVar();
        locals := locals[n.symbol := v];
      }
      var k := Emit(NopInst());
      p := InstPair(k, k, None);
    }

    /** `visit(ArrayDeclaration)`: a GlobalDecl with the array type's extent. */
    method VisitArrayDeclaration(n: Node) returns (ok: bool)
      requires Valid() && n.ArrayDeclaration?
      modifies program
      ensures Valid()
      ensures program.cells == old(program.cells) && program.functions == old(program.functions)
      ensures ok <==> n.symbol.ty.Some? && n.symbol.ty.value.ArrayType?
      ensures program.globals == old(program.globals) + DeclaredGlobals(n)
    {
      if n.symbol.ty.Some? && n.symbol.ty.value.ArrayType? {
        program.globals := program.globals + [GlobalDecl(n.symbol, n.symbol.ty.value.extent)];
        ok := true;
      } else {
        // The cast to ArrayType fails, or `getExtent()` is called on null.
        ok := false;
      }
    }

    /**
     * `visit(FunctionDefinition)`: a new function whose arguments are its
     * first temporaries, mapped from the parameters; its entry is the entry
     * of its lowered body.  The current function and local map are cleared
     * afterwards.
     */
    method VisitFunctionDefinition(n: Node) returns (ok: bool, body: InstPair)
      requires Valid() && n.FunctionDefinition?
      modifies this, program
      ensures Valid() && !inFunction && locals == map[]
      ensures Extends(old(program.cells), program.cells) && program.globals == old(program.globals)
      ensures !(n.symbol.ty.Some? && n.symbol.ty.value.FuncType?) ==> !ok
      ensures !ok ==> program.functions == old(program.functions)
      ensures ok ==>
        Made(old(|program.cells|), |program.cells|, body) &&
        |record| == |old(record)| + RecordDelta(n.statements) &&
        program.functions == old(program.functions) +
          [Function(n.symbol.name, n.symbol.ty.value, ArgVars(|n.parameters|), body.start)]
    {
      body := Unlowered;
      if !(n.symbol.ty.Some? && n.symbol.ty.value.FuncType?) {
        inFunction := false;
        locals := map[];
        ok := false;
        return;
      }
      var args := BindParameters(n.parameters);
      var br := Visit(n.statements);
      inFunction := false;
      locals := map[];
      if br.None? {
        ok := false;
        return;
      }
      body := br.value;
      program.functions := program.functions + [Function(n.symbol.name, n.symbol.ty.value, args, body.start)];
      ok := true;
    }


    /**
     * The start of `visit(FunctionDefinition)`: a fresh function context in
     * which each parameter is mapped to the temporary of its position (the
     * last position when a name repeats), which is also its argument.
     */
    method BindParameters(params: seq<Symbol>) returns (args: seq<Value>)
      requires Valid()
      modifies this
      ensures Valid() && inFunction && record == old(record)
      ensures temps == |params| && args == ArgVars(|params|) && locals == ParamMap(params)
    {
      locals := map[];
      temps := 0;
      inFunction := true;
      args := [];
      for i := 0 to |params|
        invariant Valid() && inFunction && temps == i && args == ArgVars(i) && record == old(record)
        invariant locals == ParamMap(params[..i])
      {
        assert params[..i + 1][..i] == params[..i];
        var v := BindParameter(params[i]);
        args := args + [v];
      }
      assert params[..|params|] == params;
    }
    /** One turn of the parameter loop: the parameter is mapped to a new temporary. */
    method BindParameter(p: Symbol) returns (v: Value)
      requires Valid()
      modifies this
      ensures v == LocalVar(old(temps)) && temps == old(temps) + 1
      ensures locals == old(locals)[p := v]
      ensures record == old(record) && inFunction == old(inFunction)
      ensures Valid()
    {
      v := TempVar();
      locals := locals[p := v];
    }

    /**
     * `lower` / `visit(DeclarationList)`: the program's lists start empty and
     * every top-level declaration is visited in order.  Globals are declared
     * in source order and one function is added per definition.
     */
    method Lower(ast: Node) returns (ok: bool)
      requires Valid() && ast.DeclarationList? && !inFunction
      modifies this, program
      ensures Valid() && !inFunction
      ensures Extends(old(program.cells), program.cells)
      ensures ok ==> program.globals == GlobalsOf(ast.decls)
      ensures ok ==> FunctionNames(program.functions) == DefinedNames(ast.decls)
    {
      program.globals := [];
      program.functions := [];
      var i := 0;
      while i < |ast.decls|
        invariant 0 <= i <= |ast.decls|
        invariant Valid() && !inFunction
        invariant Extends(old(program.cells), program.cells)
        invariant program.globals == GlobalsOf(ast.decls[..i])
        invariant FunctionNames(program.functions) == DefinedNames(ast.decls[..i])
      {
        assert ast.decls[..i + 1][..i] == ast.decls[..i];
        var fine := LowerDeclaration(ast.decls[i]);
        if !fine {
          ok := false;
          return;
        }
        i := i + 1;
      }
      assert ast.decls[..i] == ast.decls;
      ok := true;
    }

    /**
     * One top-level declaration: a function definition adds a function, a
     * variable or array declaration adds its global; nothing else may appear.
     */
    method LowerDeclaration(d: Node) returns (ok: bool)
      requires Valid() && !inFunction
      modifies this, program
      ensures Valid() && !inFunction
      ensures Extends(old(program.cells), program.cells)
      ensures !(d.FunctionDefinition? || d.VariableDeclaration? || d.ArrayDeclaration?) ==> !ok
      ensures ok ==> program.globals == old(program.globals) + DeclaredGlobals(d)
      ensures ok ==> FunctionNames(program.functions) == FunctionNames(old(program.functions)) + DefinedName(d)
    {
      if d.FunctionDefinition? {
        var body;
        ok, body := VisitFunctionDefinition(d);
        if ok {
          assert program.functions[..|old(program.functions)|] == old(program.functions);
        }
      } else if d.VariableDeclaration? {
        var p := VisitVariableDeclaration(d);
        ok := true;
      } else if d.ArrayDeclaration? {
        ok := VisitArrayDeclaration(d);
      } else {
        // No other declaration kind reaches a top-level list.
        ok := false;
      }
    }

  }

  /**
   * The `&&`/`||` nodes from j - 1 to j + 3: the unused then-branch Nop, the
   * Jump on the left value (`&&`: slot 0 to the left copy, slot 1 to the
   * right operand; `||`: the other way round), the two copies into dest, and
   * the merge Nop both copies continue at.
   */
  ghost predicate ShortCircuitNodes(cells: seq<Cell>, left: InstPair, right: InstPair, isAnd: bool, j: nat, dest: Value)
    requires left.value.Some? && right.value.Some?
  {
    1 <= j && j + 3 < |cells| &&
    cells[j - 1] == Cell(NopInst(), None, None) &&
    cells[j] == Cell(JumpInst(left.value.value),
                     Some(if isAnd then j + 1 else right.start),
                     Some(if isAnd then right.start else j + 1)) &&
    cells[j + 1] == Cell(CopyInst(dest, left.value.value), Some(j + 3), None) &&
    cells[j + 2] == Cell(CopyInst(dest, right.value.value), Some(j + 3), None) &&
    cells[j + 3] == Cell(NopInst(), None, None)
  }

  /**
   * The shape of a two-operand expression whose left operand was lowered
   * before node mid and the right operand from mid on: for comparisons and
   * arithmetic, left exit -> right entry -> one instruction into dest; for
   * `&&`/`||`, the short-circuit nodes after the right operand.
   */
  ghost predicate BinaryShape(cells: seq<Cell>, op: Operation, left: InstPair, right: InstPair, mid: nat, dest: Value, r: InstPair)
  {
    if IsComparison(op) || ArithmeticOp(op).Some? then InstructionShape(cells, op, left, right, mid, dest, r)
    else (op == LOGIC_AND || op == LOGIC_OR) && LogicShape(cells, op, left, right, mid, dest, r)
  }

  /** The comparison or arithmetic shape: left exit -> right entry -> one instruction into dest. */
  ghost predicate InstructionShape(cells: seq<Cell>, op: Operation, left: InstPair, right: InstPair, mid: nat, dest: Value, r: InstPair)
    requires IsComparison(op) || ArithmeticOp(op).Some?
  {
    left.value.Some? && right.value.Some? &&
    mid < |cells| &&
    var k := |cells| - 1;
    var kind := if IsComparison(op) then CompareKind(ComparePredicate(op).value)
                else BinaryKind(ArithmeticOp(op).value);
    Made(mid, k, right) &&
    Edge(cells, left.end, right.start) && Edge(cells, right.end, k) &&
    cells[k] == Cell(Instruction(kind, Some(dest), [left.value.value, right.value.value]), None, None) &&
    r == InstPair(left.start, k, Some(dest))
  }

  /** The `&&`/`||` shape: the short-circuit nodes after the right operand. */
  ghost predicate LogicShape(cells: seq<Cell>, op: Operation, left: InstPair, right: InstPair, mid: nat, dest: Value, r: InstPair)
  {
    left.value.Some? && right.value.Some? &&
    mid + 5 <= |cells| &&
    var j := |cells| - 4;
    Made(mid, j - 1, right) &&
    ShortCircuit(cells, left, right, op == LOGIC_AND, j, dest) &&
    r == InstPair(left.start, j + 3, Some(dest))
  }

  /**
   * The if/else shape after its Jump at node jump: the else block lowered
   * first, then the then block; the Jump leads to the else entry (slot 0)
   * and the then entry (slot 1); both exits lead to the exit Nop, the last node.
   */
  ghost predicate BranchShape(cells: seq<Cell>, condition: Value, jump: nat, elsePart: InstPair, thenPart: InstPair)
  {
    0 < |cells| &&
    var exit := |cells| - 1;
    Made(jump + 1, thenPart.end, elsePart) && Made(elsePart.end + 1, exit, thenPart) &&
    cells[jump] == Cell(JumpInst(condition), Some(elsePart.start), Some(thenPart.start)) &&
    Edge(cells, elsePart.end, exit) && Edge(cells, thenPart.end, exit) &&
    cells[exit] == Cell(NopInst(), None, None)
  }

  /**
   * The loop shape: init exit -> condition entry; condition exit -> Jump
   * (the last node) on the condition value, slot 0 to the loop exit and
   * slot 1 to the body; body exit -> increment entry -> ... -> increment
   * exit -> condition entry.  The increment is lowered after the body.
   */
  ghost predicate LoopShape(cells: seq<Cell>, exit: nat, init: InstPair, cond: InstPair, body: InstPair, incr: InstPair)
  {
    0 < |cells| && cond.value.Some? &&
    var jump := |cells| - 1;
    Made(body.end + 1, jump, incr) &&
    Edge(cells, init.end, cond.start) &&
    Edge(cells, cond.end, jump) &&
    cells[jump] == Cell(JumpInst(cond.value.value), Some(exit), Some(body.start)) &&
    Edge(cells, body.end, incr.start) &&
    Edge(cells, incr.end, cond.start)
  }

  /** The whole short-circuit fragment, with the operands' exits leading into it. */
  ghost predicate ShortCircuit(cells: seq<Cell>, left: InstPair, right: InstPair, isAnd: bool, j: nat, dest: Value)
  {
    left.value.Some? && right.value.Some? &&
    ShortCircuitNodes(cells, left, right, isAnd, j, dest) &&
    Edge(cells, left.end, j) && Edge(cells, right.end, j + 2)
  }

  /**
   * The call shape: the head Nop, the argument fragments chained after it,
   * and the CallInst (the last node) after the last exit, over the argument
   * values, with a fresh destination unless the callee returns void.
   */
  ghost predicate CallShape(cells: seq<Cell>, head: nat, callee: Symbol, args: seq<InstPair>,
                            temps0: nat, temps: nat, r: InstPair)
  {
    var c := |cells| - 1;
    head < c && cells[head].inst == NopInst() &&
    Chain(cells, head, args) && Tail(head, args) < c &&
    (forall k :: 0 <= k < |args| ==> args[k].value.Some?) &&
    Edge(cells, Tail(head, args), c) &&
    callee.ty.Some? && callee.ty.value.FuncType? &&
    var ret := callee.ty.value.ret;
    (!ret.VoidType? ==> temps0 < temps) &&
    var dst := if ret.VoidType? then None else Some(LocalVar(temps - 1));
    cells[c] == Cell(CallInst(dst, callee, Present(ValuesOf(args))), None, None) &&
    r == InstPair(head, c, dst)
  }
}
