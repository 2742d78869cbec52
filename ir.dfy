/**
 * The intermediate representation: values, the instruction classes, global
 * declarations, and the program that owns them.  Each instruction class is one
 * Kind; an instruction is its kind, its optional destination variable and its
 * operand list, as in the Instruction base class.  Instructions live in an
 * arena (Program.cells) and refer to their two successors by index.
 */
module Ir {
  import opened Wrappers
  import opened Text
  import opened CruxTypes
  import opened Symbols

  /**
   * IR values.  Temporaries are numbered by their function; constants carry
   * their value.
   */
  datatype Value =
    | LocalVar(id: nat)
    | AddressVar(id: nat)
    | IntConst(intValue: int)
    | BoolConst(boolValue: bool)

  predicate IsVariable(v: Value)
  {
    v.LocalVar? || v.AddressVar?
  }

  /**
   * `Variable.getName`: "$t<n>" for the n-th LocalVar and "%t<n>" for the
   * n-th AddressVar (the AddressVar constructor adds the "%").
   */
  function VarName(v: Value): (s: string)
    requires IsVariable(v)
    ensures 3 <= |s| && s[1] == 't'
    ensures s[0] == (if v.LocalVar? then '$' else '%')
  {
    if v.LocalVar? then "$t" + NatToString(v.id) else "%t" + NatToString(v.id)
  }

  /** Two variables share a name only if they are the same variable. */
  lemma VarNameInjective(a: Value, b: Value)
    requires IsVariable(a) && IsVariable(b)
    ensures VarName(a) == VarName(b) <==> a == b
  {
    if VarName(a) == VarName(b) {
      assert VarName(a)[0] == VarName(b)[0];
      assert VarName(a)[2..] == NatToString(a.id);
      assert VarName(b)[2..] == NatToString(b.id);
      NatToStringInjective(a.id, b.id);
    }
  }

  /** `BinaryOperator.Op`; its `toString` is the constant's name. */
  datatype BinaryOp = Add | Sub | Mul | Div

  function BinaryOpName(op: BinaryOp): string
  {
    match op
    case Add => "Add"
    case Sub => "Sub"
    case Mul => "Mul"
    case Div => "Div"
  }

  /** `CompareInst.Predicate`. */
  datatype Predicate = GE | GT | LE | LT | EQ | NE

  /** One constructor per instruction class. */
  datatype Kind =
    | NopKind
    | AddressAtKind(base: Symbol)
    | BinaryKind(op: BinaryOp)
    | CompareKind(cmp: Predicate)
    | CopyKind
    | JumpKind
    | LoadKind
    | StoreKind
    | ReturnKind
    | CallKind(callee: Symbol)
    | UnaryNotKind

  /** An instruction: `mDestVar` (null when absent) and `mOperands`. */
  datatype Instruction = Instruction(kind: Kind, dest: Option<Value>, operands: seq<Value>)

  /** `new NopInst()`. */
  function NopInst(): Instruction
  {
    Instruction(NopKind, None, [])
  }

  /** `new AddressAt(dst, base, offset)`, or `new AddressAt(dst, base)` when offset is None. */
  function AddressAtInst(dst: Value, base: Symbol, offset: Option<Value>): Instruction
  {
    Instruction(AddressAtKind(base), Some(dst), if offset.Some? then [offset.value] else [])
  }

  /** `new BinaryOperator(op, dst, lhs, rhs)`. */
  function BinaryInst(op: BinaryOp, dst: Value, lhs: Value, rhs: Value): Instruction
  {
    Instruction(BinaryKind(op), Some(dst), [lhs, rhs])
  }

  /** `new CompareInst(dst, predicate, lhs, rhs)`. */
  function CompareInst(dst: Value, p: Predicate, lhs: Value, rhs: Value): Instruction
  {
    Instruction(CompareKind(p), Some(dst), [lhs, rhs])
  }

  /** `new CopyInst(dst, src)`. */
  function CopyInst(dst: Value, src: Value): Instruction
  {
    Instruction(CopyKind, Some(dst), [src])
  }

  /** `new JumpInst(predicate)`: the condition variable. */
  function JumpInst(condition: Value): Instruction
  {
    Instruction(JumpKind, None, [condition])
  }

  /** `new LoadInst(dst, srcAddress)`. */
  function LoadInst(dst: Value, srcAddress: Value): Instruction
  {
    Instruction(LoadKind, Some(dst), [srcAddress])
  }

  /** `new StoreInst(srcValue, destAddress)`. */
  function StoreInst(srcValue: Value, destAddress: Value): Instruction
  {
    Instruction(StoreKind, None, [srcValue, destAddress])
  }

  /** `new ReturnInst(value)`. */
  function ReturnInst(value: Value): Instruction
  {
    Instruction(ReturnKind, None, [value])
  }

  /** `new CallInst(dst, callee, params)`, or `new CallInst(callee, params)` when dst is None. */
  function CallInst(dst: Option<Value>, callee: Symbol, params: seq<Value>): Instruction
  {
    Instruction(CallKind(callee), dst, params)
  }

  /** `new UnaryNotInst(dst, operand)`. */
  function UnaryNotInst(dst: Value, operand: Value): Instruction
  {
    Instruction(UnaryNotKind, Some(dst), [operand])
  }

  /**
   * The shape each instruction class gives its destination and operands,
   * with the Java parameter types (LocalVar or AddressVar) where they are
   * narrower than Value.
   */
  predicate WellFormed(i: Instruction)
  {
    match i.kind
    case NopKind => i.dest.None? && |i.operands| == 0
    case AddressAtKind(_) =>
      i.dest.Some? && i.dest.value.AddressVar? && |i.operands| <= 1 &&
      (|i.operands| == 1 ==> i.operands[0].LocalVar?)
    case BinaryKind(_) =>
      i.dest.Some? && i.dest.value.LocalVar? && |i.operands| == 2 &&
      i.operands[0].LocalVar? && i.operands[1].LocalVar?
    case CompareKind(_) =>
      i.dest.Some? && i.dest.value.LocalVar? && |i.operands| == 2 &&
      i.operands[0].LocalVar? && i.operands[1].LocalVar?
    case CopyKind => i.dest.Some? && i.dest.value.LocalVar? && |i.operands| == 1
    case JumpKind => i.dest.None? && |i.operands| == 1 && i.operands[0].LocalVar?
    case LoadKind =>
      i.dest.Some? && i.dest.value.LocalVar? && |i.operands| == 1 && i.operands[0].AddressVar?
    case StoreKind =>
      i.dest.None? && |i.operands| == 2 && i.operands[0].LocalVar? && i.operands[1].AddressVar?
    case ReturnKind => i.dest.None? && |i.operands| == 1 && i.operands[0].LocalVar?
    case CallKind(_) =>
      (i.dest.Some? ==> i.dest.value.LocalVar?) &&
      forall k :: 0 <= k < |i.operands| ==> i.operands[k].LocalVar?
    case UnaryNotKind =>
      i.dest.Some? && i.dest.value.LocalVar? && |i.operands| == 1 && i.operands[0].LocalVar?
  }

  /**
   * Every constructor, given arguments of its Java parameter types, builds an
   * instruction of its class's fixed shape: Nop, Jump, Store and Return have no
   * destination; AddressAt has one operand with an offset and none without.
   */
  lemma ConstructorsWellFormed(dst: Value, addr: Value, x: Value, y: Value, base: Symbol,
                               op: BinaryOp, p: Predicate, params: seq<Value>, src: Value)
    requires dst.LocalVar? && addr.AddressVar? && x.LocalVar? && y.LocalVar?
    requires forall k :: 0 <= k < |params| ==> params[k].LocalVar?
    ensures WellFormed(NopInst()) && |NopInst().operands| == 0 && NopInst().dest.None?
    ensures WellFormed(AddressAtInst(addr, base, Some(x))) && |AddressAtInst(addr, base, Some(x)).operands| == 1
    ensures WellFormed(AddressAtInst(addr, base, None)) && |AddressAtInst(addr, base, None).operands| == 0
    ensures WellFormed(BinaryInst(op, dst, x, y)) && WellFormed(CompareInst(dst, p, x, y))
    ensures WellFormed(CopyInst(dst, src)) && WellFormed(UnaryNotInst(dst, x))
    ensures WellFormed(JumpInst(x)) && JumpInst(x).dest.None?
    ensures WellFormed(LoadInst(dst, addr)) && WellFormed(StoreInst(x, addr)) && StoreInst(x, addr).dest.None?
    ensures WellFormed(ReturnInst(x)) && ReturnInst(x).dest.None?
    ensures WellFormed(CallInst(Some(dst), base, params)) && WellFormed(CallInst(None, base, params))
  {
  }

  /** `AddressAt.getBase`. */
  function GetBase(i: Instruction): Symbol
    requires i.kind.AddressAtKind?
  {
    i.kind.base
  }

  /** `AddressAt.getOffset`: the operand if there is one, null otherwise. */
  function GetOffset(i: Instruction): Option<Value>
    requires i.kind.AddressAtKind?
  {
    if |i.operands| != 0 then Some(i.operands[0]) else None
  }

  /** `getDst` / `getDstVar` of the classes with a destination. */
  function GetDst(i: Instruction): Option<Value>
  {
    i.dest
  }

  /** `JumpInst.getPredicate`. */
  function GetPredicate(i: Instruction): Value
    requires i.kind.JumpKind? && 1 <= |i.operands|
  {
    i.operands[0]
  }

  /** `StoreInst.getSrcValue` and `CopyInst.getSrcValue`. */
  function GetSrcValue(i: Instruction): Value
    requires (i.kind.StoreKind? || i.kind.CopyKind?) && 1 <= |i.operands|
  {
    i.operands[0]
  }

  /** `StoreInst.getDestAddress`. */
  function GetDestAddress(i: Instruction): Value
    requires i.kind.StoreKind? && 2 <= |i.operands|
  {
    i.operands[1]
  }

  /** `LoadInst.getSrcAddress`. */
  function GetSrcAddress(i: Instruction): Value
    requires i.kind.LoadKind? && 1 <= |i.operands|
  {
    i.operands[0]
  }

  /** `UnaryNotInst.getInner`. */
  function GetInner(i: Instruction): Value
    requires i.kind.UnaryNotKind? && 1 <= |i.operands|
  {
    i.operands[0]
  }

  /** `ReturnInst.getReturnValue`. */
  function GetReturnValue(i: Instruction): Value
    requires i.kind.ReturnKind? && 1 <= |i.operands|
  {
    i.operands[0]
  }

  /** `CallInst.getCallee`. */
  function GetCallee(i: Instruction): Symbol
    requires i.kind.CallKind?
  {
    i.kind.callee
  }

  /** The getters of every class give back what its constructor was built from. */
  lemma GettersRoundTrip(dst: Value, addr: Value, x: Value, y: Value, base: Symbol,
                         offset: Option<Value>, dstOpt: Option<Value>, params: seq<Value>)
    ensures GetBase(AddressAtInst(addr, base, offset)) == base
    ensures GetOffset(AddressAtInst(addr, base, offset)) == offset
    ensures GetDst(AddressAtInst(addr, base, offset)) == Some(addr)
    ensures GetPredicate(JumpInst(x)) == x
    ensures GetSrcValue(StoreInst(x, addr)) == x && GetDestAddress(StoreInst(x, addr)) == addr
    ensures GetSrcAddress(LoadInst(dst, addr)) == addr && GetDst(LoadInst(dst, addr)) == Some(dst)
    ensures GetInner(UnaryNotInst(dst, x)) == x && GetDst(UnaryNotInst(dst, x)) == Some(dst)
    ensures GetSrcValue(CopyInst(dst, y)) == y && GetDst(CopyInst(dst, y)) == Some(dst)
    ensures GetReturnValue(ReturnInst(x)) == x
    ensures GetCallee(CallInst(dstOpt, base, params)) == base && GetDst(CallInst(dstOpt, base, params)) == dstOpt
  {
  }

  /**
   * `CallInst.convert`: the parameter list copied through an array into an
   * operand list.
   */
  method Convert(params: seq<Value>) returns (operands: seq<Value>)
    ensures operands == params
  {
    var l := new Value[|params|];
    for i := 0 to l.Length
      invariant l[..i] == params[..i]
    {
      l[i] := params[i];
    }
    operands := l[..];
  }

  /** `CallInst.getParams`: the operands, each cast to LocalVar, in order. */
  method GetParams(i: Instruction) returns (params: seq<Value>)
    requires i.kind.CallKind? && WellFormed(i)
    ensures params == i.operands
    ensures forall k :: 0 <= k < |params| ==> params[k].LocalVar?
  {
    params := [];
    for k := 0 to |i.operands|
      invariant params == i.operands[..k]
    {
      params := params + [i.operands[k]];
    }
  }

  /**
   * The text of an AddressAt offset that may be null.  The code hands the
   * null offset to the value formatter itself; what the formatter answers
   * for null is not part of this model, which takes it to be "null".
   */
  function OptText(fmt: Value -> string, v: Option<Value>): string
  {
    if v.Some? then fmt(v.value) else "null"
  }

  /** The parameter text of `CallInst.format`: every parameter's text, no separator. */
  function ParamsText(fmt: Value -> string, ps: seq<Value>): string
  {
    if |ps| == 0 then "" else ParamsText(fmt, ps[..|ps| - 1]) + fmt(ps[|ps| - 1])
  }

  /** The accumulating loop of `CallInst.format`. */
  method FormatParams(fmt: Value -> string, ps: seq<Value>) returns (s: string)
    ensures s == ParamsText(fmt, ps)
  {
    s := "";
    for k := 0 to |ps|
      invariant s == ParamsText(fmt, ps[..k])
    {
      assert ps[..k + 1][..k] == ps[..k];
      s := s + fmt(ps[k]);
    }
    assert ps[..|ps|] == ps;
  }

  /** The texts of consecutive parameter lists follow one another with nothing between. */
  lemma {:induction false} ParamsTextAppend(fmt: Value -> string, a: seq<Value>, b: seq<Value>)
    ensures ParamsText(fmt, a + b) == ParamsText(fmt, a) + ParamsText(fmt, b)
    decreases |b|
  {
    if |b| == 0 {
      assert a + b == a;
    } else {
      var init := b[..|b| - 1];
      assert (a + b)[..|a + b| - 1] == a + init;
      ParamsTextAppend(fmt, a, init);
    }
  }

  /** The classes whose `format` is part of this model. */
  predicate Formattable(k: Kind)
  {
    !k.BinaryKind? && !k.CompareKind?
  }

  /** `format(valueFormatter)` of every instruction class shown. */
  function Format(i: Instruction, fmt: Value -> string): (r: string)
    requires WellFormed(i) && Formattable(i.kind)
    ensures i.kind.NopKind? <==> r == "nop"
  {
    match i.kind
    case NopKind => "nop"
    case AddressAtKind(base) =>
      fmt(i.dest.value) + " = addressAt " + base.name + ", " + OptText(fmt, GetOffset(i))
    case CopyKind =>
      var t := fmt(i.dest.value) + " = " + fmt(i.operands[0]);
      assert t[|fmt(i.dest.value)| + 1] == '=';
      t
    case JumpKind => "jump " + fmt(i.operands[0])
    case LoadKind => fmt(i.dest.value) + " = load " + fmt(i.operands[0])
    case StoreKind => "store " + fmt(i.operands[0]) + ", " + fmt(i.operands[1])
    case ReturnKind => "return " + fmt(i.operands[0])
    case CallKind(callee) =>
      if i.dest.Some? then
        fmt(i.dest.value) + " = call " + SymbolText(callee) + " (" + ParamsText(fmt, i.operands) + ")"
      else
        "call " + SymbolText(callee) + " (" + ParamsText(fmt, i.operands) + ")"
    case UnaryNotKind => fmt(i.dest.value) + " = not " + fmt(i.operands[0])
    case BinaryKind(_) => assert false; ""
    case CompareKind(_) => assert false; ""
  }

  /** An instruction with a destination formats as "<dst> = ...". */
  lemma FormatNamesDestination(i: Instruction, fmt: Value -> string)
    requires WellFormed(i) && Formattable(i.kind) && i.dest.Some?
    ensures fmt(i.dest.value) + " = " <= Format(i, fmt)
  {
    var d := fmt(i.dest.value);
    match i.kind
    case AddressAtKind(base) =>
      AssignmentPrefix(d, "addressAt ", base.name + ", " + OptText(fmt, GetOffset(i)));
    case CopyKind =>
      assert Format(i, fmt) == d + " = " + fmt(i.operands[0]);
    case LoadKind =>
      AssignmentPrefix(d, "load ", fmt(i.operands[0]));
    case UnaryNotKind =>
      AssignmentPrefix(d, "not ", fmt(i.operands[0]));
    case CallKind(callee) =>
      CallFormatDropsDestination(i, fmt);
  }

  /** The call text without a destination is the tail of the call text with one. */
  lemma CallFormatDropsDestination(i: Instruction, fmt: Value -> string)
    requires WellFormed(i) && i.kind.CallKind? && i.dest.Some?
    ensures Format(i, fmt) == fmt(i.dest.value) + " = " + Format(i.(dest := None), fmt)
    ensures fmt(i.dest.value) + " = " <= Format(i, fmt)
  {
    var d := fmt(i.dest.value);
    var s, p := SymbolText(i.kind.callee), ParamsText(fmt, i.operands);
    CallTextSplit(d, s, p);
  }

  /** "<d> = call <s> (<p>)" is "<d> = " followed by "call <s> (<p>)". */
  lemma CallTextSplit(d: string, s: string, p: string)
    ensures d + " = call " + s + " (" + p + ")" == d + " = " + ("call " + s + " (" + p + ")")
  {
    var tail := s + " (" + p + ")";
    assert " = call " == " = " + "call ";
    assert d + " = call " + s + " (" + p + ")" == (d + " = call ") + tail;
    assert "call " + s + " (" + p + ")" == "call " + tail;
    assert (d + " = call ") + tail == d + " = " + ("call " + tail);
  }

  /** An assignment text "<d> = <op>..." starts with "<d> = " and goes on with the rest. */
  lemma AssignmentPrefix(d: string, op: string, rest: string)
    ensures d + (" = " + op) + rest == d + " = " + (op + rest)
    ensures d + " = " <= d + (" = " + op) + rest
  {
    assert d + (" = " + op) + rest == d + " = " + (op + rest);
  }

  /** Adding a parameter to a call adds its text at the end of the parameter text. */
  lemma CallFormatListsParams(dst: Option<Value>, callee: Symbol, params: seq<Value>, p: Value, fmt: Value -> string)
    ensures ParamsText(fmt, CallInst(dst, callee, params + [p]).operands) ==
            ParamsText(fmt, CallInst(dst, callee, params).operands) + fmt(p)
  {
    assert (params + [p])[..|params|] == params;
  }

  /** `GlobalDecl`: the declared symbol and its element count. */
  datatype GlobalDecl = GlobalDecl(symbol: Symbol, numElement: int)

  /** `GlobalDecl.format`: "<name> = allocate <type>, <count>". */
  function GlobalDeclFormat(g: GlobalDecl, fmt: Value -> string): (r: string)
    requires g.symbol.ty.Some?
    ensures g.symbol.name + " = allocate " <= r
  {
    g.symbol.name + " = allocate " + ToString(g.symbol.ty.value) + ", " + fmt(IntConst(g.numElement))
  }

  /**
   * The allocation text reads back field by field: the symbol's name, then
   * " = allocate ", the type's text, ", " and the count's text, each at its
   * own offset.
   */
  lemma GlobalDeclFormatParts(g: GlobalDecl, fmt: Value -> string)
    requires g.symbol.ty.Some?
    ensures var t := GlobalDeclFormat(g, fmt);
      var name := g.symbol.name;
      var ty := ToString(g.symbol.ty.value);
      var count := fmt(IntConst(g.numElement));
      var a := |name| + 12;
      var b := a + |ty|;
      |t| == b + 2 + |count| &&
      t[..|name|] == name && t[|name|..a] == " = allocate " &&
      t[a..b] == ty && t[b..b + 2] == ", " && t[b + 2..] == count
  {
    var name := g.symbol.name;
    var ty := ToString(g.symbol.ty.value);
    var count := fmt(IntConst(g.numElement));
    var t := GlobalDeclFormat(g, fmt);
    assert t == name + " = allocate " + ty + ", " + count;
    var a := |name| + 12;
    var b := a + |ty|;
    assert t[..|name|] == name;
    assert t[|name|..a] == " = allocate ";
    assert t[a..b] == ty;
    assert t[b..b + 2] == ", ";
    assert t[b + 2..] == count;
  }

  /** An arena node: an instruction and its successor slots 0 and 1. */
  datatype Cell = Cell(inst: Instruction, next0: Option<nat>, next1: Option<nat>)

  /** `setNext(slot, target)`. */
  function Link(c: Cell, slot: nat, target: nat): (r: Cell)
    requires slot < 2
    ensures r.inst == c.inst
    ensures slot == 0 ==> r.next0 == Some(target) && r.next1 == c.next1
    ensures slot == 1 ==> r.next1 == Some(target) && r.next0 == c.next0
  {
    if slot == 0 then c.(next0 := Some(target)) else c.(next1 := Some(target))
  }

  /** Every successor index names a node of the arena. */
  predicate Closed(cells: seq<Cell>)
  {
    forall k :: 0 <= k < |cells| ==>
      (cells[k].next0.Some? ==> cells[k].next0.value < |cells|) &&
      (cells[k].next1.Some? ==> cells[k].next1.value < |cells|)
  }

  /** b is a later state of arena a: a's nodes are all there, unchanged. */
  predicate Extends(a: seq<Cell>, b: seq<Cell>)
  {
    |a| <= |b| && forall k :: 0 <= k < |a| ==> b[k] == a[k]
  }

  /** `Function`: its name, type, argument variables and entry node. */
  datatype Function = Function(name: string, ty: Type, args: seq<Value>, start: nat)

  /** `Program`: global declarations, functions, and the arena of their instructions. */
  class Program {
    var globals: seq<GlobalDecl>
    var functions: seq<Function>
    var cells: seq<Cell>

    constructor ()
      ensures globals == [] && functions == [] && cells == []
    {
      globals := [];
      functions := [];
      cells := [];
    }
  }
}
