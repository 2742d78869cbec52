/**
 * The Crux type objects and their operator-typing tables.  Each Java type class
 * (IntType, BoolType, VoidType, ArrayType, FuncType, TypeList, ErrorType) is one
 * constructor; each overridden method is one function that dispatches on the
 * receiver.  Every case a class does not override falls back to the Type base
 * class, which is modelled as an opaque ErrorType result.
 */
module CruxTypes {
  import opened Text

  /**
   * Object identity of the argument list and the return type a FuncType was
   * built from: FuncType.equivalent compares those two references, not their
   * contents, and every FuncType in the compiler is built from fresh ones.
   */
  class TypeId {
    constructor () {}
  }

  datatype Type =
    | IntType
    | BoolType
    | VoidType
    | ArrayType(extent: int, base: Type)
    | FuncType(args: seq<Type>, ret: Type, id: TypeId)
    | TypeList(items: seq<Type>)
    | ErrorType(message: string)

  /** `a.getClass() == b.getClass()`. */
  predicate SameClass(a: Type, b: Type)
  {
    match a
    case IntType => b.IntType?
    case BoolType => b.BoolType?
    case VoidType => b.VoidType?
    case ArrayType(_, _) => b.ArrayType?
    case FuncType(_, _, _) => b.FuncType?
    case TypeList(_) => b.TypeList?
    case ErrorType(_) => b.ErrorType?
  }

  /** `toString` of every type class. */
  function ToString(t: Type): (s: string)
    ensures |s| <= 4 <==> t.IntType? || t.BoolType? || t.VoidType?
    decreases t, 1
  {
    match t
    case IntType => "int"
    case BoolType => "bool"
    case VoidType => "void"
    case ArrayType(n, b) => "array[" + IntToString(n) + "," + ToString(b) + "]"
    case FuncType(args, ret, _) => "func(" + ListToString(args) + "):" + ToString(ret)
    case TypeList(items) => ListToString(items)
    case ErrorType(m) => "ErrorType(" + m + ")"
  }

  /** The text of a TypeList holding items. */
  function ListToString(items: seq<Type>): (s: string)
    ensures 10 <= |s|
    decreases items, 1
  {
    "TypeList(" + ItemsText(items) + ")"
  }

  function ItemsText(items: seq<Type>): string
    decreases items, 0
  {
    if |items| == 0 then ""
    else if |items| == 1 then ToString(items[0])
    else ToString(items[0]) + "," + ItemsText(items[1..])
  }

  /**
   * The base-class result of an operation the receiver's class does not
   * support: an ErrorType whose message names the operation and its operands.
   */
  function Fallback(op: string, t: Type, that: Type): (r: Type)
    ensures r.ErrorType?
  {
    ErrorType("cannot " + op + " " + ToString(t) + " with " + ToString(that))
  }

  /**
   * The receiver of `equivalent` may only be a FuncType when the argument is
   * one too, since FuncType.equivalent casts its argument.
   */
  predicate EquivalentDefined(t: Type, that: Type)
  {
    t.FuncType? ==> that.FuncType?
  }

  /** `t.equivalent(that)`, dispatched on the class of t. */
  predicate Equivalent(t: Type, that: Type)
    requires EquivalentDefined(t, that)
    ensures Equivalent(t, that) ==> SameClass(t, that) && !t.ErrorType? && !that.ErrorType?
    decreases t, 1
  {
    match t
    case IntType => that.IntType?
    case BoolType => that.BoolType?
    case VoidType => that.VoidType?
    case ArrayType(n, b) => that.ArrayType? && SameClass(b, that.base) && n == that.extent
    case FuncType(_, _, id) => that.id == id
    case TypeList(items) => that.TypeList? && ListEquivalent(items, that.items)
    case ErrorType(_) => false
  }

  /** TypeList equivalence: the same length and equivalent elements in order. */
  predicate ListEquivalent(xs: seq<Type>, ys: seq<Type>)
    decreases xs, 0
  {
    |xs| == |ys| &&
    forall i :: 0 <= i < |xs| ==> ElementEquivalent(xs[i], ys[i])
  }

  /** One element comparison of a TypeList; a FuncType element matches only the same FuncType. */
  predicate ElementEquivalent(x: Type, y: Type)
    decreases x, 2
  {
    if x.FuncType? then y.FuncType? && x.id == y.id else Equivalent(x, y)
  }

  /** Types that contain no ErrorType anywhere. */
  predicate ErrorFree(t: Type)
  {
    match t
    case ErrorType(_) => false
    case ArrayType(_, b) => ErrorFree(b)
    case FuncType(args, ret, _) => (forall i :: 0 <= i < |args| ==> ErrorFree(args[i])) && ErrorFree(ret)
    case TypeList(items) => forall i :: 0 <= i < |items| ==> ErrorFree(items[i])
    case _ => true
  }

  // ---------------------------------------------------------------- IntType

  /** `add`: IntType with IntType gives IntType. */
  function Add(t: Type, that: Type): (r: Type)
    ensures r == IntType <==> t.IntType? && that.IntType?
    ensures r != IntType ==> r.ErrorType?
  {
    if t.IntType? && Equivalent(t, that) then IntType else Fallback("add", t, that)
  }

  /** `sub`: IntType with IntType gives IntType. */
  function Sub(t: Type, that: Type): (r: Type)
    ensures r == IntType <==> t.IntType? && that.IntType?
    ensures r != IntType ==> r.ErrorType?
  {
    if t.IntType? && Equivalent(t, that) then IntType else Fallback("subtract", t, that)
  }

  /** `mul`: IntType with IntType gives IntType. */
  function Mul(t: Type, that: Type): (r: Type)
    ensures r == IntType <==> t.IntType? && that.IntType?
    ensures r != IntType ==> r.ErrorType?
  {
    if t.IntType? && Equivalent(t, that) then IntType else Fallback("multiply", t, that)
  }

  /** `div`: IntType with IntType gives IntType. */
  function Div(t: Type, that: Type): (r: Type)
    ensures r == IntType <==> t.IntType? && that.IntType?
    ensures r != IntType ==> r.ErrorType?
  {
    if t.IntType? && Equivalent(t, that) then IntType else Fallback("divide", t, that)
  }

  /** `compare`: comparing two IntTypes gives BoolType. */
  function Compare(t: Type, that: Type): (r: Type)
    ensures r == BoolType <==> t.IntType? && that.IntType?
    ensures r != BoolType ==> r.ErrorType?
  {
    if t.IntType? && Equivalent(t, that) then BoolType else Fallback("compare", t, that)
  }

  // --------------------------------------------------------------- BoolType

  /** `and`: BoolType with BoolType gives BoolType. */
  function And(t: Type, that: Type): (r: Type)
    ensures r == BoolType <==> t.BoolType? && that.BoolType?
    ensures r != BoolType ==> r.ErrorType?
  {
    if t.BoolType? && Equivalent(t, that) then BoolType else Fallback("and", t, that)
  }

  /** `or`: BoolType with BoolType gives BoolType. */
  function Or(t: Type, that: Type): (r: Type)
    ensures r == BoolType <==> t.BoolType? && that.BoolType?
    ensures r != BoolType ==> r.ErrorType?
  {
    if t.BoolType? && Equivalent(t, that) then BoolType else Fallback("or", t, that)
  }

  /** `not`: BoolType.not tests `equivalent(this)`, which always holds. */
  function Not(t: Type): (r: Type)
    ensures r == BoolType <==> t.BoolType?
    ensures r != BoolType ==> r.ErrorType?
  {
    if t.BoolType? && Equivalent(t, t) then BoolType else Fallback("negate", t, t)
  }

  // ------------------------------------------------------ IntType, BoolType

  /** `assign`: an IntType or BoolType location accepts a value of its own class. */
  function Assign(t: Type, source: Type): (r: Type)
    ensures r == VoidType <==> (t.IntType? && source.IntType?) || (t.BoolType? && source.BoolType?)
    ensures r != VoidType ==> r.ErrorType?
  {
    if (t.IntType? || t.BoolType?) && Equivalent(t, source) then VoidType
    else Fallback("assign", source, t)
  }

  // ------------------------------------------------------ FuncType, VoidType

  /**
   * `call`: a FuncType called with a TypeList equivalent to its arguments gives
   * its return type; VoidType.call with a VoidType gives VoidType.
   */
  function Call(t: Type, args: Type): (r: Type)
    ensures t.FuncType? && args.TypeList? && ListEquivalent(args.items, t.args) ==> r == t.ret
    ensures t.VoidType? && args.VoidType? ==> r == VoidType
    ensures (!(t.FuncType? && args.TypeList? && ListEquivalent(args.items, t.args))
             && !(t.VoidType? && args.VoidType?)) ==> r.ErrorType?
  {
    if t.FuncType? && args.TypeList? && ListEquivalent(args.items, t.args) then t.ret
    else if t.VoidType? && Equivalent(t, args) then VoidType
    else Fallback("call", t, args)
  }

  // -------------------------------------------------------------- ArrayType

  /** When ArrayType.index can run without a ClassCastException. */
  predicate IndexAsWrittenDefined(t: Type, that: Type)
  {
    t.ArrayType? ==> !that.IntType?
  }

  /**
   * ArrayType.index as written: an IntType index is cast to ArrayType, which
   * throws, so that case is a precondition; any other index falls back.
   */
  function IndexAsWritten(t: Type, that: Type): (r: Type)
    requires IndexAsWrittenDefined(t, that)
    ensures r.ErrorType?
  {
    Fallback("index", t, that)
  }

  /** ArrayType.index as its comment intends: an IntType index yields the element type. */
  function Index(t: Type, that: Type): (r: Type)
    ensures t.ArrayType? && that.IntType? ==> r == t.base
    ensures !(t.ArrayType? && that.IntType?) ==> r.ErrorType?
  {
    if t.ArrayType? && that.IntType? then t.base else Fallback("index", t, that)
  }

  // ----------------------------------------------------------------- Lemmas

  /** Only int, bool and void print as "int", "bool" and "void". */
  lemma {:induction false} ScalarNames(t: Type)
    ensures ToString(t) == "int" <==> t == IntType
    ensures ToString(t) == "bool" <==> t == BoolType
    ensures ToString(t) == "void" <==> t == VoidType
  {
    if !(t.IntType? || t.BoolType? || t.VoidType?) {
      assert |ToString(t)| > 4;
    }
  }

  /** Every error-free type is equivalent to itself. */
  lemma {:induction false} EquivalentReflexive(t: Type)
    requires ErrorFree(t)
    ensures Equivalent(t, t)
  {
    match t
    case TypeList(items) =>
      forall i | 0 <= i < |items|
        ensures ElementEquivalent(items[i], items[i])
      {
        if !items[i].FuncType? {
          EquivalentReflexive(items[i]);
        }
      }
    case _ =>
  }

  /** ArrayType.index as written can never produce an element type: every well-typed access is excluded. */
  lemma IndexAsWrittenRejectsIntIndex(extent: int, base: Type)
    ensures !IndexAsWrittenDefined(ArrayType(extent, base), IntType)
    ensures Index(ArrayType(extent, base), IntType) == base
  {
  }
}
