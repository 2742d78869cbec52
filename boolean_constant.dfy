/**
 * Interned boolean constants: `BooleanConstant.get(program, value)` hands out
 * one constant object per program and value, kept in a static pool keyed by
 * the Program object.
 */
module BooleanConstants {
  import opened CruxTypes
  import opened Ir

  /** A boolean constant object; its type is BoolType. */
  class BooleanConstant {
    const value: bool
    const ty: Type

    /** The private constructor `BooleanConstant(program, value)`. */
    constructor (value: bool)
      ensures this.value == value && ty == BoolType
    {
      this.value := value;
      ty := BoolType;
    }
  }

  /** The constants of one program: at most one per boolean value. */
  type Pool = map<bool, BooleanConstant>

  /** A program's pool, or the empty one `computeIfAbsent` starts from. */
  function PoolOf(pools: map<Program, Pool>, p: Program): Pool
  {
    if p in pools then pools[p] else map[]
  }

  /** Keys are booleans, so a pool never holds more than two constants. */
  lemma PoolHoldsAtMostTwo(m: Pool)
    ensures |m| <= 2
    ensures |m| == 2 ==> m.Keys == {false, true}
  {
    var keys := m.Keys;
    var both: set<bool> := {false, true};
    var present: set<bool> := set b: bool | b in both && b in keys;
    forall b: bool
      ensures b in keys <==> b in present
    {
      assert b in both;
    }
    assert keys == present;
    assert present <= both;
    SubsetCardinality(present, both);
    if false !in keys {
      assert keys <= {true};
      SubsetCardinality(keys, {true});
    } else if true !in keys {
      assert keys <= {false};
      SubsetCardinality(keys, {false});
    } else {
      assert keys == both;
    }
    assert |m| == |keys|;
  }

  /** A subset is no larger than the set holding it. */
  lemma {:induction false} SubsetCardinality<T>(a: set<T>, b: set<T>)
    requires a <= b
    ensures |a| <= |b|
    decreases |b|
  {
    if a != {} {
      var x :| x in a;
      SubsetCardinality(a - {x}, b - {x});
    }
  }

  /** The static map `mBoolConstantPool`. */
  class ConstantPool {
    var pools: map<Program, Pool>

    /**
     * Every pooled constant carries the value it is filed under and has
     * BoolType, and no constant is shared between two programs.
     */
    ghost predicate Valid()
      reads this
    {
      (forall p, v :: p in pools && v in pools[p] ==>
        pools[p][v].value == v && pools[p][v].ty == BoolType) &&
      (forall p, q, v, w :: p in pools && q in pools && v in pools[p] && w in pools[q] && p != q ==>
        pools[p][v] != pools[q][w])
    }

    constructor ()
      ensures pools == map[] && Valid()
    {
      pools := map[];
    }

    /**
     * `get(program, value)`: the pooled constant if there is one, otherwise a
     * new constant that is pooled for later calls.
     */
    method Get(p: Program, v: bool) returns (c: BooleanConstant)
      requires Valid()
      modifies this
      ensures Valid()
      ensures c.value == v && c.ty == BoolType
      ensures p in old(pools) && v in old(pools)[p] ==>
        c == old(pools)[p][v] && pools == old(pools)
      ensures !(p in old(pools) && v in old(pools)[p]) ==>
        fresh(c) && pools == old(pools)[p := PoolOf(old(pools), p)[v := c]]
    {
      var current := PoolOf(pools, p);
      if v in current {
        c := current[v];
      } else {
        c := new BooleanConstant(v);
        pools := pools[p := current[v := c]];
      }
    }

    /** Asking twice with the same program and value gives the same object. */
    method GetTwice(p: Program, v: bool) returns (first: BooleanConstant, second: BooleanConstant)
      requires Valid()
      modifies this
      ensures Valid()
      ensures first == second && first.value == v
      ensures p in pools && v in pools[p] && pools[p][v] == first
    {
      first := Get(p, v);
      second := Get(p, v);
    }
  }
}
