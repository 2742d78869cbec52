/**
 * Symbols and the symbol table: a stack of scopes, innermost last, each a map
 * from name to Symbol.  Symbols are objects, so two declarations of the same
 * name in different scopes are different symbols, as in the compiler.
 */
module Symbols {
  import opened Wrappers
  import opened CruxTypes

  /** A declared or looked-up name: its type, or the error that produced it. */
  class Symbol {
    const name: string
    const ty: Option<Type>
    const error: Option<string>

    /** `Symbol(name, type)`. */
    constructor Typed(name: string, ty: Type)
      ensures this.name == name && this.ty == Some(ty) && this.error == None
    {
      this.name := name;
      this.ty := Some(ty);
      this.error := None;
    }

    /** `Symbol(name, error)`: no type. */
    constructor Failed(name: string, error: string)
      ensures this.name == name && this.ty == None && this.error == Some(error)
    {
      this.name := name;
      this.ty := None;
      this.error := Some(error);
    }
  }

  /** Java's rendering of a possibly-null type inside a format string. */
  function OptTypeText(t: Option<Type>): string
  {
    if t.Some? then ToString(t.value) else "null"
  }

  /** `Symbol.toString()`: "Symbol(name:error)" or "Symbol(name:type)". */
  function SymbolText(s: Symbol): (r: string)
    ensures "Symbol(" + s.name + ":" <= r && r[|r| - 1] == ')'
  {
    "Symbol(" + s.name + ":" + (if s.error.Some? then s.error.value else OptTypeText(s.ty)) + ")"
  }

  /** `Symbol.toString(includeType)`. */
  function SymbolTextWith(s: Symbol, includeType: bool): string
  {
    if s.error.Some? || includeType then SymbolText(s) else "Symbol(" + s.name + ")"
  }

  type Scope = map<string, Symbol>

  /** Innermost-first resolution of a name through a scope stack. */
  function Resolve(scopes: seq<Scope>, name: string): Option<Symbol>
    decreases |scopes|
  {
    if |scopes| == 0 then None
    else if name in scopes[|scopes| - 1] then Some(scopes[|scopes| - 1][name])
    else Resolve(scopes[..|scopes| - 1], name)
  }

  /** Every scope files each symbol under its own name. */
  predicate NamesMatch(scopes: seq<Scope>)
  {
    forall i, k :: 0 <= i < |scopes| && k in scopes[i] ==> scopes[i][k].name == k
  }

  /** The names the table starts with. */
  const BuiltinNames: set<string> :=
    {"readInt", "readChar", "printBool", "printInt", "printChar", "println"}

  /** Argument types of the built-in functions. */
  function BuiltinArgs(name: string): seq<Type>
  {
    if name == "printBool" then [BoolType]
    else if name == "printInt" || name == "printChar" then [IntType]
    else []
  }

  /** Return types of the built-in functions. */
  function BuiltinRet(name: string): Type
  {
    if name == "readInt" || name == "readChar" then IntType else VoidType
  }

  /** A symbol declared with the given built-in signature. */
  predicate IsBuiltin(s: Symbol, name: string)
  {
    s.name == name && s.error == None && s.ty.Some? && s.ty.value.FuncType? &&
    s.ty.value.args == BuiltinArgs(name) && s.ty.value.ret == BuiltinRet(name)
  }

  /** One built-in function symbol, with a FuncType object of its own. */
  method Builtin(name: string) returns (s: Symbol)
    ensures fresh(s) && IsBuiltin(s, name)
  {
    var id := new TypeId();
    s := new Symbol.Typed(name, FuncType(BuiltinArgs(name), BuiltinRet(name), id));
  }

  class SymbolTable {
    var scopes: seq<Scope>
    var encounteredError: bool

    /** A new table: one scope holding the six built-in functions, no error yet. */
    constructor ()
      ensures |scopes| == 1 && scopes[0].Keys == BuiltinNames
      ensures forall n :: n in scopes[0] ==> IsBuiltin(scopes[0][n], n)
      ensures !encounteredError && NamesMatch(scopes)
    {
      var readInt := Builtin("readInt");
      var readChar := Builtin("readChar");
      var printBool := Builtin("printBool");
      var printInt := Builtin("printInt");
      var printChar := Builtin("printChar");
      var println := Builtin("println");
      var scope: Scope := map["readInt" := readInt, "readChar" := readChar, "printBool" := printBool,
                              "printInt" := printInt, "printChar" := printChar, "println" := println];
      scopes := [scope];
      encounteredError := false;
    }

    /** `hasEncounteredError`. */
    method HasEncounteredError() returns (b: bool)
      ensures b == encounteredError
    {
      b := encounteredError;
    }

    /** `enter`: push an empty scope. */
    method Enter()
      modifies this
      ensures scopes == old(scopes) + [map[]]
      ensures encounteredError == old(encounteredError)
      ensures NamesMatch(old(scopes)) ==> NamesMatch(scopes)
    {
      scopes := scopes + [map[]];
    }

    /** `exit`: drop the innermost scope. */
    method Exit()
      requires |scopes| >= 1
      modifies this
      ensures scopes == old(scopes)[..|old(scopes)| - 1]
      ensures encounteredError == old(encounteredError)
      ensures NamesMatch(old(scopes)) ==> NamesMatch(scopes)
    {
      scopes := scopes[..|scopes| - 1];
    }

    /**
     * `add`: declare name in the innermost scope; a name already declared
     * there is a declaration error and leaves every scope unchanged.
     */
    method Add(name: string, ty: Type) returns (s: Symbol)
      requires |scopes| >= 1
      modifies this
      ensures fresh(s) && s.name == name
      ensures name in old(scopes[|scopes| - 1]) ==>
        scopes == old(scopes) && encounteredError &&
        s.ty == None && s.error == Some("DeclareSymbolError")
      ensures name !in old(scopes[|scopes| - 1]) ==>
        scopes == old(scopes)[|old(scopes)| - 1 := old(scopes[|scopes| - 1])[name := s]] &&
        encounteredError == old(encounteredError) &&
        s.ty == Some(ty) && s.error == None
      ensures NamesMatch(old(scopes)) ==> NamesMatch(scopes)
    {
      var current := |scopes| - 1;
      if name in scopes[current] {
        encounteredError := true;
        s := new Symbol.Failed(name, "DeclareSymbolError");
      } else {
        s := new Symbol.Typed(name, ty);
        scopes := scopes[current := scopes[current][name := s]];
      }
    }

    /**
     * `lookup`: the innermost declaration of name, or a fresh
     * "ResolveSymbolError" symbol that also sets the error flag.
     */
    method Lookup(name: string) returns (s: Symbol)
      modifies this
      ensures scopes == old(scopes)
      ensures Resolve(scopes, name).Some? ==>
        s == Resolve(scopes, name).value && encounteredError == old(encounteredError)
      ensures Resolve(scopes, name).None? ==>
        fresh(s) && s.name == name && s.ty == None && s.error == Some("ResolveSymbolError") &&
        encounteredError
      ensures NamesMatch(scopes) ==> s.name == name
    {
      var found := Find(Some(name));
      if found.None? {
        encounteredError := true;
        s := new Symbol.Failed(name, "ResolveSymbolError");
      } else {
        s := found.value;
        if NamesMatch(scopes) {
          ResolveNamed(scopes, name);
        }
      }
    }

    /** `find`: nothing for a null name, else the first match scanning from the innermost scope. */
    method Find(name: Option<string>) returns (s: Option<Symbol>)
      ensures name.None? ==> s.None?
      ensures name.Some? ==> s == Resolve(scopes, name.value)
    {
      if name.None? {
        return None;
      }
      var i := |scopes| - 1;
      assert scopes[..i + 1] == scopes;
      while i > -1
        invariant -1 <= i < |scopes|
        invariant Resolve(scopes, name.value) == Resolve(scopes[..i + 1], name.value)
      {
        assert scopes[..i + 1][..i] == scopes[..i];
        if name.value in scopes[i] {
          return Some(scopes[i][name.value]);
        }
        i := i - 1;
      }
      return None;
    }
  }

  // ----------------------------------------------------------------- Lemmas

  /** A declaration in scope i with none further in resolves to scope i's symbol. */
  lemma {:induction false} ResolveInnermost(scopes: seq<Scope>, name: string, i: nat)
    requires i < |scopes| && name in scopes[i]
    requires forall j :: i < j < |scopes| ==> name !in scopes[j]
    ensures Resolve(scopes, name) == Some(scopes[i][name])
    decreases |scopes|
  {
    if i < |scopes| - 1 {
      var inner := scopes[..|scopes| - 1];
      assert forall j :: i < j < |inner| ==> inner[j] == scopes[j];
      ResolveInnermost(inner, name, i);
    }
  }

  /** A resolved symbol comes from the innermost scope that declares the name. */
  lemma {:induction false} ResolveSound(scopes: seq<Scope>, name: string)
    requires Resolve(scopes, name).Some?
    ensures exists i :: 0 <= i < |scopes| && name in scopes[i] &&
                        Resolve(scopes, name).value == scopes[i][name] &&
                        forall j :: i < j < |scopes| ==> name !in scopes[j]
    decreases |scopes|
  {
    var last := |scopes| - 1;
    if name !in scopes[last] {
      var inner := scopes[..last];
      ResolveSound(inner, name);
      var i :| 0 <= i < |inner| && name in inner[i] &&
        Resolve(inner, name).value == inner[i][name] &&
        forall j :: i < j < |inner| ==> name !in inner[j];
      assert scopes[i] == inner[i];
      assert forall j :: i < j < |scopes| ==> name !in scopes[j] by {
        forall j | i < j < |scopes| ensures name !in scopes[j] {
          if j < last { assert scopes[j] == inner[j]; }
        }
      }
    }
  }

  /** Resolve fails exactly when no scope declares the name. */
  lemma {:induction false} ResolveNone(scopes: seq<Scope>, name: string)
    ensures Resolve(scopes, name).None? <==> forall j :: 0 <= j < |scopes| ==> name !in scopes[j]
    decreases |scopes|
  {
    if |scopes| > 0 {
      var inner := scopes[..|scopes| - 1];
      ResolveNone(inner, name);
      assert forall j :: 0 <= j < |inner| ==> inner[j] == scopes[j];
    }
  }

  /** Entering a scope changes no resolution, and exiting it restores the scope list. */
  lemma EnterKeepsResolution(scopes: seq<Scope>, name: string)
    ensures Resolve(scopes + [map[]], name) == Resolve(scopes, name)
    ensures (scopes + [map[]])[..|scopes|] == scopes
  {
    assert (scopes + [map[]])[..|scopes|] == scopes;
  }

  /** A name added to the innermost scope shadows every outer declaration, and other names resolve as before. */
  lemma AddShadows(scopes: seq<Scope>, name: string, s: Symbol, other: string)
    requires |scopes| >= 1
    ensures var added := scopes[|scopes| - 1 := scopes[|scopes| - 1][name := s]];
      Resolve(added, name) == Some(s) &&
      (other != name ==> Resolve(added, other) == Resolve(scopes, other))
  {
    var added := scopes[|scopes| - 1 := scopes[|scopes| - 1][name := s]];
    assert added[..|added| - 1] == scopes[..|scopes| - 1];
  }

  /** Under NamesMatch a name resolves to a symbol of that name. */
  lemma {:induction false} ResolveNamed(scopes: seq<Scope>, name: string)
    requires NamesMatch(scopes) && Resolve(scopes, name).Some?
    ensures Resolve(scopes, name).value.name == name
    decreases |scopes|
  {
    if name !in scopes[|scopes| - 1] {
      var inner := scopes[..|scopes| - 1];
      assert forall i :: 0 <= i < |inner| ==> inner[i] == scopes[i];
      ResolveNamed(inner, name);
    }
  }
}
