/**
 * The text CodeGen writes: x86-64 assembly lines for the globals and for each
 * function's instruction graph.  Each function here states what one step of
 * the generator appends to its output and how it changes the slot map
 * (`varIndexMap`) and the slot counter (`numLocalVar`).
 */
module Assembly {
  import opened Wrappers
  import opened Text
  import opened Symbols
  import opened Ir

  /** `printCode`: a line indented by four spaces. */
  function Code(s: string): string
  {
    "    " + s
  }

  /** A stack slot's offset from %rbp: -8 times the slot, printed as a Java int. */
  function Offset(slot: int): string
  {
    IntToString(slot * -8)
  }

  /** The generator state: the lines written, `varIndexMap` and `numLocalVar`. */
  datatype Gen = Gen(out: seq<string>, slots: map<string, int>, count: int)

  /** The state a generator starts in: no lines, no slots, the counter at 1. */
  const Start: Gen := Gen([], map[], 1)

  /** g with lines appended. */
  function Emit(g: Gen, lines: seq<string>): (r: Gen)
    ensures r.out == g.out + lines && r.slots == g.slots && r.count == g.count
  {
    g.(out := g.out + lines)
  }

  /** g with one line appended: one `printCode` or `printLabel`. */
  function Put(g: Gen, line: string): (r: Gen)
    ensures r.out == g.out + [line] && r.slots == g.slots && r.count == g.count
    ensures Grows(g, r)
  {
    g.(out := g.out + [line])
  }

  /**
   * The slot of a variable name.  A name already in the map gives its
   * recorded slot.  A new name is recorded at the current counter, which is
   * then incremented; the slot used is the counter before the increment when
   * afterIncrement is false, and the counter after it when it is true (the
   * pattern most visits follow).
   */
  function Slot(g: Gen, name: string, afterIncrement: bool): (r: (int, Gen))
    ensures r.1.out == g.out && Grows(g, r.1)
    ensures name in r.1.slots && r.1.slots.Keys == g.slots.Keys + {name}
    ensures r.1.count == (if name in g.slots then g.count else g.count + 1)
    ensures SlotsBelow(g) && 1 <= g.count ==> 1 <= r.0 <= r.1.count
  {
    if name in g.slots then (g.slots[name], g)
    else
      var g' := g.(slots := g.slots[name := g.count], count := g.count + 1);
      (if afterIncrement then g'.count else g.count, g')
  }

  /**
   * Every recorded slot lies in [1, count): true of the start state and kept
   * by every step of the generator.
   */
  predicate SlotsBelow(g: Gen)
  {
    forall name :: name in g.slots ==> 1 <= g.slots[name] < g.count
  }

  /**
   * What every step of the generator keeps: lines are only appended, the
   * counter never goes down, a recorded slot never changes, and recorded
   * slots stay in [1, count).
   */
  predicate Grows(g: Gen, r: Gen)
  {
    g.out <= r.out && g.count <= r.count &&
    (forall name :: name in g.slots ==> name in r.slots && r.slots[name] == g.slots[name]) &&
    (SlotsBelow(g) && 1 <= g.count ==> SlotsBelow(r))
  }

  /**
   * The recording lookup uses the slot it records, and asking again, in
   * either pattern, gives the same slot and changes nothing.
   */
  lemma RecordedSlotIsStable(g: Gen, name: string, afterIncrement: bool)
    ensures var (s, g') := Slot(g, name, false);
      g'.slots[name] == s &&
      Slot(g', name, afterIncrement) == (s, g')
  {
  }

  /**
   * The other pattern, on a new name, uses the slot one above the one it
   * records: the first use of such a variable and every later use address
   * different slots, and the first one is outside every recorded slot.
   */
  lemma FirstUseSlotMismatch(g: Gen, name: string)
    requires name !in g.slots && SlotsBelow(g)
    ensures var (s, g') := Slot(g, name, true);
      s == g'.slots[name] + 1 && s == g'.count &&
      Slot(g', name, true).0 == s - 1 &&
      forall n :: n in g'.slots ==> g'.slots[n] != s
  {
  }

  /** A positive slot is written as a negative offset: a location below %rbp. */
  lemma OffsetBelowFrame(slot: int)
    requires 1 <= slot
    ensures Offset(slot)[0] == '-' && Offset(slot) == "-" + NatToString(8 * slot)
  {
  }

  /** The name of a variable operand; the key of the slot map. */
  function Name(v: Value): string
  {
    if IsVariable(v) then VarName(v) else ""
  }

  /** `printInstructionInfor`: the instruction's IR text inside a comment. */
  function Info(i: Instruction, fmt: Value -> string): string
    requires WellFormed(i) && Formattable(i.kind)
  {
    Code("/* " + Format(i, fmt) + " */")
  }

  /** The label of a successor as string concatenation prints it: "null" when it has none. */
  function LabelText(labels: map<nat, string>, target: Option<nat>): string
  {
    if target.Some? && target.value in labels then labels[target.value] else "null"
  }

  /** `visit(AddressAt)`: the symbol's address through the GOT; no slot is used. */
  function GenAddressAt(g: Gen, i: Instruction, fmt: Value -> string): (r: Gen)
    requires WellFormed(i) && i.kind.AddressAtKind?
    ensures r.slots == g.slots && r.count == g.count
    ensures g.out <= r.out
    ensures |i.operands| == 0 ==> (|r.out| == |g.out| + 3 &&
      r.out[|g.out| + 1] == Code("movq " + i.kind.base.name + "@GOTPCREL(%rip), %r11"))
    ensures |i.operands| != 0 ==> (|r.out| == |g.out| + 4 &&
      r.out[|g.out| + 2] == Code("movq " + i.kind.base.name + "@GOTPCREL(%rip), %r10"))
  {
    var base := i.kind.base.name;
    var g0 := Put(g, Info(i, fmt));
    if GetOffset(i).None? then
      Put(Put(g0, Code("movq " + base + "@GOTPCREL(%rip), %r11")),
          Code("movq %r11, " + Name(i.dest.value) + " (%rbp)"))
    else
      Put(Put(Put(g0, Code("imulq $8, %r10")),
              Code("movq " + base + "@GOTPCREL(%rip), %r10")),
          Code("addq %r10, %r11"))
  }

  /** The arithmetic line of a BinaryOperator: r10 := r10 op r11. */
  function ArithText(op: BinaryOp): string
  {
    match op
    case Add => "add %r11, %r10"
    case Sub => "sub %r11, %r10"
    case Mul => "imul %r11, %r10"
    case Div => "idiv %r11, %r10"
  }

  /**
   * `visit(BinaryOperator)`: both operands loaded into r10 and r11, the
   * operator applied, r10 stored into the destination's slot.
   */
  function GenBinary(g: Gen, i: Instruction): (r: Gen)
    requires WellFormed(i) && i.kind.BinaryKind?
    ensures Grows(g, r)
  {
    var g0 := Put(g, Code("/* BinaryOperator: " + BinaryOpName(i.kind.op) + "*/"));
    var (left, g1) := Slot(g0, Name(i.operands[0]), true);
    var (right, g2) := Slot(g1, Name(i.operands[1]), true);
    var g3 := Put(Put(Put(g2, Code("movq " + Offset(left) + "(%rbp), %r10")),
                      Code("movq " + Offset(right) + "(%rbp), %r11")),
                  Code(ArithText(i.kind.op)));
    var (dst, g4) := Slot(g3, Name(i.dest.value), false);
    Put(g4, Code("movq %r10, " + Offset(dst) + "(%rbp)"))
  }

  /** The condition code `cmov` is suffixed with for each predicate. */
  function CmovSuffix(p: Predicate): (r: string)
    ensures SuffixPredicate(r) == Some(p)
  {
    match p
    case GE => "ge"
    case LE => "le"
    case GT => "g"
    case LT => "l"
    case EQ => "e"
    case NE => "ne"
  }

  /** The predicate a condition code stands for. */
  function SuffixPredicate(s: string): Option<Predicate>
  {
    if s == "ge" then Some(GE)
    else if s == "le" then Some(LE)
    else if s == "g" then Some(GT)
    else if s == "l" then Some(LT)
    else if s == "e" then Some(EQ)
    else if s == "ne" then Some(NE)
    else None
  }

  /** Every predicate's condition code reads back as that predicate. */
  lemma SuffixRoundTrip(p: Predicate)
    ensures SuffixPredicate(CmovSuffix(p)) == Some(p)
  {
  }

  /** Different predicates give different condition codes. */
  lemma CmovSuffixInjective(p: Predicate, q: Predicate)
    ensures CmovSuffix(p) == CmovSuffix(q) <==> p == q
  {
    SuffixRoundTrip(p);
    SuffixRoundTrip(q);
  }

  /**
   * `visit(CompareInst)`: compare, preset r11 to 0 and r10 to 1, move 1 into
   * r11 when the predicate holds, store r11.
   */
  function GenCompare(g: Gen, i: Instruction): (r: Gen)
    requires WellFormed(i) && i.kind.CompareKind?
    ensures Grows(g, r)
  {
    var g0 := Put(g, Code("/* BinaryOperator */ "));
    var (left, g1) := Slot(g0, Name(i.operands[0]), true);
    var (right, g2) := Slot(g1, Name(i.operands[1]), true);
    var g3 := Put(Put(Put(g2, Code("movq " + Offset(left) + "(%rbp), %r10")),
                      Code("movq " + Offset(right) + "(%rbp), %r11")),
                  Code("cmp %r11, %r10"));
    var g4 := Put(Put(Put(g3, Code("movq $0, %r11")),
                      Code("movq $1, %r10")),
                  Code("cmov" + CmovSuffix(i.kind.cmp) + " %r10, %r11"));
    var (dst, g5) := Slot(g4, Name(i.dest.value), true);
    Put(g5, Code("movq %r11, " + Offset(dst) + "(%rbp)"))
  }

  /**
   * `visit(CopyInst)`: by the source's class, an integer through r10, a
   * boolean as $1 or $0, nothing for an address, a local through r10.
   */
  function GenCopy(g: Gen, i: Instruction, fmt: Value -> string): (r: Gen)
    requires WellFormed(i) && i.kind.CopyKind?
    ensures Grows(g, r)
  {
    var g0 := Put(g, Info(i, fmt));
    var (dst, g1) := Slot(g0, Name(i.dest.value), false);
    var d := Offset(dst);
    match i.operands[0]
    case IntConst(n) =>
      Put(Put(g1, Code("movq $" + IntToString(n) + ", %r10")), Code("movq %r10, " + d + "(%rbp)"))
    case BoolConst(b) =>
      Put(g1, Code("movq " + (if b then "$1" else "$0") + ", " + d + "(%rbp)"))
    case AddressVar(_) =>
      g1
    case LocalVar(_) =>
      var (src, g2) := Slot(g1, Name(i.operands[0]), true);
      Put(Put(g2, Code("movq " + Offset(src) + "(%rbp), %r10")), Code("movq %r10, " + d + "(%rbp)"))
  }

  /** `visit(JumpInst)`: jump to the label of successor 1 when the condition is 1. */
  function GenJump(g: Gen, i: Instruction, target: string, fmt: Value -> string): (r: Gen)
    requires WellFormed(i) && i.kind.JumpKind?
    ensures Grows(g, r)
  {
    var (cond, g1) := Slot(Put(g, Info(i, fmt)), Name(i.operands[0]), true);
    Put(Put(Put(Put(g1, Code("movq " + Offset(cond) + "(%rbp), %r10")),
                Code("movq $1, %r11")),
            Code("cmp %r10, %r11")),
        Code("je " + target))
  }

  /** `visit(LoadInst)`: the address from its slot, the word it points at into the destination. */
  function GenLoad(g: Gen, i: Instruction, fmt: Value -> string): (r: Gen)
    requires WellFormed(i) && i.kind.LoadKind?
    ensures Grows(g, r)
  {
    var (src, g1) := Slot(Put(g, Info(i, fmt)), Name(i.operands[0]), true);
    var (dst, g2) := Slot(g1, Name(i.dest.value), true);
    Put(Put(Put(g2, Code("movq " + Offset(src) + "(%rbp), %r10")),
            Code("movq (%r10), %r11")),
        Code("movq %r11, " + Offset(dst) + "(%rbp)"))
  }

  /** `visit(StoreInst)`: the value from its slot to the address held in the address's slot. */
  function GenStore(g: Gen, i: Instruction, fmt: Value -> string): (r: Gen)
    requires WellFormed(i) && i.kind.StoreKind?
    ensures Grows(g, r)
  {
    var (src, g1) := Slot(Put(g, Info(i, fmt)), Name(i.operands[0]), true);
    var (dst, g2) := Slot(g1, Name(i.operands[1]), true);
    Put(Put(Put(g2, Code("movq " + Offset(dst) + "(%rbp), %r10")),
            Code("movq " + Offset(src) + "(%rbp), %r11")),
        Code("movq %r11, (%r10)"))
  }

  /** `visit(ReturnInst)`: the value into rax, then leave and ret. */
  function GenReturn(g: Gen, i: Instruction, fmt: Value -> string): (r: Gen)
    requires WellFormed(i) && i.kind.ReturnKind?
    ensures Grows(g, r)
  {
    var (v, g1) := Slot(Put(g, Info(i, fmt)), Name(i.operands[0]), true);
    Put(Put(Put(g1, Code("movq " + Offset(v) + "(%rbp), %rax")), Code("leave")), Code("ret"))
  }

  /** `visit(UnaryNotInst)`: the operand complemented into the destination. */
  function GenUnaryNot(g: Gen, i: Instruction, fmt: Value -> string): (r: Gen)
    requires WellFormed(i) && i.kind.UnaryNotKind?
    ensures Grows(g, r)
  {
    var (dst, g1) := Slot(Put(g, Info(i, fmt)), Name(i.dest.value), true);
    var (inner, g2) := Slot(g1, Name(i.operands[0]), true);
    Put(Put(Put(g2, Code("movq " + Offset(inner) + "(%rbp), %r10")),
            Code("not %r10")),
        Code("movq %r10, " + Offset(dst) + "(%rbp)"))
  }

  /**
   * The integer argument registers of section 3.2.3 ("Parameter Passing") of
   * the System V AMD64 ABI, in order.
   */
  const ArgRegisters: seq<string> := ["%rdi", "%rsi", "%rdx", "%rcx", "%r8", "%r9"]

  /** The line that passes call argument j (j < 6) from its slot, as the call visit spells it. */
  function PassLine(j: nat, pos: string): (r: string)
    requires j < 6
    ensures r == Code("movq " + pos + "(%rbp), " + ArgRegisters[j])
  {
    if j == 0 then Code("movq " + pos + "(%rbp), %rdi")
    else if j == 1 then Code("movq " + pos + "(%rbp), %rsi")
    else if j == 2 then Code("movq " + pos + "(%rbp), %rdx")
    else if j == 3 then Code("movq " + pos + "(%rbp), %rcx")
    else if j == 4 then Code("movq " + pos + "(%rbp), %r8")
    else Code("movq " + pos + "(%rbp), %r9")
  }

  /** Argument j of a call goes in the j-th ABI register. */
  lemma PassLineRegister(j: nat, pos: string)
    requires j < 6
    ensures PassLine(j, pos) == Code("movq " + pos + "(%rbp), " + ArgRegisters[j])
  {
  }

  /**
   * The first loop of `visit(CallInst)` over params[..k]: each parameter's
   * slot (recorded first), and for the first six a move into its register.
   */
  function PassArgs(g: Gen, params: seq<Value>, k: nat): (r: Gen)
    requires k <= |params|
    ensures Grows(g, r)
    ensures |r.out| == |g.out| + (if k < 6 then k else 6)
  {
    if k == 0 then g
    else PassArg(PassArgs(g, params, k - 1), k - 1, params[k - 1])
  }

  /** Parameter j of a call: its slot (recorded first), and a move into its register when j < 6. */
  function PassArg(g: Gen, j: nat, param: Value): (r: Gen)
    ensures Grows(g, r) && |r.out| == |g.out| + (if j < 6 then 1 else 0)
  {
    var (pos, g1) := Slot(g, Name(param), false);
    if j < 6 then Put(g1, PassLine(j, Offset(pos))) else g1
  }

  /**
   * The second loop of `visit(CallInst)`, after the call line: parameters
   * |params|-1 down to index, each copied through r10 to the slot at the
   * counter's current value.
   */
  function StackArgs(g: Gen, params: seq<Value>, index: nat): (r: Gen)
    requires 6 <= index <= |params|
    ensures Grows(g, r) && |r.out| == |g.out| + 2 * (|params| - index)
    decreases |params| - index
  {
    if index == |params| then g
    else StackArg(StackArgs(g, params, index + 1), params[index])
  }

  /**
   * One argument beyond the sixth: its slot looked up after the counter is
   * raised, and the value copied through %r10 into the slot numbered by the
   * counter.
   */
  function StackArg(g: Gen, param: Value): (r: Gen)
    ensures Grows(g, r) && |r.out| == |g.out| + 2
  {
    var (pos, g1) := Slot(g, Name(param), true);
    Put(Put(g1, Code("movq " + Offset(pos) + "(%rbp), %r10")), Code("movq %r10, " + Offset(g1.count) + "(%rbp)"))
  }

  /**
   * `visit(CallInst)`: the first six arguments into their registers, the
   * call, then the arguments beyond the sixth copied in reverse order.
   */
  function GenCall(g: Gen, i: Instruction, fmt: Value -> string): (r: Gen)
    requires WellFormed(i) && i.kind.CallKind?
    ensures Grows(g, r)
  {
    var g1 := PassArgs(Put(g, Info(i, fmt)), i.operands, |i.operands|);
    var g2 := Put(g1, Code("call " + i.kind.callee.name));
    if |i.operands| > 6 then StackArgs(g2, i.operands, 6) else g2
  }

  /** The lines of a call: its comment, up to six register moves, the call, two lines per further argument. */
  lemma CallLayout(g: Gen, i: Instruction, fmt: Value -> string)
    requires WellFormed(i) && i.kind.CallKind?
    ensures var n := |i.operands|;
      var moves := if n < 6 then n else 6;
      var r := GenCall(g, i, fmt);
      g.out <= r.out &&
      |r.out| == |g.out| + 1 + moves + 1 + (if n > 6 then 2 * (n - 6) else 0) &&
      r.out[|g.out|] == Info(i, fmt) &&
      r.out[|g.out| + 1 + moves] == Code("call " + i.kind.callee.name)
  {
    var g0 := Put(g, Info(i, fmt));
    var g1 := PassArgs(g0, i.operands, |i.operands|);
    var g2 := Put(g1, Code("call " + i.kind.callee.name));
    assert g0.out <= g1.out;
    assert g2.out[|g1.out|] == Code("call " + i.kind.callee.name);
  }

  /**
   * Every argument of a call among the first six is moved from the slot its
   * name is recorded at into its own ABI register, in parameter order.
   */
  lemma {:induction false} PassArgsRegisters(g: Gen, params: seq<Value>, k: nat, j: nat)
    requires k <= |params| && j < k && j < 6
    ensures var r := PassArgs(g, params, k);
      Name(params[j]) in r.slots &&
      r.out[|g.out| + j] == Code("movq " + Offset(r.slots[Name(params[j])]) + "(%rbp), " + ArgRegisters[j])
  {
    var g1 := PassArgs(g, params, k - 1);
    if j == k - 1 {
      PassArgRegister(g1, j, params[j]);
    } else {
      PassArgsRegisters(g, params, k - 1, j);
      var r := PassArg(g1, k - 1, params[k - 1]);
      var name := Name(params[j]);
      assert g1.out <= r.out && |g.out| + j < |g1.out|;
      assert r.out[|g.out| + j] == g1.out[|g.out| + j];
      assert r.slots[name] == g1.slots[name];
    }
  }

  /** One of the first six arguments: the line it appends moves its recorded slot into its register. */
  lemma PassArgRegister(g: Gen, j: nat, param: Value)
    requires j < 6
    ensures var r := PassArg(g, j, param);
      Name(param) in r.slots && |r.out| == |g.out| + 1 &&
      r.out[|g.out|] == Code("movq " + Offset(r.slots[Name(param)]) + "(%rbp), " + ArgRegisters[j])
  {
    var (pos, g1) := Slot(g, Name(param), false);
    RecordedSlotIsStable(g, Name(param), false);
    PassLineRegister(j, Offset(pos));
  }

  /** The visit of one instruction node; a Jump reads the label of successor 1. */
  function GenInst(g: Gen, c: Cell, labels: map<nat, string>, fmt: Value -> string): (r: Gen)
    requires WellFormed(c.inst)
    ensures Grows(g, r)
  {
    var i := c.inst;
    match i.kind
    case NopKind => g
    case AddressAtKind(_) => GenAddressAt(g, i, fmt)
    case BinaryKind(_) => GenBinary(g, i)
    case CompareKind(_) => GenCompare(g, i)
    case CopyKind => GenCopy(g, i, fmt)
    case JumpKind => GenJump(g, i, LabelText(labels, c.next1), fmt)
    case LoadKind => GenLoad(g, i, fmt)
    case StoreKind => GenStore(g, i, fmt)
    case ReturnKind => GenReturn(g, i, fmt)
    case CallKind(_) => GenCall(g, i, fmt)
    case UnaryNotKind => GenUnaryNot(g, i, fmt)
  }

  /** The arena a function's graph lives in: well-formed nodes whose successors are nodes. */
  predicate Arena(cells: seq<Cell>)
  {
    forall k :: 0 <= k < |cells| ==>
      WellFormed(cells[k].inst) &&
      (cells[k].next0.Some? ==> cells[k].next0.value < |cells|) &&
      (cells[k].next1.Some? ==> cells[k].next1.value < |cells|)
  }

  /** The DFS state: the work stack (top last) and the `discovered` set. */
  datatype Walk = Walk(stack: seq<nat>, discovered: set<nat>)

  /** Every node on the stack is a node of the arena. */
  predicate OnArena(size: nat, w: Walk)
  {
    forall k :: 0 <= k < |w.stack| ==> w.stack[k] < size
  }

  /** The nodes 0 .. size-1. */
  function Nodes(size: nat): (r: set<nat>)
    ensures forall k: int :: k in r <==> 0 <= k < size
  {
    if size == 0 then {} else Nodes(size - 1) + {size - 1}
  }

  /** The DFS measure: each undiscovered node counts twice, each stacked node once. */
  function Pending(size: nat, w: Walk): nat
  {
    2 * |Nodes(size) - w.discovered| + |w.stack|
  }

  /** Pushing a successor: only when it is not yet discovered, and then it becomes discovered. */
  function Push(w: Walk, target: Option<nat>): Walk
  {
    if target.Some? && target.value !in w.discovered
    then Walk(w.stack + [target.value], w.discovered + {target.value})
    else w
  }

  /**
   * One turn of the DFS loop, walk part: pop the top; a labelled node goes no
   * further; otherwise successor 1 is pushed, then successor 0.
   */
  function Next(cells: seq<Cell>, labels: map<nat, string>, w: Walk): Walk
    requires |w.stack| > 0 && w.stack[|w.stack| - 1] < |cells|
  {
    var x := w.stack[|w.stack| - 1];
    var rest := Walk(w.stack[..|w.stack| - 1], w.discovered);
    if x in labels then rest
    else Push(Push(rest, cells[x].next1), cells[x].next0)
  }

  /**
   * What follows a visited node: `leave` and `ret` when it has no successor
   * 0, otherwise `jmp` to successor 0's label unless that successor is on
   * top of the stack, where the walk reaches it next.
   */
  function Exit(g: Gen, labels: map<nat, string>, first: Option<nat>, stack: seq<nat>): (r: Gen)
    ensures Grows(g, r)
  {
    if first.None? then Put(Put(g, Code("leave")), Code("ret"))
    else if |stack| == 0 || stack[|stack| - 1] != first.value
    then Put(g, Code("jmp " + LabelText(labels, first)))
    else g
  }

  /**
   * One turn of the DFS loop, text part: a labelled node prints its label
   * only; otherwise the node's visit and what follows it.
   */
  function StepText(cells: seq<Cell>, labels: map<nat, string>, fmt: Value -> string, g: Gen, w: Walk): (r: Gen)
    requires Arena(cells) && |w.stack| > 0 && w.stack[|w.stack| - 1] < |cells|
    ensures Grows(g, r)
  {
    var x := w.stack[|w.stack| - 1];
    if x in labels then Put(g, Code(labels[x] + ":"))
    else Exit(GenInst(g, cells[x], labels, fmt), labels, cells[x].next0, Next(cells, labels, w).stack)
  }

  /** A turn keeps the stack on the arena and lowers the measure. */
  lemma NextDecreases(cells: seq<Cell>, labels: map<nat, string>, w: Walk)
    requires Arena(cells) && |w.stack| > 0 && OnArena(|cells|, w)
    ensures OnArena(|cells|, Next(cells, labels, w))
    ensures Pending(|cells|, Next(cells, labels, w)) < Pending(|cells|, w)
  {
    var x := w.stack[|w.stack| - 1];
    var rest := Walk(w.stack[..|w.stack| - 1], w.discovered);
    if x !in labels {
      PushDecreases(|cells|, rest, cells[x].next1);
      var w1 := Push(rest, cells[x].next1);
      PushDecreases(|cells|, w1, cells[x].next0);
    }
  }

  /** Pushing an undiscovered node adds one to the stack and takes two off the measure's node count. */
  lemma PushDecreases(size: nat, w: Walk, target: Option<nat>)
    requires OnArena(size, w) && (target.Some? ==> target.value < size)
    ensures OnArena(size, Push(w, target))
    ensures Pending(size, Push(w, target)) <= Pending(size, w)
  {
    if target.Some? && target.value !in w.discovered {
      var t := target.value;
      var a := Nodes(size) - w.discovered;
      assert t in a;
      assert Nodes(size) - (w.discovered + {t}) == a - {t};
      assert a == (a - {t}) + {t};
    }
  }

  /** The DFS loop run to the end: the text of the body of a function. */
  function Dfs(cells: seq<Cell>, labels: map<nat, string>, fmt: Value -> string, g: Gen, w: Walk): (r: Gen)
    requires Arena(cells) && OnArena(|cells|, w)
    ensures Grows(g, r)
    decreases Pending(|cells|, w), 1
  {
    if |w.stack| == 0 then g else DfsTurn(cells, labels, fmt, g, w)
  }

  /** One turn of the DFS loop on a non-empty stack, then the rest of the walk. */
  function DfsTurn(cells: seq<Cell>, labels: map<nat, string>, fmt: Value -> string, g: Gen, w: Walk): (r: Gen)
    requires Arena(cells) && OnArena(|cells|, w) && |w.stack| > 0
    ensures Grows(g, r)
    decreases Pending(|cells|, w), 0
  {
    NextDecreases(cells, labels, w);
    Dfs(cells, labels, fmt, StepText(cells, labels, fmt, g, w), Next(cells, labels, w))
  }

  /** The nodes in the order the DFS loop pops them. */
  function Order(cells: seq<Cell>, labels: map<nat, string>, w: Walk): seq<nat>
    requires Arena(cells) && OnArena(|cells|, w)
    decreases Pending(|cells|, w)
  {
    if |w.stack| == 0 then []
    else
      NextDecreases(cells, labels, w);
      [w.stack[|w.stack| - 1]] + Order(cells, labels, Next(cells, labels, w))
  }

  /**
   * What the DFS keeps: a stacked node other than the entry is discovered and
   * stacked once.
   */
  predicate StackOnce(entry: nat, w: Walk)
  {
    (forall k :: 0 <= k < |w.stack| && w.stack[k] != entry ==> w.stack[k] in w.discovered) &&
    (forall k, l :: 0 <= k < l < |w.stack| && w.stack[k] == w.stack[l] ==> w.stack[k] == entry)
  }

  /** Pushing keeps StackOnce and never pushes a discovered node. */
  lemma PushKeepsOnce(entry: nat, w: Walk, target: Option<nat>)
    requires StackOnce(entry, w)
    ensures StackOnce(entry, Push(w, target))
    ensures w.discovered <= Push(w, target).discovered
    ensures forall k :: 0 <= k < |Push(w, target).stack| ==>
      (k < |w.stack| && Push(w, target).stack[k] == w.stack[k]) || Push(w, target).stack[k] !in w.discovered
  {
  }

  /**
   * An order of popped nodes that repeats no node but the entry and pops no
   * node of done but the entry.
   */
  predicate PoppedOnce(entry: nat, o: seq<nat>, done: set<nat>)
  {
    (forall k :: 0 <= k < |o| && o[k] != entry ==> o[k] !in done) &&
    (forall k, l :: 0 <= k < l < |o| && o[k] == o[l] ==> o[k] == entry)
  }

  /**
   * Given the nodes already popped (done), whose non-entry members are
   * discovered and no longer stacked, the DFS never pops one again and pops
   * no node twice, apart from the entry.
   */
  lemma {:induction false} OrderOnce(cells: seq<Cell>, labels: map<nat, string>, entry: nat, w: Walk, done: set<nat>)
    requires Arena(cells) && OnArena(|cells|, w) && StackOnce(entry, w)
    requires forall y :: y in done && y != entry ==> y in w.discovered && y !in w.stack
    ensures PoppedOnce(entry, Order(cells, labels, w), done)
    decreases Pending(|cells|, w)
  {
    if |w.stack| > 0 {
      NextDecreases(cells, labels, w);
      var top := w.stack[|w.stack| - 1];
      var w' := Next(cells, labels, w);
      NextKeepsOnce(cells, labels, entry, w, done);
      OrderOnce(cells, labels, entry, w', done + {top});
      assert Order(cells, labels, w) == [top] + Order(cells, labels, w');
      ConsOnce(entry, top, Order(cells, labels, w'), done);
    }
  }

  /** One turn keeps StackOnce, and the popped node joins the done nodes. */
  lemma NextKeepsOnce(cells: seq<Cell>, labels: map<nat, string>, entry: nat, w: Walk, done: set<nat>)
    requires Arena(cells) && OnArena(|cells|, w) && StackOnce(entry, w) && |w.stack| > 0
    requires forall x :: x in done && x != entry ==> x in w.discovered && x !in w.stack
    ensures var x := w.stack[|w.stack| - 1];
      var w' := Next(cells, labels, w);
      StackOnce(entry, w') &&
      (x != entry ==> x !in done) &&
      forall y :: y in done + {x} && y != entry ==> y in w'.discovered && y !in w'.stack
  {
    var x := w.stack[|w.stack| - 1];
    var rest := Walk(w.stack[..|w.stack| - 1], w.discovered);
    assert StackOnce(entry, rest);
    var w' := Next(cells, labels, w);
    if x !in labels {
      PushKeepsOnce(entry, rest, cells[x].next1);
      PushKeepsOnce(entry, Push(rest, cells[x].next1), cells[x].next0);
    }
    assert w.discovered <= w'.discovered;
    forall y | y in done + {x} && y != entry
      ensures y in w'.discovered && y !in w'.stack
    {
      if y == x {
        assert x in w.discovered;
        forall k | 0 <= k < |w.stack| - 1
          ensures w.stack[k] != x
        {
        }
      }
    }
  }

  /** Putting a node that is not yet done in front of an order that repeats only the entry. */
  lemma ConsOnce(entry: nat, x: nat, o: seq<nat>, done: set<nat>)
    requires x != entry ==> x !in done
    requires PoppedOnce(entry, o, done + {x})
    ensures PoppedOnce(entry, [x] + o, done)
  {
    var o' := [x] + o;
    forall k, l | 0 <= k < l < |o'| && o'[k] == o'[l]
      ensures o'[k] == entry
    {
      assert o'[l] == o[l - 1];
      if k > 0 {
        assert o'[k] == o[k - 1];
      }
    }
  }

  /** The DFS from the entry pops every node at most once, apart from the entry. */
  lemma EachNodeOnce(cells: seq<Cell>, labels: map<nat, string>, entry: nat)
    requires Arena(cells) && entry < |cells|
    ensures var o := Order(cells, labels, Walk([entry], {}));
      forall k, l :: 0 <= k < l < |o| && o[k] == o[l] ==> o[k] == entry
  {
    OrderOnce(cells, labels, entry, Walk([entry], {}), {});
  }

  /**
   * After an unlabelled node with successor 0, the turn ends with `jmp` to
   * that successor's label exactly when the stack is then empty or its top
   * is another node; without successor 0 it ends with leave and ret.
   */
  lemma JumpWhenNotNext(cells: seq<Cell>, labels: map<nat, string>, fmt: Value -> string, g: Gen, w: Walk)
    requires Arena(cells) && |w.stack| > 0 && w.stack[|w.stack| - 1] < |cells|
    requires w.stack[|w.stack| - 1] !in labels
    ensures var x := w.stack[|w.stack| - 1];
      var g1 := GenInst(g, cells[x], labels, fmt);
      var r := StepText(cells, labels, fmt, g, w);
      var s := Next(cells, labels, w).stack;
      var first := cells[x].next0;
      (first.None? ==> r.out == g1.out + [Code("leave"), Code("ret")]) &&
      (first.Some? ==>
        ((|s| == 0 || s[|s| - 1] != first.value) <==> r.out == g1.out + [Code("jmp " + LabelText(labels, first))]) &&
        (!(|s| == 0 || s[|s| - 1] != first.value) ==> r.out == g1.out))
  {
  }

  /** Successor 0, when it exists, is on top of the stack after its node's turn unless it was already discovered. */
  lemma FallThroughOnTop(cells: seq<Cell>, labels: map<nat, string>, w: Walk)
    requires Arena(cells) && |w.stack| > 0 && w.stack[|w.stack| - 1] < |cells|
    requires w.stack[|w.stack| - 1] !in labels
    ensures var x := w.stack[|w.stack| - 1];
      var first := cells[x].next0;
      var w' := Next(cells, labels, w);
      first.Some? && first.value !in w.discovered ==>
        |w'.stack| > 0 && w'.stack[|w'.stack| - 1] == first.value && first.value in w'.discovered
  {
  }

  /** A labelled node's turn prints its label and nothing else. */
  lemma LabelledNodeOnlyLabel(cells: seq<Cell>, labels: map<nat, string>, fmt: Value -> string, g: Gen, w: Walk)
    requires Arena(cells) && |w.stack| > 0 && w.stack[|w.stack| - 1] < |cells|
    requires w.stack[|w.stack| - 1] in labels
    ensures var x := w.stack[|w.stack| - 1];
      StepText(cells, labels, fmt, g, w) == Put(g, Code(labels[x] + ":")) &&
      Next(cells, labels, w) == Walk(w.stack[..|w.stack| - 1], w.discovered)
  {
  }

  /** The prologue spill of argument k (0-based): one of six register moves, then `push`. */
  function SpillLine(k: nat, arg: Value): (r: string)
    ensures k < 6 ==> Code("movq " + ArgRegisters[k] + ", -") <= r
    ensures k >= 6 ==> r == Code("push " + Name(arg))
  {
    if k == 0 then Code("movq %rdi, -8(%rbp)")
    else if k == 1 then Code("movq %rsi, -16(%rbp)")
    else if k == 2 then Code("movq %rdx, -24(%rbp)")
    else if k == 3 then Code("movq %rcx, -32(%rbp)")
    else if k == 4 then Code("movq %r8, -40(%rbp)")
    else if k == 5 then Code("movq %r9, -48(%rbp)")
    else Code("push " + Name(arg))
  }

  /** A slot from 2 to 12 is written as a minus sign and two digits. */
  lemma TwoDigitOffset(slot: int)
    requires 2 <= slot <= 12
    ensures Offset(slot) == "-" + [DigitChar(8 * slot / 10), DigitChar(8 * slot % 10)]
  {
    var n := 8 * slot;
    assert slot * -8 == -n;
    assert NatToString(n / 10) == [DigitChar(n / 10)];
  }

  /** Argument k (k < 6) arrives in the k-th ABI register and is spilled to slot k + 1. */
  lemma SpillLineSlot(k: nat, arg: Value)
    requires k < 6
    ensures SpillLine(k, arg) == Code("movq " + ArgRegisters[k] + ", " + Offset(k + 1) + "(%rbp)")
  {
    var line := "movq " + ArgRegisters[k] + ", " + Offset(k + 1) + "(%rbp)";
    SpillOffset(k + 1);
    if k == 0 {
      assert line == "movq " + "%rdi" + ", " + "-8" + "(%rbp)";
      SpillText0();
    } else if k == 1 {
      assert line == "movq " + "%rsi" + ", " + "-16" + "(%rbp)";
      SpillText1();
    } else if k == 2 {
      assert line == "movq " + "%rdx" + ", " + "-24" + "(%rbp)";
      SpillText2();
    } else if k == 3 {
      assert line == "movq " + "%rcx" + ", " + "-32" + "(%rbp)";
      SpillText3();
    } else if k == 4 {
      assert line == "movq " + "%r8" + ", " + "-40" + "(%rbp)";
      SpillText4();
    } else {
      assert line == "movq " + "%r9" + ", " + "-48" + "(%rbp)";
      SpillText5();
    }
  }

  /** The frame offset of slots 1 to 6, as a minus sign and the digits of 8 * slot. */
  lemma SpillOffset(slot: int)
    requires 1 <= slot <= 6
    ensures slot == 1 ==> Offset(slot) == "-8"
    ensures slot == 2 ==> Offset(slot) == "-16"
    ensures slot == 3 ==> Offset(slot) == "-24"
    ensures slot == 4 ==> Offset(slot) == "-32"
    ensures slot == 5 ==> Offset(slot) == "-40"
    ensures slot == 6 ==> Offset(slot) == "-48"
  {
    if slot == 1 {
      assert Offset(1) == "-" + [DigitChar(8)];
    } else if slot == 2 {
      TwoDigitOffset(2);
      assert [DigitChar(1), DigitChar(6)] == "16";
    } else if slot == 3 {
      TwoDigitOffset(3);
      assert [DigitChar(2), DigitChar(4)] == "24";
    } else if slot == 4 {
      TwoDigitOffset(4);
      assert [DigitChar(3), DigitChar(2)] == "32";
    } else if slot == 5 {
      TwoDigitOffset(5);
      assert [DigitChar(4), DigitChar(0)] == "40";
    } else {
      TwoDigitOffset(6);
      assert [DigitChar(4), DigitChar(8)] == "48";
    }
  }


  /** The spill line of argument 0, assembled from its register and its offset. */
  lemma SpillText0()
    ensures "movq %rdi, -8(%rbp)" == "movq " + "%rdi" + ", " + "-8" + "(%rbp)"
  {
  }

  /** The spill line of argument 1, assembled from its register and its offset. */
  lemma SpillText1()
    ensures "movq %rsi, -16(%rbp)" == "movq " + "%rsi" + ", " + "-16" + "(%rbp)"
  {
  }

  /** The spill line of argument 2, assembled from its register and its offset. */
  lemma SpillText2()
    ensures "movq %rdx, -24(%rbp)" == "movq " + "%rdx" + ", " + "-24" + "(%rbp)"
  {
  }

  /** The spill line of argument 3, assembled from its register and its offset. */
  lemma SpillText3()
    ensures "movq %rcx, -32(%rbp)" == "movq " + "%rcx" + ", " + "-32" + "(%rbp)"
  {
  }

  /** The spill line of argument 4, assembled from its register and its offset. */
  lemma SpillText4()
    ensures "movq %r8, -40(%rbp)" == "movq " + "%r8" + ", " + "-40" + "(%rbp)"
  {
  }

  /** The spill line of argument 5, assembled from its register and its offset. */
  lemma SpillText5()
    ensures "movq %r9, -48(%rbp)" == "movq " + "%r9" + ", " + "-48" + "(%rbp)"
  {
  }

  /** The spill lines of the first k arguments. */
  function SpillLines(args: seq<Value>, k: nat): (r: seq<string>)
    requires k <= |args|
    ensures |r| == k
  {
    if k == 0 then [] else SpillLines(args, k - 1) + [SpillLine(k - 1, args[k - 1])]
  }

  /** Line j of the spills is argument j's own spill line. */
  lemma {:induction false} SpillLineAt(args: seq<Value>, k: nat, j: nat)
    requires j < k <= |args|
    ensures SpillLines(args, k)[j] == SpillLine(j, args[j])
  {
    var init := SpillLines(args, k - 1);
    var last := SpillLine(k - 1, args[k - 1]);
    assert SpillLines(args, k) == init + [last];
    if j < k - 1 {
      SpillLineAt(args, k - 1, j);
      assert (init + [last])[j] == init[j];
    } else {
      assert (init + [last])[j] == last;
    }
  }

  /**
   * Each of the first six arguments is spilled from its own ABI register to
   * slot j + 1.  The slot map does not record the spill: a later lookup of
   * the argument's name gets whatever slot the counter then gives.
   */
  lemma SpilledToOwnSlot(args: seq<Value>, j: nat)
    requires j < 6 && j < |args|
    ensures SpillLines(args, |args|)[j] == Code("movq " + ArgRegisters[j] + ", " + Offset(j + 1) + "(%rbp)")
  {
    SpillLineAt(args, |args|, j);
    SpillLineSlot(j, args[j]);
  }


  /** `numLocalVar` made even before the frame is reserved. */
  function RoundEven(n: int): (r: int)
  {
    if n % 2 != 0 then n + 1 else n
  }

  /** The rounded count is even and at most one more, so `enter` reserves a multiple of 16 bytes. */
  lemma FrameAligned(n: int)
    ensures RoundEven(n) % 2 == 0 && n <= RoundEven(n) <= n + 1
    ensures (8 * RoundEven(n)) % 16 == 0
  {
    var r := RoundEven(n);
    assert r == 2 * (r / 2);
  }

  /** The prologue once the arguments are spilled: `.globl`, the name as a label, `enter`. */
  function Prologue(name: string, count: int): (r: seq<string>)
    ensures |r| == 3 && r[0] == Code(".globl " + name) && r[1] == name + ":"
  {
    [Code(".globl " + name), name + ":", Code("enter $(8 * " + IntToString(count) + "), $0")]
  }

  /**
   * `genCode(f, count)`: the argument spills, the counter made even, the
   * prologue, and the DFS from the entry node.
   */
  function GenFunction(cells: seq<Cell>, labels: map<nat, string>, fmt: Value -> string, g: Gen, f: Function): (r: Gen)
    requires Arena(cells) && f.start < |cells|
    ensures Grows(g, r)
    ensures Head(g, f).out <= r.out
  {
    Dfs(cells, labels, fmt, Head(g, f), Walk([f.start], {}))
  }

  /** What `genCode(f, count)` prints before its DFS: the spills, the counter made even, the prologue. */
  function Head(g: Gen, f: Function): (r: Gen)
    ensures Grows(g, r)
  {
    var g1 := Emit(g, SpillLines(f.args, |f.args|));
    var g2 := g1.(count := RoundEven(g1.count));
    Emit(g2, Prologue(f.name, g2.count))
  }

  /** The functions of fs in order, one after the other, with the counter and slots carried over. */
  function GenFunctions(cells: seq<Cell>, labels: map<nat, string>, fmt: Value -> string, g: Gen, fs: seq<Function>, k: nat): (r: Gen)
    requires Arena(cells) && k <= |fs| && forall j :: 0 <= j < |fs| ==> fs[j].start < |cells|
    ensures Grows(g, r)
  {
    if k == 0 then g else GenFunction(cells, labels, fmt, GenFunctions(cells, labels, fmt, g, fs, k - 1), fs[k - 1])
  }

  /** A Java long: the product wraps around modulo 2^64 into [-2^63, 2^63). */
  function Long(x: int): (r: int)
    ensures -0x8000_0000_0000_0000 <= r < 0x8000_0000_0000_0000
    ensures -0x8000_0000_0000_0000 <= x < 0x8000_0000_0000_0000 ==> r == x
  {
    (x + 0x8000_0000_0000_0000) % 0x1_0000_0000_0000_0000 - 0x8000_0000_0000_0000
  }

  /** `.comm <name>, <numElement * 8>, 8`: eight bytes per element, 8-byte aligned. */
  function GlobalLine(d: GlobalDecl): (r: string)
    ensures 0 <= d.numElement < 0x1000_0000_0000_0000 ==>
      r == Code(".comm " + d.symbol.name + ", " + IntToString(8 * d.numElement) + ", 8")
  {
    Code(".comm " + d.symbol.name + ", " + IntToString(Long(d.numElement * 8)) + ", 8")
  }

  /** One `.comm` line per global, in order. */
  function GlobalLines(ds: seq<GlobalDecl>): (r: seq<string>)
    ensures |r| == |ds|
  {
    if |ds| == 0 then [] else GlobalLines(ds[..|ds| - 1]) + [GlobalLine(ds[|ds| - 1])]
  }

  /** Line k of the globals' text is the `.comm` line of global k. */
  lemma {:induction false} GlobalLineAt(ds: seq<GlobalDecl>, k: nat)
    requires k < |ds|
    ensures GlobalLines(ds)[k] == GlobalLine(ds[k])
  {
    var init := ds[..|ds| - 1];
    if k < |ds| - 1 {
      GlobalLineAt(init, k);
      assert init[k] == ds[k];
    }
  }

  /**
   * `genCode()`: the globals, then every function in order.  The text starts
   * with one `.comm` line per global, before any function's text.
   */
  function GenProgram(cells: seq<Cell>, labels: map<nat, string>, fmt: Value -> string, g: Gen,
                      globals: seq<GlobalDecl>, fs: seq<Function>): (r: Gen)
    requires Arena(cells) && forall j :: 0 <= j < |fs| ==> fs[j].start < |cells|
    ensures Grows(g, r)
    ensures g.out + GlobalLines(globals) <= r.out
  {
    GenFunctions(cells, labels, fmt, Emit(g, GlobalLines(globals)), fs, |fs|)
  }

  /**
   * The head of a function's text: its spills, then `.globl`, its label and
   * `enter` with the slot count made even, which keeps the frame 16-byte
   * aligned; the slot map carries over from the functions before it.
   */
  lemma FunctionLayout(g: Gen, f: Function)
    ensures var h := Head(g, f);
      var n := |g.out| + |f.args|;
      var c := RoundEven(g.count);
      |h.out| == n + 3 && g.out <= h.out &&
      h.out[|g.out|..n] == SpillLines(f.args, |f.args|) &&
      h.out[n..] == Prologue(f.name, c) &&
      h.count == c && h.slots == g.slots &&
      c % 2 == 0 && (8 * c) % 16 == 0
  {
    var spills := SpillLines(f.args, |f.args|);
    var c := RoundEven(g.count);
    FrameAligned(g.count);
    assert Head(g, f).out == g.out + spills + Prologue(f.name, c);
    PrefixSlices(g.out, spills, Prologue(f.name, c), Head(g, f).out);
  }

  /** The pieces of a prefix a + b + c are found at their offsets in the whole. */
  lemma PrefixSlices(a: seq<string>, b: seq<string>, c: seq<string>, s: seq<string>)
    requires a + b + c <= s
    ensures a <= s && s[|a|..|a| + |b|] == b && s[|a| + |b|..|a| + |b| + |c|] == c
  {
    assert s[..|a| + |b| + |c|] == a + b + c;
    assert s[|a|..|a| + |b|] == (a + b + c)[|a|..|a| + |b|];
    assert s[|a| + |b|..|a| + |b| + |c|] == (a + b + c)[|a| + |b|..];
  }
}
