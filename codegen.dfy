/**
 * CodeGen: the back end that walks each function's instruction graph and
 * writes x86-64 assembly.  Every method changes the generator's fields as
 * the Java does, statement by statement, and is proved to leave them as the
 * matching function of the Assembly module describes.
 */
module CodeGeneration {
  import opened Wrappers
  import opened Text
  import opened Ir
  import opened Assembly

  class CodeGen {
    /** The program whose code is generated. */
    const program: Program
    /** The program's instruction arena, which code generation only reads. */
    const cells: seq<Cell>
    /** The labels `assignLabels` hands out, by node of the arena. */
    const labels: map<nat, string>
    /** The IR value formatter used in the instruction comments. */
    const fmt: Value -> string
    /** The lines written to the output file. */
    var out: seq<string>
    var varIndexMap: map<string, int>
    var numLocalVar: int
    var numslots: int
    var labelMap: map<nat, string>

    /** What Assembly calls the generator state. */
    function State(): Gen
      reads this
    {
      Gen(out, varIndexMap, numLocalVar)
    }

    constructor (p: Program, labelling: map<nat, string>, formatter: Value -> string)
      ensures program == p && cells == p.cells && labels == labelling && fmt == formatter
      ensures State() == Start && numslots == 0 && labelMap == map[]
    {
      program := p;
      cells := p.cells;
      labels := labelling;
      fmt := formatter;
      out := [];
      varIndexMap := map[];
      numLocalVar := 1;
      numslots := 0;
      labelMap := map[];
    }

    /** `printCode`. */
    method PrintCode(s: string)
      modifies this`out
      ensures State() == Put(old(State()), Code(s))
    {
      out := out + [Code(s)];
    }

    /** `printInstructionInfor`. */
    method PrintInfo(i: Instruction)
      requires WellFormed(i) && Formattable(i.kind)
      modifies this`out
      ensures State() == Put(old(State()), Info(i, fmt))
    {
      PrintCode("/* " + Format(i, fmt) + " */");
    }

    /** The slot lookup every visit spells out, in either of its two patterns. */
    method SlotOf(name: string, afterIncrement: bool) returns (slot: int)
      modifies this`varIndexMap, this`numLocalVar
      ensures (slot, State()) == Slot(old(State()), name, afterIncrement)
    {
      if name in varIndexMap {
        slot := varIndexMap[name];
      } else {
        varIndexMap := varIndexMap[name := numLocalVar];
        if afterIncrement {
          numLocalVar := numLocalVar + 1;
          slot := numLocalVar;
        } else {
          slot := numLocalVar;
          numLocalVar := numLocalVar + 1;
        }
      }
    }

    method VisitAddressAt(i: Instruction)
      requires WellFormed(i) && i.kind.AddressAtKind?
      modifies this`out
      ensures State() == GenAddressAt(old(State()), i, fmt)
    {
      PrintInfo(i);
      var base := i.kind.base.name;
      if GetOffset(i).None? {
        PrintCode("movq " + base + "@GOTPCREL(%rip), %r11");
        PrintCode("movq %r11, " + Name(i.dest.value) + " (%rbp)");
      } else {
        PrintCode("imulq $8, %r10");
        PrintCode("movq " + base + "@GOTPCREL(%rip), %r10");
        PrintCode("addq %r10, %r11");
      }
    }

    method VisitBinary(i: Instruction)
      requires WellFormed(i) && i.kind.BinaryKind?
      modifies this`out, this`varIndexMap, this`numLocalVar
      ensures State() == GenBinary(old(State()), i)
    {
      PrintCode("/* BinaryOperator: " + BinaryOpName(i.kind.op) + "*/");
      var left := SlotOf(Name(i.operands[0]), true);
      var right := SlotOf(Name(i.operands[1]), true);
      PrintCode("movq " + Offset(left) + "(%rbp), %r10");
      PrintCode("movq " + Offset(right) + "(%rbp), %r11");
      PrintCode(ArithText(i.kind.op));
      var dst := SlotOf(Name(i.dest.value), false);
      PrintCode("movq %r10, " + Offset(dst) + "(%rbp)");
    }

    method VisitCompare(i: Instruction)
      requires WellFormed(i) && i.kind.CompareKind?
      modifies this`out, this`varIndexMap, this`numLocalVar
      ensures State() == GenCompare(old(State()), i)
    {
      PrintCode("/* BinaryOperator */ ");
      var left := SlotOf(Name(i.operands[0]), true);
      var right := SlotOf(Name(i.operands[1]), true);
      PrintCode("movq " + Offset(left) + "(%rbp), %r10");
      PrintCode("movq " + Offset(right) + "(%rbp), %r11");
      PrintCode("cmp %r11, %r10");
      PrintCode("movq $0, %r11");
      PrintCode("movq $1, %r10");
      PrintCode("cmov" + CmovSuffix(i.kind.cmp) + " %r10, %r11");
      var dst := SlotOf(Name(i.dest.value), true);
      PrintCode("movq %r11, " + Offset(dst) + "(%rbp)");
    }

    method VisitCopy(i: Instruction)
      requires WellFormed(i) && i.kind.CopyKind?
      modifies this`out, this`varIndexMap, this`numLocalVar
      ensures State() == GenCopy(old(State()), i, fmt)
    {
      PrintInfo(i);
      var dst := SlotOf(Name(i.dest.value), false);
      var d := Offset(dst);
      match i.operands[0]
      case IntConst(n) =>
        PrintCode("movq $" + IntToString(n) + ", %r10");
        PrintCode("movq %r10, " + d + "(%rbp)");
      case BoolConst(b) =>
        if b {
          PrintCode("movq " + "$1" + ", " + d + "(%rbp)");
        } else {
          PrintCode("movq " + "$0" + ", " + d + "(%rbp)");
        }
      case AddressVar(_) =>
      case LocalVar(_) =>
        var src := SlotOf(Name(i.operands[0]), true);
        PrintCode("movq " + Offset(src) + "(%rbp), %r10");
        PrintCode("movq %r10, " + d + "(%rbp)");
    }

    method VisitJump(i: Instruction, target: Option<nat>)
      requires WellFormed(i) && i.kind.JumpKind?
      modifies this`out, this`varIndexMap, this`numLocalVar
      ensures State() == GenJump(old(State()), i, LabelText(labelMap, target), fmt)
    {
      PrintInfo(i);
      var cond := SlotOf(Name(i.operands[0]), true);
      PrintCode("movq " + Offset(cond) + "(%rbp), %r10");
      PrintCode("movq $1, %r11");
      PrintCode("cmp %r10, %r11");
      PrintCode("je " + LabelText(labelMap, target));
    }

    method VisitLoad(i: Instruction)
      requires WellFormed(i) && i.kind.LoadKind?
      modifies this`out, this`varIndexMap, this`numLocalVar
      ensures State() == GenLoad(old(State()), i, fmt)
    {
      PrintInfo(i);
      var src := SlotOf(Name(i.operands[0]), true);
      var dst := SlotOf(Name(i.dest.value), true);
      PrintCode("movq " + Offset(src) + "(%rbp), %r10");
      PrintCode("movq (%r10), %r11");
      PrintCode("movq %r11, " + Offset(dst) + "(%rbp)");
    }

    method VisitStore(i: Instruction)
      requires WellFormed(i) && i.kind.StoreKind?
      modifies this`out, this`varIndexMap, this`numLocalVar
      ensures State() == GenStore(old(State()), i, fmt)
    {
      PrintInfo(i);
      var src := SlotOf(Name(i.operands[0]), true);
      var dst := SlotOf(Name(i.operands[1]), true);
      PrintCode("movq " + Offset(dst) + "(%rbp), %r10");
      PrintCode("movq " + Offset(src) + "(%rbp), %r11");
      PrintCode("movq %r11, (%r10)");
    }

    method VisitReturn(i: Instruction)
      requires WellFormed(i) && i.kind.ReturnKind?
      modifies this`out, this`varIndexMap, this`numLocalVar
      ensures State() == GenReturn(old(State()), i, fmt)
    {
      PrintInfo(i);
      var v := SlotOf(Name(i.operands[0]), true);
      PrintCode("movq " + Offset(v) + "(%rbp), %rax");
      PrintCode("leave");
      PrintCode("ret");
    }

    method VisitCall(i: Instruction)
      requires WellFormed(i) && i.kind.CallKind?
      modifies this`out, this`varIndexMap, this`numLocalVar
      ensures State() == GenCall(old(State()), i, fmt)
    {
      PrintInfo(i);
      PassArguments(i.operands);
      PrintCode("call " + i.kind.callee.name);
      if |i.operands| > 6 {
        CopyStackArguments(i.operands);
      }
    }

    /** The first loop of `visit(CallInst)`: every parameter's slot, the first six moved into registers. */
    method PassArguments(params: seq<Value>)
      modifies this`out, this`varIndexMap, this`numLocalVar
      ensures State() == PassArgs(old(State()), params, |params|)
    {
      ghost var g0 := State();
      var j := 0;
      while j < |params|
        invariant j <= |params|
        invariant State() == PassArgs(g0, params, j)
      {
        PassArgument(j, params[j]);
        j := j + 1;
      }
      assert j == |params|;
    }

    /** The body of the first loop of `visit(CallInst)`, for parameter j. */
    method PassArgument(j: nat, param: Value)
      modifies this`out, this`varIndexMap, this`numLocalVar
      ensures State() == PassArg(old(State()), j, param)
    {
      var pos := SlotOf(Name(param), false);
      if j < 6 {
        out := out + [PassLine(j, Offset(pos))];
      }
    }

    /** The second loop of `visit(CallInst)`: the parameters beyond the sixth, last first. */
    method CopyStackArguments(params: seq<Value>)
      requires |params| > 6
      modifies this`out, this`varIndexMap, this`numLocalVar
      ensures State() == StackArgs(old(State()), params, 6)
    {
      ghost var g0 := State();
      var index := |params| - 1;
      while index > 5
        invariant 5 <= index < |params|
        invariant State() == StackArgs(g0, params, index + 1)
        decreases index
      {
        CopyStackArgument(params[index]);
        index := index - 1;
      }
      assert index + 1 == 6;
    }

    method VisitUnaryNot(i: Instruction)
      requires WellFormed(i) && i.kind.UnaryNotKind?
      modifies this`out, this`varIndexMap, this`numLocalVar
      ensures State() == GenUnaryNot(old(State()), i, fmt)
    {
      PrintInfo(i);
      var dst := SlotOf(Name(i.dest.value), true);
      var inner := SlotOf(Name(i.operands[0]), true);
      PrintCode("movq " + Offset(inner) + "(%rbp), %r10");
      PrintCode("not %r10");
      PrintCode("movq %r10, " + Offset(dst) + "(%rbp)");
    }

    /** `inst.accept(this)`: the visit of the node's instruction class. */
    method Accept(c: Cell)
      requires WellFormed(c.inst)
      modifies this`out, this`varIndexMap, this`numLocalVar
      ensures State() == GenInst(old(State()), c, labelMap, fmt)
    {
      var i := c.inst;
      match i.kind
      case NopKind =>
      case AddressAtKind(_) => VisitAddressAt(i);
      case BinaryKind(_) => VisitBinary(i);
      case CompareKind(_) => VisitCompare(i);
      case CopyKind => VisitCopy(i);
      case JumpKind => VisitJump(i, c.next1);
      case LoadKind => VisitLoad(i);
      case StoreKind => VisitStore(i);
      case ReturnKind => VisitReturn(i);
      case CallKind(_) => VisitCall(i);
      case UnaryNotKind => VisitUnaryNot(i);
    }

    /**
     * One turn of the DFS loop of `genCode(f, count)`: pop a node, print its
     * label or visit it, push its undiscovered successors, and print the jump
     * or the return that follows.
     */
    method Turn(stack: seq<nat>, discovered: set<nat>) returns (stack': seq<nat>, discovered': set<nat>)
      requires Arena(cells) && |stack| > 0 && stack[|stack| - 1] < |cells|
      modifies this`out, this`varIndexMap, this`numLocalVar
      ensures State() == StepText(cells, labelMap, fmt, old(State()), Walk(stack, discovered))
      ensures Walk(stack', discovered') == Next(cells, labelMap, Walk(stack, discovered))
    {
      var inst := stack[|stack| - 1];
      stack' := stack[..|stack| - 1];
      discovered' := discovered;
      if inst in labelMap {
        PrintCode(labelMap[inst] + ":");
      } else {
        var cell := cells[inst];
        Accept(cell);
        stack', discovered' := PushNew(stack', discovered', cell.next1);
        stack', discovered' := PushNew(stack', discovered', cell.next0);
        PrintExit(cell.next0, stack');
      }
    }

    /** Push a successor that exists and is not yet discovered, and mark it discovered. */
    method PushNew(stack: seq<nat>, discovered: set<nat>, target: Option<nat>) returns (stack': seq<nat>, discovered': set<nat>)
      ensures Walk(stack', discovered') == Push(Walk(stack, discovered), target)
    {
      stack', discovered' := stack, discovered;
      if target.Some? && target.value !in discovered {
        stack' := stack + [target.value];
        discovered' := discovered + {target.value};
      }
    }

    /** The lines after a visited node: `jmp` to successor 0 unless it comes next, or `leave` and `ret`. */
    method PrintExit(first: Option<nat>, stack: seq<nat>)
      modifies this`out
      ensures State() == Exit(old(State()), labelMap, first, stack)
    {
      if first.Some? {
        if |stack| == 0 || first.value != stack[|stack| - 1] {
          PrintCode("jmp " + LabelText(labelMap, first));
        }
      } else {
        PrintCode("leave");
        PrintCode("ret");
      }
    }

    /** The argument loop of `genCode(f, count)`: six register spills, then a `push` per argument. */
    method SpillArguments(args: seq<Value>)
      modifies this`out
      ensures State() == Emit(old(State()), SpillLines(args, |args|))
    {
      var k := 0;
      while k < |args|
        invariant k <= |args|
        invariant State() == Emit(old(State()), SpillLines(args, k))
      {
        out := out + [SpillLine(k, args[k])];
        k := k + 1;
      }
    }

    /** The body of the second loop of `visit(CallInst)`, for one parameter. */
    method CopyStackArgument(param: Value)
      modifies this`out, this`varIndexMap, this`numLocalVar
      ensures State() == StackArg(old(State()), param)
    {
      var stackPos := SlotOf(Name(param), true);
      PrintCode("movq " + Offset(stackPos) + "(%rbp), %r10");
      PrintCode("movq %r10, " + Offset(numLocalVar) + "(%rbp)");
    }

    /** The three prologue lines of `genCode(f, count)`, the frame sized by the slot count. */
    method PrintPrologue(name: string)
      modifies this`out
      ensures State() == Emit(old(State()), Prologue(name, numLocalVar))
    {
      PrintCode(".globl " + name);
      out := out + [name + ":"];
      PrintCode("enter $(8 * " + IntToString(numLocalVar) + "), $0");
    }

    /** A turn as the DFS loop sees it: the rest of the walk's text is unchanged by taking it. */
    method TurnOn(stack: seq<nat>, discovered: set<nat>) returns (stack': seq<nat>, discovered': set<nat>)
      requires Arena(cells) && |stack| > 0 && OnArena(|cells|, Walk(stack, discovered))
      modifies this`out, this`varIndexMap, this`numLocalVar
      ensures OnArena(|cells|, Walk(stack', discovered'))
      ensures Pending(|cells|, Walk(stack', discovered')) < Pending(|cells|, Walk(stack, discovered))
      ensures Dfs(cells, labelMap, fmt, State(), Walk(stack', discovered'))
           == Dfs(cells, labelMap, fmt, old(State()), Walk(stack, discovered))
    {
      NextDecreases(cells, labelMap, Walk(stack, discovered));
      ghost var before := State();
      stack', discovered' := Turn(stack, discovered);
      assert Dfs(cells, labelMap, fmt, before, Walk(stack, discovered))
          == DfsTurn(cells, labelMap, fmt, before, Walk(stack, discovered));
    }

    /** The DFS loop of `genCode(f, count)`, from the entry node. */
    method Traverse(start: nat)
      requires Arena(cells) && start < |cells|
      modifies this`out, this`varIndexMap, this`numLocalVar
      ensures State() == Dfs(cells, labelMap, fmt, old(State()), Walk([start], {}))
    {
      ghost var g0 := State();
      var stack: seq<nat> := [start];
      var discovered: set<nat> := {};
      while |stack| > 0
        invariant OnArena(|cells|, Walk(stack, discovered))
        invariant Dfs(cells, labelMap, fmt, State(), Walk(stack, discovered))
               == Dfs(cells, labelMap, fmt, g0, Walk([start], {}))
        decreases Pending(|cells|, Walk(stack, discovered))
      {
        stack, discovered := TurnOn(stack, discovered);
      }
      assert Dfs(cells, labelMap, fmt, State(), Walk(stack, discovered)) == State();
    }

    /**
     * `genCode(f, count)`: spill the arguments, make the slot count even,
     * print the prologue, then walk the graph depth first from the entry.
     */
    method GenFunction(f: Function)
      requires Arena(cells) && f.start < |cells|
      modifies this`out, this`varIndexMap, this`numLocalVar, this`numslots, this`labelMap
      ensures State() == Assembly.GenFunction(cells, labels, fmt, old(State()), f)
      ensures labelMap == labels && numslots == 0
    {
      labelMap := labels;
      numslots := 0;
      ghost var g0 := State();
      SpillArguments(f.args);
      ghost var g1 := State();
      if numLocalVar % 2 != 0 {
        numLocalVar := numLocalVar + 1;
      }
      assert State() == g1.(count := RoundEven(g1.count));
      PrintPrologue(f.name);
      assert State() == Head(g0, f);
      Traverse(f.start);
    }

    /**
     * `genCode()`: a `.comm` line for every global, then every function in
     * order.
     */
    method GenCode()
      requires Arena(cells)
      requires forall j :: 0 <= j < |program.functions| ==> program.functions[j].start < |cells|
      modifies this`out, this`varIndexMap, this`numLocalVar, this`numslots, this`labelMap
      ensures State() == GenProgram(cells, labels, fmt, old(State()), program.globals, program.functions)
    {
      PrintGlobals(program.globals);
      GenFunctionsInOrder(program.functions);
    }

    /** The globals loop of `genCode()`: one `.comm` line per global, its size in bytes as a Java long. */
    method PrintGlobals(globals: seq<GlobalDecl>)
      modifies this`out
      ensures State() == Emit(old(State()), GlobalLines(globals))
    {
      var k := 0;
      while k < |globals|
        invariant k <= |globals|
        invariant State() == Emit(old(State()), GlobalLines(globals[..k]))
      {
        assert globals[..k + 1][..k] == globals[..k];
        PrintCode(".comm " + globals[k].symbol.name + ", " + IntToString(Long(globals[k].numElement * 8)) + ", 8");
        k := k + 1;
      }
      assert globals[..k] == globals;
    }

    /** The functions loop of `genCode()`. */
    method GenFunctionsInOrder(functions: seq<Function>)
      requires Arena(cells)
      requires forall j :: 0 <= j < |functions| ==> functions[j].start < |cells|
      modifies this`out, this`varIndexMap, this`numLocalVar, this`numslots, this`labelMap
      ensures State() == GenFunctions(cells, labels, fmt, old(State()), functions, |functions|)
    {
      ghost var g0 := State();
      var n := 0;
      while n < |functions|
        invariant n <= |functions|
        invariant State() == GenFunctions(cells, labels, fmt, g0, functions, n)
      {
        GenFunctionAt(functions, n, g0);
        n := n + 1;
      }
      assert n == |functions|;
    }

    /** One iteration of the functions loop: the code of function n follows that of the ones before it. */
    method GenFunctionAt(functions: seq<Function>, n: nat, ghost g0: Gen)
      requires Arena(cells) && n < |functions|
      requires forall j :: 0 <= j < |functions| ==> functions[j].start < |cells|
      requires State() == GenFunctions(cells, labels, fmt, g0, functions, n)
      modifies this`out, this`varIndexMap, this`numLocalVar, this`numslots, this`labelMap
      ensures State() == GenFunctions(cells, labels, fmt, g0, functions, n + 1)
    {
      GenFunction(functions[n]);
    }
  }
}
