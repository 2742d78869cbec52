# Crux compiler core in Dafny

This project models the middle of the Crux student compiler (Java) and proves
properties of that model.  The modelled pipeline is:

- **parse tree to AST** (`ParseTreeLower`): builds AST nodes from the parse tree
  and resolves names through a scoped `SymbolTable`;
- **type checking** (`TypeChecker` and the `Type` classes): infers a type for
  every expression and records `TypeError` messages;
- **AST printing** (`ASTPrinter`): prints the tree with indentation;
- **AST to IR** (`ASTLower` and the IR instruction classes): lowers each
  function to a graph of instructions;
- **IR to x86-64 assembly** (`CodeGen`): walks each instruction graph depth
  first and prints AT&T-syntax assembly.

Each Java class whose objects change in place is a Dafny `class` with the same
fields (`SymbolTable`, `TypeChecker`, `ASTLower` with its `Program`,
`CodeGen`, `ASTPrinter`'s visitor, the boolean-constant pool).  Each such
class has a pure reference definition over values.  Its methods are proved
equal to that definition (`ensures State() == F(old(State()), ...)`), and the
properties the compiler relies on are proved as lemmas about the definition.
Pure Java code (the type classes, the operator tables, the instruction
constructors and getters) is modelled as datatypes and functions.

Files:

| file | module | models |
|---|---|---|
| `wrappers.dfy` | `Wrappers` | `Option` |
| `text.dfy` | `Text` | decimal printing, `Join`, `Concat` |
| `types.dfy` | `CruxTypes` | `IntType`, `BoolType`, `VoidType`, `ArrayType`, `FuncType`, `TypeList`, `ErrorType` |
| `ast.dfy` | `Ast` | AST nodes, `Operation` (from `OpExpr`) |
| `symbol_table.dfy` | `Symbols` | `Symbol`, `SymbolTable` |
| `parse_tree.dfy` | `ParseTree` | parse-tree contexts and the tree each one should become |
| `parse_tree_lower.dfy` | `ParseTreeLowering` | `ParseTreeLower` |
| `type_checker.dfy` | `TypeCheck` | `TypeChecker` and its inference visitor |
| `ast_printer.dfy` | `Printing` | `ASTPrinter` |
| `ir.dfy` | `Ir` | IR values, instruction classes, `GlobalDecl`, the instruction arena |
| `boolean_constant.dfy` | `BooleanConstants` | `BooleanConstant` |
| `ast_lower.dfy` | `AstLowering` | `ASTLower` |
| `assembly.dfy` | `Assembly` | the assembly text `CodeGen` prints, as functions |
| `codegen.dfy` | `CodeGeneration` | `CodeGen` |

Source paths below are relative to the repository root.

## Model

| member | source | states |
|---|---|---|
| CruxTypes.ToString | crux/src/main/java/crux/ast/types/IntType.java:10-13 | int, bool and void print as "int", "bool" and "void" (at most four characters); every other type prints longer |
| CruxTypes.ScalarNames | src/main/java/crux/ast/types/VoidType.java:9-12 | a type prints as "int", "bool" or "void" exactly when it is IntType, BoolType or VoidType |
| CruxTypes.Fallback | crux/src/main/java/crux/ast/types/IntType.java:20 | an operation a class does not override yields an ErrorType |
| CruxTypes.Add | crux/src/main/java/crux/ast/types/IntType.java:15-21 | the result is IntType exactly when both operands are IntType; otherwise it is an ErrorType |
| CruxTypes.Sub | crux/src/main/java/crux/ast/types/IntType.java:23-29 | the result is IntType exactly when both operands are IntType; otherwise it is an ErrorType |
| CruxTypes.Mul | crux/src/main/java/crux/ast/types/IntType.java:31-37 | the result is IntType exactly when both operands are IntType; otherwise it is an ErrorType |
| CruxTypes.Div | crux/src/main/java/crux/ast/types/IntType.java:39-45 | the result is IntType exactly when both operands are IntType; otherwise it is an ErrorType |
| CruxTypes.Compare | crux/src/main/java/crux/ast/types/IntType.java:47-53 | the result is BoolType exactly when both operands are IntType; otherwise it is an ErrorType |
| CruxTypes.And | crux/src/main/java/crux/ast/types/BoolType.java:15-21 | the result is BoolType exactly when both operands are BoolType; otherwise it is an ErrorType |
| CruxTypes.Or | crux/src/main/java/crux/ast/types/BoolType.java:23-29 | the result is BoolType exactly when both operands are BoolType; otherwise it is an ErrorType |
| CruxTypes.Not | crux/src/main/java/crux/ast/types/BoolType.java:31-37 | the result is BoolType exactly when the operand is BoolType; otherwise it is an ErrorType |
| CruxTypes.Assign | crux/src/main/java/crux/ast/types/IntType.java:55-61 | the result is VoidType exactly when an int location gets an int value or a bool location gets a bool value; otherwise it is an ErrorType |
| CruxTypes.Call | crux/src/main/java/crux/ast/types/FuncType.java:32-40 | a FuncType called with a TypeList equivalent to its arguments yields its return type; VoidType called with VoidType yields VoidType; everything else is an ErrorType |
| CruxTypes.EquivalentReflexive | crux/src/main/java/crux/ast/types/IntType.java:63-66 | every type without an ErrorType inside it is equivalent to itself |
| CruxTypes.Equivalent | src/main/java/crux/ast/types/ArrayType.java:40-47 | the `equivalent` overrides: an int, bool or void type matches its own class, an array matches an array with a base of the same class and the same extent, a function type matches only itself, a type list matches element by element; equivalent types are of the same class and neither is an ErrorType |
| CruxTypes.IndexAsWritten | src/main/java/crux/ast/types/ArrayType.java:31-38 | as written: an array indexed by an int casts the index to ArrayType and throws, so that case is a precondition; the other cases yield an ErrorType |
| CruxTypes.IndexAsWrittenRejectsIntIndex | src/main/java/crux/ast/types/ArrayType.java:33-36 | an array indexed by an int is outside the as-written function's domain, while the corrected Index yields the element type |
| CruxTypes.Index | src/main/java/crux/ast/types/ArrayType.java:31-38 | corrected: an array indexed by an int yields the array's base type; every other case is an ErrorType |
| TypeCheck.ErrorTexts | src/main/java/crux/ast/types/TypeChecker.java:19-21 | the error strings are the recorded errors, one each, in order, each rendered as "TypeError" + position + "[" + message + "]" |
| TypeCheck.AddError | src/main/java/crux/ast/types/TypeChecker.java:31-34 | exactly one error is appended, carrying the node's position and the message; nothing else changes |
| TypeCheck.ErrorOf | src/main/java/crux/ast/types/TypeChecker.java:42-45 | a node contributes at most one error, and one exactly when its type is an ErrorType |
| TypeCheck.SetNodeType | src/main/java/crux/ast/types/TypeChecker.java:40-46 | the type is stored on the node; an error is appended exactly when the type is an ErrorType |
| TypeCheck.OpRule | src/main/java/crux/ast/types/TypeChecker.java:245-271 | arithmetic on two ints gives int; a comparison of two ints, `&&`/`\|\|` of two bools and `!` of a bool give bool; every other combination gives an ErrorType |
| TypeCheck.CheckExpr | src/main/java/crux/ast/types/TypeChecker.java:66-70 | every visit of an expression stores a type on it, keeps the current function, and only appends errors and adds types |
| TypeCheck.CheckArgs | src/main/java/crux/ast/types/TypeChecker.java:112-118 | the argument loop yields one type per argument and only appends errors and adds types |
| TypeCheck.CheckCall | src/main/java/crux/ast/types/TypeChecker.java:108-126 | a call is typed with the callee's call of the argument types, keeping the current function |
| TypeCheck.CheckOp | src/main/java/crux/ast/types/TypeChecker.java:233-276 | an operator is typed after its operands, keeping the current function |
| TypeCheck.Check | src/main/java/crux/ast/types/TypeChecker.java:60-312 | the visit of any node only appends errors, only adds types, never types a statement list, and keeps a current function a FuncType symbol |
| TypeCheck.CheckAll | src/main/java/crux/ast/types/TypeChecker.java:128-134 | the declaration and statement loops visit each child in order, with the same guarantees |
| TypeCheck.CheckIf | src/main/java/crux/ast/types/TypeChecker.java:174-192 | the visit of an if/else keeps the same guarantees |
| TypeCheck.CheckCondition | src/main/java/crux/ast/types/TypeChecker.java:176-179 | the condition is typed and the current function kept |
| TypeCheck.ThenReturns | src/main/java/crux/ast/types/TypeChecker.java:184-190 | after an if/else the last statement returned exactly when the then block has a type that does not print as "void"; nothing else changes |
| TypeCheck.CheckFor | src/main/java/crux/ast/types/TypeChecker.java:219-231 | the visit of a loop keeps the same guarantees |
| TypeCheck.CheckReturn | src/main/java/crux/ast/types/TypeChecker.java:278-289 | the visit of a return keeps the same guarantees |
| TypeCheck.CheckFunction | src/main/java/crux/ast/types/TypeChecker.java:136-171 | the visit of a function definition keeps the same guarantees |
| TypeCheck.CheckParams | src/main/java/crux/ast/types/TypeChecker.java:143-151 | the parameter loop only appends errors and changes no type, no current function and no return flag |
| TypeCheck.CheckBody | src/main/java/crux/ast/types/TypeChecker.java:153-166 | the body loop keeps the same guarantees |
| TypeCheck.ReturnCheck | src/main/java/crux/ast/types/TypeChecker.java:156-165 | a non-return statement changes nothing; after a return, no error is added exactly when the return has a type that prints the same as the function's return type |
| TypeCheck.ExprCheckable | src/main/java/crux/ast/types/TypeChecker.java:66-70 | an expression the checker can type can be visited anywhere |
| TypeCheck.CheckableInFunction | src/main/java/crux/ast/types/TypeChecker.java:137-139 | a node that can be visited outside a function can be visited inside one |
| TypeCheck.ErrorsAfter | src/main/java/crux/ast/types/TypeChecker.java:42-45 | checking an expression never removes errors |
| TypeCheck.ArgsErrorsAfter | src/main/java/crux/ast/types/TypeChecker.java:114-117 | checking the arguments never removes errors |
| TypeCheck.ExprTyped | src/main/java/crux/ast/types/TypeChecker.java:66-70 | the type recorded for an expression is its reference type, whatever the checker's state |
| TypeCheck.ArgsTyped | src/main/java/crux/ast/types/TypeChecker.java:112-118 | the argument loop collects exactly the arguments' reference types, in order |
| TypeCheck.ExprChecked | src/main/java/crux/ast/types/TypeChecker.java:194-205 | checking an expression leaves exactly the error list the reference error function describes |
| TypeCheck.ArgsChecked | src/main/java/crux/ast/types/TypeChecker.java:114-117 | checking the arguments leaves exactly the error list the reference describes |
| TypeCheck.ExprTypesAt | src/main/java/crux/ast/types/TypeChecker.java:116 | the i-th collected type is the i-th argument's reference type |
| TypeCheck.ErrorIffErrorType | src/main/java/crux/ast/types/TypeChecker.java:40-46 | an expression adds no error exactly when its own type is not an ErrorType (an ErrorType inside makes every enclosing operator, index and call an ErrorType) |
| TypeCheck.ArgsErrorIff | src/main/java/crux/ast/types/TypeChecker.java:114-117 | the arguments add no error exactly when no argument's type is an ErrorType |
| TypeCheck.AssignmentTyped | src/main/java/crux/ast/types/TypeChecker.java:88-97 | an assignment is typed with the location type's assign of the value type, and it never counts as returning |
| TypeCheck.ForBadCondition | src/main/java/crux/ast/types/TypeChecker.java:219-224 | a loop whose condition is not bool gets exactly one error and none of its other parts is visited |
| TypeCheck.ForGoodCondition | src/main/java/crux/ast/types/TypeChecker.java:225-229 | a loop whose condition is bool visits body, increment and init in that order |
| TypeCheck.IfElseNeverReturns | src/main/java/crux/ast/types/TypeChecker.java:184-187 | since a statement list never carries a type, after an if/else the last statement never counts as returning |
| TypeCheck.VariableDeclarationError | src/main/java/crux/ast/types/TypeChecker.java:299-311 | a variable declaration adds an error exactly when its type is neither int nor bool, with the fixed message, and changes no type |
| TypeCheck.ReturnReturns | src/main/java/crux/ast/types/TypeChecker.java:278-289 | after a return the last statement counts as returning |
| TypeCheck.TypeChecker.constructor | src/main/java/crux/ast/types/TypeChecker.java:16-17 | a new checker has no errors, no types, no current function |
| TypeCheck.TypeChecker.GetErrors | src/main/java/crux/ast/types/TypeChecker.java:19-21 | one string per recorded error |
| TypeCheck.TypeChecker.CheckProgram | src/main/java/crux/ast/types/TypeChecker.java:23-26 | the new state is the reference visit of the program from a fresh visitor |
| TypeCheck.TypeChecker.AddTypeError | src/main/java/crux/ast/types/TypeChecker.java:31-34 | the new state is the reference AddError |
| TypeCheck.TypeChecker.SetType | src/main/java/crux/ast/types/TypeChecker.java:40-46 | the new state is the reference SetNodeType |
| TypeCheck.TypeChecker.Visit | src/main/java/crux/ast/types/TypeChecker.java:60-312 | the new state is the reference Check of the node |
| TypeCheck.TypeChecker.VisitExpr | src/main/java/crux/ast/types/TypeChecker.java:66-70 | the new state is the reference CheckExpr |
| TypeCheck.TypeChecker.VisitCall | src/main/java/crux/ast/types/TypeChecker.java:108-126 | the argument loop ends in the reference CheckCall state |
| TypeCheck.TypeChecker.VisitArgument | src/main/java/crux/ast/types/TypeChecker.java:114-117 | one turn of the argument loop appends the argument's type and advances the reference loop by one argument |
| TypeCheck.TypeChecker.VisitOp | src/main/java/crux/ast/types/TypeChecker.java:233-276 | the new state is the reference CheckOp |
| TypeCheck.TypeChecker.VisitList | src/main/java/crux/ast/types/TypeChecker.java:128-134 | the loop ends in the reference CheckAll state |
| TypeCheck.TypeChecker.VisitIf | src/main/java/crux/ast/types/TypeChecker.java:174-192 | the new state is the reference CheckIf |
| TypeCheck.TypeChecker.VisitCondition | src/main/java/crux/ast/types/TypeChecker.java:176-179 | the new state is the reference CheckCondition |
| TypeCheck.TypeChecker.VisitFor | src/main/java/crux/ast/types/TypeChecker.java:219-231 | the new state is the reference CheckFor |
| TypeCheck.TypeChecker.VisitReturn | src/main/java/crux/ast/types/TypeChecker.java:278-289 | the new state is the reference CheckReturn |
| TypeCheck.TypeChecker.VisitFunction | src/main/java/crux/ast/types/TypeChecker.java:136-171 | the new state is the reference CheckFunction |
| TypeCheck.TypeChecker.VisitParams | src/main/java/crux/ast/types/TypeChecker.java:143-151 | the loop ends in the reference CheckParams state |
| TypeCheck.TypeChecker.VisitBody | src/main/java/crux/ast/types/TypeChecker.java:153-166 | the loop ends in the reference CheckBody state |
| TypeCheck.TypeChecker.CheckReturnType | src/main/java/crux/ast/types/TypeChecker.java:156-165 | the new state is the reference ReturnCheck |
| Ast.OpFromSymbol | crux/src/main/java/crux/ast/OpExpr.java:13-26 | an operation read back from a symbol prints as that symbol |
| Ast.OpSymbolRoundTrip | crux/src/main/java/crux/ast/OpExpr.java:13-26 | every operation's symbol reads back as that operation, so no two operations share a symbol |
| Ast.OpSymbol | crux/src/main/java/crux/ast/OpExpr.java:13-26 | each operation's `toString` is its one- or two-character source symbol, and the comparisons are exactly the operations printed as one of the six comparison symbols |
| Ast.PositionText | crux/src/main/java/crux/ast/Position.java:15-18 | a position prints as its line number between parentheses |
| Ast.OpChildren | crux/src/main/java/crux/ast/OpExpr.java:58-64 | the children are the left operand, then the right one exactly when it is present |
| Symbols.Symbol.Typed | src/main/java/crux/ast/SymbolTable.java:37-41 | a typed symbol has the name, the type and no error |
| Symbols.Symbol.Failed | src/main/java/crux/ast/SymbolTable.java:43-47 | an error symbol has the name, the error and no type |
| Symbols.SymbolText | src/main/java/crux/ast/SymbolTable.java:71-77 | a symbol prints as "Symbol(", its name, ":", then its error when it has one and its type otherwise, and ")" |
| Symbols.Builtin | src/main/java/crux/ast/SymbolTable.java:97-113 | each built-in function symbol gets the name and a FuncType of its own with the built-in's argument and return types |
| Symbols.SymbolTable.constructor | src/main/java/crux/ast/SymbolTable.java:92-117 | a new table has exactly one scope holding exactly the six built-ins readInt, readChar, printBool, printInt, printChar and println, each with its signature, and no error |
| Symbols.SymbolTable.HasEncounteredError | src/main/java/crux/ast/SymbolTable.java:120-122 | returns the error flag |
| Symbols.SymbolTable.Enter | src/main/java/crux/ast/SymbolTable.java:128-131 | pushes one empty scope and changes nothing else |
| Symbols.SymbolTable.Exit | src/main/java/crux/ast/SymbolTable.java:137-140 | drops the innermost scope and changes nothing else |
| Symbols.SymbolTable.Add | src/main/java/crux/ast/SymbolTable.java:146-160 | a name already in the innermost scope leaves every scope unchanged, sets the error flag and returns a new "DeclareSymbolError" symbol; otherwise the innermost scope maps the name to a new typed symbol and the flag is unchanged |
| Symbols.SymbolTable.Lookup | src/main/java/crux/ast/SymbolTable.java:166-175 | a name that resolves returns the innermost declaration and keeps the flag; one that does not returns a new "ResolveSymbolError" symbol of that name and sets the flag; the scopes never change |
| Symbols.SymbolTable.Find | src/main/java/crux/ast/SymbolTable.java:180-190 | a null name finds nothing; otherwise the loop from the innermost scope outward returns exactly the reference resolution |
| Symbols.ResolveInnermost | src/main/java/crux/ast/SymbolTable.java:177-190 | a name declared in scope i and in no scope further in resolves to scope i's symbol |
| Symbols.ResolveSound | src/main/java/crux/ast/SymbolTable.java:177-190 | a resolved symbol is the one from the innermost scope that declares the name |
| Symbols.ResolveNone | src/main/java/crux/ast/SymbolTable.java:168-171 | resolution fails exactly when no scope declares the name |
| Symbols.EnterKeepsResolution | src/main/java/crux/ast/SymbolTable.java:128-140 | entering a scope changes no resolution, and exiting it restores the scope list |
| Symbols.AddShadows | src/main/java/crux/ast/SymbolTable.java:156-158 | a name added to the innermost scope resolves to the new symbol, hiding outer declarations, and every other name resolves as before |
| Symbols.ResolveNamed | src/main/java/crux/ast/SymbolTable.java:185-186 | when every scope files symbols under their own names, a name resolves to a symbol of that name |
| Printing.NeedSemi | crux/src/main/java/crux/printing/ASTPrinter.java:189-194 | the suffix is empty exactly when the text ends in '}', and a semicolon otherwise |
| Printing.IndentText | crux/src/main/java/crux/printing/ASTPrinter.java:169-174 | the indentation for a level is two spaces per level and nothing but spaces |
| Printing.PrinterVisitor.constructor | crux/src/main/java/crux/printing/ASTPrinter.java:34-40 | a new printer keeps its options and starts at indentation level 0 |
| Printing.PrinterVisitor.Indent | crux/src/main/java/crux/printing/ASTPrinter.java:169-174 | the loop builds exactly the indentation text of the current level |
| Printing.PrinterVisitor.VisitStatementList | crux/src/main/java/crux/printing/ASTPrinter.java:176-187 | prints the list as the node's text at the current level and leaves the level where it was |
| Printing.PrinterVisitor.PrintStatements | crux/src/main/java/crux/printing/ASTPrinter.java:178-183 | the loop over the statements yields the statement-list text after "{\n" at the raised level |
| Printing.ListTextLines | crux/src/main/java/crux/printing/ASTPrinter.java:180-183 | the statement-list loop equals its start text followed by one independent line per statement, each indented, with a semicolon unless the statement ends in '}' |
| Printing.StatementListText | crux/src/main/java/crux/printing/ASTPrinter.java:176-187 | a statement list prints as "{\n", one line per statement indented one level deeper, then the closing brace at the list's own level |
| Printing.Print | crux/src/main/java/crux/printing/ASTPrinter.java:46-215 | the text of each node class as its visit builds it; every operation the checker did not type prints fully parenthesised, and a call prints as the callee's name followed by a parenthesised argument list |
| Printing.BlocksEndInBrace | crux/src/main/java/crux/printing/ASTPrinter.java:113-120 | a block, an if-else, a for loop and a function definition whose bodies are blocks print text ending in '}', so no semicolon follows them |
| Printing.PrinterVisitor.VisitDeclarationList | crux/src/main/java/crux/printing/ASTPrinter.java:87-95 | the loop yields the declaration-list text: a newline, then each declaration with a semicolon unless it ends in '}', each followed by a newline |
| Printing.PrinterVisitor.VisitCall | crux/src/main/java/crux/printing/ASTPrinter.java:72-85 | the loop yields the callee name and the argument texts joined by ", " in parentheses |
| Printing.PrinterVisitor.VisitFunctionDefinition | crux/src/main/java/crux/printing/ASTPrinter.java:97-111 | the loop yields the function name, the parameter texts joined by ", " in parentheses, a space and the body's text |
| Printing.PrintEachAt | crux/src/main/java/crux/printing/ASTPrinter.java:76-82 | the i-th printed argument is the text of the i-th argument |
| Printing.SymbolNamesAt | crux/src/main/java/crux/printing/ASTPrinter.java:101-107 | the i-th printed parameter is the text of the i-th parameter, with its type when types are enabled |
| ParseTree.TypeNamed | src/main/java/crux/ast/ParseTreeLower.java:38-50 | "bool", "void" and "int" name the three scalar types, each exactly when the name is that word, and every other name gives an ErrorType carrying the name |
| ParseTree.TypeNamedRoundTrip | src/main/java/crux/ast/ParseTreeLower.java:38-50 | a type name prints back as itself exactly when it is one of the three scalar names |
| ParseTree.ComparisonOp | src/main/java/crux/ast/ParseTreeLower.java:367-386 | a recognised comparison text gives a comparison operator whose symbol is that text |
| ParseTree.AdditiveOp | src/main/java/crux/ast/ParseTreeLower.java:407-418 | a recognised additive text gives ADD, SUB or LOGIC_OR with that symbol; any other text gives no operator |
| ParseTree.MultiplicativeOp | src/main/java/crux/ast/ParseTreeLower.java:440-451 | the operator is always MULT, DIV, LOGIC_AND or LOGIC_OR, the last one the fallback for any text other than "*", "/" and "&&" |
| ParseTree.OperatorTablesInvert | src/main/java/crux/ast/ParseTreeLower.java:367-451 | each table maps an operator's own symbol back to it exactly for the operators of its precedence level |
| ParseTree.ParseLong | src/main/java/crux/ast/ParseTreeLower.java:153 | a parsed long lies in the 64-bit signed range; an empty, non-numeric or out-of-range text has no value |
| ParseTree.DigitsValueOfNat | src/main/java/crux/ast/ParseTreeLower.java:535 | the decimal text of a natural number is all digits and has that number as its value |
| ParseTree.ParseLongRoundTrip | src/main/java/crux/ast/ParseTreeLower.java:535 | every 64-bit value printed in decimal parses back to itself |
| ParseTree.ParseNonNegative | src/main/java/crux/ast/ParseTreeLower.java:535 | the decimal text of a non-negative long parses to it |
| ParseTree.ParseNegative | src/main/java/crux/ast/ParseTreeLower.java:535 | a minus sign before the decimal text of a magnitude up to 2^63 parses to the negative value |
| ParseTree.LiteralNode | src/main/java/crux/ast/ParseTreeLower.java:526-537 | "true" and "false" give boolean literals; any other text gives an integer literal with its parsed value exactly when it parses as a long, and no node otherwise |
| ParseTree.LiteralIntRoundTrip | src/main/java/crux/ast/ParseTreeLower.java:526-537 | an integer literal printed in decimal lowers back to a literal with the same value |
| ParseTree.Cons | src/main/java/crux/ast/ParseTreeLower.java:90-93 | a list with a head exists exactly when both the head and the rest exist, and then it is the head followed by the rest |
| ParseTree.PrependNothing | src/main/java/crux/ast/ParseTreeLower.java:90-93 | prepending no finished items leaves the outcome unchanged |
| ParseTree.PrependCons | src/main/java/crux/ast/ParseTreeLower.java:90-93 | finishing one more item moves it from the pending part to the finished part, or fails the whole list when it has no node |
| ParseTree.Names | src/main/java/crux/ast/ParseTreeLower.java:183-190 | the names of the symbols, in order |
| ParseTree.EraseAll | src/main/java/crux/ast/ParseTreeLower.java:90-93 | the erased trees of the nodes, in order |
| ParseTree.EraseAllSnoc | src/main/java/crux/ast/ParseTreeLower.java:90-93 | erasing a list with one node appended appends that node's erased tree |
| ParseTree.ExpectedExprs | src/main/java/crux/ast/ParseTreeLower.java:494-497 | a lowered argument list has one tree per argument |
| ParseTree.ExpectedStmts | src/main/java/crux/ast/ParseTreeLower.java:89-99 | a lowered statement list has one tree per statement |
| ParseTree.ExpectedDecls | src/main/java/crux/ast/ParseTreeLower.java:68-80 | a lowered program has one tree per declaration |
| ParseTree.ParamNames | src/main/java/crux/ast/ParseTreeLower.java:183-190 | the parameter names, in order |
| ParseTree.ParamTypes | src/main/java/crux/ast/ParseTreeLower.java:170-173 | the type each parameter's type name denotes, in order |
| ParseTree.ReturnTypeAsWrittenIgnoresDeclaredType | src/main/java/crux/ast/ParseTreeLower.java:175-180 | as written, `void main()` gets the ErrorType "main" as its return type rather than VoidType |
| ParseTree.DeclaredReturnTypePrints | src/main/java/crux/ast/ParseTreeLower.java:175-180 | with the declared type name used, a function whose declared type is scalar gets exactly that type as its return type |
| ParseTreeLowering.ParseTreeLower.constructor | src/main/java/crux/ast/ParseTreeLower.java:29-31 | a new lowering has a fresh symbol table with one scope holding exactly the built-ins, and no error |
| ParseTreeLowering.ParseTreeLower.HasEncounteredError | src/main/java/crux/ast/ParseTreeLower.java:57-59 | returns the symbol table's error flag |
| ParseTreeLowering.ParseTreeLower.Lower | src/main/java/crux/ast/ParseTreeLower.java:68-80 | with no symbol error the program lowers to the declaration list its parse tree calls for, no program once an error has occurred; declarations only add names to the global scope |
| ParseTreeLowering.ParseTreeLower.LowerList | src/main/java/crux/ast/ParseTreeLower.java:89-99 | with no symbol error the statements lower to the list their parse trees call for, and none once an error has occurred; names are only added to the innermost scope; the error flag never clears |
| ParseTreeLowering.ParseTreeLower.LowerBlock | src/main/java/crux/ast/ParseTreeLower.java:108-113 | as LowerList, inside a scope of its own, so the scopes come back exactly as they were |
| ParseTreeLowering.ParseTreeLower.VisitDecl | src/main/java/crux/ast/ParseTreeLower.java:119-196 | a declaration lowers to the node its parse tree calls for, adding names only to the innermost scope |
| ParseTreeLowering.ParseTreeLower.VisitVariableDeclaration | src/main/java/crux/ast/ParseTreeLower.java:127-136 | a new name is declared in the innermost scope with the named type and resolves to the returned symbol; a name already in that scope leaves the scopes as they were, sets the error flag and gives a DeclareSymbolError symbol |
| ParseTreeLowering.ParseTreeLower.VisitArrayDeclaration | src/main/java/crux/ast/ParseTreeLower.java:147-156 | a size that does not parse as a long gives no node and declares nothing; otherwise the name is declared with an array type of that size and the named element type, or a redeclaration is an error as for variables |
| ParseTreeLowering.ParseTreeLower.VisitFunctionDefinition | src/main/java/crux/ast/ParseTreeLower.java:167-195 | the function lowers to the definition its parse tree calls for; its name resolves afterwards to its symbol, which has the parameter types and the return type `getType` gives for the declared type name (the corrected reading of line 175, see Findings); parameters and body live in one scope that is gone afterwards |
| ParseTreeLowering.ParseTreeLower.DeclareFunction | src/main/java/crux/ast/ParseTreeLower.java:175-180 | the function's symbol is named after it and, when no error occurred, resolves from its name and has the parameter types and the return type `getType` gives for the declared type name (the corrected reading of line 175, see Findings) |
| ParseTreeLowering.ParseTreeLower.ParamTypeList | src/main/java/crux/ast/ParseTreeLower.java:169-173 | the loop collects the type of every parameter in order |
| ParseTreeLowering.ParseTreeLower.DeclareParams | src/main/java/crux/ast/ParseTreeLower.java:183-190 | one symbol per parameter, in order, with its name; each has the type `getType` gives for its type name, or is the error symbol of a repeated name with the error flag set; when no error occurred each parameter is in the innermost scope and resolves to its own symbol |
| ParseTreeLowering.ParseTreeLower.VisitStmt | src/main/java/crux/ast/ParseTreeLower.java:203-348 | a statement lowers to the node its parse tree calls for; only a variable declaration changes the scopes, and only by adding to the innermost one |
| ParseTreeLowering.ParseTreeLower.VisitAssignment | src/main/java/crux/ast/ParseTreeLower.java:228-251 | lowers target and value to the assignment its parse tree calls for; the error flag is set exactly when a name in it does not resolve |
| ParseTreeLowering.ParseTreeLower.VisitIf | src/main/java/crux/ast/ParseTreeLower.java:279-294 | lowers the condition and both blocks, the else block an empty list at the if's position when the source has none; the scopes come back as they were |
| ParseTreeLowering.ParseTreeLower.VisitFor | src/main/java/crux/ast/ParseTreeLower.java:308-319 | lowers initialisation, condition, increment and body inside a scope of its own; the scopes come back as they were |
| ParseTreeLowering.ParseTreeLower.VisitExpr | src/main/java/crux/ast/ParseTreeLower.java:462-483 | an expression lowers to the tree its parse tree calls for, without changing the scopes; the error flag is set exactly when some name it looks up is undeclared |
| ParseTreeLowering.ParseTreeLower.VisitExpression0 | src/main/java/crux/ast/ParseTreeLower.java:357-387 | the first operand alone, or a comparison of both operands; an unknown comparison text gives no node; in a chain of comparisons only the first is lowered |
| ParseTreeLowering.ComparisonTailIgnored | src/main/java/crux/ast/ParseTreeLower.java:357-387 | an `expression0` may chain comparisons (`a < b < c`), but only its first operand, first operator and second operand are lowered: two chains that agree on their first comparison give the same tree and need the same names resolved, so an undeclared name in a later operand records no error |
| ParseTreeLowering.ParseTreeLower.VisitExpression1 | src/main/java/crux/ast/ParseTreeLower.java:397-420 | the operand alone, or an additive operation of left and right operand; an unknown operator text gives no node |
| ParseTreeLowering.ParseTreeLower.VisitExpression2 | src/main/java/crux/ast/ParseTreeLower.java:430-453 | the operand alone, or a multiplicative operation of left and right operand, any unknown operator text becoming LOGIC_OR |
| ParseTreeLowering.ParseTreeLower.VisitCall | src/main/java/crux/ast/ParseTreeLower.java:491-499 | a call with the lowered arguments whose callee is the innermost declaration of the name, or a new error symbol when there is none; the error flag is set exactly when the callee or a name in an argument does not resolve |
| ParseTreeLowering.ParseTreeLower.VisitArgs | src/main/java/crux/ast/ParseTreeLower.java:495-497 | the loop lowers every argument in order, and succeeds exactly when every argument has a tree |
| ParseTreeLowering.ParseTreeLower.VisitDesignator | src/main/java/crux/ast/ParseTreeLower.java:508-519 | a variable access, or an array access indexed by the first index expression, reading the innermost declaration of the name, or a new error symbol when there is none; the error flag is set exactly when the name or a name in that index does not resolve |
| Ir.VarName | src/main/java/crux/ir/AddressVar.java:21-24 | a temporary's name is "$t" or "%t" followed by its number, the "%" marking an address variable |
| Ir.VarNameInjective | src/main/java/crux/ir/AddressVar.java:21-24 | two variables have the same name exactly when they are the same variable |
| Ir.ConstructorsWellFormed | crux/src/main/java/crux/ir/insts/AddressAt.java:22-30 | each instruction constructor, given values of its Java parameter types, builds its class's shape: Nop, Jump, Store and Return have no destination, AddressAt has one operand with an offset and none without, a call's parameters are all local variables |
| Ir.GettersRoundTrip | crux/src/main/java/crux/ir/insts/AddressAt.java:32-42 | every getter returns what the constructor was given: base, offset, destination, predicate, source value, destination address, source address, inner operand, return value and callee |
| Ir.Convert | src/main/java/crux/ir/insts/CallInst.java:28-33 | copying the parameters through an array gives the same list |
| Ir.GetParams | src/main/java/crux/ir/insts/CallInst.java:50-56 | the parameters are the call's operands in order, every one a local variable |
| Ir.FormatParams | src/main/java/crux/ir/insts/CallInst.java:69-73 | the loop concatenates the text of every parameter in order, with no separator |
| Ir.ParamsTextAppend | src/main/java/crux/ir/insts/CallInst.java:69-73 | the parameter text of two lists one after the other is the first list's text followed by the second's |
| Ir.CallFormatListsParams | src/main/java/crux/ir/insts/CallInst.java:36-44 | adding a parameter to a call adds its text at the end of the parameter text |
| Ir.CallFormatDropsDestination | src/main/java/crux/ir/insts/CallInst.java:74-79 | a call with a destination formats as "<dst> = " followed by the text of the same call without a destination |
| Ir.FormatNamesDestination | crux/src/main/java/crux/ir/insts/CopyInst.java:35-40 | every instruction with a destination (address, copy, load, not, call) formats as a text starting "<dst> = " |
| Ir.Format | crux/src/main/java/crux/ir/insts/AddressAt.java:49-55 | each instruction class's `format`; only a Nop formats as "nop"; an AddressAt without an offset shows "null" there, as admitted under Left out |
| Ir.GlobalDeclFormatParts | crux/src/main/java/crux/ir/GlobalDecl.java:39-44 | the allocation text reads back field by field: the name, " = allocate ", the type text, ", " and the count text, each at its own offset |
| Ir.GlobalDeclFormat | crux/src/main/java/crux/ir/GlobalDecl.java:39-44 | a global formats as its name, " = allocate ", its type's text, ", " and the text of its element count |
| BooleanConstants.BooleanConstant.constructor | crux/src/main/java/crux/ir/BooleanConstant.java:13-16 | a new constant has the given value and BoolType |
| BooleanConstants.ConstantPool.Get | crux/src/main/java/crux/ir/BooleanConstant.java:22-25 | returns the pooled constant of the program and value, unchanged pool, when there is one; otherwise a new constant with that value and BoolType that is added to the program's pool |
| BooleanConstants.ConstantPool.GetTwice | crux/src/main/java/crux/ir/BooleanConstant.java:22-25 | asking twice with the same program and value gives the same object, which is then pooled |
| BooleanConstants.PoolHoldsAtMostTwo | crux/src/main/java/crux/ir/BooleanConstant.java:22-25 | a program's pool holds at most two constants, and with two it holds one for false and one for true |
| AstLowering.ComparePredicate | crux/src/main/java/crux/ir/ASTLower.java:310-321 | an operator has a comparison predicate exactly when it is one of the six comparisons |
| AstLowering.ArithmeticOp | crux/src/main/java/crux/ir/ASTLower.java:322-329 | an operator has an arithmetic instruction exactly when it is "+", "-", "*" or "/" |
| AstLowering.ArgVars | crux/src/main/java/crux/ir/ASTLower.java:91-97 | a function's arguments are its first temporaries, one per parameter, in order |
| AstLowering.ParamMapBound | crux/src/main/java/crux/ir/ASTLower.java:90-96 | after the parameter loop exactly the parameters are mapped, each to a LocalVar numbered below the parameter count |
| AstLowering.ParamMapDistinct | crux/src/main/java/crux/ir/ASTLower.java:90-96 | with distinct parameters, the i-th parameter is mapped to the i-th temporary |
| AstLowering.ChainClosed | crux/src/main/java/crux/ir/ASTLower.java:111-121 | linking the last exit of a chain of fragments onward keeps the chain and adds the link |
| AstLowering.ChainGrows | crux/src/main/java/crux/ir/ASTLower.java:111-121 | linking the last exit of a chain to a newly lowered fragment gives a chain one longer that ends at that fragment's exit, with nothing else changed |
| AstLowering.ASTLower.constructor | crux/src/main/java/crux/ir/ASTLower.java:56-64 | a new lowering has an empty program, no current function, no local map and an empty loop-exit stack |
| AstLowering.ASTLower.Emit | crux/src/main/java/crux/ir/ASTLower.java:107 | creating an instruction adds one node with no successors and changes no other node |
| AstLowering.ASTLower.SetNext | crux/src/main/java/crux/ir/ASTLower.java:118 | setting a successor changes only that slot of that one node |
| AstLowering.ASTLower.TempVar | crux/src/main/java/crux/ir/ASTLower.java:93 | a new temporary is a LocalVar numbered after every earlier one |
| AstLowering.ASTLower.TempAddressVar | crux/src/main/java/crux/ir/ASTLower.java:164 | a new address temporary is an AddressVar numbered after every earlier one |
| AstLowering.ASTLower.Visit | crux/src/main/java/crux/ir/ASTLower.java:392-395 | every visit inside a function leaves earlier nodes unchanged, only adds temporaries, and yields a fragment whose exit is a new node and whose value is a LocalVar; the loop-exit stack grows by the loops minus the breaks lowered |
| AstLowering.ASTLower.VisitVarAccess | crux/src/main/java/crux/ir/ASTLower.java:160-183 | a mapped local yields its LocalVar through one Nop; any other symbol yields AddressAt into a fresh AddressVar linked to a Load into a fresh LocalVar |
| AstLowering.ASTLower.VisitLiteral | crux/src/main/java/crux/ir/ASTLower.java:422-444 | a literal yields one Copy of its constant into a fresh LocalVar, entry and exit both |
| AstLowering.ASTLower.VisitArrayAccess | crux/src/main/java/crux/ir/ASTLower.java:401-416 | the index fragment, then AddressAt of the base at the index value, then a Load into a fresh LocalVar; a base whose type is not an array gives no fragment |
| AstLowering.ASTLower.JoinAccess | crux/src/main/java/crux/ir/ASTLower.java:407-415 | the index exit continues at a new AddressAt, which continues at a new Load of its address |
| AstLowering.ASTLower.VisitOpExpr | crux/src/main/java/crux/ir/ASTLower.java:292-390 | one operand yields a UnaryNot of its value after it, whatever the operator; two operands yield the comparison, arithmetic or short-circuit shape; a binary "!" yields no fragment |
| AstLowering.ASTLower.VisitBinary | crux/src/main/java/crux/ir/ASTLower.java:295-298 | the right operand is lowered after the left one and the two are joined by the operator's shape |
| AstLowering.ASTLower.JoinBinary | crux/src/main/java/crux/ir/ASTLower.java:335-389 | comparisons and arithmetic get their one instruction, "&&" and "\|\|" the short-circuit nodes, and any other operator no fragment |
| AstLowering.ASTLower.JoinInstruction | crux/src/main/java/crux/ir/ASTLower.java:335-352 | a comparison or arithmetic operator yields its instruction shape |
| AstLowering.ASTLower.JoinLogic | crux/src/main/java/crux/ir/ASTLower.java:353-388 | "&&" and "\|\|" yield the short-circuit shape |
| AstLowering.ASTLower.JoinUnary | crux/src/main/java/crux/ir/ASTLower.java:299-305 | the operand exit continues at a new UnaryNot of its value into a fresh LocalVar, which is the fragment's exit and value; an operand without a value gives no fragment |
| AstLowering.ASTLower.JoinOperands | crux/src/main/java/crux/ir/ASTLower.java:335-352 | left exit to right entry, right exit to one new instruction reading both values into a fresh LocalVar; an operand without a value gives no fragment |
| AstLowering.ASTLower.JoinShortCircuit | crux/src/main/java/crux/ir/ASTLower.java:353-387 | the left exit continues at the Jump, the right exit at the copy of the right value, both copies at the merge Nop, which is the fragment's exit with a fresh LocalVar as value |
| AstLowering.ASTLower.ShortCircuitBranch | crux/src/main/java/crux/ir/ASTLower.java:357-377 | an unused Nop, then the Jump on the left value after the left exit, then the two copies into one fresh LocalVar |
| AstLowering.ASTLower.ShortCircuitCopies | crux/src/main/java/crux/ir/ASTLower.java:362-379 | for "&&" the Jump's slot 0 goes to the left copy and slot 1 to the right operand; for "\|\|" the other way round |
| AstLowering.ASTLower.VisitCall | crux/src/main/java/crux/ir/ASTLower.java:244-284 | a head Nop, the arguments chained after it in order, then the CallInst over their values, with a fresh destination exactly when the callee does not return void; a callee without a function type gives no fragment |
| AstLowering.ASTLower.FinishCall | crux/src/main/java/crux/ir/ASTLower.java:265-282 | the CallInst follows the last argument's exit and ends the fragment that starts at the head |
| AstLowering.ASTLower.LowerChain | crux/src/main/java/crux/ir/ASTLower.java:250-263 | each child is lowered in order, the first entered from the head and every later one from the previous exit |
| AstLowering.ASTLower.ExtendChain | crux/src/main/java/crux/ir/ASTLower.java:259-261 | linking the chain's last exit to a new fragment makes it the chain's last part |
| AstLowering.ASTLower.EmitCall | crux/src/main/java/crux/ir/ASTLower.java:265-282 | the CallInst over the argument values follows the given node; a void callee gives no destination and uses no temporary, any other a fresh LocalVar; an argument without a value gives no call |
| AstLowering.ASTLower.VisitAssignment | crux/src/main/java/crux/ir/ASTLower.java:190-238 | an array element, a global or a mapped local is assigned by its own shape; any other location gives no fragment |
| AstLowering.ASTLower.AssignElement | crux/src/main/java/crux/ir/ASTLower.java:195-212 | index, then AddressAt of the base at the index value into a fresh AddressVar, then the value, then a Store of the value through that address |
| AstLowering.ASTLower.JoinElementStore | crux/src/main/java/crux/ir/ASTLower.java:201-211 | the Store is created before the AddressAt; index exit to AddressAt, AddressAt to value entry, value exit to Store |
| AstLowering.ASTLower.AssignGlobal | crux/src/main/java/crux/ir/ASTLower.java:216-230 | the AddressAt of the symbol is the entry and leads to the value, whose exit leads to the Store through that address |
| AstLowering.ASTLower.JoinGlobalStore | crux/src/main/java/crux/ir/ASTLower.java:219-229 | a fresh AddressVar, the Store through it, then the AddressAt leading to the value, whose exit leads to the Store |
| AstLowering.ASTLower.AssignLocal | crux/src/main/java/crux/ir/ASTLower.java:231-237 | the value, then a Copy of its value into the local's LocalVar |
| AstLowering.ASTLower.VisitReturn | crux/src/main/java/crux/ir/ASTLower.java:450-456 | the value, then a ReturnInst of its value; a return without a value gives no fragment |
| AstLowering.ASTLower.VisitBreak | crux/src/main/java/crux/ir/ASTLower.java:463-470 | pops the innermost loop exit, which becomes the entry, and ends at a new Nop; with no enclosing loop there is no fragment |
| AstLowering.ASTLower.VisitIf | crux/src/main/java/crux/ir/ASTLower.java:477-493 | the condition, a Jump on its value, the else and then blocks, and an exit Nop both blocks lead to |
| AstLowering.ASTLower.VisitBranches | crux/src/main/java/crux/ir/ASTLower.java:482-489 | the else block is lowered before the then block, and both are joined at the exit |
| AstLowering.ASTLower.JoinBranches | crux/src/main/java/crux/ir/ASTLower.java:484-489 | the Jump's slot 0 goes to the else entry and slot 1 to the then entry; both exits go to one new exit Nop |
| AstLowering.ASTLower.VisitFor | crux/src/main/java/crux/ir/ASTLower.java:500-517 | the exit Nop is pushed as the loop exit, then init, condition, body and increment are lowered in that order and wired into the loop shape; the fragment runs from the init entry to the exit Nop |
| AstLowering.ASTLower.VisitLoopHead | crux/src/main/java/crux/ir/ASTLower.java:503-504 | the init is lowered before the condition |
| AstLowering.ASTLower.VisitLoopBody | crux/src/main/java/crux/ir/ASTLower.java:505-514 | the body is lowered before the increment, then the loop glue is added |
| AstLowering.ASTLower.JoinLoop | crux/src/main/java/crux/ir/ASTLower.java:508-514 | init exit to condition entry, condition exit to a Jump (slot 0 the exit, slot 1 the body), body exit to increment entry, increment exit back to the condition entry |
| AstLowering.ASTLower.EmitLoopJump | crux/src/main/java/crux/ir/ASTLower.java:509-512 | the loop's Jump on the condition follows the condition exit, slot 0 to the loop exit and slot 1 to the body entry |
| AstLowering.ASTLower.VisitStatementList | crux/src/main/java/crux/ir/ASTLower.java:106-123 | a head Nop, alone for an empty list; otherwise the statements chained after it in order, the last exit ending the list |
| AstLowering.ASTLower.VisitVariableDeclaration | crux/src/main/java/crux/ir/ASTLower.java:129-141 | outside a function a one-element global is added; inside one the symbol is mapped to a fresh LocalVar; either way the fragment is a lone Nop |
| AstLowering.ASTLower.VisitArrayDeclaration | crux/src/main/java/crux/ir/ASTLower.java:147-153 | an array-typed symbol adds a global with the type's extent; any other type is a failed cast |
| AstLowering.ASTLower.VisitFunctionDefinition | crux/src/main/java/crux/ir/ASTLower.java:87-103 | a function with the symbol's name and type, its first temporaries as arguments, and the entry of its lowered body; the current function and local map are cleared afterwards |
| AstLowering.ASTLower.BindParameters | crux/src/main/java/crux/ir/ASTLower.java:90-97 | each parameter is mapped to the temporary of its position, which is also its argument |
| AstLowering.ASTLower.BindParameter | crux/src/main/java/crux/ir/ASTLower.java:93-95 | one parameter is mapped to a new temporary |
| AstLowering.ASTLower.Lower | crux/src/main/java/crux/ir/ASTLower.java:66-80 | the program's globals are those of the declarations in source order and its functions are the definitions in source order |
| AstLowering.ASTLower.LowerDeclaration | crux/src/main/java/crux/ir/ASTLower.java:76-78 | a definition adds one function, a variable or array declaration adds its global; nothing else is a top-level declaration |
| Assembly.Put | src/main/java/crux/backend/CodePrinter.java:22-24 | one `printCode` appends exactly one line and leaves the slot map and the counter alone, so the generator state only grows |
| Assembly.Emit | src/main/java/crux/backend/CodePrinter.java:18-24 | printing lines appends them after everything already written and changes no slot |
| Assembly.Slot | src/main/java/crux/backend/CodeGen.java:168-175 | a name already in `varIndexMap` keeps its slot and the counter; a new name is recorded and raises `numLocalVar` by one; the slot used lies in [1, count] and the output is untouched |
| Assembly.RecordedSlotIsStable | src/main/java/crux/backend/CodeGen.java:205-213 | the lookup that uses the slot it records (destination pattern) is stable: asking again in either pattern gives the same slot and changes nothing |
| Assembly.FirstUseSlotMismatch | src/main/java/crux/backend/CodeGen.java:168-175 | the lookup that increments before reading uses, on a new name, the slot one above the one it records, so the first use and every later use of that variable address different stack slots |
| Assembly.OffsetBelowFrame | src/main/java/crux/backend/CodeGen.java:176 | a positive slot times -8 prints as a minus sign and the digits of 8 * slot: a location below `%rbp` |
| Assembly.GenAddressAt | src/main/java/crux/backend/CodeGen.java:137-150 | without an offset three lines, the second loading the symbol through `@GOTPCREL` into r11; with an offset four lines, the third loading it into r10; no slot is recorded |
| Assembly.GenBinary | src/main/java/crux/backend/CodeGen.java:155-217 | the lines of a BinaryOperator visit are appended after the earlier text; every recorded slot is kept and recorded slots stay below the counter |
| Assembly.SuffixRoundTrip | src/main/java/crux/backend/CodeGen.java:248-267 | the `cmov` condition code chosen for each of the six predicates reads back as that predicate |
| Assembly.CmovSuffix | src/main/java/crux/backend/CodeGen.java:248-266 | each of the six predicates gets its `cmov` condition code, which reads back as that predicate |
| Assembly.CmovSuffixInjective | src/main/java/crux/backend/CodeGen.java:248-267 | two predicates give the same condition code if and only if they are the same predicate |
| Assembly.GenCompare | src/main/java/crux/backend/CodeGen.java:219-281 | the lines of a CompareInst visit are appended after the earlier text; recorded slots are kept and stay below the counter |
| Assembly.GenCopy | src/main/java/crux/backend/CodeGen.java:283-328 | the lines of a CopyInst visit, chosen by the source value's class, are appended; recorded slots are kept |
| Assembly.GenJump | src/main/java/crux/backend/CodeGen.java:330-346 | the lines of a JumpInst visit are appended; recorded slots are kept |
| Assembly.GenLoad | src/main/java/crux/backend/CodeGen.java:348-375 | the lines of a LoadInst visit are appended; recorded slots are kept |
| Assembly.GenStore | src/main/java/crux/backend/CodeGen.java:383-409 | the lines of a StoreInst visit are appended; recorded slots are kept |
| Assembly.GenReturn | src/main/java/crux/backend/CodeGen.java:411-427 | the lines of a ReturnInst visit are appended; recorded slots are kept |
| Assembly.GenUnaryNot | src/main/java/crux/backend/CodeGen.java:488-515 | the lines of a UnaryNotInst visit are appended; recorded slots are kept |
| Assembly.PassLineRegister | src/main/java/crux/backend/CodeGen.java:445-461 | the j-th of the six argument moves of a call targets the j-th integer argument register of the System V AMD64 ABI |
| Assembly.PassArgs | src/main/java/crux/backend/CodeGen.java:431-467 | the first loop of a call visit prints one move for each of the first six parameters and nothing for the rest |
| Assembly.PassLine | src/main/java/crux/backend/CodeGen.java:445-462 | argument j among the first six is moved from its frame offset into the j-th System V integer argument register |
| Assembly.PassArg | src/main/java/crux/backend/CodeGen.java:432-466 | one parameter: its slot is looked up or recorded, and one line is printed exactly when it is among the first six |
| Assembly.PassArgRegister | src/main/java/crux/backend/CodeGen.java:432-461 | the line printed for parameter j < 6 moves the slot its name is recorded at into register j |
| Assembly.PassArgsRegisters | src/main/java/crux/backend/CodeGen.java:431-467 | after the first loop, line j (j < 6) moves parameter j's recorded slot into register j, in parameter order |
| Assembly.StackArgs | src/main/java/crux/backend/CodeGen.java:469-485 | the second loop prints two lines per parameter beyond the sixth |
| Assembly.StackArg | src/main/java/crux/backend/CodeGen.java:471-483 | one parameter beyond the sixth: two lines, a load into r10 and a store to the slot numbered by the counter |
| Assembly.GenCall | src/main/java/crux/backend/CodeGen.java:429-486 | the lines of a CallInst visit are appended; recorded slots are kept |
| Assembly.CallLayout | src/main/java/crux/backend/CodeGen.java:429-486 | a call's text is its comment, min(n, 6) register moves, the `call` line at that position, then two lines per parameter beyond the sixth |
| Assembly.GenInst | src/main/java/crux/backend/CodeGen.java:106 | the visit of any instruction class, a Nop printing nothing, only appends lines and keeps recorded slots |
| Assembly.Exit | src/main/java/crux/backend/CodeGen.java:107-130 | what follows a visited node only appends lines |
| Assembly.StepText | src/main/java/crux/backend/CodeGen.java:100-131 | one turn of the DFS loop only appends lines and keeps recorded slots |
| Assembly.NextDecreases | src/main/java/crux/backend/CodeGen.java:97-132 | each turn of the DFS loop keeps the stack on the graph's nodes and lowers the measure (twice the undiscovered nodes plus the stack height), so the loop ends |
| Assembly.PushDecreases | src/main/java/crux/backend/CodeGen.java:109-117 | pushing a successor, which happens only when it is undiscovered and marks it discovered, never raises the measure |
| Assembly.Dfs | src/main/java/crux/backend/CodeGen.java:97-132 | the DFS loop run to its end only appends lines and keeps recorded slots |
| Assembly.DfsTurn | src/main/java/crux/backend/CodeGen.java:100-131 | a turn followed by the rest of the walk only appends lines and keeps recorded slots |
| Assembly.OrderOnce | src/main/java/crux/backend/CodeGen.java:97-132 | from any stack that holds each node once, the DFS never pops a node it popped before, apart from the entry |
| Assembly.EachNodeOnce | src/main/java/crux/backend/CodeGen.java:97-132 | starting from the entry, the DFS pops every node at most once apart from the entry, which starts on the stack without being marked discovered and so can be pushed once more |
| Assembly.JumpWhenNotNext | src/main/java/crux/backend/CodeGen.java:113-130 | after an unlabelled node with a successor 0, a `jmp` to its label is printed if and only if the stack is then empty or its top is another node; without a successor 0, `leave` and `ret` |
| Assembly.FallThroughOnTop | src/main/java/crux/backend/CodeGen.java:109-117 | an undiscovered successor 0 is pushed last, so it is on top of the stack and is discovered after its node's turn |
| Assembly.LabelledNodeOnlyLabel | src/main/java/crux/backend/CodeGen.java:102-104 | a labelled node's turn prints its label and nothing else and pushes none of its successors |
| Assembly.SpillLines | src/main/java/crux/backend/CodeGen.java:68-85 | the argument loop prints exactly one line per argument |
| Assembly.SpillLine | src/main/java/crux/backend/CodeGen.java:68-85 | each of the first six arguments is moved from its argument register to a negative frame offset; every later argument is pushed by name |
| Assembly.SpillLineAt | src/main/java/crux/backend/CodeGen.java:68-85 | line j of the argument loop is argument j's own line, in argument order |
| Assembly.SpillLineSlot | src/main/java/crux/backend/CodeGen.java:69-80 | argument k < 6 is moved from the k-th ABI register to the offset of slot k + 1 |
| Assembly.SpilledToOwnSlot | src/main/java/crux/backend/CodeGen.java:68-85 | in a function's text, argument j < 6 is spilled from register j to slot j + 1 |
| Assembly.FrameAligned | src/main/java/crux/backend/CodeGen.java:90-95 | the slot count made even is even and at most one more, so `enter` reserves a multiple of 16 bytes |
| Assembly.Head | src/main/java/crux/backend/CodeGen.java:64-95 | what a function prints before its DFS only appends lines and keeps recorded slots |
| Assembly.Prologue | src/main/java/crux/backend/CodeGen.java:93-95 | three lines: `.globl` of the name, the name as a label, then `enter` with the slot count |
| Assembly.FunctionLayout | src/main/java/crux/backend/CodeGen.java:64-95 | a function's text starts with one spill line per argument, then `.globl`, its label and `enter` with the even slot count; the slot map carries over from earlier functions |
| Assembly.GenFunction | src/main/java/crux/backend/CodeGen.java:62-134 | a function's text extends its head and only appends lines |
| Assembly.GenFunctions | src/main/java/crux/backend/CodeGen.java:50-53 | the functions, one after the other, only append lines and keep recorded slots |
| Assembly.Long | src/main/java/crux/backend/CodeGen.java:45 | the byte size of a global is a Java long: it always lies in [-2^63, 2^63) and equals the exact product when that fits |
| Assembly.GlobalLines | src/main/java/crux/backend/CodeGen.java:42-47 | one `.comm` line per global |
| Assembly.GlobalLine | src/main/java/crux/backend/CodeGen.java:42-47 | a global's `.comm` line reserves eight bytes per element, 8-byte aligned; for counts below 2^60 the size is exactly 8 times the count, with no long wrap-around |
| Assembly.GlobalLineAt | src/main/java/crux/backend/CodeGen.java:42-47 | line k of the globals' text is global k's `.comm` line, in declaration order |
| Assembly.GenProgram | src/main/java/crux/backend/CodeGen.java:40-55 | the program's text starts with the globals' `.comm` lines, before any function's text |
| CodeGeneration.CodeGen.constructor | src/main/java/crux/backend/CodeGen.java:19-35 | a new generator holds the program, no lines, an empty slot map, the counter at 1 and `numslots` at 0 |
| CodeGeneration.CodeGen.PrintCode | src/main/java/crux/backend/CodePrinter.java:22-24 | the output gains the line indented by four spaces and nothing else changes |
| CodeGeneration.CodeGen.PrintInfo | src/main/java/crux/backend/CodeGen.java:24-28 | the output gains the instruction's IR text inside a comment |
| CodeGeneration.CodeGen.SlotOf | src/main/java/crux/backend/CodeGen.java:168-175 | the lookup-or-record of a name leaves the fields as `Assembly.Slot` describes and returns its slot |
| CodeGeneration.CodeGen.VisitAddressAt | src/main/java/crux/backend/CodeGen.java:137-150 | the fields end as `Assembly.GenAddressAt` describes |
| CodeGeneration.CodeGen.VisitBinary | src/main/java/crux/backend/CodeGen.java:155-217 | the fields end as `Assembly.GenBinary` describes |
| CodeGeneration.CodeGen.VisitCompare | src/main/java/crux/backend/CodeGen.java:219-281 | the fields end as `Assembly.GenCompare` describes |
| CodeGeneration.CodeGen.VisitCopy | src/main/java/crux/backend/CodeGen.java:283-328 | the fields end as `Assembly.GenCopy` describes |
| CodeGeneration.CodeGen.VisitJump | src/main/java/crux/backend/CodeGen.java:330-346 | the fields end as `Assembly.GenJump` describes, jumping to the label of successor 1 |
| CodeGeneration.CodeGen.VisitLoad | src/main/java/crux/backend/CodeGen.java:348-375 | the fields end as `Assembly.GenLoad` describes |
| CodeGeneration.CodeGen.VisitStore | src/main/java/crux/backend/CodeGen.java:383-409 | the fields end as `Assembly.GenStore` describes |
| CodeGeneration.CodeGen.VisitReturn | src/main/java/crux/backend/CodeGen.java:411-427 | the fields end as `Assembly.GenReturn` describes |
| CodeGeneration.CodeGen.VisitCall | src/main/java/crux/backend/CodeGen.java:429-486 | the fields end as `Assembly.GenCall` describes, whose layout `Assembly.CallLayout` states |
| CodeGeneration.CodeGen.PassArguments | src/main/java/crux/backend/CodeGen.java:431-467 | the first loop of the call visit leaves the fields as `Assembly.PassArgs` describes |
| CodeGeneration.CodeGen.PassArgument | src/main/java/crux/backend/CodeGen.java:432-466 | one iteration of that loop leaves the fields as `Assembly.PassArg` describes |
| CodeGeneration.CodeGen.CopyStackArguments | src/main/java/crux/backend/CodeGen.java:469-485 | the second loop of the call visit leaves the fields as `Assembly.StackArgs` describes |
| CodeGeneration.CodeGen.CopyStackArgument | src/main/java/crux/backend/CodeGen.java:471-483 | one iteration of that loop leaves the fields as `Assembly.StackArg` describes |
| CodeGeneration.CodeGen.VisitUnaryNot | src/main/java/crux/backend/CodeGen.java:488-515 | the fields end as `Assembly.GenUnaryNot` describes |
| CodeGeneration.CodeGen.Accept | src/main/java/crux/backend/CodeGen.java:106 | dispatch on the instruction class leaves the fields as `Assembly.GenInst` describes; a Nop prints nothing |
| CodeGeneration.CodeGen.PushNew | src/main/java/crux/backend/CodeGen.java:109-117 | a successor is pushed and marked discovered exactly when it exists and is undiscovered |
| CodeGeneration.CodeGen.PrintExit | src/main/java/crux/backend/CodeGen.java:113-130 | the output gains `jmp` to successor 0 unless it is on top of the stack, or `leave` and `ret` without a successor 0 |
| CodeGeneration.CodeGen.Turn | src/main/java/crux/backend/CodeGen.java:100-131 | one turn of the DFS loop leaves the output as `Assembly.StepText` and the stack and discovered set as `Assembly.Next` describe |
| CodeGeneration.CodeGen.TurnOn | src/main/java/crux/backend/CodeGen.java:100-131 | a turn keeps the stack on the graph, lowers the termination measure and leaves the text of the whole walk unchanged |
| CodeGeneration.CodeGen.Traverse | src/main/java/crux/backend/CodeGen.java:97-132 | the DFS loop from the entry node leaves the fields as `Assembly.Dfs` describes |
| CodeGeneration.CodeGen.SpillArguments | src/main/java/crux/backend/CodeGen.java:68-85 | the argument loop appends `Assembly.SpillLines` of the arguments |
| CodeGeneration.CodeGen.PrintPrologue | src/main/java/crux/backend/CodeGen.java:93-95 | the output gains `.globl`, the function's label and `enter` sized by the slot count |
| CodeGeneration.CodeGen.GenFunction | src/main/java/crux/backend/CodeGen.java:62-134 | the fields end as `Assembly.GenFunction` describes; the label map is the function's and `numslots` is 0 |
| CodeGeneration.CodeGen.PrintGlobals | src/main/java/crux/backend/CodeGen.java:42-47 | the globals loop appends `Assembly.GlobalLines` of the globals |
| CodeGeneration.CodeGen.GenFunctionsInOrder | src/main/java/crux/backend/CodeGen.java:49-53 | the functions loop leaves the fields as `Assembly.GenFunctions` describes |
| CodeGeneration.CodeGen.GenFunctionAt | src/main/java/crux/backend/CodeGen.java:50-53 | one iteration of the functions loop appends function n's text after that of the functions before it |
| CodeGeneration.CodeGen.GenCode | src/main/java/crux/backend/CodeGen.java:40-55 | `genCode()` leaves the fields as `Assembly.GenProgram` describes: the `.comm` lines first, then every function |
| Text.NatToString | crux/src/main/java/crux/printing/ASTPrinter.java:131 | a natural number prints as a non-empty run of decimal digits |
| Text.NatToStringInjective | crux/src/main/java/crux/printing/ASTPrinter.java:131 | different numbers print differently, so the printed number determines the value |
| Text.IntToString | crux/src/main/java/crux/printing/ASTPrinter.java:131 | `Long.toString`: a non-empty text that starts with a minus sign if and only if the number is negative |

## Left out

- CheckExpr: an array indexed by an `int` gets the array's base type from the corrected `CruxTypes.Index`; as written, `ArrayType.index` casts the index to `ArrayType` and throws (see Findings), and the walk does not model that throw.
- ExprType: the reference type of an int-indexed array access is the corrected `CruxTypes.Index`, not the as-written cast that throws.
- VisitExpr: runs the corrected `CruxTypes.Index` on an int-indexed array access, where the code throws.
- ExprTyped: holds of the walk with the corrected `CruxTypes.Index`; on an int-indexed array access the code throws instead of recording a type.
- ExprChecked: states the error list of the walk with the corrected `CruxTypes.Index`; on an int-indexed array access the code throws.
- ErrorIffErrorType: the if-and-only-if is proved for the walk with the corrected `CruxTypes.Index`; on an int-indexed array access the code throws.
- VisitFunctionDefinition: the function's return type is `getType` of the declared type name, the corrected reading of src/main/java/crux/ast/ParseTreeLower.java:175-176; as written, the code takes `getType` of the function's own name (see Findings), so every function not named `int`, `bool` or `void` gets an ErrorType return type, and every call of it and every `return` check follows that error type.
- DeclareFunction: declares the function with the corrected return type, as VisitFunctionDefinition above.
- CheckBody: the return-type messages name the function by its symbol's name; the code formats the `FunctionDefinition` object itself, which defines no `toString`, so Java prints the class name and an identity hash code that the model cannot reproduce.
- ReturnCheck: its message names the function by its symbol's name, where Java prints `Object.toString` of the definition, as under CheckBody.
- VisitBody: the messages it adds name the function by its symbol's name, as under CheckBody.
- CheckReturnType: the message it adds names the function by its symbol's name, as under CheckBody.
- File output: `CodePrinter` writes to the file `a.s`; the model keeps the printed lines as a sequence of strings, and `close` is not modelled.
- `bufferCode` and `printBuffer`, which `CodeGen` calls, are not defined in src/main/java/crux/backend/CodePrinter.java; the model treats `bufferCode` as `printCode` and `printBuffer` as printing nothing more.
- `Function.assignLabels`: the label of each instruction node is an input of the code generator (a map from node to label), since Function.java is not part of this model.
- `IRValueFormatter`: the text of an IR value inside instruction comments is a parameter (`fmt`). `AddressAt.format` (crux/src/main/java/crux/ir/insts/AddressAt.java:53) applies the formatter to a null offset; the formatter's answer for null, or a NullPointerException, cannot be known without IRValueFormatter, so `Ir.OptText` and `Ir.Format` assume the text "null" for an AddressAt without an offset, as every global access the AST lowering emits has.
- Ir.VarName: the `t<n>` part of a temporary's name comes from `Function.getTempVar`, and Function.java is not part of this model; the model names the n-th temporary `$t<n>` for a local and `%t<n>` for an address, the `%` being the one AddressVar.java adds.
- The `numslots` field of `CodeGen` is kept and reset as in the code but never read, as in the code.
- Java `int` and `long` overflow: slot offsets, counters and constants are unbounded integers; only the `.comm` size (`numElement * 8` as a Java `long`) is wrapped explicitly (`Assembly.Long`).
- The instruction graph: Java instructions point to each other; the model keeps all nodes in one arena (a sequence of cells with successor indices), and `CodeGen` reads a snapshot of it.
- `Instruction`, `Function`, `Program` and `TypeList` classes: Instruction.java, Function.java, Program.java and TypeList.java are not part of this model; temporaries come from `ASTLower.TempVar` and `ASTLower.TempAddressVar`, successors from `ASTLower.SetNext`, parameter type lists are sequences.
- The `"No such operator"` branch of the BinaryOperator visit and the `"Invalid operation"` branch of the type checker: the operator enumerations of the model have no other values, so these branches cannot be reached.
- An `ArrayAccess` whose index is `null`: the model's AST always has an index expression.
- Error output: messages printed with `err.printf` and `System.out` are not modelled; type errors are kept as a list of `TypeError` values.
- The `Type` base class: Type.java is not part of this model, so the message of the error type an unsupported operation returns is chosen by the model (`CruxTypes.Fallback`); only its being an error type is relied on. `ErrorType` does not override `equivalent`, so its behaviour is inherited from Type.java as well; the model takes it to be `false` (`CruxTypes.Equivalent`), and `TypeCheck.ErrorIffErrorType` and the return-type comparison of `TypeCheck.CheckReturn` rest on that choice.
- Positions: a `Position` is modelled by its line number only.
- ParseTreeLower: after a literal that does not fit a Java `long` (a `NumberFormatException` in the code), the model returns no node and keeps lowering the following siblings, where the Java stops at the exception.
- ASTLower: the code adds the function to the program before its body is lowered; the model adds it after the body is lowered without error, so a failing body leaves no partial function behind.
- Exceptions in the parse-tree and AST lowering (a null dereference, a failed cast, a pop from an empty stack): the operations of `ParseTreeLowering` and `AstLowering` that would throw return `None` instead.
- CheckProgram (and `TypeCheck.Check`, `TypeCheck.CheckExpr`): the type checker's Java exceptions are not modelled as `None`; the inputs that raise them lie outside the `TypeCheck.Checkable` precondition (`TypeCheck.ExprOk` for expressions). These are the cast of a callee that is not a `FuncType` (TypeChecker.java:110, e.g. `int x; void main() { x(1); }`, which lowers with no symbol error), the cast of an array declaration's type (:74), the casts of the current function's type (:140-142 and :281), a `return` outside a function or without a value (:280-281), and a symbol with no type. The model promises nothing for such programs where the code throws.

## Findings

| source | as written | input that shows it | evidently intended | confidence | as-written member | corrected member |
|---|---|---|---|---|---|---|
| src/main/java/crux/ast/types/ArrayType.java:33-36 | when the index is an `IntType`, the index itself is cast to `ArrayType` to read its base | `array[3,int]` indexed by `int`: the cast of an `IntType` to `ArrayType` throws | the array's base type, as the comment above the method says | not executed | CruxTypes.IndexAsWrittenRejectsIntIndex | CruxTypes.Index |
| src/main/java/crux/ast/ParseTreeLower.java:175-176 | the return type is `getType` of the function's own name | `void main() {}` gets the return type `ErrorType("main")` | `getType` of the declared type name, giving `VoidType` | not executed | ParseTree.ReturnTypeAsWrittenIgnoresDeclaredType | ParseTree.DeclaredReturnTypePrints |
