/**
 * The Crux abstract syntax tree: one constructor per AST node class, and the
 * operator table of OpExpr.  A node's identity is its value; the type the
 * checker attaches to a node is kept by the checker in a map keyed by node.
 */
module Ast {
  import opened Wrappers
  import opened Text
  import opened Symbols

  /** The source line a node comes from. */
  datatype Position = Position(line: int)

  /** `Position.toString`: "(line)". */
  function PositionText(p: Position): (r: string)
    ensures |r| >= 3 && r[0] == '(' && r[|r| - 1] == ')'
    ensures r[1..|r| - 1] == IntToString(p.line)
  {
    "(" + IntToString(p.line) + ")"
  }

  /** `OpExpr.Operation`. */
  datatype Operation =
    | GE | LE | NE | EQ | GT | LT
    | ADD | SUB | MULT | DIV
    | LOGIC_AND | LOGIC_OR | LOGIC_NOT

  /** `Operation.toString`: the operator's source symbol. */
  function OpSymbol(op: Operation): (r: string)
    ensures 1 <= |r| <= 2
    ensures IsComparison(op) <==> r in {">=", "<=", "!=", "==", ">", "<"}
  {
    match op
    case GE => ">="
    case LE => "<="
    case NE => "!="
    case EQ => "=="
    case GT => ">"
    case LT => "<"
    case ADD => "+"
    case SUB => "-"
    case MULT => "*"
    case DIV => "/"
    case LOGIC_AND => "&&"
    case LOGIC_OR => "||"
    case LOGIC_NOT => "!"
  }

  /** The operation printed as s, if any. */
  function OpFromSymbol(s: string): (r: Option<Operation>)
    ensures r.Some? ==> OpSymbol(r.value) == s
  {
    if s == ">=" then Some(GE)
    else if s == "<=" then Some(LE)
    else if s == "!=" then Some(NE)
    else if s == "==" then Some(EQ)
    else if s == ">" then Some(GT)
    else if s == "<" then Some(LT)
    else if s == "+" then Some(ADD)
    else if s == "-" then Some(SUB)
    else if s == "*" then Some(MULT)
    else if s == "/" then Some(DIV)
    else if s == "&&" then Some(LOGIC_AND)
    else if s == "||" then Some(LOGIC_OR)
    else if s == "!" then Some(LOGIC_NOT)
    else None
  }

  /** Every symbol reads back as its operation, so no two operations share a symbol. */
  lemma OpSymbolRoundTrip(op: Operation, other: Operation)
    ensures OpFromSymbol(OpSymbol(op)) == Some(op)
    ensures OpSymbol(op) == OpSymbol(other) ==> op == other
  {
    assert OpFromSymbol(OpSymbol(other)) == Some(other);
  }

  /** The six comparison operators. */
  predicate IsComparison(op: Operation)
  {
    op == GE || op == LE || op == NE || op == EQ || op == GT || op == LT
  }

  datatype Node =
    | DeclarationList(pos: Position, decls: seq<Node>)
    | FunctionDefinition(pos: Position, symbol: Symbol, parameters: seq<Symbol>, statements: Node)
    | VariableDeclaration(pos: Position, symbol: Symbol)
    | ArrayDeclaration(pos: Position, symbol: Symbol)
    | StatementList(pos: Position, stmts: seq<Node>)
    | Assignment(pos: Position, location: Node, value: Node)
    | Call(pos: Position, callee: Symbol, arguments: seq<Node>)
    | IfElseBranch(pos: Position, condition: Node, thenBlock: Node, elseBlock: Node)
    | For(pos: Position, init: Node, cond: Node, increment: Node, body: Node)
    | Break(pos: Position)
    | Return(pos: Position, retValue: Option<Node>)
    | VarAccess(pos: Position, symbol: Symbol)
    | ArrayAccess(pos: Position, base: Symbol, index: Node)
    | LiteralBool(pos: Position, boolValue: bool)
    | LiteralInt(pos: Position, intValue: int)
    | OpExpr(pos: Position, op: Operation, left: Node, right: Option<Node>)

  /** Nodes of the Expression interface. */
  predicate IsExpression(n: Node)
  {
    n.Call? || n.VarAccess? || n.ArrayAccess? || n.LiteralBool? || n.LiteralInt? || n.OpExpr?
  }

  /** `OpExpr.getChildren`: the left operand, then the right one when present. */
  function OpChildren(n: Node): (r: seq<Node>)
    requires n.OpExpr?
    ensures 1 <= |r| <= 2 && r[0] == n.left
    ensures |r| == 2 <==> n.right.Some?
    ensures n.right.Some? ==> r[1] == n.right.value
  {
    if n.right.Some? then [n.left, n.right.value] else [n.left]
  }
}
