/**
 * The syntax tree shared by the parser, the semantic analyzer and the code generator
 * (src/ast.py): a closed set of node kinds, one immutable value per node.
 */
module Ast {
  import opened Wrappers
  import opened Values

  datatype Node =
    | Number(value: Value)
    | Var(name: string)
    | BinaryOp(op: string, left: Node, right: Node)
    | Assign(name: string, expr: Node)
    | FunctionDef(name: string, params: seq<string>, body: Node)
    | Call(callee: Callee, args: seq<Node>)
    | Program(statements: seq<Node>)

  /** `Call.name`: a plain string when the callee parsed as a variable, otherwise the callee node. */
  datatype Callee = Named(id: string) | Computed(node: Node)

  /** The function a call names, as both the analyzer and the code generator read it:
      a string, or the name of a `Var` node; any other callee names nothing. */
  function CalleeName(c: Callee): Option<string> {
    match c
    case Named(id) => Some(id)
    case Computed(n) => if n.Var? then Some(n.name) else None
  }

  predicate IsArithOperator(op: string) {
    op == "+" || op == "-" || op == "*" || op == "/" || op == "^"
  }

  /** A termination measure: every node is larger than each of its children. */
  function Size(n: Node): nat {
    match n
    case Number(_) => 1
    case Var(_) => 1
    case BinaryOp(_, l, r) => 1 + Size(l) + Size(r)
    case Assign(_, e) => 1 + Size(e)
    case FunctionDef(_, _, b) => 1 + Size(b)
    case Call(c, args) => 1 + CalleeSize(c) + SizeList(args)
    case Program(stmts) => 1 + SizeList(stmts)
  }

  function CalleeSize(c: Callee): nat {
    match c
    case Named(_) => 0
    case Computed(n) => Size(n)
  }

  function SizeList(ns: seq<Node>): nat {
    if ns == [] then 0 else 1 + Size(ns[0]) + SizeList(ns[1..])
  }
}
