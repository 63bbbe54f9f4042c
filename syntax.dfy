/** The part of the decorated syntax tree (github.com/dave/dst) that the shortener reads or
    writes.

    A node carries its identity, its leading (`start`) and trailing (`end`) comment lists and
    its kind with the children the shortener looks at.  The `Before`/`After` line-break
    decorations, the only fields the rewriter writes, are kept outside the immutable node
    value in a `TreeState` keyed by node identity: writing one of them in place on a dst
    node becomes an update of that table. */
module Syntax {
  import opened Text

  type NodeId = nat

  /** dst.SpaceType; `NoSpace` is dst.None, which leaves the spacing to the printer. */
  datatype Space = NoSpace | NewLine | EmptyLine

  /** The binary operators the rewriter tells apart: && and ||, and every other one. */
  datatype BinOp = LAnd | LOr | OtherOp(token: string)

  datatype Node = Node(id: NodeId, start: seq<string>, end: seq<string>, kind: Kind)

  datatype Kind =
    // declarations; `funcType` is the signature (a FuncType node when it has a parameter
    // list), and an external function has `funcBody == None`
    | FuncDecl(funcType: Node, funcBody: Option<Node>)
    | GenDecl(specs: seq<Node>)
    | BadDecl
    // a field of a parameter list, struct or interface
    | Field(typ: Node)
    // statements
    | AssignStmt(lhs: seq<Node>, rhs: seq<Node>)
    | BlockStmt(list: seq<Node>)
    | CaseClause(caseExprs: seq<Node>, caseBody: seq<Node>)
    | CommClause(comm: Option<Node>, commBody: seq<Node>)
    | DeclStmt(decl: Node)
    | DeferStmt(call: Node)
    | ExprStmt(x: Node)
    | ForStmt(init: Option<Node>, forCond: Option<Node>, post: Option<Node>, body: Node)
    | GoStmt(call: Node)
    | IfStmt(init: Option<Node>, cond: Node, body: Node, els: Option<Node>)
    | RangeStmt(x: Node, body: Node)
    | ReturnStmt(results: seq<Node>)
    | SelectStmt(body: Node)
    | SwitchStmt(init: Option<Node>, tag: Option<Node>, body: Node)
    | OtherStmt          // labeled, send, inc/dec, branch, type switch, empty, ...
    // expressions
    | BinaryExpr(x: Node, op: BinOp, y: Node)
    | CallExpr(fun: Node, args: seq<Node>)
    | CompositeLit(litType: Option<Node>, elts: seq<Node>)
    | FuncLit(typ: Node, body: Node)
    | FuncType(params: seq<Node>)
    | InterfaceType(methods: seq<Node>)
    | KeyValueExpr(key: Node, value: Node)
    | SelectorExpr(x: Node, sel: Node)
    | StructType(fields: seq<Node>)
    | UnaryExpr(x: Node)
    | Ident(name: string)
    | OtherExpr          // basic literals, index, slice, star, paren, ...
    // specifications
    | ImportSpec
    | ValueSpec(values: seq<Node>)
    | TypeSpec(typ: Node)

  /** The four interfaces formatNode switches on. */
  predicate IsDecl(n: Node) {
    n.kind.FuncDecl? || n.kind.GenDecl? || n.kind.BadDecl?
  }

  predicate IsStmt(n: Node) {
    n.kind.AssignStmt? || n.kind.BlockStmt? || n.kind.CaseClause? || n.kind.CommClause? ||
    n.kind.DeclStmt? || n.kind.DeferStmt? || n.kind.ExprStmt? || n.kind.ForStmt? ||
    n.kind.GoStmt? || n.kind.IfStmt? || n.kind.RangeStmt? || n.kind.ReturnStmt? ||
    n.kind.SelectStmt? || n.kind.SwitchStmt? || n.kind.OtherStmt?
  }

  predicate IsExpr(n: Node) {
    n.kind.BinaryExpr? || n.kind.CallExpr? || n.kind.CompositeLit? || n.kind.FuncLit? ||
    n.kind.FuncType? || n.kind.InterfaceType? || n.kind.KeyValueExpr? ||
    n.kind.SelectorExpr? || n.kind.StructType? || n.kind.UnaryExpr? || n.kind.Ident? ||
    n.kind.OtherExpr?
  }

  predicate IsSpec(n: Node) {
    n.kind.ImportSpec? || n.kind.ValueSpec? || n.kind.TypeSpec?
  }

  /** The mutable part of a parsed file: every node's Before and After decoration (a node
      missing from a map has the zero value NoSpace), and the struct types whose field tags were
      handed to the tag aligner, in call order. */
  datatype TreeState = TreeState(before: map<NodeId, Space>, after: map<NodeId, Space>, tagAligned: seq<NodeId>)

  function BeforeOf(st: TreeState, id: NodeId): Space {
    if id in st.before then st.before[id] else NoSpace
  }

  function AfterOf(st: TreeState, id: NodeId): Space {
    if id in st.after then st.after[id] else NoSpace
  }

  function SetBefore(st: TreeState, id: NodeId, s: Space): (st': TreeState)
    ensures BeforeOf(st', id) == s
    ensures forall other :: other != id ==> BeforeOf(st', other) == BeforeOf(st, other)
    ensures st'.after == st.after && st'.tagAligned == st.tagAligned
  {
    st.(before := st.before[id := s])
  }

  function SetAfter(st: TreeState, id: NodeId, s: Space): (st': TreeState)
    ensures AfterOf(st', id) == s
    ensures forall other :: other != id ==> AfterOf(st', other) == AfterOf(st, other)
    ensures st'.before == st.before && st'.tagAligned == st.tagAligned
  {
    st.(after := st.after[id := s])
  }

  /** The identities of a node and of everything below it. */
  function Ids(n: Node): set<NodeId>
    decreases n, 1
  {
    {n.id} + Below(n)
  }

  /** The identities of the nodes strictly below `n`. */
  function Below(n: Node): set<NodeId>
    decreases n, 0
  {
    match n.kind
    case FuncDecl(funcType, body) => Ids(funcType) + IdsOfOption(body)
    case GenDecl(specs) => IdsOfList(specs)
    case BadDecl => {}
    case Field(typ) => Ids(typ)
    case AssignStmt(lhs, rhs) => IdsOfList(lhs) + IdsOfList(rhs)
    case BlockStmt(list) => IdsOfList(list)
    case CaseClause(exprs, body) => IdsOfList(exprs) + IdsOfList(body)
    case CommClause(comm, body) => IdsOfOption(comm) + IdsOfList(body)
    case DeclStmt(decl) => Ids(decl)
    case DeferStmt(call) => Ids(call)
    case ExprStmt(x) => Ids(x)
    case ForStmt(init, cond, post, body) =>
      IdsOfOption(init) + IdsOfOption(cond) + IdsOfOption(post) + Ids(body)
    case GoStmt(call) => Ids(call)
    case IfStmt(init, cond, body, els) =>
      IdsOfOption(init) + Ids(cond) + Ids(body) + IdsOfOption(els)
    case RangeStmt(x, body) => Ids(x) + Ids(body)
    case ReturnStmt(results) => IdsOfList(results)
    case SelectStmt(body) => Ids(body)
    case SwitchStmt(init, tag, body) => IdsOfOption(init) + IdsOfOption(tag) + Ids(body)
    case OtherStmt => {}
    case BinaryExpr(x, _, y) => Ids(x) + Ids(y)
    case CallExpr(fun, args) => Ids(fun) + IdsOfList(args)
    case CompositeLit(typ, elts) => IdsOfOption(typ) + IdsOfList(elts)
    case FuncLit(typ, body) => Ids(typ) + Ids(body)
    case FuncType(params) => IdsOfList(params)
    case InterfaceType(methods) => IdsOfList(methods)
    case KeyValueExpr(key, value) => Ids(key) + Ids(value)
    case SelectorExpr(x, sel) => Ids(x) + Ids(sel)
    case StructType(fields) => IdsOfList(fields)
    case UnaryExpr(x) => Ids(x)
    case Ident(_) => {}
    case OtherExpr => {}
    case ImportSpec => {}
    case ValueSpec(values) => IdsOfList(values)
    case TypeSpec(typ) => Ids(typ)
  }

  function IdsOfList(list: seq<Node>): set<NodeId>
    decreases list, 2
  {
    if list == [] then {} else IdsOfList(list[..|list| - 1]) + Ids(list[|list| - 1])
  }

  function IdsOfOption(o: Option<Node>): set<NodeId>
    decreases o, 2
  {
    if o.Some? then Ids(o.value) else {}
  }
}
