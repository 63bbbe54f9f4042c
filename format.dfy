/** The tree rewriter of shorten/format.go, as functions from one decoration table to the
    next: the walk over declarations, statements, expressions and specs that turns markers
    into line breaks, by writing the Before and After decorations of the nodes it visits. */
module Format {
  import opened Text
  import opened Settings
  import opened Syntax
  import Annotation

  // ---------------------------------------------------------------------------------------
  // What a walk may change

  /** `r` differs from `st` at most in the Before of the nodes in `befores` and in the After
      of the nodes in `afters`, and every After it writes is NewLine; the list of struct types
      handed to the tag aligner only grows, and only when tags are reformatted. */
  ghost predicate Confined(cfg: Config, st: TreeState, r: TreeState, befores: set<NodeId>, afters: set<NodeId>) {
    (forall id :: id !in befores ==> BeforeOf(r, id) == BeforeOf(st, id)) &&
    (forall id :: AfterOf(r, id) == AfterOf(st, id) || (id in afters && AfterOf(r, id) == NewLine)) &&
    |st.tagAligned| <= |r.tagAligned| && r.tagAligned[..|st.tagAligned|] == st.tagAligned &&
    (!cfg.reformatTags ==> r.tagAligned == st.tagAligned)
  }

  /** The identities strictly below each node of a list. */
  function BelowEach(list: seq<Node>): (ids: set<NodeId>)
    ensures ids <= IdsOfList(list)
  {
    if list == [] then {} else BelowEach(list[..|list| - 1]) + Below(list[|list| - 1])
  }

  // ---------------------------------------------------------------------------------------
  // formatList, formatFieldList, chainLength

  /** formatList: the first item of a list starts on a new line, every later item keeps no
      break of its own before it, and each item is followed by a line break. */
  function FormatList(st: TreeState, item: Node, index: int): (r: TreeState)
    ensures BeforeOf(r, item.id) == (if index == 0 then NewLine else NoSpace)
    ensures AfterOf(r, item.id) == NewLine
    ensures forall id :: id != item.id ==> BeforeOf(r, id) == BeforeOf(st, id) && AfterOf(r, id) == AfterOf(st, id)
    ensures r.tagAligned == st.tagAligned
  {
    SetAfter(SetBefore(st, item.id, if index == 0 then NewLine else NoSpace), item.id, NewLine)
  }

  /** formatFieldList: formatList on each field, with its index. */
  function FormatFieldList(cfg: Config, fields: seq<Node>, st: TreeState): (r: TreeState)
    ensures Confined(cfg, st, r, IdsOfList(fields), IdsOfList(fields))
  {
    if fields == [] then st
    else FormatList(FormatFieldList(cfg, fields[..|fields| - 1], st), fields[|fields| - 1], |fields| - 1)
  }

  /** chainLength: one for the call, plus one for each step from a call to the selector it
      calls and on to the call that selector is taken on, as in `a().b().c()`. */
  function ChainLength(call: Node): (r: nat)
    requires call.kind.CallExpr?
    ensures r >= 1
  {
    var fun := call.kind.fun;
    if fun.kind.SelectorExpr? && fun.kind.x.kind.CallExpr? then 1 + ChainLength(fun.kind.x) else 1
  }

  // ---------------------------------------------------------------------------------------
  // formatNode and the walk

  /** formatNode: dispatches on the interface the node implements. */
  function FormatNode(cfg: Config, n: Node, st: TreeState): (r: TreeState)
  {
    if IsDecl(n) then FormatDecl(cfg, n, st)
    else if IsExpr(n) then FormatExpr(cfg, n, false, false, st)
    else if IsStmt(n) then FormatStmt(cfg, n, false, st)
    else if IsSpec(n) then FormatSpec(cfg, n, false, st)
    else st
  }

  /** formatDecl: a function's parameters are laid out one per line only when the function
      or one of its parameters is marked, and its body is walked unforced; each spec of a
      general declaration is forced when the declaration itself is marked. */
  function FormatDecl(cfg: Config, n: Node, st: TreeState): (r: TreeState)
    decreases n, 1
  {
    match n.kind
    case FuncDecl(funcType, body) =>
      var st1 := if funcType.kind.FuncType? && Annotation.HasRecursive(n)
                 then FormatFieldList(cfg, funcType.kind.params, st) else st;
      if body.Some? then FormatStmt(cfg, body.value, false, st1) else st1
    case GenDecl(specs) => FormatSpecs(cfg, specs, Annotation.Has(n), st)
    case _ => st
  }

  /** formatStmt: expressions of assignments, defers, go and return statements and the
      condition of an if are forced when the statement is; bodies of blocks, clauses, loops,
      selects and switches are walked unforced; the arguments of a marked case clause are
      each followed by a line break. */
  function FormatStmt(cfg: Config, n: Node, force: bool, st: TreeState): (r: TreeState)
    decreases n, 1
  {
    var shorten := force || Annotation.Has(n);
    match n.kind
    case AssignStmt(_, rhs) => FormatExprs(cfg, rhs, shorten, false, st)
    case BlockStmt(list) => FormatStmts(cfg, list, st)
    case CaseClause(exprs, body) =>
      FormatStmts(cfg, body, if shorten then CaseArgs(cfg, exprs, st) else st)
    case CommClause(_, body) => FormatStmts(cfg, body, st)
    case DeclStmt(decl) => FormatDecl(cfg, decl, st)
    case DeferStmt(call) => FormatExpr(cfg, call, shorten, false, st)
    case ExprStmt(x) => FormatExpr(cfg, x, shorten, false, st)
    case ForStmt(_, _, _, body) => FormatStmt(cfg, body, false, st)
    case GoStmt(call) => FormatExpr(cfg, call, shorten, false, st)
    case IfStmt(init, cond, body, _) =>
      var st1 := FormatStmt(cfg, body, false, FormatExpr(cfg, cond, shorten, false, st));
      if init.Some? then FormatStmt(cfg, init.value, shorten, st1) else st1
    case RangeStmt(_, body) => FormatStmt(cfg, body, false, st)
    case ReturnStmt(results) => FormatExprs(cfg, results, shorten, false, st)
    case SelectStmt(body) => FormatStmt(cfg, body, false, st)
    case SwitchStmt(_, _, body) => FormatStmt(cfg, body, false, st)
    case _ => st
  }

  /** formatExpr: the rules for && and ||, method chains, call arguments, composite literal
      elements, function types and interface methods; struct types go to the tag aligner. */
  function FormatExpr(cfg: Config, n: Node, force: bool, isChain: bool, st: TreeState): (r: TreeState)
    decreases n, 1
  {
    var shorten := force || Annotation.Has(n);
    match n.kind
    case BinaryExpr(x, op, y) =>
      if (op == LAnd || op == LOr) && shorten then
        if BeforeOf(st, y.id) == NewLine then FormatExpr(cfg, x, force, isChain, st)
        else SetBefore(st, y.id, NewLine)
      else FormatExpr(cfg, y, shorten, isChain, FormatExpr(cfg, x, shorten, isChain, st))
    case CallExpr(fun, args) =>
      var shortenChildArgs := shorten || Annotation.HasRecursive(n);
      if fun.kind.SelectorExpr? && shortenChildArgs && cfg.chainSplitDots &&
         (isChain || ChainLength(n) > 1) then
        FormatExpr(cfg, fun, shorten, true, FormatExprs(cfg, args, false, true, SetAfter(st, n.id, NewLine)))
      else
        FormatExpr(cfg, fun, shorten, isChain, CallArgs(cfg, args, shortenChildArgs, isChain, st))
    case CompositeLit(_, elts) =>
      FormatExprs(cfg, elts, false, isChain, if shorten then MarkElements(cfg, elts, st) else st)
    case FuncLit(_, body) => FormatStmt(cfg, body, false, st)
    case FuncType(params) => if shorten then FormatFieldList(cfg, params, st) else st
    case InterfaceType(methods) => InterfaceMethods(cfg, methods, isChain, st)
    case KeyValueExpr(_, value) => FormatExpr(cfg, value, shorten, isChain, st)
    case SelectorExpr(x, _) => FormatExpr(cfg, x, shorten, isChain, st)
    case StructType(_) => if cfg.reformatTags then st.(tagAligned := st.tagAligned + [n.id]) else st
    case UnaryExpr(x) => FormatExpr(cfg, x, shorten, isChain, st)
    case _ => st
  }

  /** formatSpec: the values of a value spec are forced when the spec is; a type spec's type
      is walked unforced. */
  function FormatSpec(cfg: Config, n: Node, force: bool, st: TreeState): (r: TreeState)
    decreases n, 1
  {
    var shorten := Annotation.Has(n) || force;
    match n.kind
    case ValueSpec(values) => FormatExprs(cfg, values, shorten, false, st)
    case TypeSpec(typ) => FormatExpr(cfg, typ, false, false, st)
    case _ => st
  }

  // The loops of the walk, each a left fold over its list.

  function FormatExprs(cfg: Config, list: seq<Node>, force: bool, isChain: bool, st: TreeState): (r: TreeState)
    decreases list, 2
  {
    if list == [] then st
    else FormatExpr(cfg, list[|list| - 1], force, isChain, FormatExprs(cfg, list[..|list| - 1], force, isChain, st))
  }

  function FormatStmts(cfg: Config, list: seq<Node>, st: TreeState): (r: TreeState)
    decreases list, 2
  {
    if list == [] then st
    else FormatStmt(cfg, list[|list| - 1], false, FormatStmts(cfg, list[..|list| - 1], st))
  }

  function FormatSpecs(cfg: Config, list: seq<Node>, force: bool, st: TreeState): (r: TreeState)
    decreases list, 2
  {
    if list == [] then st
    else FormatSpec(cfg, list[|list| - 1], force, FormatSpecs(cfg, list[..|list| - 1], force, st))
  }

  /** The arguments of a marked case clause: each gets a line break after it, then is walked. */
  function CaseArgs(cfg: Config, list: seq<Node>, st: TreeState): (r: TreeState)
    decreases list, 2
  {
    if list == [] then st
    else
      var arg := list[|list| - 1];
      FormatExpr(cfg, arg, false, false, SetAfter(CaseArgs(cfg, list[..|list| - 1], st), arg.id, NewLine))
  }

  /** The elements of a marked composite literal: a line break before the first and after
      every one. */
  function MarkElements(cfg: Config, list: seq<Node>, st: TreeState): (r: TreeState)
    ensures Confined(cfg, st, r, IdsOfList(list), IdsOfList(list))
  {
    if list == [] then st
    else
      var element, st1 := list[|list| - 1], MarkElements(cfg, list[..|list| - 1], st);
      SetAfter(if |list| == 1 then SetBefore(st1, element.id, NewLine) else st1, element.id, NewLine)
  }

  /** The arguments of a call outside chain mode: laid out one per line when the call or one
      of its parts is marked, and each walked unforced. */
  function CallArgs(cfg: Config, list: seq<Node>, shortenChildArgs: bool, isChain: bool, st: TreeState): (r: TreeState)
    decreases list, 2
  {
    if list == [] then st
    else
      var arg, st1 := list[|list| - 1], CallArgs(cfg, list[..|list| - 1], shortenChildArgs, isChain, st);
      FormatExpr(cfg, arg, false, isChain, if shortenChildArgs then FormatList(st1, arg, |list| - 1) else st1)
  }

  /** The methods of an interface type: the type of each marked method is walked forced. */
  function InterfaceMethods(cfg: Config, list: seq<Node>, isChain: bool, st: TreeState): (r: TreeState)
    decreases list, 2
  {
    if list == [] then st
    else
      var m, st1 := list[|list| - 1], InterfaceMethods(cfg, list[..|list| - 1], isChain, st);
      if m.kind.Field? && Annotation.Has(m) then FormatExpr(cfg, m.kind.typ, true, isChain, st1)
      else st1
  }

  /** One round of the rewriter: formatNode on each top-level declaration, in order. */
  function FormatFile(cfg: Config, decls: seq<Node>, st: TreeState): (r: TreeState)
  {
    if decls == [] then st
    else FormatNode(cfg, decls[|decls| - 1], FormatFile(cfg, decls[..|decls| - 1], st))
  }
}
