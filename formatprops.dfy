/** What one walk of the rewriter (shorten/format.go) can and cannot change: the decorations
    it writes stay inside the subtree it walks, every After it writes is a line break, a tree
    without markers keeps every decoration, and the layout rules of the walk. */
module FormatProps {
  import opened Text
  import opened Settings
  import opened Syntax
  import Annotation
  import opened Format

  // ---------------------------------------------------------------------------------------
  // Trees without markers

  /** No node of the tree carries a marker, among its leading or its trailing comments. */
  ghost predicate Quiet(n: Node)
    decreases n, 1
  {
    !Annotation.Has(n) && !Annotation.HasTail(n) && QuietBelow(n)
  }

  ghost predicate QuietBelow(n: Node)
    decreases n, 0
  {
    match n.kind
    case FuncDecl(funcType, body) => Quiet(funcType) && QuietOption(body)
    case GenDecl(specs) => QuietList(specs)
    case BadDecl => true
    case Field(typ) => Quiet(typ)
    case AssignStmt(lhs, rhs) => QuietList(lhs) && QuietList(rhs)
    case BlockStmt(list) => QuietList(list)
    case CaseClause(exprs, body) => QuietList(exprs) && QuietList(body)
    case CommClause(comm, body) => QuietOption(comm) && QuietList(body)
    case DeclStmt(decl) => Quiet(decl)
    case DeferStmt(call) => Quiet(call)
    case ExprStmt(x) => Quiet(x)
    case ForStmt(init, cond, post, body) =>
      QuietOption(init) && QuietOption(cond) && QuietOption(post) && Quiet(body)
    case GoStmt(call) => Quiet(call)
    case IfStmt(init, cond, body, els) =>
      QuietOption(init) && Quiet(cond) && Quiet(body) && QuietOption(els)
    case RangeStmt(x, body) => Quiet(x) && Quiet(body)
    case ReturnStmt(results) => QuietList(results)
    case SelectStmt(body) => Quiet(body)
    case SwitchStmt(init, tag, body) => QuietOption(init) && QuietOption(tag) && Quiet(body)
    case OtherStmt => true
    case BinaryExpr(x, _, y) => Quiet(x) && Quiet(y)
    case CallExpr(fun, args) => Quiet(fun) && QuietList(args)
    case CompositeLit(typ, elts) => QuietOption(typ) && QuietList(elts)
    case FuncLit(typ, body) => Quiet(typ) && Quiet(body)
    case FuncType(params) => QuietList(params)
    case InterfaceType(methods) => QuietList(methods)
    case KeyValueExpr(key, value) => Quiet(key) && Quiet(value)
    case SelectorExpr(x, sel) => Quiet(x) && Quiet(sel)
    case StructType(fields) => QuietList(fields)
    case UnaryExpr(x) => Quiet(x)
    case Ident(_) => true
    case OtherExpr => true
    case ImportSpec => true
    case ValueSpec(values) => QuietList(values)
    case TypeSpec(typ) => Quiet(typ)
  }

  ghost predicate QuietList(list: seq<Node>)
    decreases list, 2
  {
    list == [] || (QuietList(list[..|list| - 1]) && Quiet(list[|list| - 1]))
  }

  ghost predicate QuietOption(o: Option<Node>)
    decreases o, 2
  {
    o.None? || Quiet(o.value)
  }

  lemma {:induction false} QuietListAt(list: seq<Node>, i: nat)
    requires QuietList(list) && i < |list|
    ensures Quiet(list[i])
    decreases |list|
  {
    if i < |list| - 1 {
      QuietListAt(list[..|list| - 1], i);
    }
  }

  /** A tree without markers is not marked through its children either. */
  lemma {:induction false} QuietUnmarked(n: Node)
    requires Quiet(n)
    ensures !Annotation.HasRecursive(n)
    decreases n
  {
    var k := n.kind;
    if k.FuncDecl? {
      var funcType := k.funcType;
      assert Quiet(funcType) && QuietBelow(funcType);
      if funcType.kind.FuncType? {
        var params := funcType.kind.params;
        assert QuietList(params);
        forall i | 0 <= i < |params|
          ensures !Annotation.HasRecursive(params[i])
        {
          QuietListAt(params, i);
          QuietUnmarked(params[i]);
        }
      }
    } else if k.Field? {
      QuietUnmarked(k.typ);
    } else if k.SelectorExpr? {
      assert Quiet(k.x) && Quiet(k.sel);
    } else if k.CallExpr? {
      var args := k.args;
      QuietUnmarked(k.fun);
      forall i | 0 <= i < |args|
        ensures !Annotation.Has(args[i])
      {
        QuietListAt(args, i);
      }
    } else if k.InterfaceType? {
      var methods := k.methods;
      forall i | 0 <= i < |methods|
        ensures !Annotation.HasRecursive(methods[i])
      {
        QuietListAt(methods, i);
        QuietUnmarked(methods[i]);
      }
    }
  }

  // ---------------------------------------------------------------------------------------
  // Composing frames

  lemma ConfinedCompose(cfg: Config, s0: TreeState, s1: TreeState, s2: TreeState,
                        b1: set<NodeId>, a1: set<NodeId>, b2: set<NodeId>, a2: set<NodeId>,
                        b: set<NodeId>, a: set<NodeId>)
    requires Confined(cfg, s0, s1, b1, a1) && Confined(cfg, s1, s2, b2, a2)
    requires b1 <= b && b2 <= b && a1 <= a && a2 <= a
    ensures Confined(cfg, s0, s2, b, a)
  {
    var k := |s0.tagAligned|;
    assert s2.tagAligned[..k] == s1.tagAligned[..|s1.tagAligned|][..k];
  }

  lemma ConfinedWiden(cfg: Config, s0: TreeState, s1: TreeState,
                      b1: set<NodeId>, a1: set<NodeId>, b: set<NodeId>, a: set<NodeId>)
    requires Confined(cfg, s0, s1, b1, a1) && b1 <= b && a1 <= a
    ensures Confined(cfg, s0, s1, b, a)
  {
  }

  lemma ConfinedSame(cfg: Config, st: TreeState, b: set<NodeId>, a: set<NodeId>)
    ensures Confined(cfg, st, st, b, a)
  {
    assert st.tagAligned[..|st.tagAligned|] == st.tagAligned;
  }

  lemma SetBeforeConfined(cfg: Config, st: TreeState, id: NodeId, s: Space)
    ensures Confined(cfg, st, SetBefore(st, id, s), {id}, {})
  {
    assert st.tagAligned[..|st.tagAligned|] == st.tagAligned;
  }

  lemma SetAfterConfined(cfg: Config, st: TreeState, id: NodeId)
    ensures Confined(cfg, st, SetAfter(st, id, NewLine), {}, {id})
  {
    assert st.tagAligned[..|st.tagAligned|] == st.tagAligned;
  }

  // ---------------------------------------------------------------------------------------
  // Every walk stays inside its subtree

  /** formatNode writes the Before of nodes strictly below the node only, the After of the
      node or nodes below it only, and only ever a line break after a node. */
  lemma NodeConfined(cfg: Config, n: Node, st: TreeState)
    ensures Confined(cfg, st, FormatNode(cfg, n, st), Below(n), Ids(n))
  {
    if IsDecl(n) {
      DeclConfined(cfg, n, st);
    } else if IsExpr(n) {
      ExprConfined(cfg, n, false, false, st);
    } else if IsStmt(n) {
      StmtConfined(cfg, n, false, st);
    } else if IsSpec(n) {
      SpecConfined(cfg, n, false, st);
    } else {
      ConfinedSame(cfg, st, Below(n), Ids(n));
    }
  }

  /** A round of the rewriter over a file stays inside its declarations. */
  lemma {:induction false} FileConfined(cfg: Config, decls: seq<Node>, st: TreeState)
    ensures Confined(cfg, st, FormatFile(cfg, decls, st), BelowEach(decls), IdsOfList(decls))
  {
    if decls == [] {
      ConfinedSame(cfg, st, {}, {});
    } else {
      var init, last := decls[..|decls| - 1], decls[|decls| - 1];
      var s1 := FormatFile(cfg, init, st);
      FileConfined(cfg, init, st);
      NodeConfined(cfg, last, s1);
      ConfinedCompose(cfg, st, s1, FormatNode(cfg, last, s1), BelowEach(init), IdsOfList(init),
                      Below(last), Ids(last), BelowEach(decls), IdsOfList(decls));
    }
  }

  lemma {:induction false} DeclConfined(cfg: Config, n: Node, st: TreeState)
    ensures Confined(cfg, st, FormatDecl(cfg, n, st), Below(n), Ids(n))
    decreases n, 1
  {
    if n.kind.FuncDecl? {
      FuncDeclConfined(cfg, n, st);
    } else if n.kind.GenDecl? {
      var specs := n.kind.specs;
      SpecsConfined(cfg, specs, Annotation.Has(n), st);
      assert FormatDecl(cfg, n, st) == FormatSpecs(cfg, specs, Annotation.Has(n), st);
      assert Below(n) == IdsOfList(specs);
      ConfinedWiden(cfg, st, FormatSpecs(cfg, specs, Annotation.Has(n), st), BelowEach(specs), IdsOfList(specs), Below(n), Ids(n));
    } else {
      assert FormatDecl(cfg, n, st) == st;
      ConfinedSame(cfg, st, Below(n), Ids(n));
    }
  }

  /** The function declaration case of formatDecl. */
  lemma {:induction false} FuncDeclConfined(cfg: Config, n: Node, st: TreeState)
    requires n.kind.FuncDecl?
    ensures Confined(cfg, st, FormatDecl(cfg, n, st), Below(n), Ids(n))
    decreases n, 0
  {
    var funcType, body := n.kind.funcType, n.kind.funcBody;
    var reflow := funcType.kind.FuncType? && Annotation.HasRecursive(n);
    var s1 := if reflow then FormatFieldList(cfg, funcType.kind.params, st) else st;
    assert FormatDecl(cfg, n, st) == if body.Some? then FormatStmt(cfg, body.value, false, s1) else s1;
    SignatureConfined(cfg, n, reflow, st);
    if body.Some? {
      assert Ids(body.value) <= Below(n);
      StmtConfined(cfg, body.value, false, s1);
      ConfinedCompose(cfg, st, s1, FormatStmt(cfg, body.value, false, s1), Below(n), Ids(n),
                      Below(body.value), Ids(body.value), Below(n), Ids(n));
    }
  }

  lemma SignatureConfined(cfg: Config, n: Node, reflow: bool, st: TreeState)
    requires n.kind.FuncDecl? && (reflow ==> n.kind.funcType.kind.FuncType?)
    ensures Confined(cfg, st, if reflow then FormatFieldList(cfg, n.kind.funcType.kind.params, st) else st, Below(n), Ids(n))
  {
    if reflow {
      var params := n.kind.funcType.kind.params;
      assert IdsOfList(params) <= Below(n.kind.funcType) <= Below(n);
      ConfinedWiden(cfg, st, FormatFieldList(cfg, params, st), IdsOfList(params), IdsOfList(params), Below(n), Ids(n));
    } else {
      ConfinedSame(cfg, st, Below(n), Ids(n));
    }
  }

  lemma {:induction false} StmtConfined(cfg: Config, n: Node, force: bool, st: TreeState)
    ensures Confined(cfg, st, FormatStmt(cfg, n, force, st), Below(n), Ids(n))
    decreases n, 1
  {
    var k := n.kind;
    if k.IfStmt? {
      IfConfined(cfg, n, force, st);
    } else if k.CaseClause? {
      CaseClauseConfined(cfg, n, force, st);
    } else if k.AssignStmt? || k.BlockStmt? || k.CommClause? || k.ReturnStmt? {
      ListStmtConfined(cfg, n, force, st);
    } else {
      SimpleStmtConfined(cfg, n, force, st);
    }
  }

  /** The case clause case of formatStmt. */
  lemma {:induction false} CaseClauseConfined(cfg: Config, n: Node, force: bool, st: TreeState)
    requires n.kind.CaseClause?
    ensures Confined(cfg, st, FormatStmt(cfg, n, force, st), Below(n), Ids(n))
    decreases n, 0
  {
    var exprs, body := n.kind.caseExprs, n.kind.caseBody;
    var s1 := if force || Annotation.Has(n) then CaseArgs(cfg, exprs, st) else st;
    assert FormatStmt(cfg, n, force, st) == FormatStmts(cfg, body, s1);
    if force || Annotation.Has(n) {
      CaseArgsConfined(cfg, exprs, st);
    } else {
      ConfinedSame(cfg, st, {}, {});
    }
    StmtsConfined(cfg, body, s1);
    assert Below(n) == IdsOfList(exprs) + IdsOfList(body);
    ConfinedCompose(cfg, st, s1, FormatStmts(cfg, body, s1), BelowEach(exprs), IdsOfList(exprs),
                    BelowEach(body), IdsOfList(body), Below(n), Ids(n));
  }

  /** The cases of formatStmt that walk one list: assignments, blocks, comm clauses, returns. */
  lemma {:induction false} ListStmtConfined(cfg: Config, n: Node, force: bool, st: TreeState)
    requires n.kind.AssignStmt? || n.kind.BlockStmt? || n.kind.CommClause? || n.kind.ReturnStmt?
    ensures Confined(cfg, st, FormatStmt(cfg, n, force, st), Below(n), Ids(n))
    decreases n, 0
  {
    var shorten := force || Annotation.Has(n);
    var k := n.kind;
    var r := FormatStmt(cfg, n, force, st);
    if k.AssignStmt? || k.ReturnStmt? {
      var list := if k.AssignStmt? then k.rhs else k.results;
      ExprsConfined(cfg, list, shorten, false, st);
      assert IdsOfList(list) <= Below(n);
      ConfinedWiden(cfg, st, r, BelowEach(list), IdsOfList(list), Below(n), Ids(n));
    } else {
      var list := if k.BlockStmt? then k.list else k.commBody;
      StmtsConfined(cfg, list, st);
      assert IdsOfList(list) <= Below(n);
      ConfinedWiden(cfg, st, r, BelowEach(list), IdsOfList(list), Below(n), Ids(n));
    }
  }

  /** The cases of formatStmt that walk one child, and those that change nothing. */
  lemma {:induction false} SimpleStmtConfined(cfg: Config, n: Node, force: bool, st: TreeState)
    requires !(n.kind.IfStmt? || n.kind.CaseClause? || n.kind.AssignStmt? || n.kind.BlockStmt? ||
               n.kind.CommClause? || n.kind.ReturnStmt?)
    ensures Confined(cfg, st, FormatStmt(cfg, n, force, st), Below(n), Ids(n))
    decreases n, 0
  {
    var shorten := force || Annotation.Has(n);
    var k := n.kind;
    var r := FormatStmt(cfg, n, force, st);
    if k.DeclStmt? {
      DeclConfined(cfg, k.decl, st);
      assert Ids(k.decl) <= Below(n);
      ConfinedWiden(cfg, st, r, Below(k.decl), Ids(k.decl), Below(n), Ids(n));
    } else if k.DeferStmt? || k.GoStmt? || k.ExprStmt? {
      var x := if k.ExprStmt? then k.x else k.call;
      ExprConfined(cfg, x, shorten, false, st);
      assert Ids(x) <= Below(n);
      ConfinedWiden(cfg, st, r, Below(x), Ids(x), Below(n), Ids(n));
    } else if k.ForStmt? || k.RangeStmt? || k.SelectStmt? || k.SwitchStmt? {
      StmtConfined(cfg, k.body, false, st);
      assert Ids(k.body) <= Below(n);
      ConfinedWiden(cfg, st, r, Below(k.body), Ids(k.body), Below(n), Ids(n));
    } else {
      ConfinedSame(cfg, st, Below(n), Ids(n));
    }
  }

  lemma {:induction false} IfConfined(cfg: Config, n: Node, force: bool, st: TreeState)
    requires n.kind.IfStmt?
    ensures Confined(cfg, st, FormatStmt(cfg, n, force, st), Below(n), Ids(n))
    decreases n, 0
  {
    var init, cond, body := n.kind.init, n.kind.cond, n.kind.body;
    var shorten := force || Annotation.Has(n);
    var s1 := FormatExpr(cfg, cond, shorten, false, st);
    var s2 := FormatStmt(cfg, body, false, s1);
    ExprConfined(cfg, cond, shorten, false, st);
    StmtConfined(cfg, body, false, s1);
    assert Ids(cond) + Ids(body) <= Below(n);
    ConfinedCompose(cfg, st, s1, s2, Below(cond), Ids(cond), Below(body), Ids(body), Below(n), Ids(n));
    if init.Some? {
      assert FormatStmt(cfg, n, force, st) == FormatStmt(cfg, init.value, shorten, s2);
      assert Ids(init.value) == IdsOfOption(init) <= Below(n);
      StmtConfined(cfg, init.value, shorten, s2);
      ConfinedCompose(cfg, st, s2, FormatStmt(cfg, init.value, shorten, s2), Below(n), Ids(n),
                      Below(init.value), Ids(init.value), Below(n), Ids(n));
    } else {
      assert FormatStmt(cfg, n, force, st) == s2;
    }
  }

  lemma {:induction false} ExprConfined(cfg: Config, n: Node, force: bool, isChain: bool, st: TreeState)
    ensures Confined(cfg, st, FormatExpr(cfg, n, force, isChain, st), Below(n), Ids(n))
    decreases n, 1
  {
    var k := n.kind;
    if k.BinaryExpr? {
      BinaryConfined(cfg, n, force, isChain, st);
    } else if k.CallExpr? {
      CallConfined(cfg, n, force, isChain, st);
    } else if k.CompositeLit? {
      LitConfined(cfg, n, force, isChain, st);
    } else if k.FuncLit? || k.KeyValueExpr? || k.SelectorExpr? || k.UnaryExpr? {
      ChildConfined(cfg, n, force, isChain, st);
    } else {
      LeafConfined(cfg, n, force, isChain, st);
    }
  }

  /** The composite literal case of formatExpr. */
  lemma {:induction false} LitConfined(cfg: Config, n: Node, force: bool, isChain: bool, st: TreeState)
    requires n.kind.CompositeLit?
    ensures Confined(cfg, st, FormatExpr(cfg, n, force, isChain, st), Below(n), Ids(n))
    decreases n, 0
  {
    var elts := n.kind.elts;
    var shorten := force || Annotation.Has(n);
    assert IdsOfList(elts) <= Below(n);
    if shorten {
      var s1 := MarkElements(cfg, elts, st);
      ExprsConfined(cfg, elts, false, isChain, s1);
      assert FormatExpr(cfg, n, force, isChain, st) == FormatExprs(cfg, elts, false, isChain, s1);
      ConfinedCompose(cfg, st, s1, FormatExprs(cfg, elts, false, isChain, s1), IdsOfList(elts), IdsOfList(elts),
                      BelowEach(elts), IdsOfList(elts), Below(n), Ids(n));
    } else {
      ExprsConfined(cfg, elts, false, isChain, st);
      assert FormatExpr(cfg, n, force, isChain, st) == FormatExprs(cfg, elts, false, isChain, st);
      ConfinedWiden(cfg, st, FormatExprs(cfg, elts, false, isChain, st), BelowEach(elts), IdsOfList(elts), Below(n), Ids(n));
    }
  }

  /** The cases of formatExpr that walk a single child. */
  lemma {:induction false} ChildConfined(cfg: Config, n: Node, force: bool, isChain: bool, st: TreeState)
    requires n.kind.FuncLit? || n.kind.KeyValueExpr? || n.kind.SelectorExpr? || n.kind.UnaryExpr?
    ensures Confined(cfg, st, FormatExpr(cfg, n, force, isChain, st), Below(n), Ids(n))
    decreases n, 0
  {
    var shorten := force || Annotation.Has(n);
    var k := n.kind;
    var child := if k.FuncLit? then k.body else if k.KeyValueExpr? then k.value else k.x;
    assert Ids(child) <= Below(n);
    if k.FuncLit? {
      StmtConfined(cfg, child, false, st);
      ConfinedWiden(cfg, st, FormatStmt(cfg, child, false, st), Below(child), Ids(child), Below(n), Ids(n));
    } else {
      ExprConfined(cfg, child, shorten, isChain, st);
      ConfinedWiden(cfg, st, FormatExpr(cfg, child, shorten, isChain, st), Below(child), Ids(child), Below(n), Ids(n));
    }
  }

  /** The cases of formatExpr that do not descend: function types, interface types (whose
      methods are walked by their own fold), struct types and every other expression. */
  lemma {:induction false} LeafConfined(cfg: Config, n: Node, force: bool, isChain: bool, st: TreeState)
    requires !(n.kind.BinaryExpr? || n.kind.CallExpr? || n.kind.CompositeLit? || n.kind.FuncLit? ||
               n.kind.KeyValueExpr? || n.kind.SelectorExpr? || n.kind.UnaryExpr?)
    ensures Confined(cfg, st, FormatExpr(cfg, n, force, isChain, st), Below(n), Ids(n))
    decreases n, 0
  {
    var k := n.kind;
    var r := FormatExpr(cfg, n, force, isChain, st);
    if k.FuncType? {
      if !(force || Annotation.Has(n)) {
        ConfinedSame(cfg, st, Below(n), Ids(n));
      }
    } else if k.InterfaceType? {
      MethodsConfined(cfg, k.methods, isChain, st);
      ConfinedWiden(cfg, st, r, BelowEach(k.methods), IdsOfList(k.methods), Below(n), Ids(n));
    } else if k.StructType? {
      assert r.tagAligned[..|st.tagAligned|] == st.tagAligned;
    } else {
      ConfinedSame(cfg, st, Below(n), Ids(n));
    }
  }

  /** The && / || case of formatExpr. */
  lemma {:induction false} BinaryConfined(cfg: Config, n: Node, force: bool, isChain: bool, st: TreeState)
    requires n.kind.BinaryExpr?
    ensures Confined(cfg, st, FormatExpr(cfg, n, force, isChain, st), Below(n), Ids(n))
    decreases n, 0
  {
    var x, op, y := n.kind.x, n.kind.op, n.kind.y;
    var shorten := force || Annotation.Has(n);
    assert Below(n) == Ids(x) + Ids(y);
    if (op == LAnd || op == LOr) && shorten {
      if BeforeOf(st, y.id) == NewLine {
        assert FormatExpr(cfg, n, force, isChain, st) == FormatExpr(cfg, x, force, isChain, st);
        ExprConfined(cfg, x, force, isChain, st);
        ConfinedWiden(cfg, st, FormatExpr(cfg, x, force, isChain, st), Below(x), Ids(x), Below(n), Ids(n));
      } else {
        assert FormatExpr(cfg, n, force, isChain, st) == SetBefore(st, y.id, NewLine);
        SetBeforeConfined(cfg, st, y.id, NewLine);
        ConfinedWiden(cfg, st, SetBefore(st, y.id, NewLine), {y.id}, {}, Below(n), Ids(n));
      }
    } else {
      var s1 := FormatExpr(cfg, x, shorten, isChain, st);
      assert FormatExpr(cfg, n, force, isChain, st) == FormatExpr(cfg, y, shorten, isChain, s1);
      ExprConfined(cfg, x, shorten, isChain, st);
      ExprConfined(cfg, y, shorten, isChain, s1);
      ConfinedCompose(cfg, st, s1, FormatExpr(cfg, y, shorten, isChain, s1), Below(x), Ids(x),
                      Below(y), Ids(y), Below(n), Ids(n));
    }
  }

  /** The call case of formatExpr: in chain mode the call itself gets a line break after it. */
  lemma {:induction false} CallConfined(cfg: Config, n: Node, force: bool, isChain: bool, st: TreeState)
    requires n.kind.CallExpr?
    ensures Confined(cfg, st, FormatExpr(cfg, n, force, isChain, st), Below(n), Ids(n))
    decreases n, 0, 1
  {
    if ChainMode(cfg, n, force, isChain) {
      ChainModeConfined(cfg, n, force, isChain, st);
    } else {
      ArgsModeConfined(cfg, n, force, isChain, st);
    }
  }

  /** Whether formatExpr takes a call in chain mode. */
  predicate ChainMode(cfg: Config, n: Node, force: bool, isChain: bool)
    requires n.kind.CallExpr?
  {
    var shortenChildArgs := force || Annotation.Has(n) || Annotation.HasRecursive(n);
    n.kind.fun.kind.SelectorExpr? && shortenChildArgs && cfg.chainSplitDots && (isChain || ChainLength(n) > 1)
  }

  lemma {:induction false} ChainModeConfined(cfg: Config, n: Node, force: bool, isChain: bool, st: TreeState)
    requires n.kind.CallExpr? && ChainMode(cfg, n, force, isChain)
    ensures Confined(cfg, st, FormatExpr(cfg, n, force, isChain, st), Below(n), Ids(n))
    decreases n, 0, 0
  {
    var fun, args := n.kind.fun, n.kind.args;
    var shorten := force || Annotation.Has(n);
    assert Below(n) == Ids(fun) + IdsOfList(args);
    var s1 := SetAfter(st, n.id, NewLine);
    var s2 := FormatExprs(cfg, args, false, true, s1);
    assert FormatExpr(cfg, n, force, isChain, st) == FormatExpr(cfg, fun, shorten, true, s2);
    SetAfterConfined(cfg, st, n.id);
    ExprsConfined(cfg, args, false, true, s1);
    ConfinedCompose(cfg, st, s1, s2, {}, {n.id}, BelowEach(args), IdsOfList(args), Below(n), Ids(n));
    ExprConfined(cfg, fun, shorten, true, s2);
    ConfinedCompose(cfg, st, s2, FormatExpr(cfg, fun, shorten, true, s2), Below(n), Ids(n),
                    Below(fun), Ids(fun), Below(n), Ids(n));
  }

  lemma {:induction false} ArgsModeConfined(cfg: Config, n: Node, force: bool, isChain: bool, st: TreeState)
    requires n.kind.CallExpr? && !ChainMode(cfg, n, force, isChain)
    ensures Confined(cfg, st, FormatExpr(cfg, n, force, isChain, st), Below(n), Ids(n))
    decreases n, 0, 0
  {
    var fun, args := n.kind.fun, n.kind.args;
    var shorten := force || Annotation.Has(n);
    var shortenChildArgs := shorten || Annotation.HasRecursive(n);
    assert Below(n) == Ids(fun) + IdsOfList(args);
    var s1 := CallArgs(cfg, args, shortenChildArgs, isChain, st);
    assert FormatExpr(cfg, n, force, isChain, st) == FormatExpr(cfg, fun, shorten, isChain, s1);
    CallArgsConfined(cfg, args, shortenChildArgs, isChain, st);
    ExprConfined(cfg, fun, shorten, isChain, s1);
    ConfinedCompose(cfg, st, s1, FormatExpr(cfg, fun, shorten, isChain, s1), IdsOfList(args), IdsOfList(args),
                    Below(fun), Ids(fun), Below(n), Ids(n));
  }

  lemma {:induction false} SpecConfined(cfg: Config, n: Node, force: bool, st: TreeState)
    ensures Confined(cfg, st, FormatSpec(cfg, n, force, st), Below(n), Ids(n))
    decreases n, 1
  {
    if n.kind.ValueSpec? {
      var values, shorten := n.kind.values, Annotation.Has(n) || force;
      assert FormatSpec(cfg, n, force, st) == FormatExprs(cfg, values, shorten, false, st);
      ExprsConfined(cfg, values, shorten, false, st);
      assert Below(n) == IdsOfList(values);
      ConfinedWiden(cfg, st, FormatExprs(cfg, values, shorten, false, st), BelowEach(values), IdsOfList(values), Below(n), Ids(n));
    } else if n.kind.TypeSpec? {
      var typ := n.kind.typ;
      assert FormatSpec(cfg, n, force, st) == FormatExpr(cfg, typ, false, false, st);
      ExprConfined(cfg, typ, false, false, st);
      assert Below(n) == Ids(typ);
      ConfinedWiden(cfg, st, FormatExpr(cfg, typ, false, false, st), Below(typ), Ids(typ), Below(n), Ids(n));
    } else {
      assert FormatSpec(cfg, n, force, st) == st;
      ConfinedSame(cfg, st, Below(n), Ids(n));
    }
  }

  lemma {:induction false} ExprsConfined(cfg: Config, list: seq<Node>, force: bool, isChain: bool, st: TreeState)
    ensures Confined(cfg, st, FormatExprs(cfg, list, force, isChain, st), BelowEach(list), IdsOfList(list))
    decreases list, 2
  {
    if list == [] {
      ConfinedSame(cfg, st, {}, {});
    } else {
      var init, last := list[..|list| - 1], list[|list| - 1];
      var s1 := FormatExprs(cfg, init, force, isChain, st);
      ExprsConfined(cfg, init, force, isChain, st);
      ExprConfined(cfg, last, force, isChain, s1);
      ConfinedCompose(cfg, st, s1, FormatExpr(cfg, last, force, isChain, s1), BelowEach(init), IdsOfList(init),
                      Below(last), Ids(last), BelowEach(list), IdsOfList(list));
    }
  }

  lemma {:induction false} StmtsConfined(cfg: Config, list: seq<Node>, st: TreeState)
    ensures Confined(cfg, st, FormatStmts(cfg, list, st), BelowEach(list), IdsOfList(list))
    decreases list, 2
  {
    if list == [] {
      ConfinedSame(cfg, st, {}, {});
    } else {
      var init, last := list[..|list| - 1], list[|list| - 1];
      var s1 := FormatStmts(cfg, init, st);
      StmtsConfined(cfg, init, st);
      StmtConfined(cfg, last, false, s1);
      ConfinedCompose(cfg, st, s1, FormatStmt(cfg, last, false, s1), BelowEach(init), IdsOfList(init),
                      Below(last), Ids(last), BelowEach(list), IdsOfList(list));
    }
  }

  lemma {:induction false} SpecsConfined(cfg: Config, list: seq<Node>, force: bool, st: TreeState)
    ensures Confined(cfg, st, FormatSpecs(cfg, list, force, st), BelowEach(list), IdsOfList(list))
    decreases list, 2
  {
    if list == [] {
      ConfinedSame(cfg, st, {}, {});
    } else {
      var init, last := list[..|list| - 1], list[|list| - 1];
      var s1 := FormatSpecs(cfg, init, force, st);
      SpecsConfined(cfg, init, force, st);
      SpecConfined(cfg, last, force, s1);
      ConfinedCompose(cfg, st, s1, FormatSpec(cfg, last, force, s1), BelowEach(init), IdsOfList(init),
                      Below(last), Ids(last), BelowEach(list), IdsOfList(list));
    }
  }

  lemma {:induction false} CaseArgsConfined(cfg: Config, list: seq<Node>, st: TreeState)
    ensures Confined(cfg, st, CaseArgs(cfg, list, st), BelowEach(list), IdsOfList(list))
    decreases list, 2
  {
    if list == [] {
      ConfinedSame(cfg, st, {}, {});
    } else {
      var init, last := list[..|list| - 1], list[|list| - 1];
      var s1 := CaseArgs(cfg, init, st);
      var s2 := SetAfter(s1, last.id, NewLine);
      CaseArgsConfined(cfg, init, st);
      SetAfterConfined(cfg, s1, last.id);
      assert last.id in Ids(last);
      ConfinedCompose(cfg, st, s1, s2, BelowEach(init), IdsOfList(init), {}, {last.id}, BelowEach(list), IdsOfList(list));
      ExprConfined(cfg, last, false, false, s2);
      ConfinedCompose(cfg, st, s2, FormatExpr(cfg, last, false, false, s2), BelowEach(list), IdsOfList(list),
                      Below(last), Ids(last), BelowEach(list), IdsOfList(list));
    }
  }

  lemma {:induction false} CallArgsConfined(cfg: Config, list: seq<Node>, shortenChildArgs: bool, isChain: bool, st: TreeState)
    ensures Confined(cfg, st, CallArgs(cfg, list, shortenChildArgs, isChain, st), IdsOfList(list), IdsOfList(list))
    decreases list, 2
  {
    if list == [] {
      ConfinedSame(cfg, st, {}, {});
    } else {
      var init, last := list[..|list| - 1], list[|list| - 1];
      var s1 := CallArgs(cfg, init, shortenChildArgs, isChain, st);
      var s2 := if shortenChildArgs then FormatList(s1, last, |list| - 1) else s1;
      CallArgsConfined(cfg, init, shortenChildArgs, isChain, st);
      assert last.id in Ids(last);
      if shortenChildArgs {
        assert s2.tagAligned[..|s1.tagAligned|] == s1.tagAligned;
        assert Confined(cfg, s1, s2, {last.id}, {last.id});
      } else {
        ConfinedSame(cfg, s1, {}, {});
      }
      ConfinedCompose(cfg, st, s1, s2, IdsOfList(init), IdsOfList(init), {last.id}, {last.id}, IdsOfList(list), IdsOfList(list));
      ExprConfined(cfg, last, false, isChain, s2);
      ConfinedCompose(cfg, st, s2, FormatExpr(cfg, last, false, isChain, s2), IdsOfList(list), IdsOfList(list),
                      Below(last), Ids(last), IdsOfList(list), IdsOfList(list));
    }
  }

  lemma {:induction false} MethodsConfined(cfg: Config, list: seq<Node>, isChain: bool, st: TreeState)
    ensures Confined(cfg, st, InterfaceMethods(cfg, list, isChain, st), BelowEach(list), IdsOfList(list))
    decreases list, 2
  {
    if list == [] {
      ConfinedSame(cfg, st, {}, {});
    } else {
      var init, m := list[..|list| - 1], list[|list| - 1];
      var s1 := InterfaceMethods(cfg, init, isChain, st);
      MethodsConfined(cfg, init, isChain, st);
      if m.kind.Field? && Annotation.Has(m) {
        ExprConfined(cfg, m.kind.typ, true, isChain, s1);
        ConfinedCompose(cfg, st, s1, FormatExpr(cfg, m.kind.typ, true, isChain, s1), BelowEach(init), IdsOfList(init),
                        Below(m.kind.typ), Ids(m.kind.typ), BelowEach(list), IdsOfList(list));
      } else {
        ConfinedWiden(cfg, st, s1, BelowEach(init), IdsOfList(init), BelowEach(list), IdsOfList(list));
      }
    }
  }

  // ---------------------------------------------------------------------------------------
  // A tree without markers keeps its layout

  /** The walk leaves every Before and After decoration as it was. */
  ghost predicate SameLayout(st: TreeState, r: TreeState) {
    r.before == st.before && r.after == st.after
  }

  /** A round over a file in which no node carries a marker changes no line break. */
  lemma {:induction false} FileQuiet(cfg: Config, decls: seq<Node>, st: TreeState)
    requires QuietList(decls)
    ensures SameLayout(st, FormatFile(cfg, decls, st))
  {
    if decls != [] {
      var init, last := decls[..|decls| - 1], decls[|decls| - 1];
      FileQuiet(cfg, init, st);
      NodeQuiet(cfg, last, FormatFile(cfg, init, st));
    }
  }

  lemma NodeQuiet(cfg: Config, n: Node, st: TreeState)
    requires Quiet(n)
    ensures SameLayout(st, FormatNode(cfg, n, st))
  {
    if IsDecl(n) {
      DeclQuiet(cfg, n, st);
    } else if IsExpr(n) {
      ExprQuiet(cfg, n, false, st);
    } else if IsStmt(n) {
      StmtQuiet(cfg, n, st);
    } else if IsSpec(n) {
      SpecQuiet(cfg, n, st);
    }
  }

  lemma {:induction false} DeclQuiet(cfg: Config, n: Node, st: TreeState)
    requires Quiet(n)
    ensures SameLayout(st, FormatDecl(cfg, n, st))
    decreases n, 1
  {
    if n.kind.FuncDecl? {
      var body := n.kind.funcBody;
      QuietUnmarked(n);
      assert FormatDecl(cfg, n, st) == if body.Some? then FormatStmt(cfg, body.value, false, st) else st;
      if body.Some? {
        assert QuietOption(body);
        StmtQuiet(cfg, body.value, st);
      }
    } else if n.kind.GenDecl? {
      assert FormatDecl(cfg, n, st) == FormatSpecs(cfg, n.kind.specs, false, st);
      SpecsQuiet(cfg, n.kind.specs, st);
    } else {
      assert FormatDecl(cfg, n, st) == st;
    }
  }

  lemma {:induction false} StmtQuiet(cfg: Config, n: Node, st: TreeState)
    requires Quiet(n)
    ensures SameLayout(st, FormatStmt(cfg, n, false, st))
    decreases n, 1
  {
    var k := n.kind;
    if k.IfStmt? {
      IfQuiet(cfg, n, st);
    } else if k.AssignStmt? || k.ReturnStmt? {
      var list := if k.AssignStmt? then k.rhs else k.results;
      assert FormatStmt(cfg, n, false, st) == FormatExprs(cfg, list, false, false, st);
      assert QuietList(list);
      ExprsQuiet(cfg, list, false, st);
    } else if k.BlockStmt? || k.CaseClause? || k.CommClause? {
      var list := if k.BlockStmt? then k.list else if k.CaseClause? then k.caseBody else k.commBody;
      assert FormatStmt(cfg, n, false, st) == FormatStmts(cfg, list, st);
      assert QuietList(list);
      StmtsQuiet(cfg, list, st);
    } else {
      SimpleStmtQuiet(cfg, n, st);
    }
  }

  lemma {:induction false} IfQuiet(cfg: Config, n: Node, st: TreeState)
    requires Quiet(n) && n.kind.IfStmt?
    ensures SameLayout(st, FormatStmt(cfg, n, false, st))
    decreases n, 0
  {
    var init, cond, body := n.kind.init, n.kind.cond, n.kind.body;
    var s1 := FormatExpr(cfg, cond, false, false, st);
    var s2 := FormatStmt(cfg, body, false, s1);
    assert FormatStmt(cfg, n, false, st) == if init.Some? then FormatStmt(cfg, init.value, false, s2) else s2;
    assert Quiet(cond) && Quiet(body) && QuietOption(init);
    ExprQuiet(cfg, cond, false, st);
    StmtQuiet(cfg, body, s1);
    if init.Some? {
      StmtQuiet(cfg, init.value, s2);
    }
  }

  lemma {:induction false} SimpleStmtQuiet(cfg: Config, n: Node, st: TreeState)
    requires Quiet(n)
    requires !(n.kind.IfStmt? || n.kind.AssignStmt? || n.kind.ReturnStmt? || n.kind.BlockStmt? ||
               n.kind.CaseClause? || n.kind.CommClause?)
    ensures SameLayout(st, FormatStmt(cfg, n, false, st))
    decreases n, 0
  {
    var k := n.kind;
    if k.DeclStmt? {
      assert FormatStmt(cfg, n, false, st) == FormatDecl(cfg, k.decl, st);
      DeclQuiet(cfg, k.decl, st);
    } else if k.DeferStmt? || k.GoStmt? || k.ExprStmt? {
      var x := if k.ExprStmt? then k.x else k.call;
      assert FormatStmt(cfg, n, false, st) == FormatExpr(cfg, x, false, false, st);
      assert Quiet(x);
      ExprQuiet(cfg, x, false, st);
    } else if k.ForStmt? || k.RangeStmt? || k.SelectStmt? || k.SwitchStmt? {
      assert FormatStmt(cfg, n, false, st) == FormatStmt(cfg, k.body, false, st);
      assert Quiet(k.body);
      StmtQuiet(cfg, k.body, st);
    } else {
      assert FormatStmt(cfg, n, false, st) == st;
    }
  }

  lemma {:induction false} ExprQuiet(cfg: Config, n: Node, isChain: bool, st: TreeState)
    requires Quiet(n)
    ensures SameLayout(st, FormatExpr(cfg, n, false, isChain, st))
    decreases n, 1
  {
    var k := n.kind;
    if k.BinaryExpr? || k.KeyValueExpr? || k.SelectorExpr? || k.UnaryExpr? {
      ChildExprQuiet(cfg, n, isChain, st);
    } else if k.CallExpr? {
      CallQuiet(cfg, n, isChain, st);
    } else if k.CompositeLit? || k.FuncLit? || k.InterfaceType? {
      ListExprQuiet(cfg, n, isChain, st);
    } else {
      assert SameLayout(st, FormatExpr(cfg, n, false, isChain, st));
    }
  }

  lemma {:induction false} ChildExprQuiet(cfg: Config, n: Node, isChain: bool, st: TreeState)
    requires Quiet(n) && (n.kind.BinaryExpr? || n.kind.KeyValueExpr? || n.kind.SelectorExpr? || n.kind.UnaryExpr?)
    ensures SameLayout(st, FormatExpr(cfg, n, false, isChain, st))
    decreases n, 0
  {
    var k := n.kind;
    if k.BinaryExpr? {
      var s1 := FormatExpr(cfg, k.x, false, isChain, st);
      assert FormatExpr(cfg, n, false, isChain, st) == FormatExpr(cfg, k.y, false, isChain, s1);
      assert Quiet(k.x) && Quiet(k.y);
      ExprQuiet(cfg, k.x, isChain, st);
      ExprQuiet(cfg, k.y, isChain, s1);
    } else {
      var child := if k.KeyValueExpr? then k.value else k.x;
      assert FormatExpr(cfg, n, false, isChain, st) == FormatExpr(cfg, child, false, isChain, st);
      assert Quiet(child);
      ExprQuiet(cfg, child, isChain, st);
    }
  }

  lemma {:induction false} ListExprQuiet(cfg: Config, n: Node, isChain: bool, st: TreeState)
    requires Quiet(n) && (n.kind.CompositeLit? || n.kind.FuncLit? || n.kind.InterfaceType?)
    ensures SameLayout(st, FormatExpr(cfg, n, false, isChain, st))
    decreases n, 0
  {
    var k := n.kind;
    if k.CompositeLit? {
      assert FormatExpr(cfg, n, false, isChain, st) == FormatExprs(cfg, k.elts, false, isChain, st);
      assert QuietList(k.elts);
      ExprsQuiet(cfg, k.elts, isChain, st);
    } else if k.FuncLit? {
      assert FormatExpr(cfg, n, false, isChain, st) == FormatStmt(cfg, k.body, false, st);
      assert Quiet(k.body);
      StmtQuiet(cfg, k.body, st);
    } else {
      assert FormatExpr(cfg, n, false, isChain, st) == InterfaceMethods(cfg, k.methods, isChain, st);
      assert QuietList(k.methods);
      MethodsQuiet(cfg, k.methods, isChain, st);
    }
  }

  lemma {:induction false} CallQuiet(cfg: Config, n: Node, isChain: bool, st: TreeState)
    requires Quiet(n) && n.kind.CallExpr?
    ensures SameLayout(st, FormatExpr(cfg, n, false, isChain, st))
    decreases n, 0
  {
    var fun, args := n.kind.fun, n.kind.args;
    QuietUnmarked(n);
    var s1 := CallArgs(cfg, args, false, isChain, st);
    assert FormatExpr(cfg, n, false, isChain, st) == FormatExpr(cfg, fun, false, isChain, s1);
    assert Quiet(fun) && QuietList(args);
    CallArgsQuiet(cfg, args, isChain, st);
    ExprQuiet(cfg, fun, isChain, s1);
  }

  lemma {:induction false} SpecQuiet(cfg: Config, n: Node, st: TreeState)
    requires Quiet(n)
    ensures SameLayout(st, FormatSpec(cfg, n, false, st))
    decreases n, 1
  {
    if n.kind.ValueSpec? {
      assert FormatSpec(cfg, n, false, st) == FormatExprs(cfg, n.kind.values, false, false, st);
      ExprsQuiet(cfg, n.kind.values, false, st);
    } else if n.kind.TypeSpec? {
      assert FormatSpec(cfg, n, false, st) == FormatExpr(cfg, n.kind.typ, false, false, st);
      ExprQuiet(cfg, n.kind.typ, false, st);
    } else {
      assert FormatSpec(cfg, n, false, st) == st;
    }
  }

  lemma {:induction false} ExprsQuiet(cfg: Config, list: seq<Node>, isChain: bool, st: TreeState)
    requires QuietList(list)
    ensures SameLayout(st, FormatExprs(cfg, list, false, isChain, st))
    decreases list, 2
  {
    if list != [] {
      var init, last := list[..|list| - 1], list[|list| - 1];
      ExprsQuiet(cfg, init, isChain, st);
      ExprQuiet(cfg, last, isChain, FormatExprs(cfg, init, false, isChain, st));
    }
  }

  lemma {:induction false} StmtsQuiet(cfg: Config, list: seq<Node>, st: TreeState)
    requires QuietList(list)
    ensures SameLayout(st, FormatStmts(cfg, list, st))
    decreases list, 2
  {
    if list != [] {
      var init, last := list[..|list| - 1], list[|list| - 1];
      StmtsQuiet(cfg, init, st);
      StmtQuiet(cfg, last, FormatStmts(cfg, init, st));
    }
  }

  lemma {:induction false} SpecsQuiet(cfg: Config, list: seq<Node>, st: TreeState)
    requires QuietList(list)
    ensures SameLayout(st, FormatSpecs(cfg, list, false, st))
    decreases list, 2
  {
    if list != [] {
      var init, last := list[..|list| - 1], list[|list| - 1];
      SpecsQuiet(cfg, init, st);
      SpecQuiet(cfg, last, FormatSpecs(cfg, init, false, st));
    }
  }

  lemma {:induction false} CallArgsQuiet(cfg: Config, list: seq<Node>, isChain: bool, st: TreeState)
    requires QuietList(list)
    ensures SameLayout(st, CallArgs(cfg, list, false, isChain, st))
    decreases list, 2
  {
    if list != [] {
      var init, last := list[..|list| - 1], list[|list| - 1];
      CallArgsQuiet(cfg, init, isChain, st);
      ExprQuiet(cfg, last, isChain, CallArgs(cfg, init, false, isChain, st));
    }
  }

  lemma {:induction false} MethodsQuiet(cfg: Config, list: seq<Node>, isChain: bool, st: TreeState)
    requires QuietList(list)
    ensures SameLayout(st, InterfaceMethods(cfg, list, isChain, st))
    decreases list, 2
  {
    if list != [] {
      MethodsQuiet(cfg, list[..|list| - 1], isChain, st);
    }
  }
}
