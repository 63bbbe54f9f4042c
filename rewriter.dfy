/** The rewriter of shorten/format.go as the source runs it: a walk that writes the Before and
    After decorations of the nodes it visits in place.  A `ParsedFile` holds the decoration
    table of one parsed file; each method is proved to leave the table as the matching
    function of module Format describes. */
module Rewriter {
  import opened Text
  import opened Settings
  import opened Syntax
  import Annotation
  import Format

  class ParsedFile {
    const cfg: Config
    const decls: seq<Node>
    var before: map<NodeId, Space>
    var after: map<NodeId, Space>
    var tagAligned: seq<NodeId>

    /** The decoration table as a value. */
    function State(): TreeState
      reads this
    {
      TreeState(before, after, tagAligned)
    }

    constructor (cfg: Config, decls: seq<Node>, st: TreeState)
      ensures this.cfg == cfg && this.decls == decls && State() == st
    {
      this.cfg := cfg;
      this.decls := decls;
      before := st.before;
      after := st.after;
      tagAligned := st.tagAligned;
    }

    /** One round of the rewriter over the file: formatNode on each declaration in order. */
    method FormatFile()
      modifies this
      ensures State() == Format.FormatFile(cfg, decls, old(State()))
    {
      var i := 0;
      while i < |decls|
        invariant 0 <= i <= |decls|
        invariant State() == Format.FormatFile(cfg, decls[..i], old(State()))
      {
        assert decls[..i + 1][..i] == decls[..i];
        FormatNode(decls[i]);
        i := i + 1;
      }
      assert decls[..i] == decls;
    }

    method FormatNode(n: Node)
      modifies this
      ensures State() == Format.FormatNode(cfg, n, old(State()))
    {
      if IsDecl(n) {
        FormatDecl(n);
      } else if IsExpr(n) {
        FormatExpr(n, false, false);
      } else if IsStmt(n) {
        FormatStmt(n, false);
      } else if IsSpec(n) {
        FormatSpec(n, false);
      }
    }

    method FormatDecl(n: Node)
      modifies this
      ensures State() == Format.FormatDecl(cfg, n, old(State()))
      decreases n, 1
    {
      match n.kind
      case FuncDecl(funcType, body) =>
        if funcType.kind.FuncType? && Annotation.HasRecursive(n) {
          FormatFieldList(funcType.kind.params);
        }
        if body.Some? {
          FormatStmt(body.value, false);
        }
      case GenDecl(specs) =>
        var shorten := Annotation.Has(n);
        var i := 0;
        while i < |specs|
          invariant 0 <= i <= |specs|
          invariant State() == Format.FormatSpecs(cfg, specs[..i], shorten, old(State()))
        {
          assert specs[..i + 1][..i] == specs[..i];
          FormatSpec(specs[i], shorten);
          i := i + 1;
        }
        assert specs[..i] == specs;
      case _ =>
    }

    method FormatStmt(n: Node, force: bool)
      modifies this
      ensures State() == Format.FormatStmt(cfg, n, force, old(State()))
      decreases n, 1
    {
      var k := n.kind;
      if k.AssignStmt? || k.DeferStmt? || k.ExprStmt? || k.GoStmt? || k.ReturnStmt? {
        FormatSimpleStmt(n, force);
      } else if k.BlockStmt? || k.CommClause? || k.DeclStmt? || k.ForStmt? || k.RangeStmt? ||
                k.SelectStmt? || k.SwitchStmt? {
        FormatCompoundStmt(n, force);
      } else if k.CaseClause? {
        FormatCaseClause(n, force);
      } else if k.IfStmt? {
        FormatIf(n, force);
      }
    }

    /** The statements whose expressions are forced when the statement is. */
    method FormatSimpleStmt(n: Node, force: bool)
      requires n.kind.AssignStmt? || n.kind.DeferStmt? || n.kind.ExprStmt? || n.kind.GoStmt? ||
               n.kind.ReturnStmt?
      modifies this
      ensures State() == Format.FormatStmt(cfg, n, force, old(State()))
      decreases n, 0
    {
      var shorten := force || Annotation.Has(n);
      match n.kind
      case AssignStmt(_, rhs) => FormatExprs(rhs, shorten, false);
      case DeferStmt(call) => FormatExpr(call, shorten, false);
      case ExprStmt(x) => FormatExpr(x, shorten, false);
      case GoStmt(call) => FormatExpr(call, shorten, false);
      case ReturnStmt(results) => FormatExprs(results, shorten, false);
    }

    /** The statements whose bodies are walked unforced. */
    method FormatCompoundStmt(n: Node, force: bool)
      requires n.kind.BlockStmt? || n.kind.CommClause? || n.kind.DeclStmt? || n.kind.ForStmt? ||
               n.kind.RangeStmt? || n.kind.SelectStmt? || n.kind.SwitchStmt?
      modifies this
      ensures State() == Format.FormatStmt(cfg, n, force, old(State()))
      decreases n, 0
    {
      match n.kind
      case BlockStmt(list) => FormatStmts(list);
      case CommClause(_, body) => FormatStmts(body);
      case DeclStmt(decl) => FormatDecl(decl);
      case ForStmt(_, _, _, body) => FormatStmt(body, false);
      case RangeStmt(_, body) => FormatStmt(body, false);
      case SelectStmt(body) => FormatStmt(body, false);
      case SwitchStmt(_, _, body) => FormatStmt(body, false);
    }

    /** The case clause case of formatStmt: the arguments of a marked clause each get a line
        break after them. */
    method FormatCaseClause(n: Node, force: bool)
      requires n.kind.CaseClause?
      modifies this
      ensures State() == Format.FormatStmt(cfg, n, force, old(State()))
      decreases n, 0
    {
      var exprs, body := n.kind.caseExprs, n.kind.caseBody;
      if force || Annotation.Has(n) {
        CaseArgs(exprs);
      }
      FormatStmts(body);
    }

    /** The if statement case of formatStmt; the else branch is not walked. */
    method FormatIf(n: Node, force: bool)
      requires n.kind.IfStmt?
      modifies this
      ensures State() == Format.FormatStmt(cfg, n, force, old(State()))
      decreases n, 0
    {
      var init, cond, body := n.kind.init, n.kind.cond, n.kind.body;
      var shorten := force || Annotation.Has(n);
      FormatExpr(cond, shorten, false);
      FormatStmt(body, false);
      if init.Some? {
        FormatStmt(init.value, shorten);
      }
    }

    method FormatExpr(n: Node, force: bool, isChain: bool)
      modifies this
      ensures State() == Format.FormatExpr(cfg, n, force, isChain, old(State()))
      decreases n, 1
    {
      var k := n.kind;
      if k.BinaryExpr? {
        FormatBinary(n, force, isChain);
      } else if k.CallExpr? {
        FormatCall(n, force, isChain);
      } else if k.CompositeLit? {
        FormatCompositeLit(n, force, isChain);
      } else if k.FuncLit? || k.KeyValueExpr? || k.SelectorExpr? || k.UnaryExpr? {
        FormatChild(n, force, isChain);
      } else if k.FuncType? || k.InterfaceType? || k.StructType? {
        FormatType(n, force, isChain);
      }
    }

    /** The expressions that walk one child. */
    method FormatChild(n: Node, force: bool, isChain: bool)
      requires n.kind.FuncLit? || n.kind.KeyValueExpr? || n.kind.SelectorExpr? || n.kind.UnaryExpr?
      modifies this
      ensures State() == Format.FormatExpr(cfg, n, force, isChain, old(State()))
      decreases n, 0
    {
      var shorten := force || Annotation.Has(n);
      match n.kind
      case FuncLit(_, body) => FormatStmt(body, false);
      case KeyValueExpr(_, value) => FormatExpr(value, shorten, isChain);
      case SelectorExpr(x, _) => FormatExpr(x, shorten, isChain);
      case UnaryExpr(x) => FormatExpr(x, shorten, isChain);
    }

    /** Function, interface and struct types. */
    method FormatType(n: Node, force: bool, isChain: bool)
      requires n.kind.FuncType? || n.kind.InterfaceType? || n.kind.StructType?
      modifies this
      ensures State() == Format.FormatExpr(cfg, n, force, isChain, old(State()))
      decreases n, 0
    {
      match n.kind
      case FuncType(params) =>
        if force || Annotation.Has(n) {
          FormatFieldList(params);
        }
      case InterfaceType(methods) => InterfaceMethods(methods, isChain);
      case StructType(_) =>
        ghost var st := State();
        if cfg.reformatTags {
          tagAligned := tagAligned + [n.id];
        }
        assert State() == if cfg.reformatTags then st.(tagAligned := st.tagAligned + [n.id]) else st;
    }

    /** The binary expression case of formatExpr: the rule for && and ||. */
    method FormatBinary(n: Node, force: bool, isChain: bool)
      requires n.kind.BinaryExpr?
      modifies this
      ensures State() == Format.FormatExpr(cfg, n, force, isChain, old(State()))
      decreases n, 0
    {
      var x, op, y := n.kind.x, n.kind.op, n.kind.y;
      var shorten := force || Annotation.Has(n);
      if (op == LAnd || op == LOr) && shorten {
        if BeforeOf(State(), y.id) == NewLine {
          FormatExpr(x, force, isChain);
        } else {
          before := before[y.id := NewLine];
        }
      } else {
        FormatExpr(x, shorten, isChain);
        FormatExpr(y, shorten, isChain);
      }
    }

    /** The composite literal case of formatExpr. */
    method FormatCompositeLit(n: Node, force: bool, isChain: bool)
      requires n.kind.CompositeLit?
      modifies this
      ensures State() == Format.FormatExpr(cfg, n, force, isChain, old(State()))
      decreases n, 0
    {
      var elts := n.kind.elts;
      if force || Annotation.Has(n) {
        MarkElements(elts);
      }
      FormatExprs(elts, false, isChain);
    }

    /** The call case of formatExpr: chain mode, or formatList on the arguments. */
    method FormatCall(n: Node, force: bool, isChain: bool)
      requires n.kind.CallExpr?
      modifies this
      ensures State() == Format.FormatExpr(cfg, n, force, isChain, old(State()))
      decreases n, 0
    {
      var fun, args := n.kind.fun, n.kind.args;
      var shorten := force || Annotation.Has(n);
      var shortenChildArgs := shorten || Annotation.HasRecursive(n);
      var chain := false;
      if fun.kind.SelectorExpr? && shortenChildArgs && cfg.chainSplitDots {
        var length := ChainLength(n);
        chain := isChain || length > 1;
      }
      if chain {
        after := after[n.id := NewLine];
        FormatExprs(args, false, true);
        FormatExpr(fun, shorten, true);
      } else {
        CallArgs(args, shortenChildArgs, isChain);
        FormatExpr(fun, shorten, isChain);
      }
    }

    method FormatSpec(n: Node, force: bool)
      modifies this
      ensures State() == Format.FormatSpec(cfg, n, force, old(State()))
      decreases n, 1
    {
      var shorten := Annotation.Has(n) || force;
      match n.kind
      case ValueSpec(values) => FormatExprs(values, shorten, false);
      case TypeSpec(typ) => FormatExpr(typ, false, false);
      case _ =>
    }

    /** `for _, x := range list { s.formatExpr(x, force, isChain) }` */
    method FormatExprs(list: seq<Node>, force: bool, isChain: bool)
      modifies this
      ensures State() == Format.FormatExprs(cfg, list, force, isChain, old(State()))
      decreases list, 2
    {
      var i := 0;
      while i < |list|
        invariant 0 <= i <= |list|
        invariant State() == Format.FormatExprs(cfg, list[..i], force, isChain, old(State()))
      {
        assert list[..i + 1][..i] == list[..i];
        FormatExpr(list[i], force, isChain);
        i := i + 1;
      }
      assert list[..i] == list;
    }

    /** `for _, stmt := range list { s.formatStmt(stmt, false) }` */
    method FormatStmts(list: seq<Node>)
      modifies this
      ensures State() == Format.FormatStmts(cfg, list, old(State()))
      decreases list, 2
    {
      var i := 0;
      while i < |list|
        invariant 0 <= i <= |list|
        invariant State() == Format.FormatStmts(cfg, list[..i], old(State()))
      {
        assert list[..i + 1][..i] == list[..i];
        FormatStmt(list[i], false);
        i := i + 1;
      }
      assert list[..i] == list;
    }

    /** The arguments of a marked case clause: a line break after each, then its walk. */
    method CaseArgs(list: seq<Node>)
      modifies this
      ensures State() == Format.CaseArgs(cfg, list, old(State()))
      decreases list, 2
    {
      var i := 0;
      while i < |list|
        invariant 0 <= i <= |list|
        invariant State() == Format.CaseArgs(cfg, list[..i], old(State()))
      {
        assert list[..i + 1][..i] == list[..i];
        after := after[list[i].id := NewLine];
        FormatExpr(list[i], false, false);
        i := i + 1;
      }
      assert list[..i] == list;
    }

    /** The elements of a marked composite literal: a line break before the first, and after
        each. */
    method MarkElements(list: seq<Node>)
      modifies this
      ensures State() == Format.MarkElements(cfg, list, old(State()))
    {
      var i := 0;
      while i < |list|
        invariant 0 <= i <= |list|
        invariant State() == Format.MarkElements(cfg, list[..i], old(State()))
      {
        assert list[..i + 1][..i] == list[..i];
        if i == 0 {
          before := before[list[i].id := NewLine];
        }
        after := after[list[i].id := NewLine];
        i := i + 1;
      }
      assert list[..i] == list;
    }

    /** The arguments of a call outside chain mode. */
    method CallArgs(list: seq<Node>, shortenChildArgs: bool, isChain: bool)
      modifies this
      ensures State() == Format.CallArgs(cfg, list, shortenChildArgs, isChain, old(State()))
      decreases list, 2
    {
      var i := 0;
      while i < |list|
        invariant 0 <= i <= |list|
        invariant State() == Format.CallArgs(cfg, list[..i], shortenChildArgs, isChain, old(State()))
      {
        assert list[..i + 1][..i] == list[..i];
        if shortenChildArgs {
          FormatList(list[i], i);
        }
        FormatExpr(list[i], false, isChain);
        i := i + 1;
      }
      assert list[..i] == list;
    }

    /** The methods of an interface type: the type of each marked one is walked forced. */
    method InterfaceMethods(list: seq<Node>, isChain: bool)
      modifies this
      ensures State() == Format.InterfaceMethods(cfg, list, isChain, old(State()))
      decreases list, 2
    {
      var i := 0;
      while i < |list|
        invariant 0 <= i <= |list|
        invariant State() == Format.InterfaceMethods(cfg, list[..i], isChain, old(State()))
      {
        assert list[..i + 1][..i] == list[..i];
        var m := list[i];
        if m.kind.Field? && Annotation.Has(m) {
          FormatExpr(m.kind.typ, true, isChain);
        }
        i := i + 1;
      }
      assert list[..i] == list;
    }

    method FormatFieldList(fields: seq<Node>)
      modifies this
      ensures State() == Format.FormatFieldList(cfg, fields, old(State()))
    {
      var i := 0;
      while i < |fields|
        invariant 0 <= i <= |fields|
        invariant State() == Format.FormatFieldList(cfg, fields[..i], old(State()))
      {
        assert fields[..i + 1][..i] == fields[..i];
        FormatList(fields[i], i);
        i := i + 1;
      }
      assert fields[..i] == fields;
    }

    method FormatList(item: Node, index: int)
      modifies this
      ensures State() == Format.FormatList(old(State()), item, index)
    {
      if index == 0 {
        before := before[item.id := NewLine];
      } else {
        before := before[item.id := NoSpace];
      }
      after := after[item.id := NewLine];
    }
  }

  /** chainLength: walks down the chain one link at a time. */
  method ChainLength(call: Node) returns (numCalls: int)
    requires call.kind.CallExpr?
    ensures numCalls == Format.ChainLength(call)
  {
    numCalls := 1;
    var currCall := call;
    while true
      invariant currCall.kind.CallExpr?
      invariant numCalls - 1 + Format.ChainLength(currCall) == Format.ChainLength(call)
      decreases currCall
    {
      var fun := currCall.kind.fun;
      if !fun.kind.SelectorExpr? {
        break;
      }
      if !fun.kind.x.kind.CallExpr? {
        break;
      }
      currCall := fun.kind.x;
      numCalls := numCalls + 1;
    }
  }
}
