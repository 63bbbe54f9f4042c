/** The layout rules of the rewriter (shorten/format.go), each stated as what one step of the
    walk leaves in the decoration table. */
module FormatRules {
  import opened Text
  import opened Settings
  import opened Syntax
  import Annotation
  import opened Format
  import opened FormatProps

  /** The nodes of a list are distinct and none lies below another one of them (or below
      itself): the shape of every list of a parsed tree, where each node is its own object. */
  ghost predicate Apart(list: seq<Node>) {
    forall i, j :: 0 <= i < |list| && 0 <= j < |list| ==>
      list[i].id !in Below(list[j]) && (i != j ==> list[i].id != list[j].id)
  }

  /** Every item of `list` has the decorations formatList gives it: a line break before the
      first item only, none of its own before the others, a line break after each. */
  ghost predicate LaidOut(st: TreeState, list: seq<Node>) {
    forall i :: 0 <= i < |list| ==>
      BeforeOf(st, list[i].id) == (if i == 0 then NewLine else NoSpace) && AfterOf(st, list[i].id) == NewLine
  }

  lemma ApartPrefix(list: seq<Node>, k: nat)
    requires Apart(list) && k <= |list|
    ensures Apart(list[..k])
  {
    assert forall i :: 0 <= i < k ==> list[..k][i] == list[i];
  }

  /** An identity in no node of a list is in none of their subtrees. */
  lemma {:induction false} OutsideList(list: seq<Node>, id: NodeId)
    requires forall j :: 0 <= j < |list| ==> id !in Ids(list[j])
    ensures id !in IdsOfList(list)
    decreases |list|
  {
    if list != [] {
      var init := list[..|list| - 1];
      assert forall j :: 0 <= j < |init| ==> init[j] == list[j];
      OutsideList(init, id);
    }
  }

  // ---------------------------------------------------------------------------------------
  // formatFieldList

  /** formatFieldList lays out every field of a parameter list one per line. */
  lemma {:induction false} FieldListLaidOut(cfg: Config, fields: seq<Node>, st: TreeState)
    requires forall i, j :: 0 <= i < j < |fields| ==> fields[i].id != fields[j].id
    ensures LaidOut(FormatFieldList(cfg, fields, st), fields)
    decreases |fields|
  {
    if fields != [] {
      var init, last := fields[..|fields| - 1], fields[|fields| - 1];
      var s1 := FormatFieldList(cfg, init, st);
      FieldListLaidOut(cfg, init, st);
      forall i | 0 <= i < |fields| - 1
        ensures init[i] == fields[i] && fields[i].id != last.id
      {
      }
    }
  }

  // ---------------------------------------------------------------------------------------
  // Binary expressions

  /** && and || under shortening: the right operand ends up on a new line; when it already
      was, the walk goes on into the left operand with the caller's force, and otherwise the
      break before the right operand is the only change. */
  lemma AndOrBreaks(cfg: Config, n: Node, force: bool, isChain: bool, st: TreeState)
    requires n.kind.BinaryExpr? && (n.kind.op == LAnd || n.kind.op == LOr)
    requires force || Annotation.Has(n)
    requires n.kind.y.id !in Below(n.kind.x)
    ensures var r := FormatExpr(cfg, n, force, isChain, st);
      BeforeOf(r, n.kind.y.id) == NewLine &&
      (BeforeOf(st, n.kind.y.id) == NewLine ==> r == FormatExpr(cfg, n.kind.x, force, isChain, st)) &&
      (BeforeOf(st, n.kind.y.id) != NewLine ==>
         r.after == st.after && r.tagAligned == st.tagAligned &&
         forall id :: id != n.kind.y.id ==> BeforeOf(r, id) == BeforeOf(st, id))
  {
    var x, y := n.kind.x, n.kind.y;
    if BeforeOf(st, y.id) == NewLine {
      ExprConfined(cfg, x, force, isChain, st);
    }
  }

  /** Any other binary operator, or && and || without shortening: both operands are walked
      and neither operand's own Before is written. */
  lemma OtherBinaryWalksBoth(cfg: Config, n: Node, force: bool, isChain: bool, st: TreeState)
    requires n.kind.BinaryExpr?
    requires !((n.kind.op == LAnd || n.kind.op == LOr) && (force || Annotation.Has(n)))
    ensures var x, y, shorten := n.kind.x, n.kind.y, force || Annotation.Has(n);
      var r := FormatExpr(cfg, n, force, isChain, st);
      r == FormatExpr(cfg, y, shorten, isChain, FormatExpr(cfg, x, shorten, isChain, st)) &&
      Confined(cfg, st, r, Below(x) + Below(y), Ids(x) + Ids(y))
  {
    var x, y, shorten := n.kind.x, n.kind.y, force || Annotation.Has(n);
    var s1 := FormatExpr(cfg, x, shorten, isChain, st);
    ExprConfined(cfg, x, shorten, isChain, st);
    ExprConfined(cfg, y, shorten, isChain, s1);
    ConfinedCompose(cfg, st, s1, FormatExpr(cfg, y, shorten, isChain, s1), Below(x), Ids(x), Below(y), Ids(y),
                    Below(x) + Below(y), Ids(x) + Ids(y));
  }

  // ---------------------------------------------------------------------------------------
  // Calls

  /** Chain mode of a call: its own line break after it is written first, then its arguments
      are walked unforced as parts of a chain, then its callee with the call's own force. */
  lemma ChainModeSteps(cfg: Config, n: Node, force: bool, isChain: bool, st: TreeState)
    requires n.kind.CallExpr? && n.kind.fun.kind.SelectorExpr? && cfg.chainSplitDots
    requires force || Annotation.HasRecursive(n)
    requires isChain || ChainLength(n) > 1
    ensures FormatExpr(cfg, n, force, isChain, st) ==
      FormatExpr(cfg, n.kind.fun, force || Annotation.Has(n), true,
                 FormatExprs(cfg, n.kind.args, false, true, SetAfter(st, n.id, NewLine)))
  {
  }

  /** Chain mode of a call: the call is followed by a line break, whatever its arguments and
      callee do afterwards. */
  lemma ChainBreaksAfter(cfg: Config, n: Node, force: bool, isChain: bool, st: TreeState)
    requires n.kind.CallExpr? && n.kind.fun.kind.SelectorExpr? && cfg.chainSplitDots
    requires force || Annotation.HasRecursive(n)
    requires isChain || ChainLength(n) > 1
    ensures AfterOf(FormatExpr(cfg, n, force, isChain, st), n.id) == NewLine
  {
    var fun, args, shorten := n.kind.fun, n.kind.args, force || Annotation.Has(n);
    var s1 := SetAfter(st, n.id, NewLine);
    var s2 := FormatExprs(cfg, args, false, true, s1);
    assert FormatExpr(cfg, n, force, isChain, st) == FormatExpr(cfg, fun, shorten, true, s2);
    ExprsConfined(cfg, args, false, true, s1);
    ExprConfined(cfg, fun, shorten, true, s2);
  }

  /** The arguments of a call outside chain mode, with shortenChildArgs: each is laid out by
      formatList, and the walks of the arguments keep those decorations. */
  lemma {:induction false} CallArgsLaidOut(cfg: Config, args: seq<Node>, isChain: bool, st: TreeState)
    requires Apart(args)
    ensures LaidOut(CallArgs(cfg, args, true, isChain, st), args)
    decreases |args|
  {
    if args != [] {
      var k := |args| - 1;
      var init, last := args[..k], args[k];
      var s1 := CallArgs(cfg, init, true, isChain, st);
      var s2 := FormatList(s1, last, k);
      var r := FormatExpr(cfg, last, false, isChain, s2);
      assert r == CallArgs(cfg, args, true, isChain, st);
      ApartPrefix(args, k);
      CallArgsLaidOut(cfg, init, isChain, st);
      ExprConfined(cfg, last, false, isChain, s2);
      forall i | 0 <= i < |args|
        ensures BeforeOf(r, args[i].id) == (if i == 0 then NewLine else NoSpace) && AfterOf(r, args[i].id) == NewLine
      {
        assert args[i].id !in Below(last);
        if i < k {
          assert init[i] == args[i] && args[i].id != last.id;
        }
      }
    }
  }

  /** The arguments of a call outside chain mode, without shortenChildArgs: no argument's
      own Before is written. */
  lemma {:induction false} CallArgsKeepBefore(cfg: Config, args: seq<Node>, isChain: bool, st: TreeState)
    requires Apart(args)
    ensures forall i :: 0 <= i < |args| ==>
      BeforeOf(CallArgs(cfg, args, false, isChain, st), args[i].id) == BeforeOf(st, args[i].id)
    decreases |args|
  {
    if args != [] {
      var k := |args| - 1;
      var init, last := args[..k], args[k];
      var s1 := CallArgs(cfg, init, false, isChain, st);
      var r := FormatExpr(cfg, last, false, isChain, s1);
      assert r == CallArgs(cfg, args, false, isChain, st);
      ApartPrefix(args, k);
      CallArgsKeepBefore(cfg, init, isChain, st);
      CallArgsConfined(cfg, init, false, isChain, st);
      assert last.id !in IdsOfList(init) by {
        forall j | 0 <= j < k
          ensures last.id !in Ids(init[j])
        {
          assert init[j] == args[j];
        }
        OutsideList(init, last.id);
      }
      ExprConfined(cfg, last, false, isChain, s1);
      forall i | 0 <= i < |args|
        ensures BeforeOf(r, args[i].id) == BeforeOf(st, args[i].id)
      {
        assert args[i].id !in Below(last);
        if i < k {
          assert init[i] == args[i];
        }
      }
    }
  }

  /** A call outside chain mode walks its arguments, then its callee. */
  lemma CallOutsideChainSteps(cfg: Config, n: Node, force: bool, isChain: bool, st: TreeState)
    requires n.kind.CallExpr?
    requires !(n.kind.fun.kind.SelectorExpr? && (force || Annotation.HasRecursive(n)) && cfg.chainSplitDots &&
               (isChain || ChainLength(n) > 1))
    ensures FormatExpr(cfg, n, force, isChain, st) ==
      FormatExpr(cfg, n.kind.fun, force || Annotation.Has(n), isChain,
                 CallArgs(cfg, n.kind.args, force || Annotation.HasRecursive(n), isChain, st))
  {
  }

  /** A call outside chain mode: formatList is applied to every argument exactly when the
      call or one of its parts is marked, and the callee's walk leaves the arguments alone. */
  lemma CallOutsideChain(cfg: Config, n: Node, force: bool, isChain: bool, st: TreeState)
    requires n.kind.CallExpr? && Apart(n.kind.args)
    requires forall i :: 0 <= i < |n.kind.args| ==> n.kind.args[i].id !in Below(n.kind.fun)
    requires !(n.kind.fun.kind.SelectorExpr? && (force || Annotation.HasRecursive(n)) && cfg.chainSplitDots &&
               (isChain || ChainLength(n) > 1))
    ensures var r, args := FormatExpr(cfg, n, force, isChain, st), n.kind.args;
      ((force || Annotation.HasRecursive(n)) ==> LaidOut(r, args)) &&
      (!(force || Annotation.HasRecursive(n)) ==>
         forall i :: 0 <= i < |args| ==> BeforeOf(r, args[i].id) == BeforeOf(st, args[i].id))
  {
    var fun, args := n.kind.fun, n.kind.args;
    var shorten, shortenChildArgs := force || Annotation.Has(n), force || Annotation.HasRecursive(n);
    var s1 := CallArgs(cfg, args, shortenChildArgs, isChain, st);
    CallOutsideChainSteps(cfg, n, force, isChain, st);
    if shortenChildArgs {
      CallArgsLaidOut(cfg, args, isChain, st);
    } else {
      CallArgsKeepBefore(cfg, args, isChain, st);
    }
    ExprConfined(cfg, fun, shorten, isChain, s1);
  }

  // ---------------------------------------------------------------------------------------
  // Composite literals

  lemma {:induction false} MarkElementsLayout(cfg: Config, elts: seq<Node>, st: TreeState)
    ensures var r := MarkElements(cfg, elts, st);
      (forall i :: 0 <= i < |elts| ==> AfterOf(r, elts[i].id) == NewLine) &&
      (elts != [] ==> BeforeOf(r, elts[0].id) == NewLine)
    decreases |elts|
  {
    if elts != [] {
      var init, last := elts[..|elts| - 1], elts[|elts| - 1];
      MarkElementsLayout(cfg, init, st);
      assert forall i :: 0 <= i < |init| ==> init[i] == elts[i];
    }
  }

  /** A composite literal under shortening: a line break before the first element and after
      every element; the walk of the elements, unforced, keeps those breaks. */
  lemma CompositeLitBreaks(cfg: Config, n: Node, force: bool, isChain: bool, st: TreeState)
    requires n.kind.CompositeLit? && (force || Annotation.Has(n))
    requires n.kind.elts != [] ==> n.kind.elts[0].id !in BelowEach(n.kind.elts)
    ensures var r, elts := FormatExpr(cfg, n, force, isChain, st), n.kind.elts;
      (forall i :: 0 <= i < |elts| ==> AfterOf(r, elts[i].id) == NewLine) &&
      (elts != [] ==> BeforeOf(r, elts[0].id) == NewLine)
  {
    var elts := n.kind.elts;
    var s1 := MarkElements(cfg, elts, st);
    assert FormatExpr(cfg, n, force, isChain, st) == FormatExprs(cfg, elts, false, isChain, s1);
    MarkElementsLayout(cfg, elts, st);
    ExprsConfined(cfg, elts, false, isChain, s1);
  }

  /** The elements after the first keep their own Before: marking writes only the first. */
  lemma {:induction false} MarkElementsKeepsLaterBefore(cfg: Config, elts: seq<Node>, st: TreeState)
    ensures forall i :: 0 < i < |elts| && elts[i].id != elts[0].id ==>
      BeforeOf(MarkElements(cfg, elts, st), elts[i].id) == BeforeOf(st, elts[i].id)
    decreases |elts|
  {
    if elts != [] {
      var k := |elts| - 1;
      var init, last := elts[..k], elts[k];
      var s1 := MarkElements(cfg, init, st);
      var r := MarkElements(cfg, elts, st);
      MarkElementsKeepsLaterBefore(cfg, init, st);
      forall i | 0 < i < |elts| && elts[i].id != elts[0].id
        ensures BeforeOf(r, elts[i].id) == BeforeOf(st, elts[i].id)
      {
        if k == 0 {
          assert false;
        } else {
          assert r == SetAfter(s1, last.id, NewLine);
          if i < k {
            assert init[i] == elts[i] && init[0] == elts[0];
          } else {
            assert BeforeOf(s1, last.id) == BeforeOf(st, last.id) by {
              assert forall j :: 0 <= j < k ==> init[j] == elts[j];
              MarkElementsFrame(cfg, init, st, last.id);
            }
          }
        }
      }
    }
  }

  /** Marking writes Before only on the first element. */
  lemma {:induction false} MarkElementsFrame(cfg: Config, elts: seq<Node>, st: TreeState, id: NodeId)
    requires elts == [] || id != elts[0].id
    ensures BeforeOf(MarkElements(cfg, elts, st), id) == BeforeOf(st, id)
    decreases |elts|
  {
    if elts != [] {
      var init := elts[..|elts| - 1];
      assert init != [] ==> init[0] == elts[0];
      MarkElementsFrame(cfg, init, st, id);
    }
  }

  // ---------------------------------------------------------------------------------------
  // Declarations, bodies, and what is left alone

  /** A function declaration: its parameters are laid out one per line when the declaration
      is marked through HasRecursive, and otherwise only its body is walked. */
  lemma FuncDeclLayout(cfg: Config, n: Node, st: TreeState)
    requires n.kind.FuncDecl?
    ensures var r, funcType, body := FormatDecl(cfg, n, st), n.kind.funcType, n.kind.funcBody;
      (!Annotation.HasRecursive(n) ==> r == if body.Some? then FormatStmt(cfg, body.value, false, st) else st) &&
      (Annotation.HasRecursive(n) && funcType.kind.FuncType? && Apart(funcType.kind.params) &&
       (body.Some? ==> forall i :: 0 <= i < |funcType.kind.params| ==> funcType.kind.params[i].id !in Below(body.value))
       ==> LaidOut(r, funcType.kind.params))
  {
    var funcType, body := n.kind.funcType, n.kind.funcBody;
    if Annotation.HasRecursive(n) && funcType.kind.FuncType? && Apart(funcType.kind.params) {
      var params := funcType.kind.params;
      var s1 := FormatFieldList(cfg, params, st);
      FieldListLaidOut(cfg, params, st);
      if body.Some? {
        StmtConfined(cfg, body.value, false, s1);
      }
    }
  }

  /** Forcing never crosses a block boundary: the bodies of blocks, clauses, loops, selects,
      switches and function literals are walked the same whether or not the caller forces. */
  lemma BodiesIgnoreForce(cfg: Config, n: Node, st: TreeState)
    ensures (n.kind.BlockStmt? || n.kind.CommClause? || n.kind.ForStmt? || n.kind.RangeStmt? ||
             n.kind.SelectStmt? || n.kind.SwitchStmt?) ==>
      FormatStmt(cfg, n, true, st) == FormatStmt(cfg, n, false, st)
    ensures n.kind.FuncLit? ==>
      FormatExpr(cfg, n, true, true, st) == FormatExpr(cfg, n, false, false, st) == FormatStmt(cfg, n.kind.body, false, st)
  {
  }

  /** A general declaration forces its specs exactly when it is marked itself. */
  lemma GenDeclForcesSpecs(cfg: Config, n: Node, st: TreeState)
    requires n.kind.GenDecl?
    ensures FormatDecl(cfg, n, st) == FormatSpecs(cfg, n.kind.specs, Annotation.Has(n), st)
  {
  }

  /** Node kinds the walk does not handle are left as they are. */
  lemma UnhandledUnchanged(cfg: Config, n: Node, st: TreeState)
    requires n.kind.BadDecl? || n.kind.Field? || n.kind.OtherStmt? || n.kind.Ident? ||
             n.kind.OtherExpr? || n.kind.ImportSpec?
    ensures FormatNode(cfg, n, st) == st
  {
  }

  /** The else branch of an if statement is not walked. */
  lemma ElseNotWalked(cfg: Config, n: Node, force: bool, st: TreeState)
    requires n.kind.IfStmt?
    ensures FormatStmt(cfg, n, force, st) == FormatStmt(cfg, n.(kind := n.kind.(els := None)), force, st)
  {
  }

  // ---------------------------------------------------------------------------------------
  // chainLength

  /** The call reached from `call` by following `k` links Fun=Selector, Selector.X=Call. */
  ghost predicate HasLinks(call: Node, k: nat)
    decreases k
  {
    call.kind.CallExpr? &&
    (k == 0 ||
     (call.kind.fun.kind.SelectorExpr? && call.kind.fun.kind.x.kind.CallExpr? && HasLinks(call.kind.fun.kind.x, k - 1)))
  }

  /** chainLength is one more than the number of consecutive links from the call: that many
      links exist and one more does not. */
  lemma {:induction false} ChainLengthCountsLinks(call: Node)
    requires call.kind.CallExpr?
    ensures HasLinks(call, ChainLength(call) - 1) && !HasLinks(call, ChainLength(call))
    decreases call
  {
    var fun := call.kind.fun;
    if fun.kind.SelectorExpr? && fun.kind.x.kind.CallExpr? {
      ChainLengthCountsLinks(fun.kind.x);
    }
  }
}
