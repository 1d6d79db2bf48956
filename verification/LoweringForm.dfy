// The emitted graph is well formed: every block gets a terminator, and every branch goes to a block of the function.
module LoweringForm {
  import opened Options
  import opened SourceLang
  import opened BlockGraph
  import opened Lowering
  import opened LoweringSim
  import opened LoweringFunc

  predicate InRange(t: Term, n: nat)
  {
    match t
    case Br(to) => to < n
    case CondBr(_, yes, no) => yes < n && no < n
    case _ => true
  }

  predicate Targets(g: Graph)
  {
    forall b :: 0 <= b < |g| ==> InRange(g[b].term, |g|)
  }

  /** Of the blocks that are open in v, apart from the current one, those outside `waiting` were open in u already. */
  ghost predicate Sealed(u: Code, v: Code, waiting: set<nat>)
  {
    && |u.blocks| <= |v.blocks| && Targets(v.blocks)
    && forall b: nat {:trigger v.blocks[b]} :: b < |v.blocks| && v.blocks[b].term.Open? && b != v.cur && b !in waiting
                                               ==> b < |u.blocks| && b != u.cur && u.blocks[b].term.Open?
  }

  // ---- One step ----

  lemma SealAdd(u: Code, v: Code, i: Instr, waiting: set<nat>)
    requires In(v) && Sealed(u, v, waiting)
    ensures Sealed(u, Add(v, i), waiting) && Sealed(u, Emit(v, i), waiting)
  {
  }

  lemma SealNew(u: Code, v: Code, n: nat, waiting: set<nat>, more: set<nat>)
    requires Sealed(u, v, waiting) && waiting <= more && forall b: nat :: |v.blocks| <= b < |v.blocks| + n ==> b in more
    ensures Sealed(u, NewBlocks(v, n), more)
  {
    var x := NewBlocks(v, n);
    forall b | 0 <= b < |x.blocks|
      ensures InRange(x.blocks[b].term, |x.blocks|)
    {
      if b < |v.blocks| {
        assert InRange(v.blocks[b].term, |v.blocks|);
      }
    }
  }

  /** The current block is closed, and block b becomes current. */
  lemma SealTurn(u: Code, v: Code, t: Term, b: nat, waiting: set<nat>, rest: set<nat>)
    requires In(v) && Sealed(u, v, waiting) && !t.Open? && InRange(t, |v.blocks|) && waiting <= rest + {b}
    ensures Sealed(u, Go(End(v, t), b), rest)
  {
  }

  lemma SealTrans(u: Code, v: Code, x: Code, waiting: set<nat>)
    requires Sealed(u, v, waiting) && Sealed(v, x, {})
    ensures Sealed(u, x, waiting)
  {
  }

  /** A body that has ended falls to block `to`, and block b becomes current. */
  lemma SealFall(u: Code, v: Code, to: nat, b: nat, waiting: set<nat>, rest: set<nat>)
    requires In(v) && Sealed(u, v, waiting) && to < |v.blocks| && waiting <= rest + {b}
    ensures Sealed(u, Go(Fall(v, to), b), rest)
  {
    if v.blocks[v.cur].term.Open? {
      SealTurn(u, v, Br(to), b, waiting, rest);
    }
  }

  // ---- Expressions ----

  lemma {:induction false} ExprSealed(e: Expr, tree: Tree, u: Code)
    requires Ready(u) && LowerExpr(e, tree, u).ExprCode? && Targets(u.blocks)
    ensures Sealed(u, LowerExpr(e, tree, u).u, {})
    decreases e
  {
    hide Keeps, NewCur, Targets;
    match e
    case Num(v) => SealAdd(u, u, Const(u.next, v), {});
    case Sym(_) =>
    case Bin(op, l, r) =>
      var a := LowerExpr(l, tree, u);
      ExprSealed(l, tree, u);
      ExprSealed(r, tree, a.u);
      var b := LowerExpr(r, tree, a.u);
      SealTrans(u, a.u, b.u, {});
      SealAdd(u, b.u, Op(b.u.next, op, a.cell, b.cell), {});
    case Logic(_, _, _) => LogicSealed(e, tree, u);
    case Not(x) =>
      var a := LowerExpr(x, tree, u);
      ExprSealed(x, tree, u);
      SealAdd(u, a.u, Test(a.u.next, a.cell), {});
      var t := Add(a.u, Test(a.u.next, a.cell));
      SealAdd(u, t, Flip(t.next, a.u.next), {});
  }

  lemma {:induction false} LogicSealed(e: Expr, tree: Tree, u: Code)
    requires Ready(u) && LowerExpr(e, tree, u).ExprCode? && Targets(u.blocks) && e.Logic?
    ensures Sealed(u, LowerExpr(e, tree, u).u, {})
    decreases e, 0
  {
    hide Keeps, NewCur, Targets, Sealed, LowerExpr, Parked;
    LogicShape(e, tree, u);
    var a := LowerExpr(e.l, tree, u);
    var i := Test(a.u.next, a.cell);
    var t := Add(a.u, i);
    var n := |t.blocks|;
    var f := Fork(t, a.u.next, e.both);
    var b := LowerExpr(e.r, tree, f);
    ExprSealed(e.l, tree, u);
    SealAdd(u, a.u, i, {});
    SealNew(u, t, 2, {}, {n, n + 1});
    SealTurn(u, NewBlocks(t, 2), if e.both then CondBr(a.u.next, n, n + 1) else CondBr(a.u.next, n + 1, n), n,
             {n, n + 1}, {n + 1});
    TargetsOf(u, f, {n + 1});
    ExprSealed(e.r, tree, f);
    SealTrans(u, f, b.u, {n + 1});
    SealAdd(u, b.u, Test(b.u.next, b.cell), {n + 1});
    var r := Add(b.u, Test(b.u.next, b.cell));
    SealTurn(u, r, Br(n + 1), n + 1, {n + 1}, {});
    var j := Go(End(r, Br(n + 1)), n + 1);
    SealAdd(u, j, Phi(j.next, t.cur, Bool(!e.both), r.cur, b.u.next), {});
  }

  lemma TargetsOf(u: Code, v: Code, waiting: set<nat>)
    requires Sealed(u, v, waiting)
    ensures Targets(v.blocks) && |u.blocks| <= |v.blocks|
  {
  }

  // ---- Statements ----

  /** Every loop end is a block. */
  ghost predicate Ends(loops: seq<nat>, u: Code)
  {
    forall i :: 0 <= i < |loops| ==> loops[i] < |u.blocks|
  }

  lemma {:induction false} StmtSealed(rt: Result, s: Stmt, tree: Tree, loops: seq<nat>, u: Code)
    requires Ready(u) && tree != [] && LowerStmt(rt, s, tree, loops, u).StmtCode? && Targets(u.blocks) && Ends(loops, u)
    ensures Sealed(u, LowerStmt(rt, s, tree, loops, u).u, {})
    decreases s, 1
  {
    hide Keeps, NewCur, Targets, LowerExpr, Parked, LowerWhile, LowerFor, LowerIf;
    match s
    case Decl(_, ty, init) =>
      if init.None? {
        SealAdd(u, u, Const(u.next, 0), {});
      } else {
        var a := LowerExpr(init.value, tree, u);
        ExprSealed(init.value, tree, u);
        SealAdd(u, a.u, Cast(a.u.next, ty, a.cell), {});
      }
    case Assign(x, e) =>
      var a := LowerExpr(e, tree, u);
      var slot := tree[Depth(tree, x)][x];
      ExprSealed(e, tree, u);
      SealAdd(u, a.u, Cast(a.u.next, slot.ty, a.cell), {});
      SealAdd(u, Add(a.u, Cast(a.u.next, slot.ty, a.cell)), Move(slot.cell, a.u.next), {});
    case Eval(e) => ExprSealed(e, tree, u);
    case If(arm) => IfSealed(rt, arm, None, tree, loops, u, u, {});
    case While(_, _) => WhileSealed(rt, s, tree, loops, u);
    case Foreach(_, _, _, _) => ForSealed(rt, s, tree, loops, u);
    case Break => SealTurn(u, u, Br(loops[|loops| - 1]), u.cur, {}, {});
    case Return(e) =>
      var a := LowerExpr(e, tree, u);
      ExprSealed(e, tree, u);
      if rt.None? {
        SealTurn(u, a.u, RetVoid, a.u.cur, {}, {});
      } else {
        SealAdd(u, a.u, Cast(a.u.next, rt.value, a.cell), {});
        SealTurn(u, Add(a.u, Cast(a.u.next, rt.value, a.cell)), Ret(a.u.next), a.u.cur, {}, {});
      }
  }

  lemma {:induction false} ListSealed(rt: Result, l: Stmts, tree: Tree, loops: seq<nat>, u: Code)
    requires Ready(u) && tree != [] && LowerList(rt, l, tree, loops, u).StmtCode? && Targets(u.blocks) && Ends(loops, u)
    ensures Sealed(u, LowerList(rt, l, tree, loops, u).u, {})
    decreases l, 1
  {
    hide Keeps, NewCur, Targets, LowerStmt;
    match l
    case Nil =>
    case Cons(s, rest) =>
      var a := LowerStmt(rt, s, tree, loops, u);
      StmtSealed(rt, s, tree, loops, u);
      if !s.Break? && !s.Return? {
        ListSealed(rt, rest, a.tree, loops, a.u);
        SealTrans(u, a.u, LowerList(rt, rest, a.tree, loops, a.u).u, {});
      }
  }

  /** A body lowered from v, as part of what was begun at u. */
  lemma {:induction false} BodySealed(rt: Result, l: Stmts, tree: Tree, loops: seq<nat>, u: Code, v: Code,
                                      waiting: set<nat>)
    requires Ready(v) && LowerBlock(rt, l, tree, loops, v).StmtCode? && Ends(loops, v) && Sealed(u, v, waiting)
    ensures Sealed(u, LowerBlock(rt, l, tree, loops, v).u, waiting)
    decreases l, 2
  {
    hide Keeps, NewCur, Targets, LowerList;
    ListSealed(rt, l, tree + [map[]], loops, v);
    SealTrans(u, v, LowerBlock(rt, l, tree, loops, v).u, waiting);
  }

  /** A condition and the branch on it; block `next` becomes current. */
  lemma TestSealed(e: Expr, tree: Tree, u: Code, v: Code, more: nat, yes: nat, no: nat, next: nat, waiting: set<nat>,
                   rest: set<nat>)
    requires Ready(v) && LowerExpr(e, tree, v).ExprCode? && Sealed(u, v, waiting)
    requires var c := LowerExpr(e, tree, v).u;
             && yes < |c.blocks| + more && no < |c.blocks| + more
             && waiting <= rest + {next} && forall b: nat :: |c.blocks| <= b < |c.blocks| + more ==> b in rest + {next}
    ensures var c := LowerExpr(e, tree, v);
            var t := Add(c.u, Test(c.u.next, c.cell));
            Sealed(u, Go(End(NewBlocks(t, more), CondBr(c.u.next, yes, no)), next), rest)
  {
    hide Keeps, NewCur, Targets, Sealed, LowerExpr;
    var c := LowerExpr(e, tree, v);
    var t := Add(c.u, Test(c.u.next, c.cell));
    TargetsOf(u, v, waiting);
    ExprSealed(e, tree, v);
    SealTrans(u, v, c.u, waiting);
    SealAdd(u, c.u, Test(c.u.next, c.cell), waiting);
    SealNew(u, t, more, waiting, rest + {next});
    SealTurn(u, NewBlocks(t, more), CondBr(c.u.next, yes, no), next, rest + {next}, rest);
  }

  lemma {:induction false} IfSealed(rt: Result, arm: Arm, end: Option<nat>, tree: Tree, loops: seq<nat>, u: Code,
                                    v: Code, waiting: set<nat>)
    requires Ready(v) && (end.Some? ==> Parked(v, end.value)) && LowerIf(rt, arm, end, tree, loops, v).StmtCode?
    requires Sealed(u, v, waiting) && Ends(loops, v)
    ensures Sealed(u, LowerIf(rt, arm, end, tree, loops, v).u, waiting - {EndOf(v, end)})
    decreases arm, 3
  {
    hide Keeps, NewCur, Targets, Sealed, LowerExpr, LowerBlock, LowerAlt, LowerTest;
    var n := |v.blocks|;
    var e := EndOf(v, end);
    var v1 := NewBlocks(v, if end.None? then 2 else 1);
    var rest := waiting - {e};
    TestShape(arm, end, tree, v);
    IfShape(rt, arm, end, tree, loops, v);
    SealNew(u, v, if end.None? then 2 else 1, waiting, rest + {n, e});
    var c := LowerExpr(arm.c, tree, v1);
    NextMore(v1, c.u);
    var d := LowerTest(arm, end, tree, v);
    var open := if arm.alt.NoElse? then rest + {e} else rest + {e, d.els};
    if arm.alt.NoElse? {
      TestSealed(arm.c, tree, u, v1, 0, n, e, n, rest + {n, e}, open);
      assert NewBlocks(Add(c.u, Test(c.u.next, c.cell)), 0) == Add(c.u, Test(c.u.next, c.cell));
    } else {
      TestSealed(arm.c, tree, u, v1, 1, n, d.els, n, rest + {n, e}, open);
    }
    NextMore(v, d.u);
    BodySealed(rt, arm.body, tree, loops, u, d.u, open);
    var b := LowerBlock(rt, arm.body, tree, loops, d.u).u;
    NextMore(d.u, b);
    if arm.alt.NoElse? {
      SealFall(u, b, e, e, open, rest);
    } else {
      SealFall(u, b, e, d.els, open, rest + {e});
      AltSealed(rt, arm.alt, e, tree, loops, Go(Fall(b, e), d.els), v, u, rest + {e}, rest);
    }
  }

  lemma IfShape(rt: Result, arm: Arm, end: Option<nat>, tree: Tree, loops: seq<nat>, u: Code)
    requires Ready(u) && (end.Some? ==> Parked(u, end.value)) && LowerIf(rt, arm, end, tree, loops, u).StmtCode?
    ensures LowerTest(arm, end, tree, u).Split?
    ensures var d := LowerTest(arm, end, tree, u); var e := EndOf(u, end);
            && LowerBlock(rt, arm.body, tree, loops, d.u).StmtCode?
            && var b := LowerBlock(rt, arm.body, tree, loops, d.u);
            && Parked(Fall(b.u, e), e) && Moves(d.u, b.u)
            && (!arm.alt.NoElse? ==>
                  var v := Go(Fall(b.u, e), d.els);
                  && Ready(v) && Parked(v, e) && Moves(u, v)
                  && LowerIf(rt, arm, end, tree, loops, u) == LowerAlt(rt, arm.alt, e, tree, loops, v, u))
  {
    hide LowerExpr, LowerTest, LowerBlock, LowerAlt, Keeps, Extends, NewCur, Parked;
    var d := LowerTest(arm, end, tree, u);
    var e := EndOf(u, end);
    var b := LowerBlock(rt, arm.body, tree, loops, d.u);
    BodyKeeps(u, d.u, b.u, e);
    if !arm.alt.NoElse? {
      ElseKeeps(u, d.u, Fall(b.u, e), e, d.els);
    }
  }

  lemma {:induction false} AltSealed(rt: Result, alt: Alt, e: nat, tree: Tree, loops: seq<nat>, v: Code, u0: Code,
                                     u: Code, waiting: set<nat>, rest: set<nat>)
    requires Ready(v) && Parked(v, e) && In(u0) && Moves(u0, v) && !alt.NoElse? && Ends(loops, v)
    requires LowerAlt(rt, alt, e, tree, loops, v, u0).StmtCode? && Sealed(u, v, waiting) && waiting <= rest + {e}
    ensures Sealed(u, LowerAlt(rt, alt, e, tree, loops, v, u0).u, rest)
    decreases alt, 4
  {
    hide Keeps, NewCur, Targets, LowerBlock, LowerIf;
    match alt
    case Else(body) =>
      BodySealed(rt, body, tree, loops, u, v, waiting);
      var x := LowerBlock(rt, body, tree, loops, v);
      NextMore(v, x.u);
      SealFall(u, x.u, e, e, waiting, rest);
    case ElseIf(arm) =>
      IfSealed(rt, arm, Some(e), tree, loops, u, v, waiting);
  }

  lemma {:induction false} WhileSealed(rt: Result, s: Stmt, tree: Tree, loops: seq<nat>, u: Code)
    requires Ready(u) && s.While? && LowerWhile(rt, s, tree, loops, u).StmtCode? && Targets(u.blocks) && Ends(loops, u)
    ensures Sealed(u, LowerWhile(rt, s, tree, loops, u).u, {})
    decreases s, 0
  {
    hide Keeps, NewCur, LowerExpr, LowerBlock, Extends, LowerWhile;
    var n := |u.blocks|;
    var inner := tree + [map[]];
    WhileParts(rt, s, tree, loops, u);
    SealNew(u, u, 3, {}, {n, n + 1, n + 2});
    SealTurn(u, NewBlocks(u, 3), Br(n), n, {n, n + 1, n + 2}, {n + 1, n + 2});
    var h := WhileHead(u);
    var c := LowerExpr(s.c, inner, h);
    NextMore(h, c.u);
    TestSealed(s.c, inner, u, h, 0, n + 1, n + 2, n + 1, {n + 1, n + 2}, {n + 2});
    assert NewBlocks(Add(c.u, Test(c.u.next, c.cell)), 0) == Add(c.u, Test(c.u.next, c.cell));
    var d := WhileTest(c.u, c.cell, n);
    BodySealed(rt, s.body, inner, loops + [n + 2], u, d, {n + 2});
    var b := LowerBlock(rt, s.body, inner, loops + [n + 2], d);
    NextMore(d, b.u);
    SealFall(u, b.u, n, n + 2, {n + 2}, {});
  }

  lemma WhileParts(rt: Result, s: Stmt, tree: Tree, loops: seq<nat>, u: Code)
    requires Ready(u) && s.While? && LowerWhile(rt, s, tree, loops, u).StmtCode?
    ensures var n := |u.blocks|; var inner := tree + [map[]]; var c := LowerExpr(s.c, inner, WhileHead(u));
            && c.ExprCode? && var d := WhileTest(c.u, c.cell, n);
            && Ready(d) && n + 3 <= |d.blocks| && var b := LowerBlock(rt, s.body, inner, loops + [n + 2], d);
            b.StmtCode? && LowerWhile(rt, s, tree, loops, u) == StmtCode(Go(Fall(b.u, n), n + 2), tree)
  {
    hide LowerExpr, LowerBlock, Extends;
    WhileKeeps(u, LowerExpr(s.c, tree + [map[]], WhileHead(u)).u, LowerExpr(s.c, tree + [map[]], WhileHead(u)).cell);
  }

  lemma {:induction false} ForSealed(rt: Result, s: Stmt, tree: Tree, loops: seq<nat>, u: Code)
    requires Ready(u) && s.Foreach? && LowerFor(rt, s, tree, loops, u).StmtCode? && Targets(u.blocks) && Ends(loops, u)
    ensures Sealed(u, LowerFor(rt, s, tree, loops, u).u, {})
    decreases s, 0
  {
    hide Keeps, NewCur, LowerExpr, LowerBlock, Extends, LowerBounds, Targets;
    var b := LowerBounds(s, tree, u);
    var n := |b.u.blocks|;
    BoundsSealed(s, tree, u);
    NextMore(u, b.u);
    SealNew(u, b.u, 4, {}, {n, n + 1, n + 2, n + 3});
    SealTurn(u, NewBlocks(b.u, 4), Br(n), n, {n, n + 1, n + 2, n + 3}, {n + 1, n + 2, n + 3});
    var h := Go(End(NewBlocks(b.u, 4), Br(n)), n);
    SealAdd(u, h, Less(h.next, b.i, b.hi), {n + 1, n + 2, n + 3});
    SealTurn(u, Add(h, Less(h.next, b.i, b.hi)), CondBr(h.next, n + 1, n + 3), n + 1, {n + 1, n + 2, n + 3},
             {n + 2, n + 3});
    var d := ForTest(b.u, b.i, b.hi);
    ForKeeps(u, b.u, b.i, b.hi);
    var inner := Indexed(tree, s.name, b.i);
    BodySealed(rt, s.body, inner, loops + [n + 3], u, d, {n + 2, n + 3});
    var x := LowerBlock(rt, s.body, inner, loops + [n + 3], d);
    NextMore(d, x.u);
    SealFall(u, x.u, n + 2, n + 2, {n + 2, n + 3}, {n + 3});
    var f := Go(Fall(x.u, n + 2), n + 2);
    SealAdd(u, f, Inc(b.i, b.i), {n + 3});
    SealTurn(u, Emit(f, Inc(b.i, b.i)), Br(n), n + 3, {n + 3}, {});
  }

  lemma BoundsSealed(s: Stmt, tree: Tree, u: Code)
    requires Ready(u) && s.Foreach? && LowerBounds(s, tree, u).Bounds? && Targets(u.blocks)
    ensures Sealed(u, LowerBounds(s, tree, u).u, {})
  {
    hide Keeps, NewCur, LowerExpr, Targets;
    var a := LowerExpr(s.lo, tree + [map[]], u);
    var lo := Add(a.u, Cast(a.u.next, INT, a.cell));
    ExprSealed(s.lo, tree + [map[]], u);
    SealAdd(u, a.u, Cast(a.u.next, INT, a.cell), {});
    var b := LowerExpr(s.hi, Indexed(tree, s.name, a.u.next), lo);
    ExprSealed(s.hi, Indexed(tree, s.name, a.u.next), lo);
    SealTrans(u, lo, b.u, {});
    SealAdd(u, b.u, Cast(b.u.next, INT, b.cell), {});
  }

  // ---- Functions ----

  /** A return is among the statements themselves, not only inside one of them. */
  predicate HasReturn(l: Stmts)
  {
    l.Cons? && (l.s.Return? || HasReturn(l.rest))
  }

  /** Outside loops lowering stops at the first such return and nowhere else. */
  lemma {:induction false} ListReady(rt: Result, l: Stmts, tree: Tree, u: Code)
    requires Ready(u) && tree != [] && LowerList(rt, l, tree, [], u).StmtCode?
    ensures Ready(LowerList(rt, l, tree, [], u).u) <==> !HasReturn(l)
    decreases l
  {
    hide Keeps, NewCur, LowerExpr, LowerIf, LowerWhile, LowerFor;
    match l
    case Nil =>
    case Cons(s, rest) =>
      if !s.Return? && !s.Break? {
        var a := LowerStmt(rt, s, tree, [], u);
        ListReady(rt, rest, a.tree, a.u);
      }
  }

  /** Every branch of a function stays in it, and every block has a terminator if and only if the function has no return
      type or a return is among the statements of its body; otherwise exactly the block at which lowering ended is open,
      even where every way through the body returns. */
  lemma FuncSealed(rt: Result, scope: map<string, Slot>, n: nat, body: Stmts)
    requires LowerFunc(rt, scope, n, body).StmtCode?
    ensures var u := LowerFunc(rt, scope, n, body).u;
            && In(u) && Targets(u.blocks)
            && forall b :: 0 <= b < |u.blocks| ==>
                 (u.blocks[b].term.Open? <==> b == u.cur && rt.Some? && !HasReturn(body))
  {
    hide LowerBlock;
    var u := Entry(n);
    var c := LowerBlock(rt, body, [scope], [], u);
    BodySealed(rt, body, [scope], [], u, u, {});
    BodyReady(rt, body, scope, u);
    var v := Close(rt, c.u);
    forall b | 0 <= b < |v.blocks|
      ensures InRange(v.blocks[b].term, |v.blocks|)
      ensures v.blocks[b].term.Open? <==> b == v.cur && rt.Some? && !HasReturn(body)
    {
      assert InRange(c.u.blocks[b].term, |c.u.blocks|);
    }
  }

  lemma BodyReady(rt: Result, body: Stmts, scope: map<string, Slot>, u: Code)
    requires Ready(u) && LowerBlock(rt, body, [scope], [], u).StmtCode?
    ensures Ready(LowerBlock(rt, body, [scope], [], u).u) <==> !HasReturn(body)
  {
    hide LowerList;
    ListReady(rt, body, [scope] + [map[]], u);
  }
}
