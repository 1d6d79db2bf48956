// Lowering of statements to basic blocks, as functions: what the handlers of `BlockHandler.dfy` compute.
module Lowering {
  import opened Options
  import opened SourceLang
  import opened BlockGraph

  /** The function being built: its blocks, the next unused cell and the block that instructions go to. */
  datatype Code = Code(blocks: Graph, next: nat, cur: nat)

  datatype Slot = Slot(ty: string, cell: nat)

  type Tree = seq<map<string, Slot>>

  datatype Abort = UnknownVariable | VariableRedeclaration | InvalidBreakStatement

  datatype ExprCode = NoExpr(why: Abort) | ExprCode(u: Code, cell: nat)

  datatype StmtCode = NoStmt(why: Abort) | StmtCode(u: Code, tree: Tree)

  predicate In(u: Code)
  {
    u.cur < |u.blocks|
  }

  /** Instructions can be added. */
  predicate Ready(u: Code)
  {
    In(u) && u.blocks[u.cur].term.Open?
  }

  // ---- Building blocks ----

  /** Adds an instruction that defines the next cell. */
  function Add(u: Code, i: Instr): Code
    requires In(u)
  {
    Emit(u, i).(next := u.next + 1)
  }

  function Emit(u: Code, i: Instr): Code
    requires In(u)
  {
    u.(blocks := u.blocks[u.cur := u.blocks[u.cur].(code := u.blocks[u.cur].code + [i])])
  }

  function End(u: Code, t: Term): Code
    requires In(u)
  {
    u.(blocks := u.blocks[u.cur := u.blocks[u.cur].(term := t)])
  }

  function NewBlocks(u: Code, n: nat): Code
  {
    u.(blocks := u.blocks + seq(n, _ => Block([], Open)))
  }

  function Go(u: Code, b: nat): Code
  {
    u.(cur := b)
  }

  /** Ends the current block with a jump unless it has been ended already. */
  function Fall(u: Code, to: nat): Code
    requires In(u)
  {
    if u.blocks[u.cur].term.Open? then End(u, Br(to)) else u
  }

  // ---- What lowering keeps ----

  ghost predicate Extends(a: Block, b: Block)
  {
    if a.term.Open? then a.code <= b.code else a == b
  }

  /** From u to v only the current block of u and new blocks have changed. */
  ghost predicate Keeps(u: Code, v: Code)
  {
    && |u.blocks| <= |v.blocks| && u.next <= v.next
    && (forall b {:trigger v.blocks[b]} :: 0 <= b < |u.blocks| && b != u.cur ==> v.blocks[b] == u.blocks[b])
    && (In(u) ==> Extends(u.blocks[u.cur], v.blocks[u.cur]))
  }

  ghost predicate NewCur(u: Code, v: Code)
  {
    v.cur == u.cur || v.cur >= |u.blocks|
  }

  lemma KeepsTrans(u: Code, v: Code, x: Code)
    requires Keeps(u, v) && NewCur(u, v) && Keeps(v, x) && In(u) && In(v)
    ensures Keeps(u, x)
  {
  }

  lemma NextMore(u: Code, v: Code)
    requires Keeps(u, v)
    ensures u.next <= v.next && |u.blocks| <= |v.blocks|
  {
  }

  /** An open block is extended by closing it. */
  lemma KeepsEnd(u: Code, v: Code, t: Term)
    requires Ready(v) && In(u) && (u == v || (Keeps(u, v) && NewCur(u, v)))
    ensures Keeps(u, End(v, t))
  {
  }

  /** Lowering has gone on from u to v. */
  ghost predicate Moves(u: Code, v: Code)
  {
    In(v) && Keeps(u, v) && NewCur(u, v)
  }

  /** Lowering has gone on from u and can go on from v. */
  ghost predicate Grows(u: Code, v: Code)
  {
    Ready(v) && Keeps(u, v) && NewCur(u, v)
  }

  lemma MovesTrans(u: Code, v: Code, x: Code)
    requires In(u) && Moves(u, v) && Moves(v, x)
    ensures Moves(u, x)
  {
  }

  lemma GrowsTrans(u: Code, v: Code, x: Code)
    requires In(u) && Grows(u, v) && Grows(v, x)
    ensures Grows(u, x)
  {
  }

  lemma GrowsAdd(u: Code, v: Code, i: Instr)
    requires Ready(u) && (u == v || Grows(u, v))
    ensures Grows(u, Add(v, i)) && Grows(u, Emit(v, i))
  {
  }

  lemma MovesEnd(u: Code, v: Code, t: Term)
    requires In(u) && Grows(u, v)
    ensures Moves(u, End(v, t))
  {
  }

  lemma MovesFall(u: Code, v: Code, to: nat)
    requires In(u) && Moves(u, v)
    ensures Moves(u, Fall(v, to))
  {
  }

  lemma MovesGo(u: Code, v: Code, b: nat)
    requires In(u) && Moves(u, v) && |u.blocks| <= b < |v.blocks|
    ensures Moves(u, Go(v, b))
  {
  }

  /** Block b waits, empty, for lowering to come to it. */
  ghost predicate Parked(u: Code, b: nat)
  {
    b < |u.blocks| && u.blocks[b] == Block([], Open) && b != u.cur
  }

  lemma StaysParked(u: Code, v: Code, b: nat)
    requires Moves(u, v) && Parked(u, b)
    ensures Parked(v, b)
  {
  }

  // ---- Expressions ----

  /** Two new blocks for a short-circuit operator: the right operand's and the one where both ways meet. */
  function Fork(u: Code, c: nat, onTrue: bool): Code
    requires In(u)
  {
    var n := |u.blocks|;
    Go(End(NewBlocks(u, 2), if onTrue then CondBr(c, n, n + 1) else CondBr(c, n + 1, n)), n)
  }

  /** Joins the right operand's last block with the block that skipped it, which stands for value v. */
  function Join(u: Code, left: nat, v: Value, c: nat, end: nat): Code
    requires Ready(u) && end < |u.blocks|
  {
    var r := Add(u, Test(u.next, c));
    var j := Go(End(r, Br(end)), end);
    Add(j, Phi(j.next, left, v, r.cur, u.next))
  }

  /** `logicalAnd` and `logicalOr`. */
  function ShortCircuit(e: Expr, tree: Tree, u: Code): (c: ExprCode)
    requires Ready(u) && e.Logic?
    ensures c.ExprCode? ==> Grows(u, c.u)
    decreases e, 0
  {
    var a := LowerExpr(e.l, tree, u);
    if a.NoExpr? then a else
    GrowsAdd(u, a.u, Test(a.u.next, a.cell));
    var t := Add(a.u, Test(a.u.next, a.cell));
    var f := Fork(t, a.u.next, e.both);
    var b := LowerExpr(e.r, tree, f);
    if b.NoExpr? then b else
    JoinGrows(u, t, a.u.next, e.both, b.u, b.cell);
    ExprCode(Join(b.u, t.cur, Bool(!e.both), b.cell, |t.blocks| + 1), b.u.next + 1)
  }

  lemma JoinGrows(u: Code, t: Code, c: nat, both: bool, b: Code, cell: nat)
    requires In(u) && Ready(t) && Grows(u, t) && Grows(Fork(t, c, both), b)
    ensures var end := |t.blocks| + 1;
            end < |b.blocks| && b.blocks[end] == Block([], Open) && b.cur != end
            && Grows(u, Join(b, t.cur, Bool(!both), cell, end))
  {
    var f := Fork(t, c, both);
    assert f.blocks[|t.blocks| + 1] == Block([], Open);
    assert Keeps(t, f);
    KeepsTrans(t, f, b);
  }

  function LowerExpr(e: Expr, tree: Tree, u: Code): (c: ExprCode)
    requires Ready(u)
    ensures c.ExprCode? ==> Grows(u, c.u)
    decreases e, 1
  {
    match e
    case Num(v) => GrowsAdd(u, u, Const(u.next, v)); ExprCode(Add(u, Const(u.next, v)), u.next)
    case Sym(x) =>
      var d := Depth(tree, x);
      if d < 0 then NoExpr(UnknownVariable) else ExprCode(u, tree[d][x].cell)
    case Bin(op, l, r) =>
      var a := LowerExpr(l, tree, u);
      if a.NoExpr? then a else
      var b := LowerExpr(r, tree, a.u);
      if b.NoExpr? then b else
      GrowsTrans(u, a.u, b.u);
      GrowsAdd(u, b.u, Op(b.u.next, op, a.cell, b.cell));
      ExprCode(Add(b.u, Op(b.u.next, op, a.cell, b.cell)), b.u.next)
    case Logic(_, _, _) => ShortCircuit(e, tree, u)
    case Not(x) =>
      var a := LowerExpr(x, tree, u);
      if a.NoExpr? then a else
      GrowsAdd(u, a.u, Test(a.u.next, a.cell));
      var t := Add(a.u, Test(a.u.next, a.cell));
      GrowsAdd(u, t, Flip(t.next, a.u.next));
      ExprCode(Add(t, Flip(t.next, a.u.next)), t.next)
  }

  // ---- Statements ----

  function LowerStmt(rt: Result, s: Stmt, tree: Tree, loops: seq<nat>, u: Code): (c: StmtCode)
    requires Ready(u) && tree != []
    ensures c.StmtCode? ==> Moves(u, c.u) && |c.tree| == |tree| && (Ready(c.u) <==> !s.Break? && !s.Return?)
    decreases s, 1
  {
    match s
    case Decl(x, ty, init) => LowerDecl(x, ty, init, tree, u)
    case Assign(x, e) => LowerAssign(x, e, tree, u)
    case Eval(e) =>
      var a := LowerExpr(e, tree, u);
      if a.NoExpr? then NoStmt(a.why) else StmtCode(a.u, tree)
    case If(arm) => LowerIf(rt, arm, None, tree, loops, u)
    case While(_, _) => LowerWhile(rt, s, tree, loops, u)
    case Foreach(_, _, _, _) => LowerFor(rt, s, tree, loops, u)
    case Break =>
      if loops == [] then NoStmt(InvalidBreakStatement) else
      StmtCode(End(u, Br(loops[|loops| - 1])), tree)
    case Return(e) => LowerReturn(rt, e, tree, u)
  }

  function LowerDecl(x: string, ty: string, init: Option<Expr>, tree: Tree, u: Code): (c: StmtCode)
    requires Ready(u) && tree != []
    ensures c.StmtCode? ==> Grows(u, c.u) && |c.tree| == |tree|
  {
    var top := |tree| - 1;
    if x in tree[top] then NoStmt(VariableRedeclaration) else
    if init.None? then
      StmtCode(Add(u, Const(u.next, 0)), Bind(tree, top, x, Slot(ty, u.next)))
    else
      var a := LowerExpr(init.value, tree, u);
      if a.NoExpr? then NoStmt(a.why) else
      GrowsAdd(u, a.u, Cast(a.u.next, ty, a.cell));
      StmtCode(Add(a.u, Cast(a.u.next, ty, a.cell)), Bind(tree, top, x, Slot(ty, a.u.next)))
  }

  function LowerAssign(x: string, e: Expr, tree: Tree, u: Code): (c: StmtCode)
    requires Ready(u)
    ensures c.StmtCode? ==> Grows(u, c.u) && c.tree == tree
  {
    var a := LowerExpr(e, tree, u);
    if a.NoExpr? then NoStmt(a.why) else
    var d := Depth(tree, x);
    if d < 0 then NoStmt(UnknownVariable) else
    var slot := tree[d][x];
    GrowsAdd(u, a.u, Cast(a.u.next, slot.ty, a.cell));
    var k := Add(a.u, Cast(a.u.next, slot.ty, a.cell));
    GrowsAdd(u, k, Move(slot.cell, a.u.next));
    StmtCode(Emit(k, Move(slot.cell, a.u.next)), tree)
  }

  function LowerReturn(rt: Result, e: Expr, tree: Tree, u: Code): (c: StmtCode)
    requires Ready(u)
    ensures c.StmtCode? ==> Moves(u, c.u) && c.tree == tree && !Ready(c.u)
  {
    var a := LowerExpr(e, tree, u);
    if a.NoExpr? then NoStmt(a.why) else
    if rt.None? then MovesEnd(u, a.u, RetVoid); StmtCode(End(a.u, RetVoid), tree) else
    GrowsAdd(u, a.u, Cast(a.u.next, rt.value, a.cell));
    var k := Add(a.u, Cast(a.u.next, rt.value, a.cell));
    MovesEnd(u, k, Ret(a.u.next));
    StmtCode(End(k, Ret(a.u.next)), tree)
  }

  /** `ProcessBlock` without its scope: lowering stops after a break or return. */
  function LowerList(rt: Result, l: Stmts, tree: Tree, loops: seq<nat>, u: Code): (c: StmtCode)
    requires Ready(u) && tree != []
    ensures c.StmtCode? ==> Moves(u, c.u) && |c.tree| == |tree|
    decreases l, 1
  {
    match l
    case Nil => StmtCode(u, tree)
    case Cons(s, rest) =>
      var a := LowerStmt(rt, s, tree, loops, u);
      if a.NoStmt? || s.Break? || s.Return? then a else
      var b := LowerList(rt, rest, a.tree, loops, a.u);
      if b.NoStmt? then b else
      MovesTrans(u, a.u, b.u); b
  }

  function LowerBlock(rt: Result, l: Stmts, tree: Tree, loops: seq<nat>, u: Code): (c: StmtCode)
    requires Ready(u)
    ensures c.StmtCode? ==> Moves(u, c.u) && c.tree == tree
    decreases l, 2
  {
    var a := LowerList(rt, l, tree + [map[]], loops, u);
    if a.NoStmt? then a else StmtCode(a.u, tree)
  }

  datatype Split = NoSplit(why: Abort) | Split(u: Code, els: nat)

  /** The block where the ways of an if meet: a new one unless the if belongs to a ladder. */
  function EndOf(u: Code, end: Option<nat>): nat
  {
    if end.None? then |u.blocks| + 1 else end.value
  }

  /** An if up to the start of its body: its condition, and the branch to the body or to the else block, if there is
      an else part, or to the end. */
  function LowerTest(arm: Arm, end: Option<nat>, tree: Tree, u: Code): (d: Split)
    requires Ready(u) && (end.Some? ==> Parked(u, end.value))
    ensures d.Split? ==>
              && Ready(d.u) && d.u.cur == |u.blocks| && d.u.blocks[d.u.cur].code == []
              && Moves(u, d.u) && Parked(d.u, EndOf(u, end))
    ensures d.Split? && !arm.alt.NoElse? ==> Parked(d.u, d.els) && d.els != EndOf(u, end) && d.els >= |u.blocks|
  {
    var c := LowerExpr(arm.c, tree, NewBlocks(u, if end.None? then 2 else 1));
    if c.NoExpr? then NoSplit(c.why) else
    SplitKeeps(u, end, c.u, c.cell, arm.alt);
    Split(SplitIf(c.u, c.cell, |u.blocks|, EndOf(u, end), arm.alt), |c.u.blocks|)
  }

  function SplitIf(u: Code, c: nat, n: nat, end: nat, alt: Alt): Code
    requires In(u)
  {
    var t := Add(u, Test(u.next, c));
    if alt.NoElse? then Go(End(t, CondBr(u.next, n, end)), n)
    else Go(End(NewBlocks(t, 1), CondBr(u.next, n, |u.blocks|)), n)
  }

  lemma SplitKeeps(u: Code, end: Option<nat>, c: Code, cell: nat, alt: Alt)
    requires Ready(u) && (end.Some? ==> Parked(u, end.value))
    requires Grows(NewBlocks(u, if end.None? then 2 else 1), c)
    ensures var e := EndOf(u, end);
            var d := SplitIf(c, cell, |u.blocks|, e, alt);
            && Ready(d) && d.blocks[d.cur].code == [] && Moves(u, d) && Parked(d, e) && u.cur != d.cur
            && (!alt.NoElse? ==> Parked(d, |c.blocks|) && |c.blocks| != e)
  {
    var u1 := NewBlocks(u, if end.None? then 2 else 1);
    var e := EndOf(u, end);
    assert Parked(u1, |u.blocks|) && Parked(u1, e);
    StaysParked(u1, c, |u.blocks|);
    StaysParked(u1, c, e);
  }

  /** `processIfElseBlock`: the branches of an else-if ladder all meet in the one end block. */
  function LowerIf(rt: Result, arm: Arm, end: Option<nat>, tree: Tree, loops: seq<nat>, u: Code): (c: StmtCode)
    requires Ready(u) && (end.Some? ==> Parked(u, end.value))
    ensures c.StmtCode? ==> Ready(c.u) && Keeps(u, c.u) && c.tree == tree && (end.None? ==> NewCur(u, c.u))
    ensures c.StmtCode? ==> c.u.cur == EndOf(u, end) && c.u.blocks[c.u.cur].code == []
    decreases arm, 3
  {
    var e := EndOf(u, end);
    var d := LowerTest(arm, end, tree, u);
    if d.NoSplit? then NoStmt(d.why) else
    var b := LowerBlock(rt, arm.body, tree, loops, d.u);
    if b.NoStmt? then b else
    BodyKeeps(u, d.u, b.u, e);
    if arm.alt.NoElse? then StmtCode(Go(Fall(b.u, e), e), tree) else
    ElseKeeps(u, d.u, Fall(b.u, e), e, d.els);
    LowerAlt(rt, arm.alt, e, tree, loops, Go(Fall(b.u, e), d.els), u)
  }

  lemma ElseKeeps(u: Code, d: Code, f: Code, e: nat, els: nat)
    requires In(u) && Moves(u, f) && Moves(d, f) && Parked(f, e) && Parked(d, els) && els != e && els >= |u.blocks|
    ensures Ready(Go(f, els)) && Parked(Go(f, els), e) && Moves(u, Go(f, els)) && f.blocks[els].code == []
  {
    StaysParked(d, f, els);
    MovesGo(u, f, els);
  }

  lemma BodyKeeps(u: Code, d: Code, b: Code, e: nat)
    requires In(u) && Moves(u, d) && Parked(d, e) && Moves(d, b)
    ensures Moves(u, Fall(b, e)) && Moves(d, Fall(b, e)) && Parked(Fall(b, e), e)
    ensures e >= |u.blocks| ==> Moves(u, Go(Fall(b, e), e))
  {
    MovesTrans(u, d, b);
    MovesFall(u, b, e);
    MovesFall(d, b, e);
    StaysParked(d, Fall(b, e), e);
  }

  /** The else part, lowered from its own block; u is where the whole if began. */
  function LowerAlt(rt: Result, alt: Alt, e: nat, tree: Tree, loops: seq<nat>, v: Code, ghost u: Code): (c: StmtCode)
    requires Ready(v) && Parked(v, e) && In(u) && Moves(u, v) && !alt.NoElse?
    ensures c.StmtCode? ==> Ready(c.u) && Keeps(u, c.u) && c.tree == tree && c.u.cur == e && c.u.blocks[e].code == []
    decreases alt, 4
  {
    match alt
    case Else(body) =>
      var x := LowerBlock(rt, body, tree, loops, v);
      if x.NoStmt? then x else
      BodyKeeps(u, v, x.u, e);
      StmtCode(Go(Fall(x.u, e), e), tree)
    case ElseIf(arm) =>
      var x := LowerIf(rt, arm, Some(e), tree, loops, v);
      if x.NoStmt? then x else
      KeepsTrans(u, v, x.u); x
  }

  /** `processWhileBlock`: n is the condition's block, n + 1 the body's and n + 2 the end. */
  function LowerWhile(rt: Result, s: Stmt, tree: Tree, loops: seq<nat>, u: Code): (c: StmtCode)
    requires Ready(u) && s.While?
    ensures c.StmtCode? ==> Grows(u, c.u) && c.tree == tree
    decreases s, 0
  {
    var n := |u.blocks|;
    var h := WhileHead(u);
    var c := LowerExpr(s.c, tree + [map[]], h);
    if c.NoExpr? then NoStmt(c.why) else
    WhileKeeps(u, c.u, c.cell);
    var d := WhileTest(c.u, c.cell, n);
    var b := LowerBlock(rt, s.body, tree + [map[]], loops + [n + 2], d);
    if b.NoStmt? then b else
    LoopKeeps(u, d, b.u, n, n + 2);
    StmtCode(Go(Fall(b.u, n), n + 2), tree)
  }

  function WhileHead(u: Code): (h: Code)
    requires Ready(u)
    ensures Ready(h)
  {
    Go(End(NewBlocks(u, 3), Br(|u.blocks|)), |u.blocks|)
  }

  function WhileTest(u: Code, c: nat, n: nat): Code
    requires In(u)
  {
    Go(End(Add(u, Test(u.next, c)), CondBr(u.next, n + 1, n + 2)), n + 1)
  }

  lemma WhileKeeps(u: Code, c: Code, cell: nat)
    requires Ready(u) && Grows(WhileHead(u), c)
    ensures var n := |u.blocks|;
            var d := WhileTest(c, cell, n);
            Ready(d) && d.blocks[n + 1].code == [] && Moves(u, d) && Parked(d, n + 2)
  {
    var h := WhileHead(u);
    var n := |u.blocks|;
    assert Parked(h, n + 1) && Parked(h, n + 2);
    StaysParked(h, c, n + 1);
    StaysParked(h, c, n + 2);
    assert Moves(u, h);
    MovesTrans(u, h, c);
  }

  /** After the body of a loop: from d, where it began, lowering came to b; control falls to block `to`. */
  lemma LoopKeeps(u: Code, d: Code, b: Code, to: nat, end: nat)
    requires In(u) && Moves(u, d) && Moves(d, b) && Parked(d, end) && |u.blocks| <= end
    ensures Grows(u, Go(Fall(b, to), end)) && Parked(Fall(b, to), end)
  {
    MovesTrans(u, d, b);
    MovesFall(u, b, to);
    MovesFall(d, b, to);
    StaysParked(d, Fall(b, to), end);
    MovesGo(u, Fall(b, to), end);
  }

  datatype Bounds = NoBounds(why: Abort) | Bounds(u: Code, i: nat, hi: nat)

  /** The scopes inside a foreach whose index is cell i. */
  function Indexed(tree: Tree, name: string, i: nat): Tree
  {
    Bind(tree + [map[]], |tree|, name, Slot(INT, i))
  }

  /** The bounds of a foreach, lower bound first, kept in cells of their own: the index and the upper bound. */
  function LowerBounds(s: Stmt, tree: Tree, u: Code): (b: Bounds)
    requires Ready(u) && s.Foreach?
    ensures b.Bounds? ==> Grows(u, b.u) && u.next <= b.i < b.hi < b.u.next
  {
    var a := LowerExpr(s.lo, tree + [map[]], u);
    if a.NoExpr? then NoBounds(a.why) else
    var i := a.u.next;
    GrowsAdd(u, a.u, Cast(i, INT, a.cell));
    var lo := Add(a.u, Cast(i, INT, a.cell));
    var b := LowerExpr(s.hi, Indexed(tree, s.name, i), lo);
    if b.NoExpr? then NoBounds(b.why) else
    GrowsTrans(u, lo, b.u);
    GrowsAdd(u, b.u, Cast(b.u.next, INT, b.cell));
    Bounds(Add(b.u, Cast(b.u.next, INT, b.cell)), i, b.u.next)
  }

  /** `processForBlock`: n is the condition's block, n + 1 the body's, n + 2 the increment's and n + 3 the end. */
  function LowerFor(rt: Result, s: Stmt, tree: Tree, loops: seq<nat>, u: Code): (c: StmtCode)
    requires Ready(u) && s.Foreach?
    ensures c.StmtCode? ==> Grows(u, c.u) && c.tree == tree
    decreases s, 0
  {
    var b := LowerBounds(s, tree, u);
    if b.NoBounds? then NoStmt(b.why) else
    var n := |b.u.blocks|;
    ForKeeps(u, b.u, b.i, b.hi);
    var d := ForTest(b.u, b.i, b.hi);
    var x := LowerBlock(rt, s.body, Indexed(tree, s.name, b.i), loops + [n + 3], d);
    if x.NoStmt? then x else
    NextKeeps(u, d, x.u, b.i, n);
    StmtCode(Go(ForNext(Fall(x.u, n + 2), b.i, n), n + 3), tree)
  }

  /** The blocks of a foreach whose index is cell i and whose bound is cell hi, up to the start of its body. */
  function ForTest(u: Code, i: nat, hi: nat): Code
    requires In(u)
  {
    var n := |u.blocks|;
    var h := Go(End(NewBlocks(u, 4), Br(n)), n);
    Go(End(Add(h, Less(h.next, i, hi)), CondBr(h.next, n + 1, n + 3)), n + 1)
  }

  function ForNext(u: Code, i: nat, n: nat): Code
    requires n + 2 < |u.blocks|
  {
    End(Emit(Go(u, n + 2), Inc(i, i)), Br(n))
  }

  lemma ForKeeps(u: Code, v: Code, i: nat, hi: nat)
    requires Ready(u) && Grows(u, v)
    ensures var n := |v.blocks|;
            var d := ForTest(v, i, hi);
            Ready(d) && d.blocks[n + 1].code == [] && Moves(u, d) && Parked(d, n + 2) && Parked(d, n + 3)
            && |d.blocks| == n + 4
  {
    assert Moves(v, ForTest(v, i, hi));
    MovesTrans(u, v, ForTest(v, i, hi));
  }

  lemma NextKeeps(u: Code, d: Code, b: Code, i: nat, n: nat)
    requires Ready(u) && Moves(u, d) && Moves(d, b) && Parked(d, n + 2) && Parked(d, n + 3) && |u.blocks| <= n
    ensures n + 2 < |b.blocks| && Grows(u, Go(ForNext(Fall(b, n + 2), i, n), n + 3))
    ensures var v := ForNext(Fall(b, n + 2), i, n);
            && Parked(Fall(b, n + 2), n + 2)
            && v.blocks[n + 2] == Block([Inc(i, i)], Br(n)) && v.blocks[n + 3] == Block([], Open)
  {
    MovesTrans(u, d, b);
    MovesFall(u, b, n + 2);
    MovesFall(d, b, n + 2);
    var f := Fall(b, n + 2);
    StaysParked(d, f, n + 2);
    StaysParked(d, f, n + 3);
    MovesGo(u, f, n + 2);
    var g := Go(f, n + 2);
    GrowsAdd(u, g, Inc(i, i));
    MovesEnd(u, Emit(g, Inc(i, i)), Br(n));
    MovesGo(u, ForNext(f, i, n), n + 3);
  }

  /** Only the innermost scope changes. */
  lemma StmtScopes(rt: Result, s: Stmt, tree: Tree, loops: seq<nat>, u: Code)
    requires Ready(u) && tree != [] && LowerStmt(rt, s, tree, loops, u).StmtCode?
    ensures var c := LowerStmt(rt, s, tree, loops, u); c.tree != [] && Pop(c.tree) == Pop(tree)
    ensures s.Break? || s.Return? ==> LowerStmt(rt, s, tree, loops, u).tree == tree
  {
    hide LowerExpr, LowerIf, LowerWhile, LowerFor, Keeps, NewCur;
  }
}
