// Running the emitted blocks is the same as running the source.
module LoweringSim {
  import opened Options
  import opened SourceLang
  import opened BlockGraph
  import opened Lowering

  // ---- Where the machine is ----

  /** Graph g is what the code became in the end. */
  ghost predicate Within(u: Code, g: Graph)
  {
    |u.blocks| <= |g| && forall b {:trigger g[b]} :: 0 <= b < |u.blocks| ==> Extends(u.blocks[b], g[b])
  }

  lemma WithinKeeps(u: Code, v: Code, g: Graph)
    requires In(u) && Keeps(u, v) && Within(v, g)
    ensures Within(u, g)
  {
    forall b | 0 <= b < |u.blocks|
      ensures Extends(u.blocks[b], g[b])
    {
      assert Extends(v.blocks[b], g[b]);
    }
  }

  /** The machine has run everything that the current block of u holds so far. */
  function Here(u: Code, prev: nat, m: Memory, trace: seq<Event>): Machine
    requires In(u)
  {
    At(u.cur, |u.blocks[u.cur].code|, prev, m, trace)
  }

  lemma StepInstr(w: World, g: Graph, u: Code, i: Instr, prev: nat, m: Memory, trace: seq<Event>)
    requires Ready(u) && Within(Emit(u, i), g)
    ensures Step(w, g, Here(u, prev, m, trace)) == RunInstr(w, i, Here(u, prev, m, trace))
  {
    assert Extends(Emit(u, i).blocks[u.cur], g[u.cur]);
  }

  lemma StepTerm(w: World, g: Graph, u: Code, t: Term, prev: nat, m: Memory, trace: seq<Event>)
    requires Ready(u) && Within(End(u, t), g) && !t.Open?
    ensures Step(w, g, Here(u, prev, m, trace)) == RunTerm(t, Here(u, prev, m, trace))
  {
    assert Extends(End(u, t).blocks[u.cur], g[u.cur]);
  }

  lemma OneMore(w: World, g: Graph, s: Machine, k: nat)
    ensures Steps(w, g, s, k + 1) == Step(w, g, Steps(w, g, s, k))
  {
    StepsAdd(w, g, s, k, 1);
    assert Steps(w, g, Steps(w, g, s, k), 1) == Step(w, g, Steps(w, g, s, k));
  }

  // ---- Variables ----

  ghost predicate SameScope(a: map<string, Slot>, b: map<string, Local>, m: Memory)
  {
    a.Keys == b.Keys && forall x :: x in a ==> b[x] == Local(a[x].ty, m(a[x].cell))
  }

  /** The slots hold the values of the variables. */
  ghost predicate Holds(tree: Tree, env: Env, m: Memory)
  {
    |tree| == |env| && forall i {:trigger tree[i]} {:trigger env[i]} :: 0 <= i < |tree| ==>
        SameScope(tree[i], env[i], m)
  }

  ghost predicate Below(tree: Tree, n: nat)
  {
    forall i, x :: 0 <= i < |tree| && x in tree[i] ==> tree[i][x].cell < n
  }

  ghost predicate Agree(m: Memory, m2: Memory, n: nat)
  {
    forall c: nat {:trigger m2(c)} :: c < n ==> m2(c) == m(c)
  }

  lemma {:induction false} SameDepth(tree: Tree, env: Env, m: Memory, x: string)
    requires Holds(tree, env, m)
    ensures Depth(tree, x) == Depth(env, x)
  {
    if tree != [] {
      var n := |tree| - 1;
      assert SameScope(tree[n], env[n], m);
      assert x in tree[n] <==> x in env[n];
      if x !in tree[n] {
        SameDepth(tree[..n], env[..n], m, x);
      }
    }
  }

  lemma HoldsAgree(tree: Tree, env: Env, m: Memory, m2: Memory, n: nat)
    requires Holds(tree, env, m) && Below(tree, n) && Agree(m, m2, n)
    ensures Holds(tree, env, m2)
  {
    forall i | 0 <= i < |tree|
      ensures SameScope(tree[i], env[i], m2)
    {
      assert SameScope(tree[i], env[i], m);
    }
  }

  lemma BelowMore(u: Code, v: Code, tree: Tree)
    requires Grows(u, v)
    ensures u.next <= v.next && (Below(tree, u.next) ==> forall n :: n >= v.next ==> Below(tree, n))
  {
  }

  // ---- Expressions ----

  /** From s, where cells below n are in use, the machine comes in k steps to where the expression has value r. */
  ghost predicate ExprDone(w: World, g: Graph, s: Machine, k: nat, r: Evaluated, c: ExprCode, n: nat, m2: Memory,
                           p2: nat)
    requires s.At? && c.ExprCode? && In(c.u)
  {
    if r.Fault? then Steps(w, g, s, k) == Halt(Trapped(r.trace))
    else
      && Steps(w, g, s, k) == Here(c.u, p2, m2, r.trace)
      && m2(c.cell) == r.value && c.cell < c.u.next && Agree(s.mem, m2, n)
  }

  lemma {:induction false} SimExpr(w: World, e: Expr, tree: Tree, u: Code, env: Env, g: Graph, m: Memory, prev: nat,
                                   trace: seq<Event>)
    returns (k: nat, m2: Memory, p2: nat)
    requires Ready(u) && LowerExpr(e, tree, u).ExprCode? && Within(LowerExpr(e, tree, u).u, g)
    requires Holds(tree, env, m) && Below(tree, u.next)
    ensures ExprDone(w, g, Here(u, prev, m, trace), k, Run(w, e, env, trace), LowerExpr(e, tree, u), u.next, m2, p2)
    decreases e, 2
  {
    k, m2, p2 := 0, m, prev;
    match e
    case Num(v) =>
      StepInstr(w, g, u, Const(u.next, v), prev, m, trace);
      k, m2 := 1, Put(m, u.next, v);
      OneMore(w, g, Here(u, prev, m, trace), 0);
    case Sym(x) =>
      SameDepth(tree, env, m, x);
      var d := Depth(tree, x);
      assert SameScope(tree[d], env[d], m);
    case Bin(op, l, r) =>
      k, m2, p2 := SimBin(w, e, tree, u, env, g, m, prev, trace);
    case Logic(_, _, _) =>
      k, m2, p2 := SimLogic(w, e, tree, u, env, g, m, prev, trace);
    case Not(x) =>
      k, m2, p2 := SimNot(w, e, tree, u, env, g, m, prev, trace);
  }

  lemma BinShape(e: Expr, tree: Tree, u: Code)
    requires Ready(u) && e.Bin? && LowerExpr(e, tree, u).ExprCode?
    ensures var a := LowerExpr(e.l, tree, u);
            a.ExprCode? && var b := LowerExpr(e.r, tree, a.u);
            b.ExprCode? && LowerExpr(e, tree, u) == ExprCode(Add(b.u, Op(b.u.next, e.op, a.cell, b.cell)), b.u.next)
  {
  }

  lemma {:induction false} SimBin(w: World, e: Expr, tree: Tree, u: Code, env: Env, g: Graph, m: Memory, prev: nat,
                                  trace: seq<Event>)
    returns (k: nat, m2: Memory, p2: nat)
    requires Ready(u) && LowerExpr(e, tree, u).ExprCode? && Within(LowerExpr(e, tree, u).u, g) && e.Bin?
    requires Holds(tree, env, m) && Below(tree, u.next)
    ensures ExprDone(w, g, Here(u, prev, m, trace), k, Run(w, e, env, trace), LowerExpr(e, tree, u), u.next, m2, p2)
    decreases e, 1
  {
    hide LowerExpr, Keeps, Holds, SameScope, Extends, Below, Steps, Step, NewCur;
    BinShape(e, tree, u);
    var s := Here(u, prev, m, trace);
    var a := LowerExpr(e.l, tree, u);
    BelowMore(u, a.u, tree);
    var b := LowerExpr(e.r, tree, a.u);
    BelowMore(a.u, b.u, tree);
    var i := Op(b.u.next, e.op, a.cell, b.cell);
    GrowsAdd(b.u, b.u, i);
    WithinKeeps(b.u, Add(b.u, i), g);
    WithinKeeps(a.u, b.u, g);
    k, m2, p2 := SimExpr(w, e.l, tree, u, env, g, m, prev, trace);
    var x := Run(w, e.l, env, trace);
    if x.Val? {
      HoldsAgree(tree, env, m, m2, u.next);
      var k1, m1, p1 := SimExpr(w, e.r, tree, a.u, env, g, m2, p2, x.trace);
      StepsAdd(w, g, s, k, k1);
      var y := Run(w, e.r, env, x.trace);
      k := k + k1;
      if y.Val? {
        StepInstr(w, g, b.u, i, p1, m1, y.trace);
        OneMore(w, g, s, k);
        k, p2 := k + 1, p1;
        var z := Act(w, e.op, x.value, y.value, y.trace);
        if z.Val? {
          m2 := Put(m1, b.u.next, z.value);
        }
      }
    }
  }

  lemma {:induction false} SimNot(w: World, e: Expr, tree: Tree, u: Code, env: Env, g: Graph, m: Memory, prev: nat,
                                  trace: seq<Event>)
    returns (k: nat, m2: Memory, p2: nat)
    requires Ready(u) && LowerExpr(e, tree, u).ExprCode? && Within(LowerExpr(e, tree, u).u, g) && e.Not?
    requires Holds(tree, env, m) && Below(tree, u.next)
    ensures ExprDone(w, g, Here(u, prev, m, trace), k, Run(w, e, env, trace), LowerExpr(e, tree, u), u.next, m2, p2)
    decreases e, 1
  {
    hide Keeps, Holds, SameScope, Extends, Below;
    var s := Here(u, prev, m, trace);
    var a := LowerExpr(e.e, tree, u);
    BelowMore(u, a.u, tree);
    var i := Test(a.u.next, a.cell);
    var t := Add(a.u, i);
    var j := Flip(t.next, a.u.next);
    GrowsAdd(a.u, a.u, i);
    GrowsAdd(t, t, j);
    WithinKeeps(t, Add(t, j), g);
    WithinKeeps(a.u, t, g);
    k, m2, p2 := SimExpr(w, e.e, tree, u, env, g, m, prev, trace);
    var x := Run(w, e.e, env, trace);
    if x.Val? {
      StepInstr(w, g, a.u, i, p2, m2, x.trace);
      OneMore(w, g, s, k);
      m2 := Put(m2, a.u.next, Bool(x.value != 0));
      StepInstr(w, g, t, j, p2, m2, x.trace);
      OneMore(w, g, s, k + 1);
      k, m2 := k + 2, Put(m2, t.next, 1 - Bool(x.value != 0));
    }
  }

  /** The test of a value: one instruction that puts its truth in a cell of its own. */
  lemma SimTest(w: World, g: Graph, s: Machine, k: nat, r: Evaluated, c: ExprCode, n: nat, m: Memory, p: nat)
    returns (m2: Memory)
    requires s.At? && c.ExprCode? && Ready(c.u) && r.Val? && n <= c.u.next
    requires ExprDone(w, g, s, k, r, c, n, m, p) && Within(Add(c.u, Test(c.u.next, c.cell)), g)
    ensures ExprDone(w, g, s, k + 1, Truth(r), ExprCode(Add(c.u, Test(c.u.next, c.cell)), c.u.next), n, m2, p)
    ensures Agree(m, m2, c.u.next)
  {
    var i := Test(c.u.next, c.cell);
    assert Within(Emit(c.u, i), g);
    StepInstr(w, g, c.u, i, p, m, r.trace);
    OneMore(w, g, s, k);
    m2 := Put(m, c.u.next, Bool(r.value != 0));
  }

  lemma LogicShape(e: Expr, tree: Tree, u: Code)
    requires Ready(u) && e.Logic? && LowerExpr(e, tree, u).ExprCode?
    ensures var a := LowerExpr(e.l, tree, u);
            a.ExprCode? && var t := Add(a.u, Test(a.u.next, a.cell));
            Grows(u, t) && var b := LowerExpr(e.r, tree, Fork(t, a.u.next, e.both));
            b.ExprCode? && |t.blocks| + 1 < |b.u.blocks| && LowerExpr(e, tree, u)
              == ExprCode(Join(b.u, t.cur, Bool(!e.both), b.cell, |t.blocks| + 1), b.u.next + 1)
  {
    var a := LowerExpr(e.l, tree, u);
    var t := Add(a.u, Test(a.u.next, a.cell));
    GrowsAdd(u, a.u, Test(a.u.next, a.cell));
    JoinGrows(u, t, a.u.next, e.both, LowerExpr(e.r, tree, Fork(t, a.u.next, e.both)).u, 0);
  }

  lemma {:induction false} SimLogic(w: World, e: Expr, tree: Tree, u: Code, env: Env, g: Graph, m: Memory, prev: nat,
                                    trace: seq<Event>)
    returns (k: nat, m2: Memory, p2: nat)
    requires Ready(u) && LowerExpr(e, tree, u).ExprCode? && Within(LowerExpr(e, tree, u).u, g) && e.Logic?
    requires Holds(tree, env, m) && Below(tree, u.next)
    ensures ExprDone(w, g, Here(u, prev, m, trace), k, Run(w, e, env, trace), LowerExpr(e, tree, u), u.next, m2, p2)
    decreases e, 1
  {
    hide LowerExpr, Keeps, Within, Steps, Step, Holds, Below, SameScope, Extends, NewCur, Parked;
    LogicShape(e, tree, u);
    var s := Here(u, prev, m, trace);
    var a := LowerExpr(e.l, tree, u);
    var t := Add(a.u, Test(a.u.next, a.cell));
    var f := Fork(t, a.u.next, e.both);
    var b := LowerExpr(e.r, tree, f);
    var end := |t.blocks| + 1;
    JoinWithin(u, a.u, a.cell, e.both, b.u, b.cell, g);
    BelowMore(u, a.u, tree);
    BelowMore(f, b.u, tree);
    k, m2, p2 := SimExpr(w, e.l, tree, u, env, g, m, prev, trace);
    var x := Run(w, e.l, env, trace);
    if x.Val? {
      m2 := SimTest(w, g, s, k, x, a, u.next, m2, p2);
      SimFork(w, g, t, a.u.next, e.both, p2, m2, x.trace);
      OneMore(w, g, s, k + 1);
      k := k + 2;
      if (x.value != 0) != e.both {
        SimPhi(w, g, b.u, t.cur, Bool(!e.both), b.cell, end, t.cur, m2, x.trace);
        OneMore(w, g, s, k);
        k, p2, m2 := k + 1, t.cur, Put(m2, b.u.next + 1, Bool(!e.both));
      } else {
        HoldsAgree(tree, env, m, m2, u.next);
        var k1, m1 := SimRight(w, e, tree, t, f, env, g, m2, x.trace);
        StepsAdd(w, g, s, k, k1);
        k, m2, p2 := k + k1, m1, b.u.cur;
      }
    }
  }

  /** The right operand runs: from the start of its block to behind the phi. */
  lemma {:induction false} SimRight(w: World, e: Expr, tree: Tree, t: Code, f: Code, env: Env, g: Graph, m: Memory,
                                    trace: seq<Event>)
    returns (k: nat, m2: Memory)
    requires e.Logic? && Ready(f) && LowerExpr(e.r, tree, f).ExprCode?
    requires var b := LowerExpr(e.r, tree, f); var end := |t.blocks| + 1;
             && Within(b.u, g) && Within(Add(b.u, Test(b.u.next, b.cell)), g) && Parked(b.u, end) && b.u.cur != t.cur
             && Within(End(Add(b.u, Test(b.u.next, b.cell)), Br(end)), g)
             && Within(Join(b.u, t.cur, Bool(!e.both), b.cell, end), g)
    requires Holds(tree, env, m) && Below(tree, f.next)
    ensures var b := LowerExpr(e.r, tree, f);
            var out := ExprCode(Join(b.u, t.cur, Bool(!e.both), b.cell, |t.blocks| + 1), b.u.next + 1);
            ExprDone(w, g, Here(f, t.cur, m, trace), k, Truth(Run(w, e.r, env, trace)), out, f.next, m2, b.u.cur)
    decreases e, 0
  {
    hide LowerExpr, Keeps, Within, Steps, Step, Holds, Below, SameScope, Extends, NewCur;
    var s := Here(f, t.cur, m, trace);
    var b := LowerExpr(e.r, tree, f);
    var end := |t.blocks| + 1;
    BelowMore(f, b.u, tree);
    var p: nat;
    k, m2, p := SimExpr(w, e.r, tree, f, env, g, m, t.cur, trace);
    var y := Run(w, e.r, env, trace);
    if y.Val? {
      m2 := SimTest(w, g, s, k, y, b, f.next, m2, p);
      SimFall(w, g, b.u, b.cell, end, p, m2, y.trace);
      OneMore(w, g, s, k + 1);
      SimPhi(w, g, b.u, t.cur, Bool(!e.both), b.cell, end, b.u.cur, m2, y.trace);
      OneMore(w, g, s, k + 2);
      k, m2 := k + 3, Put(m2, b.u.next + 1, m2(b.u.next));
    }
  }

  /** Every stage of a short-circuit operator is within the graph that its end is within. */
  lemma JoinWithin(u: Code, a: Code, cell: nat, both: bool, b: Code, right: nat, g: Graph)
    requires Ready(u) && Grows(u, a)
    requires var t := Add(a, Test(a.next, cell)); var f := Fork(t, a.next, both); Grows(f, b)
    requires var t := Add(a, Test(a.next, cell));
             |t.blocks| + 1 < |b.blocks| && Within(Join(b, t.cur, Bool(!both), right, |t.blocks| + 1), g)
    ensures var t := Add(a, Test(a.next, cell)); var f := Fork(t, a.next, both);
            Within(a, g) && Within(t, g) && Within(f, g) && Within(b, g)
    ensures var r := Add(b, Test(b.next, right)); Within(r, g) && Within(End(r, Br(|a.blocks| + 1)), g)
    ensures Parked(b, |a.blocks| + 1) && b.cur != a.cur
  {
    var t := Add(a, Test(a.next, cell));
    var f := Fork(t, a.next, both);
    var end := |t.blocks| + 1;
    GrowsAdd(u, a, Test(a.next, cell));
    JoinGrows(u, t, a.next, both, b, right);
    var r := Add(b, Test(b.next, right));
    var j := Go(End(r, Br(end)), end);
    var out := Join(b, t.cur, Bool(!both), right, end);
    assert Parked(f, end);
    StaysParked(f, b, end);
    assert Keeps(j, out);
    WithinKeeps(j, out, g);
    assert Within(End(r, Br(end)), g);
    assert Keeps(r, End(r, Br(end)));
    WithinKeeps(r, End(r, Br(end)), g);
    GrowsAdd(b, b, Test(b.next, right));
    WithinKeeps(b, r, g);
    WithinKeeps(f, b, g);
    assert Keeps(t, f);
    WithinKeeps(t, f, g);
    GrowsAdd(a, a, Test(a.next, cell));
    WithinKeeps(a, t, g);
  }

  lemma SimFork(w: World, g: Graph, t: Code, c: nat, both: bool, prev: nat, m: Memory, trace: seq<Event>)
    requires Ready(t) && Within(Fork(t, c, both), g) && m(c) == Bool(m(c) != 0)
    ensures Step(w, g, Here(t, prev, m, trace))
         == (if (m(c) != 0) == both then Here(Fork(t, c, both), t.cur, m, trace)
             else At(|t.blocks| + 1, 0, t.cur, m, trace))
  {
    var v := NewBlocks(t, 2);
    var n := |t.blocks|;
    var term := if both then CondBr(c, n, n + 1) else CondBr(c, n + 1, n);
    assert Within(End(v, term), g);
    StepTerm(w, g, v, term, prev, m, trace);
  }

  lemma SimFall(w: World, g: Graph, b: Code, cell: nat, end: nat, prev: nat, m: Memory, trace: seq<Event>)
    requires Ready(b) && Within(End(Add(b, Test(b.next, cell)), Br(end)), g)
    ensures Step(w, g, Here(Add(b, Test(b.next, cell)), prev, m, trace)) == At(end, 0, b.cur, m, trace)
  {
    StepTerm(w, g, Add(b, Test(b.next, cell)), Br(end), prev, m, trace);
  }

  lemma SimPhi(w: World, g: Graph, b: Code, left: nat, v: Value, cell: nat, end: nat, p: nat, m: Memory,
               trace: seq<Event>)
    requires Ready(b) && Parked(b, end) && Within(Join(b, left, v, cell, end), g) && (p == left || p == b.cur)
    ensures Step(w, g, At(end, 0, p, m, trace))
         == Here(Join(b, left, v, cell, end), p, Put(m, b.next + 1, if p == left then v else m(b.next)), trace)
  {
    var r := Add(b, Test(b.next, cell));
    var j := Go(End(r, Br(end)), end);
    assert Within(Emit(j, Phi(j.next, left, v, r.cur, b.next)), g);
    StepInstr(w, g, j, Phi(j.next, left, v, r.cur, b.next), p, m, trace);
  }

  // ---- Statements ----

  ghost predicate InTree(tree: Tree, c: nat)
  {
    exists i, x :: 0 <= i < |tree| && x in tree[i] && tree[i][x].cell == c
  }

  /** Every name in scope has a slot of its own. */
  ghost predicate Distinct(tree: Tree)
  {
    forall i, x, j, y ::
      (0 <= i < |tree| && 0 <= j < |tree| && x in tree[i] && y in tree[j] && tree[i][x].cell == tree[j][y].cell)
      ==> i == j && x == y
  }

  ghost predicate TreeOk(tree: Tree, n: nat)
  {
    Below(tree, n) && Distinct(tree)
  }

  /** Cells below n that no name in scope stands for are as they were. */
  ghost predicate Hidden(m: Memory, m2: Memory, n: nat, tree: Tree)
  {
    forall c: nat {:trigger m2(c)} :: c < n && !InTree(tree, c) ==> m2(c) == m(c)
  }

  /** Scopes `after` have only new cells beside those of `tree`. */
  ghost predicate Fresher(tree: Tree, after: Tree, n: nat)
  {
    forall c: nat {:trigger InTree(after, c)} :: c < n && InTree(after, c) ==> InTree(tree, c)
  }

  lemma HiddenTrans(m: Memory, m1: Memory, m2: Memory, n: nat, n2: nat, tree: Tree, after: Tree)
    requires Hidden(m, m1, n, tree) && Hidden(m1, m2, n2, after) && Fresher(tree, after, n) && n <= n2
    ensures Hidden(m, m2, n, tree)
  {
    forall c: nat | c < n && !InTree(tree, c)
      ensures m2(c) == m(c)
    {
      assert m1(c) == m(c);
    }
  }

  lemma BindSlot(tree: Tree, d: int, x: string, ty: string, n: nat)
    requires 0 <= d < |tree| && TreeOk(tree, n)
    ensures TreeOk(Bind(tree, d, x, Slot(ty, n)), n + 1) && Fresher(tree, Bind(tree, d, x, Slot(ty, n)), n)
  {
    hide Fresher, InTree;
    BindFresher(tree, d, x, ty, n);
    var t: Tree := Bind(tree, d, x, Slot(ty, n));
    forall i, y | 0 <= i < |t| && y in t[i]
      ensures if i == d && y == x then t[i][y].cell == n else y in tree[i] && t[i][y] == tree[i][y] && t[i][y].cell < n
    {
    }
  }

  lemma BindFresher(tree: Tree, d: int, x: string, ty: string, n: nat)
    requires 0 <= d < |tree|
    ensures Fresher(tree, Bind(tree, d, x, Slot(ty, n)), n)
  {
    var t := Bind(tree, d, x, Slot(ty, n));
    forall c: nat | c < n && InTree(t, c)
      ensures InTree(tree, c)
    {
      var i, y :| 0 <= i < |t| && y in t[i] && t[i][y].cell == c;
      assert y in tree[i] && tree[i][y].cell == c;
    }
  }

  lemma HoldsDecl(tree: Tree, env: Env, m: Memory, d: int, x: string, ty: string, n: nat, v: Value)
    requires Holds(tree, env, m) && m(n) == v && 0 <= d < |tree|
    ensures Holds(Bind(tree, d, x, Slot(ty, n)), Bind(env, d, x, Local(ty, v)), m)
  {
    assert SameScope(tree[d], env[d], m);
    var t, e := Bind(tree, d, x, Slot(ty, n)), Bind(env, d, x, Local(ty, v));
    forall i | 0 <= i < |t|
      ensures SameScope(t[i], e[i], m)
    {
      assert SameScope(tree[i], env[i], m);
    }
  }

  lemma HoldsAssign(tree: Tree, env: Env, m: Memory, d: int, x: string, v: Value)
    requires Holds(tree, env, m) && Distinct(tree) && 0 <= d < |tree| && x in tree[d]
    ensures Holds(tree, Bind(env, d, x, Local(tree[d][x].ty, v)), Put(m, tree[d][x].cell, v))
  {
    var e, m2 := Bind(env, d, x, Local(tree[d][x].ty, v)), Put(m, tree[d][x].cell, v);
    forall i | 0 <= i < |tree|
      ensures SameScope(tree[i], e[i], m2)
    {
      assert SameScope(tree[i], env[i], m);
    }
  }

  /** From s the machine comes in k steps to where outcome d of the source puts it.  After a normal end it is behind
      the code u; the scopes are then `after`.  After a break it is at the end of the innermost loop, and the scopes
      `outer` are all that is left.  Scopes `tree` were in force at s, and cells below n were in use. */
  ghost predicate Finished(w: World, g: Graph, s: Machine, k: nat, d: Done, fuel: nat, u: Code, after: Tree,
                           outer: Tree, tree: Tree, loops: seq<nat>, n: nat, m2: Memory, p2: nat)
    requires s.At? && In(u)
  {
    var t := Steps(w, g, s, k);
    match d
    case Next(env, trace) =>
      && Ready(u) && t == Here(u, p2, m2, trace) && Holds(after, env, m2) && Hidden(s.mem, m2, n, tree)
    case Broke(env, trace) =>
      && loops != [] && t == At(loops[|loops| - 1], 0, p2, m2, trace)
      && |outer| <= |env| && Holds(outer, env[..|outer|], m2) && Hidden(s.mem, m2, n, tree)
    case Left(v, trace) => t == Halt(Returned(v, trace))
    case Failed(trace) => t == Halt(Trapped(trace))
    case Spent => t.At? && k >= fuel
  }

  /** One conversion. */
  lemma SimCast(w: World, g: Graph, s: Machine, k: nat, r: Evaluated, c: ExprCode, ty: string, n: nat, m: Memory,
                p: nat)
    returns (m2: Memory)
    requires s.At? && c.ExprCode? && Ready(c.u) && r.Val? && n <= c.u.next
    requires ExprDone(w, g, s, k, r, c, n, m, p) && Within(Add(c.u, Cast(c.u.next, ty, c.cell)), g)
    ensures ExprDone(w, g, s, k + 1, Converted(w, ty, r), ExprCode(Add(c.u, Cast(c.u.next, ty, c.cell)), c.u.next), n,
            m2, p)
    ensures Agree(m, m2, c.u.next)
  {
    var i := Cast(c.u.next, ty, c.cell);
    assert Within(Emit(c.u, i), g);
    StepInstr(w, g, c.u, i, p, m, r.trace);
    OneMore(w, g, s, k);
    var a := w.cast(ty, r.value);
    m2 := if a.Got? then Put(m, c.u.next, a.value) else m;
  }

  /** An expression and the conversion of its value. */
  lemma SimConverted(w: World, e: Expr, ty: string, tree: Tree, u: Code, env: Env, g: Graph, m: Memory, prev: nat,
                     trace: seq<Event>)
    returns (k: nat, m2: Memory, p2: nat)
    requires Ready(u) && LowerExpr(e, tree, u).ExprCode?
    requires var c := LowerExpr(e, tree, u); Within(Add(c.u, Cast(c.u.next, ty, c.cell)), g)
    requires Holds(tree, env, m) && Below(tree, u.next)
    ensures var c := LowerExpr(e, tree, u); var v := Add(c.u, Cast(c.u.next, ty, c.cell));
            && Grows(u, v)
            && ExprDone(w, g, Here(u, prev, m, trace), k, Converted(w, ty, Run(w, e, env, trace)),
                        ExprCode(v, c.u.next), u.next, m2, p2)
  {
    hide LowerExpr, Keeps, Within, Steps, Step, Holds, Below, SameScope, Extends, NewCur, Run, Agree;
    var c := LowerExpr(e, tree, u);
    var i := Cast(c.u.next, ty, c.cell);
    GrowsAdd(u, c.u, i);
    GrowsAdd(c.u, c.u, i);
    WithinKeeps(c.u, Add(c.u, i), g);
    BelowMore(u, c.u, tree);
    k, m2, p2 := SimExpr(w, e, tree, u, env, g, m, prev, trace);
    var r := Run(w, e, env, trace);
    if r.Val? {
      m2 := SimCast(w, g, Here(u, prev, m, trace), k, r, c, ty, u.next, m2, p2);
      k := k + 1;
    }
  }

  lemma SimDecl(w: World, fuel: nat, rt: Result, s: Stmt, tree: Tree, loops: seq<nat>, u: Code, env: Env, g: Graph,
                m: Memory, prev: nat, trace: seq<Event>)
    returns (k: nat, m2: Memory, p2: nat)
    requires Ready(u) && tree != [] && LowerStmt(rt, s, tree, loops, u).StmtCode? && s.Decl?
    requires Within(LowerStmt(rt, s, tree, loops, u).u, g) && Holds(tree, env, m) && TreeOk(tree, u.next)
    ensures var c := LowerStmt(rt, s, tree, loops, u);
            Finished(w, g, Here(u, prev, m, trace), k, Exec(w, fuel, rt, s, env, trace), fuel, c.u, c.tree, Pop(tree),
                     tree, loops, u.next, m2, p2)
  {
    hide LowerExpr, Keeps, Within, Steps, Step, Holds, Below, SameScope, Extends, NewCur, Run, Distinct, InTree;
    var st := Here(u, prev, m, trace);
    var top := |tree| - 1;
    if s.init.None? {
      var i := Const(u.next, 0);
      assert Within(Emit(u, i), g) by { SameBlocks(Emit(u, i), Add(u, i), g); }
      StepInstr(w, g, u, i, prev, m, trace);
      OneMore(w, g, st, 0);
      k, m2, p2 := 1, Put(m, u.next, 0), prev;
      StepsZero(w, g, st);
      HoldsAgree(tree, env, m, m2, u.next);
      HoldsDecl(tree, env, m2, top, s.name, s.ty, u.next, 0);
    } else {
      var c := LowerExpr(s.init.value, tree, u);
      k, m2, p2 := SimConverted(w, s.init.value, s.ty, tree, u, env, g, m, prev, trace);
      var v := Converted(w, s.ty, Run(w, s.init.value, env, trace));
      if v.Val? {
        HoldsAgree(tree, env, m, m2, u.next);
        HoldsDecl(tree, env, m2, top, s.name, s.ty, c.u.next, v.value);
      }
    }
  }

  lemma SameBlocks(u: Code, v: Code, g: Graph)
    requires u.blocks == v.blocks && Within(v, g)
    ensures Within(u, g)
  {
  }

  lemma StepsZero(w: World, g: Graph, s: Machine)
    ensures Steps(w, g, s, 0) == s
  {
  }

  lemma SimAssign(w: World, fuel: nat, rt: Result, s: Stmt, tree: Tree, loops: seq<nat>, u: Code, env: Env, g: Graph,
                  m: Memory, prev: nat, trace: seq<Event>)
    returns (k: nat, m2: Memory, p2: nat)
    requires Ready(u) && tree != [] && LowerStmt(rt, s, tree, loops, u).StmtCode? && s.Assign?
    requires Within(LowerStmt(rt, s, tree, loops, u).u, g) && Holds(tree, env, m) && TreeOk(tree, u.next)
    ensures var c := LowerStmt(rt, s, tree, loops, u);
            Finished(w, g, Here(u, prev, m, trace), k, Exec(w, fuel, rt, s, env, trace), fuel, c.u, c.tree, Pop(tree),
                     tree, loops, u.next, m2, p2)
  {
    hide LowerExpr, Keeps, Within, Steps, Step, Holds, Below, SameScope, Extends, NewCur, Run, Distinct;
    var st := Here(u, prev, m, trace);
    SameDepth(tree, env, m, s.name);
    var d := Depth(tree, s.name);
    var slot := tree[d][s.name];
    SlotOf(tree, env, m, d, s.name);
    var c := LowerExpr(s.e, tree, u);
    var i := Cast(c.u.next, slot.ty, c.cell);
    var v := Add(c.u, i);
    GrowsAdd(u, c.u, i);
    GrowsAdd(v, v, Move(slot.cell, c.u.next));
    WithinKeeps(v, Emit(v, Move(slot.cell, c.u.next)), g);
    k, m2, p2 := SimConverted(w, s.e, slot.ty, tree, u, env, g, m, prev, trace);
    var r := Converted(w, slot.ty, Run(w, s.e, env, trace));
    if r.Val? {
      StepInstr(w, g, v, Move(slot.cell, c.u.next), p2, m2, r.trace);
      OneMore(w, g, st, k);
      HoldsAgree(tree, env, m, m2, u.next);
      HoldsAssign(tree, env, m2, d, s.name, r.value);
      assert InTree(tree, slot.cell);
      k, m2 := k + 1, Put(m2, slot.cell, r.value);
    }
  }

  lemma SlotOf(tree: Tree, env: Env, m: Memory, d: int, x: string)
    requires Holds(tree, env, m) && 0 <= d < |tree| && x in tree[d]
    ensures d < |env| && x in env[d] && env[d][x].ty == tree[d][x].ty
  {
    assert SameScope(tree[d], env[d], m);
  }

  lemma SimReturn(w: World, fuel: nat, rt: Result, s: Stmt, tree: Tree, loops: seq<nat>, u: Code, env: Env, g: Graph,
                  m: Memory, prev: nat, trace: seq<Event>)
    returns (k: nat, m2: Memory, p2: nat)
    requires Ready(u) && tree != [] && LowerStmt(rt, s, tree, loops, u).StmtCode? && s.Return?
    requires Within(LowerStmt(rt, s, tree, loops, u).u, g) && Holds(tree, env, m) && TreeOk(tree, u.next)
    ensures var c := LowerStmt(rt, s, tree, loops, u);
            Finished(w, g, Here(u, prev, m, trace), k, Exec(w, fuel, rt, s, env, trace), fuel, c.u, c.tree, Pop(tree),
                     tree, loops, u.next, m2, p2)
  {
    hide LowerExpr, Keeps, Within, Steps, Step, Holds, Below, SameScope, Extends, NewCur, Run, Distinct, InTree;
    var st := Here(u, prev, m, trace);
    var c := LowerExpr(s.e, tree, u);
    if rt.None? {
      KeepsEnd(c.u, c.u, RetVoid);
      WithinKeeps(c.u, End(c.u, RetVoid), g);
      k, m2, p2 := SimExpr(w, s.e, tree, u, env, g, m, prev, trace);
      var r := Run(w, s.e, env, trace);
      if r.Val? {
        StepTerm(w, g, c.u, RetVoid, p2, m2, r.trace);
        OneMore(w, g, st, k);
        k := k + 1;
      }
    } else {
      var i := Cast(c.u.next, rt.value, c.cell);
      var v := Add(c.u, i);
      GrowsAdd(u, c.u, i);
      KeepsEnd(v, v, Ret(c.u.next));
      WithinKeeps(v, End(v, Ret(c.u.next)), g);
      k, m2, p2 := SimConverted(w, s.e, rt.value, tree, u, env, g, m, prev, trace);
      var r := Converted(w, rt.value, Run(w, s.e, env, trace));
      if r.Val? {
        StepTerm(w, g, v, Ret(c.u.next), p2, m2, r.trace);
        OneMore(w, g, st, k);
        k := k + 1;
      }
    }
  }

  // ---- Scopes that come and go ----

  /** A new scope is empty. */
  lemma Pushed(tree: Tree, env: Env, m: Memory, n: nat)
    requires Holds(tree, env, m) && TreeOk(tree, n)
    ensures Holds(tree + [map[]], env + [map[]], m) && TreeOk(tree + [map[]], n)
  {
    var t, e := tree + [map[]], env + [map[]];
    forall i | 0 <= i < |t|
      ensures SameScope(t[i], e[i], m)
    {
      if i < |tree| {
        assert SameScope(tree[i], env[i], m);
      }
    }
  }

  lemma PushedHides(m: Memory, m2: Memory, n: nat, tree: Tree)
    requires Hidden(m, m2, n, tree + [map[]])
    ensures Hidden(m, m2, n, tree)
  {
    forall c: nat | c < n && !InTree(tree, c)
      ensures m2(c) == m(c)
    {
      assert InTree(tree + [map[]], c) ==> InTree(tree, c);
    }
  }

  lemma Popped(tree: Tree, env: Env, m: Memory, k: nat)
    requires Holds(tree, env, m) && k <= |tree|
    ensures Holds(tree[..k], env[..k], m)
  {
    forall i | 0 <= i < k
      ensures SameScope(tree[..k][i], env[..k][i], m)
    {
      assert SameScope(tree[i], env[i], m);
    }
  }

  lemma SameHeight(tree: Tree, env: Env, m: Memory)
    requires Holds(tree, env, m)
    ensures |env| == |tree|
  {
  }

  lemma BelowWider(tree: Tree, n: nat, n2: nat)
    requires TreeOk(tree, n) && n <= n2
    ensures TreeOk(tree, n2)
  {
  }

  /** Only the innermost scope changes, and it gets new cells. */
  lemma StmtTree(rt: Result, s: Stmt, tree: Tree, loops: seq<nat>, u: Code)
    requires Ready(u) && tree != [] && LowerStmt(rt, s, tree, loops, u).StmtCode? && TreeOk(tree, u.next)
    ensures var c := LowerStmt(rt, s, tree, loops, u);
            TreeOk(c.tree, c.u.next) && Fresher(tree, c.tree, u.next) && u.next <= c.u.next && Pop(c.tree) == Pop(tree)
  {
    hide LowerExpr, Extends, NewCur, Below, Distinct, InTree, LowerIf, LowerWhile, LowerFor;
    var c := LowerStmt(rt, s, tree, loops, u);
    if s.Decl? {
      var top := |tree| - 1;
      var n := if s.init.None? then u.next else LowerExpr(s.init.value, tree, u).u.next;
      BelowWider(tree, u.next, n);
      BindSlot(tree, top, s.name, s.ty, n);
    } else {
      assert c.tree == tree;
      BelowWider(tree, u.next, c.u.next);
    }
  }

  lemma {:induction false} ListTree(rt: Result, l: Stmts, tree: Tree, loops: seq<nat>, u: Code)
    requires Ready(u) && tree != [] && LowerList(rt, l, tree, loops, u).StmtCode? && TreeOk(tree, u.next)
    ensures var c := LowerList(rt, l, tree, loops, u); Pop(c.tree) == Pop(tree) && u.next <= c.u.next
  {
    hide LowerStmt, Extends, NewCur, TreeOk, Fresher;
    match l
    case Nil =>
    case Cons(s, rest) =>
      var a := LowerStmt(rt, s, tree, loops, u);
      StmtTree(rt, s, tree, loops, u);
      if !s.Break? && !s.Return? {
        ListTree(rt, rest, a.tree, loops, a.u);
      }
  }

  // ---- Putting runs together ----

  /** A run may start with steps that leave the cells in use alone. */
  lemma Prefixed(w: World, g: Graph, s: Machine, j: nat, t: Machine, k: nat, d: Done, fuel: nat, u: Code, after: Tree,
                 outer: Tree, tree: Tree, loops: seq<nat>, n: nat, n2: nat, m2: Memory, p2: nat)
    requires s.At? && t.At? && In(u) && Steps(w, g, s, j) == t && Agree(s.mem, t.mem, n) && n <= n2
    requires Finished(w, g, t, k, d, fuel, u, after, outer, tree, loops, n2, m2, p2)
    ensures Finished(w, g, s, j + k, d, fuel, u, after, outer, tree, loops, n, m2, p2)
  {
    hide Holds, InTree, Step, Ready;
    StepsAdd(w, g, s, j, k);
    forall c: nat | c < n
      ensures t.mem(c) == s.mem(c)
    {
    }
  }

  /** The break of a statement is a break of the block it stands in. */
  lemma Outwards(w: World, g: Graph, s: Machine, k: nat, d: Done, fuel: nat, u: Code, after: Tree, outer: Tree,
                 tree: Tree, loops: seq<nat>, n: nat, m2: Memory, p2: nat)
    requires s.At? && In(u) && outer != [] && Finished(w, g, s, k, d, fuel, u, after, outer, tree, loops, n, m2, p2)
    ensures Finished(w, g, s, k, d, fuel, u, after, Pop(outer), tree, loops, n, m2, p2)
  {
    hide Holds, InTree, Step, Steps;
    if d.Broke? {
      Popped(outer, d.env[..|outer|], m2, |outer| - 1);
      assert d.env[..|outer|][..|outer| - 1] == d.env[..|outer| - 1];
    }
  }

  /** After the code u of a branch or a body: where control falls. */
  lemma Fallen(w: World, g: Graph, s: Machine, k: nat, u: Code, to: nat, p: nat, m: Memory, trace: seq<Event>)
    requires Ready(u) && Steps(w, g, s, k) == Here(u, p, m, trace) && Within(Fall(u, to), g)
    ensures Steps(w, g, s, k + 1) == At(to, 0, u.cur, m, trace)
  {
    StepTerm(w, g, u, Br(to), p, m, trace);
    OneMore(w, g, s, k);
  }

  lemma FallWithin(u: Code, to: nat, g: Graph)
    requires In(u) && Within(Fall(u, to), g)
    ensures Within(u, g)
  {
    if Ready(u) {
      KeepsEnd(u, u, Br(to));
      WithinKeeps(u, Fall(u, to), g);
    }
  }

  // ---- Lists and blocks ----

  lemma {:induction false} SimList(w: World, fuel: nat, rt: Result, l: Stmts, tree: Tree, loops: seq<nat>, u: Code,
                                   env: Env, g: Graph, m: Memory, prev: nat, trace: seq<Event>)
    returns (k: nat, m2: Memory, p2: nat)
    requires Ready(u) && tree != [] && LowerList(rt, l, tree, loops, u).StmtCode?
    requires Within(LowerList(rt, l, tree, loops, u).u, g) && Holds(tree, env, m) && TreeOk(tree, u.next)
    ensures var c := LowerList(rt, l, tree, loops, u);
            Finished(w, g, Here(u, prev, m, trace), k, ExecList(w, fuel, rt, l, env, trace), fuel, c.u, c.tree,
                     Pop(tree), tree, loops, u.next, m2, p2)
    decreases fuel, l, 1
  {
    hide LowerStmt, Exec, Keeps, Within, Steps, Step, Holds, TreeOk, SameScope, Extends, NewCur, InTree, Fresher;
    match l
    case Nil =>
      k, m2, p2 := 0, m, prev;
      StepsZero(w, g, Here(u, prev, m, trace));
    case Cons(s, rest) =>
      var a := LowerStmt(rt, s, tree, loops, u);
      if !s.Break? && !s.Return? {
        WithinKeeps(a.u, LowerList(rt, rest, a.tree, loops, a.u).u, g);
      }
      SameHeight(tree, env, m);
      k, m2, p2 := SimStmt(w, fuel, rt, s, tree, loops, u, env, g, m, prev, trace);
      var d := Exec(w, fuel, rt, s, env, trace);
      if d.Next? {
        StmtTree(rt, s, tree, loops, u);
        var k1, m1, p1 := SimList(w, fuel, rt, rest, a.tree, loops, a.u, d.env, g, m2, p2, d.trace);
        StepsAdd(w, g, Here(u, prev, m, trace), k, k1);
        var d1 := ExecList(w, fuel, rt, rest, d.env, d.trace);
        if d1.Next? || d1.Broke? {
          HiddenTrans(m, m2, m1, u.next, a.u.next, tree, a.tree);
        }
        k, m2, p2 := k + k1, m1, p1;
      }
  }

  lemma {:induction false} SimBlock(w: World, fuel: nat, rt: Result, l: Stmts, tree: Tree, loops: seq<nat>, u: Code,
                                    env: Env, g: Graph, m: Memory, prev: nat, trace: seq<Event>)
    returns (k: nat, m2: Memory, p2: nat)
    requires Ready(u) && LowerBlock(rt, l, tree, loops, u).StmtCode?
    requires Within(LowerBlock(rt, l, tree, loops, u).u, g) && Holds(tree, env, m) && TreeOk(tree, u.next)
    ensures Finished(w, g, Here(u, prev, m, trace), k, ExecBlock(w, fuel, rt, l, env, trace), fuel,
                     LowerBlock(rt, l, tree, loops, u).u, tree, tree, tree, loops, u.next, m2, p2)
    decreases fuel, l, 2
  {
    hide LowerList, ExecList, Keeps, Within, Steps, Step, Holds, TreeOk, SameScope, Extends, NewCur, InTree, Hidden;
    var inner := tree + [map[]];
    Pushed(tree, env, m, u.next);
    assert Pop(inner) == tree;
    k, m2, p2 := SimList(w, fuel, rt, l, inner, loops, u, env + [map[]], g, m, prev, trace);
    ListTree(rt, l, inner, loops, u);
    var d := ExecList(w, fuel, rt, l, env + [map[]], trace);
    if d.Next? {
      Popped(LowerList(rt, l, inner, loops, u).tree, d.env, m2, |tree|);
      PushedHides(m, m2, u.next, tree);
    }
    if d.Broke? {
      assert Pop(d.env)[..|tree|] == d.env[..|tree|];
      PushedHides(m, m2, u.next, tree);
    }
  }

  // ---- Conditionals ----

  lemma TestShape(arm: Arm, end: Option<nat>, tree: Tree, u: Code)
    requires Ready(u) && (end.Some? ==> Parked(u, end.value)) && LowerTest(arm, end, tree, u).Split?
    ensures var u1 := NewBlocks(u, if end.None? then 2 else 1);
            && Ready(u1) && LowerExpr(arm.c, tree, u1).ExprCode?
            && var c := LowerExpr(arm.c, tree, u1);
            LowerTest(arm, end, tree, u) == Split(SplitIf(c.u, c.cell, |u.blocks|, EndOf(u, end), arm.alt),
                      |c.u.blocks|)
  {
  }

  /** The test of an if: the machine comes to the start of the body, of the else part or of the end. */
  lemma SimSplit(w: World, arm: Arm, end: Option<nat>, tree: Tree, u: Code, env: Env, g: Graph, m: Memory, prev: nat,
                 trace: seq<Event>)
    returns (k: nat, m2: Memory, p2: nat)
    requires Ready(u) && (end.Some? ==> Parked(u, end.value)) && LowerTest(arm, end, tree, u).Split?
    requires Within(LowerTest(arm, end, tree, u).u, g) && Holds(tree, env, m) && Below(tree, u.next)
    ensures var t := Steps(w, g, Here(u, prev, m, trace), k);
            match Run(w, arm.c, env, trace)
            case Fault(trace2) => t == Halt(Trapped(trace2))
            case Val(v, trace2) =>
              && t == At(Target(arm, end, u, LowerTest(arm, end, tree, u).els, v != 0), 0, p2, m2, trace2)
              && Agree(m, m2, u.next)
  {
    hide LowerExpr, LowerTest, Keeps, Within, Steps, Step, Holds, Below, SameScope, Extends, NewCur, Run, Parked;
    TestShape(arm, end, tree, u);
    var u1 := NewBlocks(u, if end.None? then 2 else 1);
    var c := LowerExpr(arm.c, tree, u1);
    var t := Add(c.u, Test(c.u.next, c.cell));
    var t2 := if arm.alt.NoElse? then t else NewBlocks(t, 1);
    var e := EndOf(u, end);
    var term := CondBr(c.u.next, |u.blocks|, if arm.alt.NoElse? then e else |c.u.blocks|);
    SameBlocks(End(t2, term), LowerTest(arm, end, tree, u).u, g);
    SplitWithin(c.u, c.cell, t2, term, g);
    BelowMore(u1, c.u, tree);
    k, m2, p2 := SimExpr(w, arm.c, tree, u1, env, g, m, prev, trace);
    var r := Run(w, arm.c, env, trace);
    if r.Val? {
      m2 := SimTest(w, g, Here(u, prev, m, trace), k, r, c, u.next, m2, p2);
      StepTerm(w, g, t2, term, p2, m2, r.trace);
      OneMore(w, g, Here(u, prev, m, trace), k + 1);
      k, p2 := k + 2, c.u.cur;
    }
  }

  /** Where the test of an if sends control. */
  function Target(arm: Arm, end: Option<nat>, u: Code, els: nat, holds: bool): nat
  {
    if holds then |u.blocks| else if arm.alt.NoElse? then EndOf(u, end) else els
  }

  /** The stages of a test are within the graph that its branch is within. */
  lemma SplitWithin(c: Code, cell: nat, t2: Code, term: Term, g: Graph)
    requires Ready(c) && var t := Add(c, Test(c.next, cell)); t2 == t || t2 == NewBlocks(t, 1)
    requires Within(End(t2, term), g)
    ensures Within(c, g) && Within(Add(c, Test(c.next, cell)), g) && Ready(t2)
  {
    var t := Add(c, Test(c.next, cell));
    KeepsEnd(t2, t2, term);
    WithinKeeps(t2, End(t2, term), g);
    assert Keeps(t, t2);
    WithinKeeps(t, t2, g);
    GrowsAdd(c, c, Test(c.next, cell));
    WithinKeeps(c, t, g);
  }

  lemma {:induction false} SimIf(w: World, fuel: nat, rt: Result, arm: Arm, end: Option<nat>, tree: Tree,
                                 loops: seq<nat>, u: Code, env: Env, g: Graph, m: Memory, prev: nat, trace: seq<Event>)
    returns (k: nat, m2: Memory, p2: nat)
    requires Ready(u) && (end.Some? ==> Parked(u, end.value)) && LowerIf(rt, arm, end, tree, loops, u).StmtCode?
    requires Within(LowerIf(rt, arm, end, tree, loops, u).u, g) && Holds(tree, env, m) && TreeOk(tree, u.next)
             && tree != []
    requires env != []
    ensures Finished(w, g, Here(u, prev, m, trace), k, ExecIf(w, fuel, rt, arm, env, trace), fuel,
                     LowerIf(rt, arm, end, tree, loops, u).u, tree, tree, tree, loops, u.next, m2, p2)
    decreases fuel, arm, 3
  {
    hide LowerExpr, LowerTest, LowerBlock, ExecBlock, LowerAlt, Keeps, Within, Steps, Step, Holds, Below, Run, Hidden,
      SameScope, Extends, NewCur, Distinct;
    var e := EndOf(u, end);
    var s := Here(u, prev, m, trace);
    var d := LowerTest(arm, end, tree, u);
    var b := LowerBlock(rt, arm.body, tree, loops, d.u);
    var out := LowerIf(rt, arm, end, tree, loops, u).u;
    IfWithin(rt, arm, end, tree, loops, u, g);
    NextMore(u, d.u);
    k, m2, p2 := SimSplit(w, arm, end, tree, u, env, g, m, prev, trace);
    var r := Run(w, arm.c, env, trace);
    if r.Val? {
      HoldsAgree(tree, env, m, m2, u.next);
      BelowWider(tree, u.next, d.u.next);
      if r.value != 0 {
        var k1, m1, p1 := SimBlock(w, fuel, rt, arm.body, tree, loops, d.u, env, g, m2, p2, r.trace);
        k1, p1 := SimArm(w, g, Here(d.u, p2, m2, r.trace), k1, ExecBlock(w, fuel, rt, arm.body, env, r.trace), fuel,
                         b.u, e, out, tree, loops, d.u.next, m1, p1);
        Prefixed(w, g, s, k, Here(d.u, p2, m2, r.trace), k1, ExecBlock(w, fuel, rt, arm.body, env, r.trace), fuel, out,
                 tree, tree, tree, loops, u.next, d.u.next, m1, p1);
        k, m2, p2 := k + k1, m1, p1;
      } else if arm.alt.NoElse? {
        AgreeHides(m, m2, u.next, tree);
      } else {
        var v := Go(Fall(b.u, e), d.els);
        NextMore(d.u, b.u);
        BelowWider(tree, u.next, v.next);
        var k1, m1, p1 := SimAlt(w, fuel, rt, arm.alt, e, tree, loops, v, u, env, g, m2, p2, r.trace);
        Prefixed(w, g, s, k, Here(v, p2, m2, r.trace), k1, ExecAlt(w, fuel, rt, arm.alt, env, r.trace), fuel, out, tree,
                 tree, tree, loops, u.next, v.next, m1, p1);
        k, m2, p2 := k + k1, m1, p1;
      }
    }
  }

  lemma AgreeHides(m: Memory, m2: Memory, n: nat, tree: Tree)
    requires Agree(m, m2, n)
    ensures Hidden(m, m2, n, tree)
  {
  }

  /** A branch that has ended falls to the end block. */
  lemma SimArm(w: World, g: Graph, s: Machine, k: nat, d: Done, fuel: nat, b: Code, e: nat, out: Code, tree: Tree,
               loops: seq<nat>, n: nat, m: Memory, p: nat)
    returns (k2: nat, p2: nat)
    requires s.At? && In(b) && In(out) && Finished(w, g, s, k, d, fuel, b, tree, tree, tree, loops, n, m, p)
    requires Within(Fall(b, e), g) && Ready(out) && out.cur == e && out.blocks[e].code == []
    ensures Finished(w, g, s, k2, d, fuel, out, tree, tree, tree, loops, n, m, p2)
  {
    hide Holds, Hidden, Steps, Step, Within;
    k2, p2 := k, p;
    if d.Next? {
      Fallen(w, g, s, k, b, e, p, m, d.trace);
      k2, p2 := k + 1, b.cur;
    }
  }

  lemma IfWithin(rt: Result, arm: Arm, end: Option<nat>, tree: Tree, loops: seq<nat>, u: Code, g: Graph)
    requires Ready(u) && (end.Some? ==> Parked(u, end.value)) && LowerIf(rt, arm, end, tree, loops, u).StmtCode?
    requires Within(LowerIf(rt, arm, end, tree, loops, u).u, g)
    ensures LowerTest(arm, end, tree, u).Split?
    ensures var d := LowerTest(arm, end, tree, u); var e := EndOf(u, end);
            && Within(d.u, g) && LowerBlock(rt, arm.body, tree, loops, d.u).StmtCode?
            && var b := LowerBlock(rt, arm.body, tree, loops, d.u);
            && Within(b.u, g) && Within(Fall(b.u, e), g) && Parked(Fall(b.u, e), e) && Moves(d.u, b.u)
            && (!arm.alt.NoElse? ==>
                  var v := Go(Fall(b.u, e), d.els);
                  && Ready(v) && v.blocks[v.cur].code == [] && Parked(v, e) && Moves(u, v)
                  && LowerIf(rt, arm, end, tree, loops, u) == LowerAlt(rt, arm.alt, e, tree, loops, v, u))
  {
    hide LowerExpr, LowerTest, LowerBlock, LowerAlt, Keeps, Extends, NewCur, Within, Parked;
    var d := LowerTest(arm, end, tree, u);
    var e := EndOf(u, end);
    var b := LowerBlock(rt, arm.body, tree, loops, d.u);
    BodyKeeps(u, d.u, b.u, e);
    var f := Fall(b.u, e);
    if arm.alt.NoElse? {
      SameBlocks(f, LowerIf(rt, arm, end, tree, loops, u).u, g);
    } else {
      ElseKeeps(u, d.u, f, e, d.els);
      AltKeeps(rt, arm.alt, e, tree, loops, Go(f, d.els), u);
      WithinKeeps(Go(f, d.els), LowerIf(rt, arm, end, tree, loops, u).u, g);
      SameBlocks(f, Go(f, d.els), g);
    }
    FallWithin(b.u, e, g);
    WithinKeeps(d.u, b.u, g);
  }

  lemma AltKeeps(rt: Result, alt: Alt, e: nat, tree: Tree, loops: seq<nat>, v: Code, u: Code)
    requires Ready(v) && Parked(v, e) && In(u) && Moves(u, v) && !alt.NoElse?
    requires LowerAlt(rt, alt, e, tree, loops, v, u).StmtCode?
    ensures Keeps(v, LowerAlt(rt, alt, e, tree, loops, v, u).u)
  {
    hide LowerBlock, LowerIf, Extends;
    if alt.Else? {
      var x := LowerBlock(rt, alt.body, tree, loops, v);
      BodyKeeps(v, v, x.u, e);
    }
  }

  lemma {:induction false} SimAlt(w: World, fuel: nat, rt: Result, alt: Alt, e: nat, tree: Tree, loops: seq<nat>,
                                  v: Code, u: Code, env: Env, g: Graph, m: Memory, prev: nat, trace: seq<Event>)
    returns (k: nat, m2: Memory, p2: nat)
    requires Ready(v) && Parked(v, e) && In(u) && Moves(u, v) && !alt.NoElse?
    requires LowerAlt(rt, alt, e, tree, loops, v, u).StmtCode? && Within(LowerAlt(rt, alt, e, tree, loops, v, u).u, g)
    requires Holds(tree, env, m) && TreeOk(tree, v.next) && tree != [] && env != []
    ensures Finished(w, g, Here(v, prev, m, trace), k, ExecAlt(w, fuel, rt, alt, env, trace), fuel,
                     LowerAlt(rt, alt, e, tree, loops, v, u).u, tree, tree, tree, loops, v.next, m2, p2)
    decreases fuel, alt, 4
  {
    hide LowerBlock, ExecBlock, LowerIf, ExecIf, Keeps, Within, Steps, Step, Holds, Below, Hidden, Extends, NewCur,
         Distinct, Parked;
    match alt
    case Else(body) =>
      var x := LowerBlock(rt, body, tree, loops, v);
      var out := LowerAlt(rt, alt, e, tree, loops, v, u).u;
      SameBlocks(Fall(x.u, e), out, g);
      FallWithin(x.u, e, g);
      k, m2, p2 := SimBlock(w, fuel, rt, body, tree, loops, v, env, g, m, prev, trace);
      k, p2 := SimArm(w, g, Here(v, prev, m, trace), k, ExecBlock(w, fuel, rt, body, env, trace), fuel, x.u, e, out,
                      tree, loops, v.next, m2, p2);
    case ElseIf(arm) =>
      k, m2, p2 := SimIf(w, fuel, rt, arm, Some(e), tree, loops, v, env, g, m, prev, trace);
  }

  // ---- Loops ----

  /** The parts of a while loop and what they keep: its head, its test and its body. */
  lemma WhileShape(rt: Result, s: Stmt, tree: Tree, loops: seq<nat>, u: Code, g: Graph)
    requires Ready(u) && s.While? && LowerWhile(rt, s, tree, loops, u).StmtCode?
    requires Within(LowerWhile(rt, s, tree, loops, u).u, g)
    ensures var n := |u.blocks|; var h := WhileHead(u); var inner := tree + [map[]];
            && h.cur == n && h.blocks[n].code == [] && h.next == u.next && Within(h, g)
            && LowerExpr(s.c, inner, h).ExprCode? && var c := LowerExpr(s.c, inner, h);
            var d := WhileTest(c.u, c.cell, n);
            && Grows(h, c.u) && Ready(d) && d.cur == n + 1 && d.blocks[n + 1].code == [] && Within(d, g)
               && h.next <= d.next
            && LowerBlock(rt, s.body, inner, loops + [n + 2], d).StmtCode?
            && var b := LowerBlock(rt, s.body, inner, loops + [n + 2], d);
            && Within(b.u, g) && Within(Fall(b.u, n), g)
            && LowerWhile(rt, s, tree, loops, u) == StmtCode(Go(Fall(b.u, n), n + 2), tree)
            && Parked(Fall(b.u, n), n + 2)
  {
    hide LowerExpr, LowerBlock, Extends;
    var n := |u.blocks|;
    var h := WhileHead(u);
    var inner := tree + [map[]];
    var c := LowerExpr(s.c, inner, h);
    WhileKeeps(u, c.u, c.cell);
    var d := WhileTest(c.u, c.cell, n);
    var b := LowerBlock(rt, s.body, inner, loops + [n + 2], d);
    LoopKeeps(u, d, b.u, n, n + 2);
    SameBlocks(Fall(b.u, n), LowerWhile(rt, s, tree, loops, u).u, g);
    FallWithin(b.u, n, g);
    WithinKeeps(d, b.u, g);
    HeadWithin(h, c.u, c.cell, n, g);
  }

  lemma HeadWithin(h: Code, c: Code, cell: nat, n: nat, g: Graph)
    requires Ready(h) && Grows(h, c) && Within(WhileTest(c, cell, n), g)
    ensures Within(h, g) && Within(c, g) && Within(Add(c, Test(c.next, cell)), g)
  {
    var t := Add(c, Test(c.next, cell));
    SplitWithin(c, cell, t, CondBr(c.next, n + 1, n + 2), g);
    WithinKeeps(h, c, g);
  }

  /** The condition of a while loop, from the start of its block to the body's start or the end. */
  lemma SimCond(w: World, e: Expr, tree: Tree, h: Code, n: nat, env: Env, g: Graph, m: Memory, prev: nat,
                trace: seq<Event>)
    returns (k: nat, m2: Memory, p2: nat)
    requires Ready(h) && LowerExpr(e, tree, h).ExprCode? && Holds(tree, env, m) && Below(tree, h.next)
    requires var c := LowerExpr(e, tree, h); Within(WhileTest(c.u, c.cell, n), g)
    ensures var t := Steps(w, g, Here(h, prev, m, trace), k);
            match Run(w, e, env, trace)
            case Fault(trace2) => t == Halt(Trapped(trace2))
            case Val(v, trace2) =>
              t == At(if v != 0 then n + 1 else n + 2, 0, p2, m2, trace2) && Agree(m, m2, h.next) && k >= 1
  {
    hide LowerExpr, Keeps, Within, Steps, Step, Holds, Below, SameScope, Extends, NewCur, Run;
    var c := LowerExpr(e, tree, h);
    var t := Add(c.u, Test(c.u.next, c.cell));
    var term := CondBr(c.u.next, n + 1, n + 2);
    HeadWithin(h, c.u, c.cell, n, g);
    SameBlocks(End(t, term), WhileTest(c.u, c.cell, n), g);
    BelowMore(h, c.u, tree);
    k, m2, p2 := SimExpr(w, e, tree, h, env, g, m, prev, trace);
    var r := Run(w, e, env, trace);
    if r.Val? {
      m2 := SimTest(w, g, Here(h, prev, m, trace), k, r, c, h.next, m2, p2);
      StepTerm(w, g, t, term, p2, m2, r.trace);
      OneMore(w, g, Here(h, prev, m, trace), k + 1);
      k, p2 := k + 2, c.u.cur;
    }
  }

  /** From the head of a while loop to its end.  The scopes are those inside the loop. */
  lemma {:induction false} SimWhile(w: World, fuel: nat, rt: Result, s: Stmt, tree: Tree, loops: seq<nat>, u: Code,
                                    env: Env, g: Graph, m: Memory, prev: nat, trace: seq<Event>)
    returns (k: nat, m2: Memory, p2: nat)
    requires Ready(u) && s.While? && LowerWhile(rt, s, tree, loops, u).StmtCode?
    requires Within(LowerWhile(rt, s, tree, loops, u).u, g)
    requires Holds(tree + [map[]], env, m) && TreeOk(tree + [map[]], u.next)
    ensures var inner := tree + [map[]];
            Finished(w, g, Here(WhileHead(u), prev, m, trace), k, ExecWhile(w, fuel, rt, s.c, s.body, env, trace), fuel,
                     LowerWhile(rt, s, tree, loops, u).u, inner, inner, inner, loops, u.next, m2, p2)
    decreases fuel, s.body, 3
  {
    hide LowerExpr, LowerBlock, LowerWhile, ExecBlock, WhileHead, WhileTest, Keeps, Within, Steps, Step, Holds, Below,
         Run, Hidden, SameScope, Extends, NewCur, Distinct;
    var n := |u.blocks|;
    var h := WhileHead(u);
    var inner := tree + [map[]];
    WhileShape(rt, s, tree, loops, u, g);
    var st := Here(h, prev, m, trace);
    var out := LowerWhile(rt, s, tree, loops, u).u;
    k, m2, p2 := 0, m, prev;
    StepsZero(w, g, st);
    if fuel > 0 {
      k, m2, p2 := SimCond(w, s.c, inner, h, n, env, g, m, prev, trace);
      var r := Run(w, s.c, env, trace);
      if r.Val? {
        HoldsAgree(inner, env, m, m2, u.next);
        if r.value == 0 {
          AgreeHides(m, m2, u.next, inner);
        } else {
          var d := WhileTest(LowerExpr(s.c, inner, h).u, LowerExpr(s.c, inner, h).cell, n);
          var k1, m1, p1 := SimRound(w, fuel, rt, s, tree, loops, u, d, env, g, m2, p2, r.trace);
          Prefixed(w, g, st, k, Here(d, p2, m2, r.trace), k1, ExecWhile(w, fuel, rt, s.c, s.body, env, trace),
                   fuel - 1, out, inner, inner, inner, loops, u.next, u.next, m1, p1);
          k, m2, p2 := k + k1, m1, p1;
        }
      }
    }
  }

  /** One round of a while loop whose condition holds, and all that follows. */
  lemma {:induction false} SimRound(w: World, fuel: nat, rt: Result, s: Stmt, tree: Tree, loops: seq<nat>, u: Code,
                                    d: Code, env: Env, g: Graph, m: Memory, prev: nat, trace: seq<Event>)
    returns (k: nat, m2: Memory, p2: nat)
    requires fuel > 0
    requires Ready(u) && s.While? && LowerWhile(rt, s, tree, loops, u).StmtCode?
    requires Within(LowerWhile(rt, s, tree, loops, u).u, g)
    requires Holds(tree + [map[]], env, m) && TreeOk(tree + [map[]], u.next)
    requires var h := WhileHead(u); var inner := tree + [map[]];
             && LowerExpr(s.c, inner, h).ExprCode?
             && var c := LowerExpr(s.c, inner, h); d == WhileTest(c.u, c.cell, |u.blocks|)
    requires Ready(d)
    ensures var inner := tree + [map[]];
            Finished(w, g, Here(d, prev, m, trace), k, Continued(w, fuel, rt, s, env, trace), fuel - 1,
                     LowerWhile(rt, s, tree, loops, u).u, inner, inner, inner, loops, u.next, m2, p2)
    decreases fuel, s.body, 2
  {
    hide LowerExpr, LowerBlock, LowerWhile, ExecBlock, ExecWhile, WhileHead, WhileTest, Keeps, Within, Steps, Step,
         Holds, Below, Run, SameScope, Extends, NewCur, Distinct, InTree;
    var n := |u.blocks|;
    var h := WhileHead(u);
    var inner := tree + [map[]];
    WhileShape(rt, s, tree, loops, u, g);
    var b := LowerBlock(rt, s.body, inner, loops + [n + 2], d);
    var st := Here(d, prev, m, trace);
    BelowWider(inner, u.next, d.next);
    k, m2, p2 := SimBlock(w, fuel - 1, rt, s.body, inner, loops + [n + 2], d, env, g, m, prev, trace);
    var r := ExecBlock(w, fuel - 1, rt, s.body, env, trace);
    if r.Next? {
      Fallen(w, g, st, k, b.u, n, p2, m2, r.trace);
      var k1, m1, p1 := SimWhile(w, fuel - 1, rt, s, tree, loops, u, r.env, g, m2, b.u.cur, r.trace);
      StepsAdd(w, g, st, k + 1, k1);
      k, m2, p2 := k + 1 + k1, m1, p1;
    } else if r.Broke? {
      SameHeight(inner, env, m);
      assert r.env[..|inner|] == r.env;
    }
  }

  /** What a while loop comes to once its condition holds. */
  function Continued(w: World, fuel: nat, rt: Result, s: Stmt, env: Env, trace: seq<Event>): Done
    requires fuel > 0 && s.While?
  {
    match ExecBlock(w, fuel - 1, rt, s.body, env, trace)
    case Next(env2, trace2) => ExecWhile(w, fuel - 1, rt, s.c, s.body, env2, trace2)
    case Broke(env2, trace2) => Next(env2, trace2)
    case Left(r, t) => Left(r, t)
    case Failed(t) => Failed(t)
    case Spent => Spent
  }

  /** The parts of a foreach loop: the blocks of its condition and its increment, and its body. */
  lemma ForShape(rt: Result, s: Stmt, tree: Tree, loops: seq<nat>, u: Code, g: Graph)
    requires Ready(u) && s.Foreach? && LowerFor(rt, s, tree, loops, u).StmtCode?
    requires Within(LowerFor(rt, s, tree, loops, u).u, g)
    ensures LowerBounds(s, tree, u).Bounds?
    ensures var b := LowerBounds(s, tree, u); var n := |b.u.blocks|; var inner := Indexed(tree, s.name, b.i);
            var d := ForTest(b.u, b.i, b.hi);
            && Within(b.u, g) && Within(End(b.u, Br(n)), g)
            && n + 3 < |g| && g[n] == Block([Less(b.u.next, b.i, b.hi)], CondBr(b.u.next, n + 1, n + 3))
            && g[n + 2] == Block([Inc(b.i, b.i)], Br(n))
            && Ready(d) && d.cur == n + 1 && d.blocks[n + 1].code == [] && d.next == b.u.next + 1
            && LowerBlock(rt, s.body, inner, loops + [n + 3], d).StmtCode?
            && var x := LowerBlock(rt, s.body, inner, loops + [n + 3], d);
            && Within(x.u, g) && Within(Fall(x.u, n + 2), g)
    ensures var n := |LowerBounds(s, tree, u).u.blocks|; var out := LowerFor(rt, s, tree, loops, u);
            Ready(out.u) && out.tree == tree && out.u.cur == n + 3 && out.u.blocks[n + 3].code == []
  {
    hide LowerExpr, LowerBlock, LowerBounds, Keeps, NewCur, Fall;
    var b := LowerBounds(s, tree, u);
    var n := |b.u.blocks|;
    NextMore(u, b.u);
    ForKeeps(u, b.u, b.i, b.hi);
    ForKeeps(b.u, b.u, b.i, b.hi);
    var d := ForTest(b.u, b.i, b.hi);
    var x := LowerBlock(rt, s.body, Indexed(tree, s.name, b.i), loops + [n + 3], d);
    NextKeeps(u, d, x.u, b.i, n);
    var f := Fall(x.u, n + 2);
    var v := ForNext(f, b.i, n);
    SameBlocks(v, LowerFor(rt, s, tree, loops, u).u, g);
    assert Extends(v.blocks[n + 2], g[n + 2]);
    NextWithin(f, b.i, n, g);
    FallWithin(x.u, n + 2, g);
    WithinKeeps(d, x.u, g);
    ForWithin(b.u, b.i, b.hi, g);
  }

  lemma NextWithin(f: Code, i: nat, n: nat, g: Graph)
    requires Parked(f, n + 2) && Within(ForNext(f, i, n), g)
    ensures Within(f, g)
  {
    var v := ForNext(f, i, n);
    forall b | 0 <= b < |f.blocks|
      ensures Extends(f.blocks[b], g[b])
    {
      assert Extends(v.blocks[b], g[b]);
    }
  }

  lemma ForWithin(u: Code, i: nat, hi: nat, g: Graph)
    requires Ready(u) && Within(ForTest(u, i, hi), g)
    ensures var n := |u.blocks|;
            && Within(u, g) && Within(End(u, Br(n)), g) && n < |g|
            && g[n] == Block([Less(u.next, i, hi)], CondBr(u.next, n + 1, n + 3))
  {
    var n := |u.blocks|;
    var d := ForTest(u, i, hi);
    assert Extends(d.blocks[n], g[n]);
    var e := End(u, Br(n));
    forall b | 0 <= b < n
      ensures Extends(e.blocks[b], g[b])
    {
      assert Extends(d.blocks[b], g[b]);
    }
    KeepsEnd(u, u, Br(n));
    WithinKeeps(u, e, g);
  }

  /** The two steps of the condition block of a foreach. */
  lemma SimLess(w: World, g: Graph, n: nat, t: nat, i: nat, hi: nat, prev: nat, m: Memory, trace: seq<Event>)
    requires n < |g| && g[n] == Block([Less(t, i, hi)], CondBr(t, n + 1, n + 3))
    ensures Steps(w, g, At(n, 0, prev, m, trace), 2)
         == At(if m(i) < m(hi) then n + 1 else n + 3, 0, n, Put(m, t, Bool(m(i) < m(hi))), trace)
  {
    var s := At(n, 0, prev, m, trace);
    OneMore(w, g, s, 1);
    OneMore(w, g, s, 0);
  }

  /** The two steps of its increment block. */
  lemma SimInc(w: World, g: Graph, n: nat, i: nat, prev: nat, m: Memory, trace: seq<Event>)
    requires n + 2 < |g| && g[n + 2] == Block([Inc(i, i)], Br(n))
    ensures Steps(w, g, At(n + 2, 0, prev, m, trace), 2) == At(n, 0, n + 2, Put(m, i, Wrap64(m(i) + 1)), trace)
  {
    var s := At(n + 2, 0, prev, m, trace);
    OneMore(w, g, s, 1);
    OneMore(w, g, s, 0);
  }

  /** What foreach knows of its cells: the index is in the innermost scope, the bound in none. */
  ghost predicate Ranging(s: Stmt, tree: Tree, b: Bounds, m: Memory, hi: Value)
    requires s.Foreach? && b.Bounds?
  {
    && m(b.hi) == hi && b.i < b.hi < b.u.next && !InTree(Indexed(tree, s.name, b.i), b.hi)
    && TreeOk(Indexed(tree, s.name, b.i), b.u.next)
  }

  /** From the condition block of a foreach to its end.  The scopes are those inside the loop. */
  lemma {:induction false} SimFor(w: World, fuel: nat, rt: Result, s: Stmt, tree: Tree, loops: seq<nat>, u: Code,
                                  env: Env, hi: Value, g: Graph, m: Memory, prev: nat, trace: seq<Event>)
    returns (k: nat, m2: Memory, p2: nat)
    requires Ready(u) && s.Foreach? && LowerFor(rt, s, tree, loops, u).StmtCode? && LowerBounds(s, tree, u).Bounds?
    requires Within(LowerFor(rt, s, tree, loops, u).u, g)
    requires var b := LowerBounds(s, tree, u); Holds(Indexed(tree, s.name, b.i), env, m) && Ranging(s, tree, b, m, hi)
    requires env != [] && s.name in env[|env| - 1]
    ensures var b := LowerBounds(s, tree, u); var inner := Indexed(tree, s.name, b.i);
            Finished(w, g, At(|b.u.blocks|, 0, prev, m, trace), k,
                     ExecFor(w, fuel, rt, s.name, hi, s.body, env, trace), fuel,
                     LowerFor(rt, s, tree, loops, u).u, inner, inner, inner, loops, b.u.next, m2, p2)
    decreases fuel, s.body, 3
  {
    hide LowerExpr, LowerBlock, LowerFor, LowerBounds, ExecBlock, Keeps, Within, Steps, Step, Holds, TreeOk, Run,
         Hidden, InTree, SameScope, Extends, NewCur;
    var b := LowerBounds(s, tree, u);
    var n := |b.u.blocks|;
    var inner := Indexed(tree, s.name, b.i);
    var st := At(n, 0, prev, m, trace);
    var out := LowerFor(rt, s, tree, loops, u).u;
    ForShape(rt, s, tree, loops, u, g);
    k, m2, p2 := 0, m, prev;
    StepsZero(w, g, st);
    if fuel > 0 {
      SimLess(w, g, n, b.u.next, b.i, b.hi, prev, m, trace);
      IndexOf(s, tree, b.i, env, m);
      k, m2, p2 := 2, Put(m, b.u.next, Bool(m(b.i) < m(b.hi))), n;
      RangingOn(s, tree, b, env, m, m2, hi);
      if m(b.i) >= m(b.hi) {
        AgreeHides(m, m2, b.u.next, inner);
      } else {
        var d := ForTest(b.u, b.i, b.hi);
        var k1, m1, p1 := SimTurn(w, fuel, rt, s, tree, loops, u, env, hi, g, m2, p2, trace);
        Prefixed(w, g, st, 2, Here(d, p2, m2, trace), k1, ExecFor(w, fuel, rt, s.name, hi, s.body, env, trace),
                 fuel - 1, out, inner, inner, inner, loops, b.u.next, b.u.next, m1, p1);
        k, m2, p2 := 2 + k1, m1, p1;
      }
    }
  }

  lemma IndexOf(s: Stmt, tree: Tree, i: nat, env: Env, m: Memory)
    requires s.Foreach? && Holds(Indexed(tree, s.name, i), env, m)
    ensures |env| == |tree| + 1 && s.name in env[|env| - 1] && env[|env| - 1][s.name] == Local(INT, m(i))
  {
    var inner := Indexed(tree, s.name, i);
    assert SameScope(inner[|tree|], env[|tree|], m);
  }

  lemma RangingOn(s: Stmt, tree: Tree, b: Bounds, env: Env, m: Memory, m2: Memory, hi: Value)
    requires s.Foreach? && b.Bounds? && Holds(Indexed(tree, s.name, b.i), env, m) && Ranging(s, tree, b, m, hi)
    requires Agree(m, m2, b.u.next)
    ensures Holds(Indexed(tree, s.name, b.i), env, m2) && Ranging(s, tree, b, m2, hi)
  {
    HoldsAgree(Indexed(tree, s.name, b.i), env, m, m2, b.u.next);
  }

  lemma Incremented(s: Stmt, tree: Tree, b: Bounds, env: Env, m: Memory, hi: Value)
    requires s.Foreach? && b.Bounds? && Holds(Indexed(tree, s.name, b.i), env, m) && Ranging(s, tree, b, m, hi)
    ensures |env| == |tree| + 1 && s.name in env[|tree|]
    ensures var e := Bind(env, |tree|, s.name, Local(env[|tree|][s.name].ty, Wrap64(env[|tree|][s.name].value + 1)));
            var m2 := Put(m, b.i, Wrap64(m(b.i) + 1));
            Holds(Indexed(tree, s.name, b.i), e, m2) && Ranging(s, tree, b, m2, hi)
  {
    hide Wrap64, InTree;
    IndexOf(s, tree, b.i, env, m);
    HoldsAssign(Indexed(tree, s.name, b.i), env, m, |tree|, s.name, Wrap64(m(b.i) + 1));
  }

  lemma IndexInTree(s: Stmt, tree: Tree, i: nat)
    requires s.Foreach?
    ensures InTree(Indexed(tree, s.name, i), i)
  {
    var inner: Tree := Indexed(tree, s.name, i);
    assert s.name in inner[|tree|] && inner[|tree|][s.name].cell == i;
  }

  /** What a foreach comes to once its index is below the bound. */
  function Ranged(w: World, fuel: nat, rt: Result, s: Stmt, hi: Value, env: Env, trace: seq<Event>): Done
    requires fuel > 0 && s.Foreach? && env != []
  {
    match ExecBlock(w, fuel - 1, rt, s.body, env, trace)
    case Next(env2, trace2) =>
      if s.name !in env2[|env2| - 1] then Failed(trace2) else
      var i := env2[|env2| - 1][s.name];
      ExecFor(w, fuel - 1, rt, s.name, hi, s.body, Bind(env2, |env2| - 1, s.name, Local(i.ty, Wrap64(i.value + 1))),
              trace2)
    case Broke(env2, trace2) => Next(env2, trace2)
    case Left(r, t) => Left(r, t)
    case Failed(t) => Failed(t)
    case Spent => Spent
  }

  /** One turn of a foreach whose index is below the bound, and all that follows. */
  lemma {:induction false} SimTurn(w: World, fuel: nat, rt: Result, s: Stmt, tree: Tree, loops: seq<nat>, u: Code,
                                   env: Env, hi: Value, g: Graph, m: Memory, prev: nat, trace: seq<Event>)
    returns (k: nat, m2: Memory, p2: nat)
    requires fuel > 0
    requires Ready(u) && s.Foreach? && LowerFor(rt, s, tree, loops, u).StmtCode? && LowerBounds(s, tree, u).Bounds?
    requires Within(LowerFor(rt, s, tree, loops, u).u, g)
    requires var b := LowerBounds(s, tree, u); Holds(Indexed(tree, s.name, b.i), env, m) && Ranging(s, tree, b, m, hi)
    requires env != [] && s.name in env[|env| - 1]
    ensures var b := LowerBounds(s, tree, u); var inner := Indexed(tree, s.name, b.i);
            Finished(w, g, Here(ForTest(b.u, b.i, b.hi), prev, m, trace), k, Ranged(w, fuel, rt, s, hi, env, trace),
                     fuel - 1, LowerFor(rt, s, tree, loops, u).u, inner, inner, inner, loops, b.u.next, m2, p2)
    decreases fuel, s.body, 2
  {
    hide LowerExpr, LowerBlock, LowerFor, LowerBounds, ExecBlock, ExecFor, Keeps, Within, Steps, Step, Holds, TreeOk,
         Run, InTree, SameScope, Extends, NewCur, Wrap64;
    var b := LowerBounds(s, tree, u);
    var n := |b.u.blocks|;
    var inner := Indexed(tree, s.name, b.i);
    ForShape(rt, s, tree, loops, u, g);
    var d := ForTest(b.u, b.i, b.hi);
    var x := LowerBlock(rt, s.body, inner, loops + [n + 3], d);
    var st := Here(d, prev, m, trace);
    BelowWider(inner, b.u.next, d.next);
    SameHeight(inner, env, m);
    k, m2, p2 := SimBlock(w, fuel - 1, rt, s.body, inner, loops + [n + 3], d, env, g, m, prev, trace);
    var r := ExecBlock(w, fuel - 1, rt, s.body, env, trace);
    if r.Next? {
      Fallen(w, g, st, k, x.u, n + 2, p2, m2, r.trace);
      SimInc(w, g, n, b.i, x.u.cur, m2, r.trace);
      StepsAdd(w, g, st, k + 1, 2);
      IndexOf(s, tree, b.i, r.env, m2);
      Incremented(s, tree, b, r.env, m2, hi);
      IndexInTree(s, tree, b.i);
      var m3 := Put(m2, b.i, Wrap64(m2(b.i) + 1));
      var e := Bind(r.env, |tree|, s.name, Local(INT, Wrap64(m2(b.i) + 1)));
      var k1, m1, p1 := SimFor(w, fuel - 1, rt, s, tree, loops, u, e, hi, g, m3, n + 2, r.trace);
      StepsAdd(w, g, st, k + 3, k1);
      k, m2, p2 := k + 3 + k1, m1, p1;
    } else if r.Broke? {
      assert r.env[..|inner|] == r.env;
    }
  }

  /** The bounds of a foreach are evaluated once each, the lower one first and the upper one in the scope of the
      index. */
  lemma SimBounds(w: World, s: Stmt, tree: Tree, u: Code, env: Env, g: Graph, m: Memory, prev: nat, trace: seq<Event>)
    returns (k: nat, m2: Memory, p2: nat)
    requires Ready(u) && s.Foreach? && LowerBounds(s, tree, u).Bounds? && Within(LowerBounds(s, tree, u).u, g)
    requires Holds(tree, env, m) && TreeOk(tree, u.next)
    ensures var b := LowerBounds(s, tree, u); var t := Steps(w, g, Here(u, prev, m, trace), k);
            var inner := env + [map[]];
            match Converted(w, INT, Run(w, s.lo, inner, trace))
            case Fault(trace1) => t == Halt(Trapped(trace1))
            case Val(lo, trace1) =>
              var started := Bind(inner, |env|, s.name, Local(INT, lo));
              match Converted(w, INT, Run(w, s.hi, started, trace1))
              case Fault(trace2) => t == Halt(Trapped(trace2))
              case Val(hi, trace2) =>
                && t == Here(b.u, p2, m2, trace2) && Holds(Indexed(tree, s.name, b.i), started, m2)
                   && Agree(m, m2, u.next)
                && Ranging(s, tree, b, m2, hi)
  {
    hide LowerExpr, Keeps, Within, Steps, Step, Holds, Below, Distinct, Run, SameScope, Extends, NewCur, InTree;
    var inner := tree + [map[]];
    var st := Here(u, prev, m, trace);
    BoundsShape(s, tree, u, g);
    var a := LowerExpr(s.lo, inner, u);
    var i := a.u.next;
    var lo := Add(a.u, Cast(i, INT, a.cell));
    var b := LowerExpr(s.hi, Indexed(tree, s.name, i), lo);
    Pushed(tree, env, m, u.next);
    k, m2, p2 := SimConverted(w, s.lo, INT, inner, u, env + [map[]], g, m, prev, trace);
    var x := Converted(w, INT, Run(w, s.lo, env + [map[]], trace));
    if x.Val? {
      HoldsAgree(inner, env + [map[]], m, m2, u.next);
      SameHeight(inner, env + [map[]], m2);
      HoldsDecl(inner, env + [map[]], m2, |tree|, s.name, INT, i, x.value);
      BelowWider(inner, u.next, i);
      BindSlot(inner, |tree|, s.name, INT, i);
      var started := Bind(env + [map[]], |env|, s.name, Local(INT, x.value));
      var k1, m1, p1 := SimConverted(w, s.hi, INT, Indexed(tree, s.name, i), lo, started, g, m2, p2, x.trace);
      StepsAdd(w, g, st, k, k1);
      k := k + k1;
      var y := Converted(w, INT, Run(w, s.hi, started, x.trace));
      if y.Val? {
        HoldsAgree(Indexed(tree, s.name, i), started, m2, m1, lo.next);
        AboveTree(Indexed(tree, s.name, i), lo.next, b.u.next);
        BelowWider(Indexed(tree, s.name, i), lo.next, b.u.next + 1);
        m2, p2 := m1, p1;
      }
    }
  }

  lemma AboveTree(tree: Tree, n: nat, c: nat)
    requires Below(tree, n) && n <= c
    ensures !InTree(tree, c)
  {
  }

  lemma BoundsShape(s: Stmt, tree: Tree, u: Code, g: Graph)
    requires Ready(u) && s.Foreach? && LowerBounds(s, tree, u).Bounds? && Within(LowerBounds(s, tree, u).u, g)
    ensures var a := LowerExpr(s.lo, tree + [map[]], u);
            && a.ExprCode? && var lo := Add(a.u, Cast(a.u.next, INT, a.cell));
            && Grows(u, a.u) && Grows(u, lo) && Within(lo, g) && u.next <= a.u.next
            && var b := LowerExpr(s.hi, Indexed(tree, s.name, a.u.next), lo);
            && b.ExprCode? && Grows(lo, b.u) && lo.next <= b.u.next
            && LowerBounds(s, tree, u) == Bounds(Add(b.u, Cast(b.u.next, INT, b.cell)), a.u.next, b.u.next)
  {
    hide LowerExpr, Extends;
    var a := LowerExpr(s.lo, tree + [map[]], u);
    var lo := Add(a.u, Cast(a.u.next, INT, a.cell));
    GrowsAdd(u, a.u, Cast(a.u.next, INT, a.cell));
    var b := LowerExpr(s.hi, Indexed(tree, s.name, a.u.next), lo);
    GrowsAdd(b.u, b.u, Cast(b.u.next, INT, b.cell));
    WithinKeeps(b.u, Add(b.u, Cast(b.u.next, INT, b.cell)), g);
    WithinKeeps(lo, b.u, g);
  }

  // ---- All statements ----

  /** A loop ends with the scope it opened. */
  lemma ScopeEnd(w: World, g: Graph, s: Machine, k: nat, d: Done, fuel: nat, u: Code, inner: Tree, tree: Tree,
                 loops: seq<nat>, n: nat, m2: Memory, p2: nat)
    requires s.At? && In(u) && tree != [] && |inner| == |tree| + 1 && Pop(inner) == tree && Fresher(tree, inner, n)
             && !d.Broke?
    requires Finished(w, g, s, k, d, fuel, u, inner, inner, inner, loops, n, m2, p2) && (d.Next? ==> d.env != [])
    ensures Finished(w, g, s, k, Scoped(d), fuel, u, tree, Pop(tree), tree, loops, n, m2, p2)
  {
    hide Holds, InTree, Steps, Step;
    if d.Next? {
      SameHeight(inner, d.env, m2);
      Popped(inner, d.env, m2, |tree|);
    }
  }

  lemma PushedFresher(tree: Tree, name: string, i: nat, n: nat)
    requires n <= i
    ensures Fresher(tree, tree + [map[]], n) && Fresher(tree, Indexed(tree, name, i), n)
  {
    BindFresher(tree + [map[]], |tree|, name, INT, i);
    forall c: nat | InTree(tree + [map[]], c)
      ensures InTree(tree, c)
    {
    }
  }

  lemma {:induction false} SimWhileStmt(w: World, fuel: nat, rt: Result, s: Stmt, tree: Tree, loops: seq<nat>, u: Code,
                                        env: Env, g: Graph, m: Memory, prev: nat, trace: seq<Event>)
    returns (k: nat, m2: Memory, p2: nat)
    requires Ready(u) && tree != [] && s.While? && LowerWhile(rt, s, tree, loops, u).StmtCode?
    requires Within(LowerWhile(rt, s, tree, loops, u).u, g) && Holds(tree, env, m) && TreeOk(tree, u.next) && env != []
    ensures Finished(w, g, Here(u, prev, m, trace), k, Exec(w, fuel, rt, s, env, trace), fuel,
                     LowerWhile(rt, s, tree, loops, u).u, tree, Pop(tree), tree, loops, u.next, m2, p2)
    decreases fuel, s, 2
  {
    hide LowerExpr, LowerBlock, LowerWhile, ExecWhile, Keeps, Within, Steps, Step, Holds, TreeOk, Hidden, InTree,
         Extends, NewCur;
    var n := |u.blocks|;
    var inner := tree + [map[]];
    var st := Here(u, prev, m, trace);
    WhileShape(rt, s, tree, loops, u, g);
    var v := NewBlocks(u, 3);
    SameBlocks(End(v, Br(n)), WhileHead(u), g);
    StepTerm(w, g, v, Br(n), prev, m, trace);
    StepsZero(w, g, st);
    OneMore(w, g, st, 0);
    Pushed(tree, env, m, u.next);
    var h := Here(WhileHead(u), u.cur, m, trace);
    var d := ExecWhile(w, fuel, rt, s.c, s.body, env + [map[]], trace);
    k, m2, p2 := SimWhile(w, fuel, rt, s, tree, loops, u, env + [map[]], g, m, u.cur, trace);
    var out := LowerWhile(rt, s, tree, loops, u).u;
    Prefixed(w, g, st, 1, h, k, d, fuel, out, inner, inner, inner, loops, u.next, u.next, m2, p2);
    k := 1 + k;
    PushedFresher(tree, "", u.next, u.next);
    NoBreak(w, fuel, rt, s.c, s.body, env + [map[]], trace);
    ScopeEnd(w, g, st, k, d, fuel, out, inner, tree, loops, u.next, m2, p2);
  }

  lemma {:induction false} NoBreak(w: World, fuel: nat, rt: Result, c: Expr, body: Stmts, env: Env, trace: seq<Event>)
    ensures !ExecWhile(w, fuel, rt, c, body, env, trace).Broke?
  {
    hide Run, ExecBlock;
    if fuel > 0 {
      var v := Run(w, c, env, trace);
      if v.Val? {
        var d := ExecBlock(w, fuel - 1, rt, body, env, v.trace);
        if d.Next? {
          NoBreak(w, fuel - 1, rt, c, body, d.env, d.trace);
        }
      }
    }
  }

  lemma {:induction false} NoBreakFor(w: World, fuel: nat, rt: Result, x: string, hi: Value, body: Stmts, env: Env,
                                      trace: seq<Event>)
    requires env != [] && x in env[|env| - 1]
    ensures !ExecFor(w, fuel, rt, x, hi, body, env, trace).Broke?
  {
    hide Run, ExecBlock, Wrap64;
    if fuel > 0 {
      var d := ExecBlock(w, fuel - 1, rt, body, env, trace);
      if d.Next? && x in d.env[|d.env| - 1] {
        var i := d.env[|d.env| - 1][x];
        NoBreakFor(w, fuel - 1, rt, x, hi, body, Bind(d.env, |d.env| - 1, x, Local(i.ty, Wrap64(i.value + 1))),
                   d.trace);
      }
    }
  }

  lemma {:induction false} SimForStmt(w: World, fuel: nat, rt: Result, s: Stmt, tree: Tree, loops: seq<nat>, u: Code,
                                      env: Env, g: Graph, m: Memory, prev: nat, trace: seq<Event>)
    returns (k: nat, m2: Memory, p2: nat)
    requires Ready(u) && tree != [] && s.Foreach? && LowerFor(rt, s, tree, loops, u).StmtCode?
    requires Within(LowerFor(rt, s, tree, loops, u).u, g) && Holds(tree, env, m) && TreeOk(tree, u.next) && env != []
    ensures Finished(w, g, Here(u, prev, m, trace), k, Exec(w, fuel, rt, s, env, trace), fuel,
                     LowerFor(rt, s, tree, loops, u).u, tree, Pop(tree), tree, loops, u.next, m2, p2)
    decreases fuel, s, 2
  {
    hide LowerExpr, LowerBlock, LowerFor, LowerBounds, ExecFor, Keeps, Within, Steps, Step, Holds, TreeOk, Hidden,
         InTree, Extends, NewCur, Run, Ranging;
    var st := Here(u, prev, m, trace);
    ForShape(rt, s, tree, loops, u, g);
    var b := LowerBounds(s, tree, u);
    var n := |b.u.blocks|;
    k, m2, p2 := SimBounds(w, s, tree, u, env, g, m, prev, trace);
    var x := Converted(w, INT, Run(w, s.lo, env + [map[]], trace));
    if x.Val? {
      var started := Bind(env + [map[]], |env|, s.name, Local(INT, x.value));
      var y := Converted(w, INT, Run(w, s.hi, started, x.trace));
      if y.Val? {
        StepTerm(w, g, b.u, Br(n), p2, m2, y.trace);
        OneMore(w, g, st, k);
        k := k + 1;
        var d := ExecFor(w, fuel, rt, s.name, y.value, s.body, started, y.trace);
        var inner := Indexed(tree, s.name, b.i);
        var out := LowerFor(rt, s, tree, loops, u).u;
        var k1, m1, p1 := SimFor(w, fuel, rt, s, tree, loops, u, started, y.value, g, m2, b.u.cur, y.trace);
        Prefixed(w, g, st, k, At(n, 0, b.u.cur, m2, y.trace), k1, d, fuel, out, inner, inner, inner, loops, u.next,
                 b.u.next, m1, p1);
        k, m2, p2 := k + k1, m1, p1;
        PushedFresher(tree, s.name, b.i, u.next);
        NoBreakFor(w, fuel, rt, s.name, y.value, s.body, started, y.trace);
        ScopeEnd(w, g, st, k, d, fuel, out, inner, tree, loops, u.next, m2, p2);
      }
    }
  }

  lemma {:induction false} SimStmt(w: World, fuel: nat, rt: Result, s: Stmt, tree: Tree, loops: seq<nat>, u: Code,
                                   env: Env, g: Graph, m: Memory, prev: nat, trace: seq<Event>)
    returns (k: nat, m2: Memory, p2: nat)
    requires Ready(u) && tree != [] && LowerStmt(rt, s, tree, loops, u).StmtCode?
    requires Within(LowerStmt(rt, s, tree, loops, u).u, g) && Holds(tree, env, m) && TreeOk(tree, u.next)
    ensures var c := LowerStmt(rt, s, tree, loops, u);
            Finished(w, g, Here(u, prev, m, trace), k, Exec(w, fuel, rt, s, env, trace), fuel, c.u, c.tree, Pop(tree),
                     tree, loops, u.next, m2, p2)
    decreases fuel, s, 4
  {
    hide LowerExpr, LowerIf, LowerWhile, LowerFor, Keeps, Within, Steps, Step, Holds, Below, Distinct, InTree, Extends,
         NewCur, Run, ExecIf, ExecWhile, ExecFor, SameScope;
    var st := Here(u, prev, m, trace);
    SameHeight(tree, env, m);
    match s
    case Decl(_, _, _) =>
      k, m2, p2 := SimDecl(w, fuel, rt, s, tree, loops, u, env, g, m, prev, trace);
    case Assign(_, _) =>
      k, m2, p2 := SimAssign(w, fuel, rt, s, tree, loops, u, env, g, m, prev, trace);
    case Eval(e) =>
      k, m2, p2 := SimExpr(w, e, tree, u, env, g, m, prev, trace);
      if Run(w, e, env, trace).Val? {
        HoldsAgree(tree, env, m, m2, u.next);
      }
    case If(arm) =>
      k, m2, p2 := SimIf(w, fuel, rt, arm, None, tree, loops, u, env, g, m, prev, trace);
      Outwards(w, g, st, k, ExecIf(w, fuel, rt, arm, env, trace), fuel, LowerStmt(rt, s, tree, loops, u).u, tree, tree,
               tree, loops, u.next, m2, p2);
    case While(_, _) =>
      k, m2, p2 := SimWhileStmt(w, fuel, rt, s, tree, loops, u, env, g, m, prev, trace);
    case Foreach(_, _, _, _) =>
      k, m2, p2 := SimForStmt(w, fuel, rt, s, tree, loops, u, env, g, m, prev, trace);
    case Break =>
      StepTerm(w, g, u, Br(loops[|loops| - 1]), prev, m, trace);
      StepsZero(w, g, st);
      OneMore(w, g, st, 0);
      Popped(tree, env, m, |tree| - 1);
      k, m2, p2 := 1, m, u.cur;
    case Return(_) =>
      k, m2, p2 := SimReturn(w, fuel, rt, s, tree, loops, u, env, g, m, prev, trace);
  }
}
