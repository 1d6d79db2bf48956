// Which functions are lowered: those whose names are declared, once in each scope, and whose breaks are in loops.
//  What is wrong with the others, and which error is reported first.
module LoweringScope {
  import opened Options
  import opened SourceLang
  import opened BlockGraph
  import opened Lowering
  import opened LoweringSim
  import opened LoweringFunc

  /** The names declared in each of the open scopes, innermost last. */
  type Scopes = seq<set<string>>

  predicate Known(scopes: Scopes, x: string)
  {
    exists i :: 0 <= i < |scopes| && x in scopes[i]
  }

  // ---- Well scoped ----

  /** Every name of the expression is declared in some scope. */
  predicate ExprScoped(e: Expr, scopes: Scopes)
  {
    match e
    case Num(_) => true
    case Sym(x) => Known(scopes, x)
    case Bin(_, l, r) => ExprScoped(l, scopes) && ExprScoped(r, scopes)
    case Logic(_, l, r) => ExprScoped(l, scopes) && ExprScoped(r, scopes)
    case Not(x) => ExprScoped(x, scopes)
  }

  /** The scopes after a statement: a declaration adds its name to the innermost one. */
  function After(s: Stmt, scopes: Scopes): Scopes
    requires scopes != []
  {
    if s.Decl? then scopes[|scopes| - 1 := scopes[|scopes| - 1] + {s.name}] else scopes
  }

  /** Loops have a scope of their own around their body, with the index of a foreach in it from its upper bound on. */
  predicate StmtScoped(s: Stmt, scopes: Scopes, inLoop: bool)
    requires scopes != []
    decreases s, 1
  {
    match s
    case Decl(x, _, init) => x !in scopes[|scopes| - 1] && (init.Some? ==> ExprScoped(init.value, scopes))
    case Assign(x, e) => ExprScoped(e, scopes) && Known(scopes, x)
    case Eval(e) => ExprScoped(e, scopes)
    case If(arm) => ArmScoped(arm, scopes, inLoop)
    case While(c, body) => ExprScoped(c, scopes + [{}]) && BlockScoped(body, scopes + [{}], true)
    case Foreach(x, lo, hi, body) =>
      ExprScoped(lo, scopes + [{}]) && ExprScoped(hi, scopes + [{x}]) && BlockScoped(body, scopes + [{x}], true)
    case Break => inLoop
    case Return(e) => ExprScoped(e, scopes)
  }

  /** Statements behind a break or return are not looked at. */
  predicate ListScoped(l: Stmts, scopes: Scopes, inLoop: bool)
    requires scopes != []
    decreases l, 1
  {
    match l
    case Nil => true
    case Cons(s, rest) =>
      && StmtScoped(s, scopes, inLoop)
      && (s.Break? || s.Return? || ListScoped(rest, After(s, scopes), inLoop))
  }

  predicate BlockScoped(l: Stmts, scopes: Scopes, inLoop: bool)
    decreases l, 2
  {
    ListScoped(l, scopes + [{}], inLoop)
  }

  predicate ArmScoped(arm: Arm, scopes: Scopes, inLoop: bool)
    decreases arm, 3
  {
    && ExprScoped(arm.c, scopes) && BlockScoped(arm.body, scopes, inLoop)
    && (match arm.alt
        case NoElse => true
        case Else(body) => BlockScoped(body, scopes, inLoop)
        case ElseIf(next) => ArmScoped(next, scopes, inLoop))
  }

  // ---- The first fault ----

  function Or(a: Option<Abort>, b: Option<Abort>): Option<Abort>
  {
    if a.Some? then a else b
  }

  function ExprFault(e: Expr, scopes: Scopes): Option<Abort>
  {
    if ExprScoped(e, scopes) then None else Some(UnknownVariable)
  }

  /** What is reported for a statement: the first fault in the order of the text, but a repeated declaration before
      anything in its initial value. */
  function StmtFault(s: Stmt, scopes: Scopes, inLoop: bool): Option<Abort>
    requires scopes != []
    decreases s, 1
  {
    match s
    case Decl(x, _, init) =>
      if x in scopes[|scopes| - 1] then Some(VariableRedeclaration)
      else if init.Some? then ExprFault(init.value, scopes) else None
    case Assign(x, e) => Or(ExprFault(e, scopes), if Known(scopes, x) then None else Some(UnknownVariable))
    case Eval(e) => ExprFault(e, scopes)
    case If(arm) => ArmFault(arm, scopes, inLoop)
    case While(c, body) => Or(ExprFault(c, scopes + [{}]), BlockFault(body, scopes + [{}], true))
    case Foreach(x, lo, hi, body) =>
      Or(ExprFault(lo, scopes + [{}]), Or(ExprFault(hi, scopes + [{x}]), BlockFault(body, scopes + [{x}], true)))
    case Break => if inLoop then None else Some(InvalidBreakStatement)
    case Return(e) => ExprFault(e, scopes)
  }

  function ListFault(l: Stmts, scopes: Scopes, inLoop: bool): Option<Abort>
    requires scopes != []
    decreases l, 1
  {
    match l
    case Nil => None
    case Cons(s, rest) =>
      Or(StmtFault(s, scopes, inLoop), if s.Break? || s.Return? then None
         else ListFault(rest, After(s, scopes), inLoop))
  }

  function BlockFault(l: Stmts, scopes: Scopes, inLoop: bool): Option<Abort>
    decreases l, 2
  {
    ListFault(l, scopes + [{}], inLoop)
  }

  function ArmFault(arm: Arm, scopes: Scopes, inLoop: bool): Option<Abort>
    decreases arm, 3
  {
    Or(ExprFault(arm.c, scopes), Or(BlockFault(arm.body, scopes, inLoop),
       match arm.alt
       case NoElse => None
       case Else(body) => BlockFault(body, scopes, inLoop)
       case ElseIf(next) => ArmFault(next, scopes, inLoop)))
  }

  /** There is no fault exactly if everything is well scoped. */
  lemma {:induction false} StmtFaultIff(s: Stmt, scopes: Scopes, inLoop: bool)
    requires scopes != []
    ensures StmtFault(s, scopes, inLoop) == None <==> StmtScoped(s, scopes, inLoop)
    decreases s, 1
  {
    match s
    case If(arm) => ArmFaultIff(arm, scopes, inLoop);
    case While(_, body) => BlockFaultIff(body, scopes + [{}], true);
    case Foreach(x, _, _, body) => BlockFaultIff(body, scopes + [{x}], true);
    case _ =>
  }

  lemma {:induction false} ListFaultIff(l: Stmts, scopes: Scopes, inLoop: bool)
    requires scopes != []
    ensures ListFault(l, scopes, inLoop) == None <==> ListScoped(l, scopes, inLoop)
    decreases l, 1
  {
    match l
    case Nil =>
    case Cons(s, rest) =>
      StmtFaultIff(s, scopes, inLoop);
      ListFaultIff(rest, After(s, scopes), inLoop);
  }

  lemma {:induction false} BlockFaultIff(l: Stmts, scopes: Scopes, inLoop: bool)
    ensures BlockFault(l, scopes, inLoop) == None <==> BlockScoped(l, scopes, inLoop)
    decreases l, 2
  {
    ListFaultIff(l, scopes + [{}], inLoop);
  }

  lemma {:induction false} ArmFaultIff(arm: Arm, scopes: Scopes, inLoop: bool)
    ensures ArmFault(arm, scopes, inLoop) == None <==> ArmScoped(arm, scopes, inLoop)
    decreases arm, 3
  {
    BlockFaultIff(arm.body, scopes, inLoop);
    match arm.alt
    case NoElse =>
    case Else(body) => BlockFaultIff(body, scopes, inLoop);
    case ElseIf(next) => ArmFaultIff(next, scopes, inLoop);
  }

  // ---- Lowering agrees ----

  /** The names of a stack of scopes. */
  function Names(tree: Tree): (n: Scopes)
    ensures |n| == |tree| && forall i :: 0 <= i < |tree| ==> n[i] == tree[i].Keys
  {
    seq(|tree|, i requires 0 <= i < |tree| => tree[i].Keys)
  }

  lemma NamesPush(tree: Tree)
    ensures Names(tree + [map[]]) == Names(tree) + [{}]
  {
    var none: map<string, Slot> := map[];
    assert none.Keys == {};
  }

  lemma DepthKnows(tree: Tree, x: string)
    ensures Depth(tree, x) >= 0 <==> Known(Names(tree), x)
  {
    if Depth(tree, x) >= 0 {
      assert x in Names(tree)[Depth(tree, x)];
    }
  }

  lemma {:induction false} ExprAgrees(e: Expr, tree: Tree, u: Code)
    requires Ready(u)
    ensures var c := LowerExpr(e, tree, u);
            if ExprScoped(e, Names(tree)) then c.ExprCode? else c == NoExpr(UnknownVariable)
    decreases e
  {
    hide Grows, Known, Names;
    match e
    case Num(_) =>
    case Sym(x) => DepthKnows(tree, x);
    case Bin(_, l, r) =>
      ExprAgrees(l, tree, u);
      if ExprScoped(l, Names(tree)) {
        ExprAgrees(r, tree, LowerExpr(l, tree, u).u) by { GrowsReady(u, LowerExpr(l, tree, u).u); }
      }
    case Logic(_, _, _) => LogicAgrees(e, tree, u);
    case Not(x) => ExprAgrees(x, tree, u);
  }

  lemma GrowsReady(u: Code, v: Code)
    requires Grows(u, v)
    ensures Ready(v) && In(v)
  {
  }

  lemma {:induction false} LogicAgrees(e: Expr, tree: Tree, u: Code)
    requires Ready(u) && e.Logic?
    ensures var c := ShortCircuit(e, tree, u);
            if ExprScoped(e, Names(tree)) then c.ExprCode? else c == NoExpr(UnknownVariable)
    decreases e, 0
  {
    hide Known, Names, Keeps, NewCur, LowerExpr;
    ExprAgrees(e.l, tree, u);
    var a := LowerExpr(e.l, tree, u);
    if a.ExprCode? {
      var t := Add(a.u, Test(a.u.next, a.cell));
      ExprAgrees(e.r, tree, Fork(t, a.u.next, e.both));
    }
  }

  /** Lowering gives code if nothing is wrong, and reports the first fault otherwise. */
  predicate Agrees(c: StmtCode, fault: Option<Abort>)
  {
    if fault == None then c.StmtCode? else c == NoStmt(fault.value)
  }

  lemma NamesBind(tree: Tree, x: string, slot: Slot)
    requires tree != []
    ensures var top := |tree| - 1; Names(Bind(tree, top, x, slot)) == Names(tree)[top := Names(tree)[top] + {x}]
  {
    var top := |tree| - 1;
    assert tree[top][x := slot].Keys == tree[top].Keys + {x};
  }

  lemma {:induction false} StmtAgrees(rt: Result, s: Stmt, tree: Tree, loops: seq<nat>, u: Code)
    requires Ready(u) && tree != []
    ensures var c := LowerStmt(rt, s, tree, loops, u);
            && Agrees(c, StmtFault(s, Names(tree), loops != []))
            && (c.StmtCode? ==> Names(c.tree) == After(s, Names(tree)))
    decreases s, 1
  {
    hide Keeps, NewCur, LowerExpr, LowerIf, LowerWhile, LowerFor, Known, ArmFault, BlockFault, Names;
    match s
    case Decl(x, ty, init) => DeclAgrees(x, ty, init, tree, u);
    case Assign(x, e) => ExprAgrees(e, tree, u); DepthKnows(tree, x);
    case Eval(e) => ExprAgrees(e, tree, u);
    case If(arm) => IfAgrees(rt, arm, None, tree, loops, u);
    case While(_, _) => WhileAgrees(rt, s, tree, loops, u);
    case Foreach(_, _, _, _) => ForAgrees(rt, s, tree, loops, u);
    case Break =>
    case Return(e) => ExprAgrees(e, tree, u);
  }

  lemma DeclAgrees(x: string, ty: string, init: Option<Expr>, tree: Tree, u: Code)
    requires Ready(u) && tree != []
    ensures var c := LowerDecl(x, ty, init, tree, u); var s := Decl(x, ty, init);
            && Agrees(c, StmtFault(s, Names(tree), true)) && Agrees(c, StmtFault(s, Names(tree), false))
            && (c.StmtCode? ==> Names(c.tree) == After(s, Names(tree)))
  {
    hide Keeps, NewCur, LowerExpr, Known;
    if init.None? {
      NamesBind(tree, x, Slot(ty, u.next));
    } else {
      ExprAgrees(init.value, tree, u);
      var a := LowerExpr(init.value, tree, u);
      if a.ExprCode? {
        NamesBind(tree, x, Slot(ty, a.u.next));
      }
    }
  }

  lemma {:induction false} ListAgrees(rt: Result, l: Stmts, tree: Tree, loops: seq<nat>, u: Code)
    requires Ready(u) && tree != []
    ensures Agrees(LowerList(rt, l, tree, loops, u), ListFault(l, Names(tree), loops != []))
    decreases l, 1
  {
    hide Keeps, NewCur, LowerStmt, StmtFault, Names, After;
    match l
    case Nil =>
    case Cons(s, rest) =>
      StmtAgrees(rt, s, tree, loops, u);
      var a := LowerStmt(rt, s, tree, loops, u);
      if a.StmtCode? && !s.Break? && !s.Return? {
        ListAgrees(rt, rest, a.tree, loops, a.u);
      }
  }

  lemma {:induction false} BlockAgrees(rt: Result, l: Stmts, tree: Tree, loops: seq<nat>, u: Code)
    requires Ready(u)
    ensures Agrees(LowerBlock(rt, l, tree, loops, u), BlockFault(l, Names(tree), loops != []))
    decreases l, 2
  {
    hide Names, LowerList, ListFault, Moves;
    NamesPush(tree);
    ListAgrees(rt, l, tree + [map[]], loops, u);
  }

  lemma TestAgrees(arm: Arm, end: Option<nat>, tree: Tree, u: Code)
    requires Ready(u) && (end.Some? ==> Parked(u, end.value))
    ensures var d := LowerTest(arm, end, tree, u);
            if ExprScoped(arm.c, Names(tree)) then d.Split? else d == NoSplit(UnknownVariable)
  {
    hide LowerExpr, Names, Keeps, NewCur, Known, SplitIf;
    ExprAgrees(arm.c, tree, NewBlocks(u, if end.None? then 2 else 1));
  }

  lemma {:induction false} IfAgrees(rt: Result, arm: Arm, end: Option<nat>, tree: Tree, loops: seq<nat>, u: Code)
    requires Ready(u) && (end.Some? ==> Parked(u, end.value))
    ensures Agrees(LowerIf(rt, arm, end, tree, loops, u), ArmFault(arm, Names(tree), loops != []))
    decreases arm, 3
  {
    hide Names, LowerTest, LowerBlock, Keeps, NewCur, BlockFault, Known, LowerAlt;
    TestAgrees(arm, end, tree, u);
    var d := LowerTest(arm, end, tree, u);
    if d.Split? {
      BlockAgrees(rt, arm.body, tree, loops, d.u);
      var b := LowerBlock(rt, arm.body, tree, loops, d.u);
      if b.StmtCode? && !arm.alt.NoElse? {
        var e := EndOf(u, end);
        BodyKeeps(u, d.u, b.u, e);
        ElseKeeps(u, d.u, Fall(b.u, e), e, d.els);
        AltAgrees(rt, arm.alt, e, tree, loops, Go(Fall(b.u, e), d.els), u);
      }
    }
  }

  lemma {:induction false} AltAgrees(rt: Result, alt: Alt, e: nat, tree: Tree, loops: seq<nat>, v: Code, u: Code)
    requires Ready(v) && Parked(v, e) && In(u) && Moves(u, v) && !alt.NoElse?
    ensures Agrees(LowerAlt(rt, alt, e, tree, loops, v, u),
                   if alt.Else? then BlockFault(alt.body, Names(tree), loops != [])
                   else ArmFault(alt.arm, Names(tree), loops != []))
    decreases alt, 4
  {
    hide Names, LowerBlock, BlockFault, ArmFault, LowerIf, Keeps, NewCur;
    match alt
    case Else(body) => BlockAgrees(rt, body, tree, loops, v);
    case ElseIf(arm) => IfAgrees(rt, arm, Some(e), tree, loops, v);
  }

  lemma {:induction false} WhileAgrees(rt: Result, s: Stmt, tree: Tree, loops: seq<nat>, u: Code)
    requires Ready(u) && s.While? && tree != []
    ensures Agrees(LowerWhile(rt, s, tree, loops, u), StmtFault(s, Names(tree), loops != []))
    decreases s, 0
  {
    hide Names, LowerExpr, LowerBlock, BlockFault, Keeps, NewCur, Known, WhileTest;
    var h := WhileHead(u);
    NamesPush(tree);
    ExprAgrees(s.c, tree + [map[]], h);
    var c := LowerExpr(s.c, tree + [map[]], h);
    if c.ExprCode? {
      WhileKeeps(u, c.u, c.cell);
      BlockAgrees(rt, s.body, tree + [map[]], loops + [|u.blocks| + 2], WhileTest(c.u, c.cell, |u.blocks|));
    }
  }

  lemma {:induction false} BoundsAgree(s: Stmt, tree: Tree, u: Code)
    requires Ready(u) && s.Foreach?
    ensures var b := LowerBounds(s, tree, u); var n := Names(tree);
            if ExprScoped(s.lo, n + [{}]) && ExprScoped(s.hi, n + [{s.name}]) then b.Bounds?
            else b == NoBounds(UnknownVariable)
  {
    hide Names, LowerExpr, Keeps, NewCur, Known;
    NamesPush(tree);
    ExprAgrees(s.lo, tree + [map[]], u);
    var a := LowerExpr(s.lo, tree + [map[]], u);
    if a.ExprCode? {
      var i := a.u.next;
      IndexedNames(tree, s.name, i);
      ExprAgrees(s.hi, Indexed(tree, s.name, i), Add(a.u, Cast(i, INT, a.cell)));
    }
  }

  lemma IndexedNames(tree: Tree, name: string, i: nat)
    ensures Names(Indexed(tree, name, i)) == Names(tree) + [{name}]
  {
    NamesPush(tree);
    NamesBind(tree + [map[]], name, Slot(INT, i));
    var none: set<string> := {};
    assert none + {name} == {name};
  }

  lemma {:induction false} ForAgrees(rt: Result, s: Stmt, tree: Tree, loops: seq<nat>, u: Code)
    requires Ready(u) && s.Foreach? && tree != []
    ensures Agrees(LowerFor(rt, s, tree, loops, u), StmtFault(s, Names(tree), loops != []))
    decreases s, 0
  {
    hide Names, LowerExpr, LowerBlock, BlockFault, Keeps, NewCur, Known, ForTest, LowerBounds;
    BoundsAgree(s, tree, u);
    var b := LowerBounds(s, tree, u);
    if b.Bounds? {
      ForKeeps(u, b.u, b.i, b.hi);
      IndexedNames(tree, s.name, b.i);
      BlockAgrees(rt, s.body, Indexed(tree, s.name, b.i), loops + [|b.u.blocks| + 3], ForTest(b.u, b.i, b.hi));
    }
  }

  // ---- Functions ----

  /** The body of a function whose parameters are named. */
  predicate WellScoped(body: Stmts, parameters: set<string>)
  {
    BlockScoped(body, [parameters], false)
  }

  function FirstFault(body: Stmts, parameters: set<string>): Option<Abort>
  {
    BlockFault(body, [parameters], false)
  }

  /** A function is lowered if and only if its body is well scoped; otherwise the first fault is reported. */
  lemma LoweredIff(rt: Result, scope: map<string, Slot>, n: nat, body: Stmts)
    ensures LowerFunc(rt, scope, n, body).StmtCode? <==> WellScoped(body, scope.Keys)
    ensures LowerFunc(rt, scope, n, body).NoStmt? ==>
              FirstFault(body, scope.Keys) == Some(LowerFunc(rt, scope, n, body).why)
    ensures FirstFault(body, scope.Keys) == None <==> WellScoped(body, scope.Keys)
  {
    hide LowerBlock, BlockFault, BlockScoped;
    BlockAgrees(rt, body, [scope], [], Entry(n));
    BlockFaultIff(body, [scope.Keys], false);
    assert Names([scope]) == [scope.Keys];
  }

  /** Every well-scoped function is lowered, to blocks that halt with an outcome exactly when its body ends with it. */
  lemma ScopedEquivalent(w: World, rt: Result, scope: map<string, Slot>, n: nat, body: Stmts, env: map<string, Local>,
                         m: Memory, o: BlockGraph.Outcome)
    requires WellScoped(body, scope.Keys) && Holds([scope], [env], m) && TreeOk([scope], n)
    ensures var c := LowerFunc(rt, scope, n, body);
            && c.StmtCode?
            && ((exists k: nat :: Steps(w, c.u.blocks, Start(m), k) == Halt(o)) <==>
                (exists fuel: nat :: Ends(w, fuel, rt, body, env, o)))
  {
    hide LowerFunc, WellScoped, FirstFault, Holds, TreeOk, Steps, Ends;
    LoweredIff(rt, scope, n, body);
    Equivalent(w, rt, scope, n, body, env, m, o);
  }
}
