// Whole functions: the block graph of a function does what its body does.
module LoweringFunc {
  import opened Options
  import opened SourceLang
  import opened BlockGraph
  import opened Lowering
  import opened LoweringSim

  /** The first block is for stack slots and ends with a jump to the second, where the body starts. */
  function Entry(n: nat): Code
  {
    Code([Block([], Open), Block([], Open)], n, 1)
  }

  /** `DefineFunc`: the parameters are in `scope`, in the first n cells.  A function without a return type returns when
      control comes to its end. */
  function LowerFunc(rt: Result, scope: map<string, Slot>, n: nat, body: Stmts): (c: StmtCode)
  {
    var c := LowerBlock(rt, body, [scope], [], Entry(n));
    if c.NoStmt? then c else
    StmtCode(Close(rt, c.u), [scope])
  }

  function Close(rt: Result, u: Code): Code
    requires In(u) && u.blocks != []
  {
    var v := u.(blocks := u.blocks[0 := u.blocks[0].(term := Br(1))]);
    if rt.None? then End(v, RetVoid) else v
  }

  /** What a caller sees of a run of the body. */
  function Outcome(rt: Result, d: Done): Outcome
    requires !d.Broke? && !d.Spent?
  {
    match d
    case Next(_, trace) => if rt.None? then Returned(None, trace) else Stuck(trace)
    case Left(v, trace) => Returned(v, trace)
    case Failed(trace) => Trapped(trace)
  }

  // ---- The end of a function ----

  /** Outside loops the last block of a list is open, or it returns. */
  lemma {:induction false} ReturnsLast(rt: Result, l: Stmts, tree: Tree, u: Code)
    requires Ready(u) && tree != [] && LowerList(rt, l, tree, [], u).StmtCode?
    ensures var c := LowerList(rt, l, tree, [], u);
            Ready(c.u) || (if rt.None? then c.u.blocks[c.u.cur].term == RetVoid else c.u.blocks[c.u.cur].term.Ret?)
  {
    hide LowerExpr, LowerIf, LowerWhile, LowerFor, Keeps, NewCur;
    match l
    case Nil =>
    case Cons(s, rest) =>
      var a := LowerStmt(rt, s, tree, [], u);
      if !s.Break? && !s.Return? {
        ReturnsLast(rt, rest, a.tree, a.u);
      }
  }

  /** What `DefineFunc` sets at the end replaces no terminator by another. */
  lemma TermsStay(rt: Result, body: Stmts, scope: map<string, Slot>, n: nat, b: nat)
    requires LowerBlock(rt, body, [scope], [], Entry(n)).StmtCode?
    ensures var u := LowerBlock(rt, body, [scope], [], Entry(n)).u;
            b < |u.blocks| && !u.blocks[b].term.Open? ==> Close(rt, u).blocks[b] == u.blocks[b]
  {
    hide LowerList;
    ReturnsLast(rt, body, [scope] + [map[]], Entry(n));
  }

  lemma CloseWithin(rt: Result, body: Stmts, scope: map<string, Slot>, n: nat)
    requires LowerBlock(rt, body, [scope], [], Entry(n)).StmtCode?
    ensures var c := LowerBlock(rt, body, [scope], [], Entry(n));
            && c.u.blocks != [] && Within(c.u, Close(rt, c.u).blocks) && c.u.cur != 0
            && Close(rt, c.u).blocks[0] == Block([], Br(1))
            && (rt.None? && Ready(c.u) ==> Within(End(c.u, RetVoid), Close(rt, c.u).blocks))
  {
    hide LowerList;
    var c := LowerBlock(rt, body, [scope], [], Entry(n));
    ReturnsLast(rt, body, [scope] + [map[]], Entry(n));
    assert c.u.blocks[0] == Entry(n).blocks[0];
    var g := Close(rt, c.u).blocks;
    forall b | 0 <= b < |g|
      ensures Extends(c.u.blocks[b], g[b])
    {
    }
  }

  // ---- Equivalence ----

  function Start(m: Memory): Machine
  {
    At(0, 0, 0, m, [])
  }

  /** The graph follows every run of the source: one that ends, to the same outcome with the same operators run in the
      same order; one that has not ended after n loop iterations, for at least n steps. */
  lemma FollowsSource(w: World, rt: Result, scope: map<string, Slot>, n: nat, body: Stmts, env: map<string, Local>,
                      m: Memory, fuel: nat)
    returns (k: nat)
    requires LowerFunc(rt, scope, n, body).StmtCode? && Holds([scope], [env], m) && TreeOk([scope], n)
    ensures !ExecBlock(w, fuel, rt, body, [env], []).Broke?
    ensures var g := LowerFunc(rt, scope, n, body).u.blocks; var d := ExecBlock(w, fuel, rt, body, [env], []);
            if d.Spent? then k >= fuel && Steps(w, g, Start(m), k).At?
            else Steps(w, g, Start(m), k) == Halt(Outcome(rt, d))
  {
    hide LowerBlock, ExecBlock, Steps, Step, Holds, TreeOk, Hidden, Within, Keeps;
    var u := Entry(n);
    var c := LowerBlock(rt, body, [scope], [], u);
    var g := Close(rt, c.u).blocks;
    CloseWithin(rt, body, scope, n);
    EntryStep(w, g, m);
    var m2, p2;
    k, m2, p2 := SimBlock(w, fuel, rt, body, [scope], [], u, [env], g, m, 0, []);
    StepsAdd(w, g, Start(m), 1, k);
    k := 1 + k;
    var d := ExecBlock(w, fuel, rt, body, [env], []);
    if d.Next? {
      LastStep(w, g, rt, c.u, p2, m2, d.trace);
      OneMore(w, g, Start(m), k);
      k := k + 1;
    }
  }

  lemma EntryStep(w: World, g: Graph, m: Memory)
    requires |g| > 1 && g[0] == Block([], Br(1))
    ensures Steps(w, g, Start(m), 1) == At(1, 0, 0, m, [])
  {
    OneMore(w, g, Start(m), 0);
  }

  lemma LastStep(w: World, g: Graph, rt: Result, u: Code, p: nat, m: Memory, trace: seq<Event>)
    requires Ready(u) && u.cur != 0 && u.blocks != [] && g == Close(rt, u).blocks
    ensures Step(w, g, Here(u, p, m, trace)) == Halt(Outcome(rt, Next([], trace)))
  {
  }

  /** A function halts with an outcome exactly when its body, run directly, ends with it. */
  lemma Equivalent(w: World, rt: Result, scope: map<string, Slot>, n: nat, body: Stmts, env: map<string, Local>,
                   m: Memory, o: BlockGraph.Outcome)
    requires LowerFunc(rt, scope, n, body).StmtCode? && Holds([scope], [env], m) && TreeOk([scope], n)
    ensures var g := LowerFunc(rt, scope, n, body).u.blocks;
            (exists k: nat :: Steps(w, g, Start(m), k) == Halt(o)) <==>
            (exists fuel: nat :: Ends(w, fuel, rt, body, env, o))
  {
    hide LowerFunc, ExecBlock, Steps, Holds, TreeOk;
    var g := LowerFunc(rt, scope, n, body).u.blocks;
    if k: nat :| Steps(w, g, Start(m), k) == Halt(o) {
      var j := FollowsSource(w, rt, scope, n, body, env, m, k + 1);
      Halts(w, g, Start(m), k, j);
      assert Ends(w, k + 1, rt, body, env, o);
    }
    if fuel: nat :| Ends(w, fuel, rt, body, env, o) {
      var k := FollowsSource(w, rt, scope, n, body, env, m, fuel);
      assert Steps(w, g, Start(m), k) == Halt(o);
    }
  }

  ghost predicate Ends(w: World, fuel: nat, rt: Result, body: Stmts, env: map<string, Local>, o: BlockGraph.Outcome)
  {
    var d := ExecBlock(w, fuel, rt, body, [env], []);
    !d.Spent? && !d.Broke? && Outcome(rt, d) == o
  }

  /** A machine that has halted has halted for good. */
  lemma Halts(w: World, g: Graph, s: Machine, k: nat, j: nat)
    requires Steps(w, g, s, k).Halt?
    ensures j >= k ==> Steps(w, g, s, j) == Steps(w, g, s, k)
    ensures Steps(w, g, s, j).Halt? ==> Steps(w, g, s, j) == Steps(w, g, s, k)
  {
    if j >= k {
      StepsAdd(w, g, s, k, j - k);
      HaltStays(w, g, Steps(w, g, s, k), j - k);
    } else if Steps(w, g, s, j).Halt? {
      StepsAdd(w, g, s, j, k - j);
      HaltStays(w, g, Steps(w, g, s, j), k - j);
    }
  }
}
