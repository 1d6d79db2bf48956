// The handlers that lower statements: they append to blocks, patch terminators, keep a stack of loop ends and a stack
// of scopes, and move block holders along.  Each is proved to build exactly what the functions of `Lowering.dfy` say.
module BlockHandler {
  import opened Options
  import opened SourceLang
  import opened BlockGraph
  import opened Lowering
  import opened LoweringFunc
  import opened LoweringScope

  /** A stack of scopes. */
  class VarTree {
    var tree: Tree

    constructor (scope: map<string, Slot>)
      ensures tree == [scope]
    {
      tree := [scope];
    }

    method AddBlock()
      modifies this
      ensures tree == old(tree) + [map[]]
    {
      tree := tree + [map[]];
    }

    method RemoveBlock()
      modifies this
      ensures tree == if old(tree) == [] then [] else Pop(old(tree))
    {
      if |tree| > 0 {
        tree := tree[..|tree| - 1];
      }
    }

    method AddNewVar(name: string, slot: Slot)
      requires tree != []
      modifies this
      ensures tree == Bind(old(tree), |old(tree)| - 1, name, slot)
    {
      tree := tree[..|tree| - 1] + [tree[|tree| - 1][name := slot]];
    }

    /** The slot of the innermost declaration of the name. */
    method Search(name: string) returns (slot: Option<Slot>)
      ensures slot == Found(tree, name)
    {
      var i := |tree| - 1;
      while i >= 0
        invariant -1 <= i < |tree|
        invariant forall j :: i < j < |tree| ==> name !in tree[j]
      {
        if name in tree[i] {
          DepthIs(tree, name, i);
          return Some(tree[i][name]);
        }
        i := i - 1;
      }
      DepthIs(tree, name, -1);
      slot := None;
    }

    method Exists(name: string) returns (found: bool)
      ensures found <==> tree != [] && name in tree[|tree| - 1]
    {
      if |tree| == 0 {
        return false;
      }
      found := name in tree[|tree| - 1];
    }
  }

  lemma DepthIs(tree: Tree, name: string, i: int)
    requires -1 <= i < |tree| && (i >= 0 ==> name in tree[i]) && forall j :: i < j < |tree| ==> name !in tree[j]
    ensures Depth(tree, name) == i
  {
  }

  /** What a name stands for. */
  function Found(tree: Tree, name: string): Option<Slot>
  {
    var d := Depth(tree, name);
    if d < 0 then None else Some(tree[d][name])
  }

  /** A declaration is found under its name, whatever the name stood for, and hides nothing else. */
  lemma Shadows(tree: Tree, name: string, slot: Slot, other: string)
    requires tree != []
    ensures Found(Bind(tree, |tree| - 1, name, slot), other) == if other == name then Some(slot) else Found(tree, other)
  {
    var after, d := Bind(tree, |tree| - 1, name, slot), Depth(tree, other);
    DepthIs(after, other, if other == name then |tree| - 1 else d);
  }

  /** A new block hides nothing, and after it every name stands for what it stood for before, whatever the block
      declared. */
  lemma BlockUndone(tree: Tree, declared: map<string, Slot>, name: string)
    ensures Found(tree + [map[]], name) == Found(tree, name)
    ensures Pop(tree + [declared]) == tree
    ensures Found(tree + [declared], name) == if name in declared then Some(declared[name]) else Found(tree, name)
  {
    DepthIs(tree + [map[]], name, Depth(tree, name));
    DepthIs(tree + [declared], name, if name in declared then |tree| else Depth(tree, name));
  }

  lemma PopIndexed(tree: Tree, name: string, i: nat)
    ensures Indexed(tree, name, i) != [] && Pop(Indexed(tree, name, i)) == tree
  {
  }

  /** The block that instructions go to. */
  class BlockHolder {
    var n: nat

    constructor (block: nat)
      ensures n == block
    {
      n := block;
    }
  }

  datatype Emitted = Refused(why: Abort) | Cell(cell: nat)

  class Handler {
    var blocks: Graph
    var next: nat
    var loopEnd: seq<nat>
    const vars: VarTree
    const rt: Result

    constructor (rt: Result, scope: map<string, Slot>, n: nat)
      ensures blocks == [] && next == n && loopEnd == [] && vars.tree == [scope] && this.rt == rt && fresh(vars)
    {
      blocks, next, loopEnd := [], n, [];
      vars := new VarTree(scope);
      this.rt := rt;
    }

    ghost function Now(bh: BlockHolder): Code
      reads this, bh
    {
      Code(blocks, next, bh.n)
    }

    // ---- Instructions, blocks and terminators ----

    method NewBlock() returns (b: nat)
      modifies this`blocks
      ensures b == old(|blocks|) && blocks == old(blocks) + [Block([], Open)]
    {
      b := |blocks|;
      blocks := blocks + [Block([], Open)];
    }

    method Append(bh: BlockHolder, i: Instr)
      requires Ready(Now(bh))
      modifies this`blocks
      ensures Now(bh) == Emit(old(Now(bh)), i) && Ready(Now(bh))
    {
      var b := blocks[bh.n];
      blocks := blocks[bh.n := b.(code := b.code + [i])];
    }

    method NewCell() returns (c: nat)
      modifies this`next
      ensures c == old(next) && next == old(next) + 1
    {
      c := next;
      next := next + 1;
    }

    /** Ends the current block, which is still open. */
    method SetTerm(bh: BlockHolder, t: Term)
      requires Ready(Now(bh))
      modifies this`blocks
      ensures Now(bh) == End(old(Now(bh)), t)
    {
      blocks := blocks[bh.n := blocks[bh.n].(term := t)];
    }

    method ToBool(bh: BlockHolder, cell: nat) returns (c: nat)
      requires Ready(Now(bh))
      modifies this`blocks, this`next
      ensures c == old(next) && Now(bh) == Add(old(Now(bh)), Test(old(next), cell)) && Ready(Now(bh))
    {
      c := NewCell();
      Append(bh, Test(c, cell));
    }

    method ImplicitCast(bh: BlockHolder, ty: string, cell: nat) returns (c: nat)
      requires Ready(Now(bh))
      modifies this`blocks, this`next
      ensures c == old(next) && Now(bh) == Add(old(Now(bh)), Cast(old(next), ty, cell)) && Ready(Now(bh))
    {
      c := NewCell();
      Append(bh, Cast(c, ty, cell));
    }

    // ---- Expressions ----

    method ProcessExpression(bh: BlockHolder, e: Expr) returns (r: Emitted)
      requires Ready(Now(bh))
      modifies this`blocks, this`next, bh
      ensures var c := LowerExpr(e, vars.tree, old(Now(bh)));
              if c.NoExpr? then r == Refused(c.why) else r == Cell(c.cell) && Now(bh) == c.u
      decreases e, 1
    {
      match e
      case Num(v) =>
        var c := NewCell();
        Append(bh, Const(c, v));
        r := Cell(c);
      case Sym(x) =>
        var s := vars.Search(x);
        if s.None? {
          return Refused(UnknownVariable);
        }
        r := Cell(s.value.cell);
      case Bin(op, l, right) =>
        r := ProcessExpression(bh, l);
        if r.Refused? {
          return;
        }
        var a := r.cell;
        r := ProcessExpression(bh, right);
        if r.Refused? {
          return;
        }
        var c := NewCell();
        Append(bh, Op(c, op, a, r.cell));
        r := Cell(c);
      case Logic(_, _, _) =>
        r := LogicalOp(bh, e);
      case Not(x) =>
        r := ProcessExpression(bh, x);
        if r.Refused? {
          return;
        }
        var t := ToBool(bh, r.cell);
        var c := NewCell();
        Append(bh, Flip(c, t));
        r := Cell(c);
    }

    /** Short-circuit evaluation: the right operand has blocks of its own. */
    method LogicalOp(bh: BlockHolder, e: Expr) returns (r: Emitted)
      requires Ready(Now(bh)) && e.Logic?
      modifies this`blocks, this`next, bh
      ensures var c := ShortCircuit(e, vars.tree, old(Now(bh)));
              if c.NoExpr? then r == Refused(c.why) else r == Cell(c.cell) && Now(bh) == c.u
      decreases e, 0
    {
      hide LowerExpr;
      r := ProcessExpression(bh, e.l);
      if r.Refused? {
        return;
      }
      var lb := ToBool(bh, r.cell);
      var left := bh.n;
      var rhsBlock, end := SplitRight(bh, lb, e.both);
      r := ProcessExpression(rhsBlock, e.r);
      if r.Refused? {
        return;
      }
      r := JoinRight(bh, rhsBlock, left, Bool(!e.both), r.cell, end);
    }

    method SplitRight(bh: BlockHolder, c: nat, both: bool) returns (rhsBlock: BlockHolder, end: nat)
      requires Ready(Now(bh))
      modifies this`blocks
      ensures fresh(rhsBlock) && end == old(|blocks|) + 1
      ensures Now(rhsBlock) == Fork(old(Now(bh)), c, both) && Ready(Now(rhsBlock))
    {
      ghost var u := Now(bh);
      var rhs := NewBlock();
      end := NewBlock();
      assert blocks == NewBlocks(u, 2).blocks;
      rhsBlock := new BlockHolder(rhs);
      SetTerm(bh, if both then CondBr(c, rhs, end) else CondBr(c, end, rhs));
    }

    method JoinRight(bh: BlockHolder, rhsBlock: BlockHolder, left: nat, v: Value, cell: nat, end: nat)
        returns (r: Emitted)
      requires Ready(Now(rhsBlock)) && Parked(Now(rhsBlock), end) && bh != rhsBlock
      modifies this`blocks, this`next, bh
      ensures r == Cell(old(next) + 1) && Now(bh) == Join(old(Now(rhsBlock)), left, v, cell, end)
    {
      var rb := ToBool(rhsBlock, cell);
      SetTerm(rhsBlock, Br(end));
      bh.n := end;
      var c := NewCell();
      Append(bh, Phi(c, left, v, rhsBlock.n, rb));
      r := Cell(c);
    }

    // ---- Statements ----

    method DeclareVariable(bh: BlockHolder, x: string, ty: string, init: Option<Expr>) returns (err: Option<Abort>)
      requires Ready(Now(bh)) && vars.tree != []
      modifies this`blocks, this`next, vars, bh
      ensures var c := LowerDecl(x, ty, init, old(vars.tree), old(Now(bh)));
              if c.NoStmt? then err == Some(c.why) else err == None && Now(bh) == c.u && vars.tree == c.tree
      ensures err == StmtFault(Decl(x, ty, init), Names(old(vars.tree)), true)
    {
      hide StmtFault, Names;
      DeclAgrees(x, ty, init, vars.tree, Now(bh));
      var found := vars.Exists(x);
      if found {
        return Some(VariableRedeclaration);
      }
      var cell: nat;
      if init.None? {
        cell := NewCell();
        Append(bh, Const(cell, 0));
      } else {
        var r := ProcessExpression(bh, init.value);
        if r.Refused? {
          return Some(r.why);
        }
        cell := ImplicitCast(bh, ty, r.cell);
      }
      vars.AddNewVar(x, Slot(ty, cell));
      err := None;
    }

    method AssignVariable(bh: BlockHolder, x: string, e: Expr) returns (err: Option<Abort>)
      requires Ready(Now(bh))
      modifies this`blocks, this`next, bh
      ensures var c := LowerAssign(x, e, vars.tree, old(Now(bh)));
              if c.NoStmt? then err == Some(c.why) else err == None && Now(bh) == c.u
    {
      var r := ProcessExpression(bh, e);
      if r.Refused? {
        return Some(r.why);
      }
      var slot := vars.Search(x);
      if slot.None? {
        return Some(UnknownVariable);
      }
      var c := ImplicitCast(bh, slot.value.ty, r.cell);
      Append(bh, Move(slot.value.cell, c));
      err := None;
    }

    method ReturnValue(bh: BlockHolder, e: Expr) returns (err: Option<Abort>)
      requires Ready(Now(bh))
      modifies this`blocks, this`next, bh
      ensures var c := LowerReturn(rt, e, vars.tree, old(Now(bh)));
              if c.NoStmt? then err == Some(c.why) else err == None && Now(bh) == c.u
    {
      var r := ProcessExpression(bh, e);
      if r.Refused? {
        return Some(r.why);
      }
      if rt.None? {
        SetTerm(bh, RetVoid);
      } else {
        var c := ImplicitCast(bh, rt.value, r.cell);
        SetTerm(bh, Ret(c));
      }
      err := None;
    }

    /** A break goes to the end of the innermost loop. */
    method HandleBreak(bh: BlockHolder) returns (err: Option<Abort>)
      requires Ready(Now(bh))
      modifies this`blocks
      ensures if loopEnd == [] then err == Some(InvalidBreakStatement)
              else err == None && Now(bh) == End(old(Now(bh)), Br(loopEnd[|loopEnd| - 1]))
    {
      if |loopEnd| == 0 {
        return Some(InvalidBreakStatement);
      }
      SetTerm(bh, Br(loopEnd[|loopEnd| - 1]));
      err := None;
    }

    /** Ends the block unless a break or return has. */
    method FallTo(bh: BlockHolder, b: nat)
      requires In(Now(bh))
      modifies this`blocks
      ensures Now(bh) == Fall(old(Now(bh)), b)
    {
      if blocks[bh.n].term.Open? {
        SetTerm(bh, Br(b));
      }
    }

    method ProcessStatement(bh: BlockHolder, s: Stmt) returns (err: Option<Abort>)
      requires Ready(Now(bh)) && vars.tree != []
      modifies this, vars, bh
      ensures var c := LowerStmt(rt, s, old(vars.tree), old(loopEnd), old(Now(bh)));
              if c.NoStmt? then err == Some(c.why)
              else err == None && Now(bh) == c.u && vars.tree == c.tree && loopEnd == old(loopEnd)
      decreases s, 1
    {
      match s
      case Decl(x, ty, init) => err := DeclareVariable(bh, x, ty, init);
      case Assign(x, e) => err := AssignVariable(bh, x, e);
      case Eval(e) =>
        var r := ProcessExpression(bh, e);
        err := if r.Refused? then Some(r.why) else None;
      case If(arm) => err := ProcessIfElse(bh, arm, None);
      case While(_, _) => err := ProcessWhile(bh, s);
      case Foreach(_, _, _, _) => err := ProcessFor(bh, s);
      case Break => err := HandleBreak(bh);
      case Return(e) => err := ReturnValue(bh, e);
    }

    /** The statements of a block, in a scope of their own, up to the first break or return. */
    method ProcessBlock(bh: BlockHolder, sts: Stmts) returns (err: Option<Abort>)
      requires Ready(Now(bh))
      modifies this, vars, bh
      ensures var c := LowerBlock(rt, sts, old(vars.tree), old(loopEnd), old(Now(bh)));
              if c.NoStmt? then err == Some(c.why)
              else err == None && Now(bh) == c.u && vars.tree == c.tree && loopEnd == old(loopEnd)
      decreases sts, 2
    {
      hide LowerStmt, Keeps, NewCur;
      vars.AddBlock();
      ghost var whole := LowerList(rt, sts, vars.tree, loopEnd, Now(bh));
      var l := sts;
      err := None;
      while l.Cons?
        invariant sts nonincreases to l
        invariant err == None
        invariant Ready(Now(bh)) && vars.tree != [] && loopEnd == old(loopEnd) && |vars.tree| == |old(vars.tree)| + 1
        invariant Pop(vars.tree) == old(vars.tree)
        invariant whole == LowerList(rt, l, vars.tree, loopEnd, Now(bh))
        decreases l
      {
        if Ready(Now(bh)) && LowerStmt(rt, l.s, vars.tree, loopEnd, Now(bh)).StmtCode? {
          StmtScopes(rt, l.s, vars.tree, loopEnd, Now(bh));
        }
        err := ProcessStatement(bh, l.s);
        if err.Some? {
          return;
        }
        if l.s.Break? || l.s.Return? {
          break;
        }
        l := l.rest;
      }
      vars.RemoveBlock();
    }

    /** The branches of an if meet in an end block, which an else-if ladder shares. */
    method ProcessIfElse(bh: BlockHolder, arm: Arm, end: Option<nat>) returns (err: Option<Abort>)
      requires Ready(Now(bh)) && (end.Some? ==> Parked(Now(bh), end.value))
      modifies this, vars, bh
      ensures var c := LowerIf(rt, arm, end, old(vars.tree), old(loopEnd), old(Now(bh)));
              if c.NoStmt? then err == Some(c.why)
              else err == None && Now(bh) == c.u && vars.tree == c.tree && loopEnd == old(loopEnd)
      decreases arm, 3
    {
      ghost var u, tree := Now(bh), vars.tree;
      var e: nat, ifBlock: BlockHolder, elseBlock: BlockHolder;
      err, e, ifBlock, elseBlock := ProcessTest(bh, arm, end);
      if err.Some? {
        return;
      }
      ghost var d := LowerTest(arm, end, tree, u);
      err := ProcessBlock(ifBlock, arm.body);
      if err.Some? {
        return;
      }
      BodyKeeps(u, d.u, Now(ifBlock), e);
      FallTo(ifBlock, e);
      if !arm.alt.NoElse? {
        ElseKeeps(u, d.u, Now(ifBlock), e, d.els);
        err := ProcessAlternate(elseBlock, arm.alt, e, u);
        if err.Some? {
          return;
        }
      }
      bh.n := e;
    }

    /** The condition of an if, and holders for its branches. */
    method ProcessTest(bh: BlockHolder, arm: Arm, end: Option<nat>)
      returns (err: Option<Abort>, e: nat, ifBlock: BlockHolder, elseBlock: BlockHolder)
      requires Ready(Now(bh)) && (end.Some? ==> Parked(Now(bh), end.value))
      modifies this`blocks, this`next, bh
      ensures fresh(ifBlock) && fresh(elseBlock) && ifBlock != elseBlock && e == EndOf(old(Now(bh)), end)
      ensures var d := LowerTest(arm, end, vars.tree, old(Now(bh)));
              if d.NoSplit? then err == Some(d.why)
              else err == None && Now(ifBlock) == d.u && (!arm.alt.NoElse? ==> elseBlock.n == d.els)
    {
      ghost var u := Now(bh);
      var b := NewBlock();
      ifBlock := new BlockHolder(b);
      elseBlock := new BlockHolder(b);
      if end.None? {
        e := NewBlock();
      } else {
        e := end.value;
      }
      assert blocks == NewBlocks(u, if end.None? then 2 else 1).blocks;
      var r := ProcessExpression(bh, arm.c);
      if r.Refused? {
        return Some(r.why), e, ifBlock, elseBlock;
      }
      ghost var c := Now(bh);
      var cond := ToBool(bh, r.cell);
      if arm.alt.NoElse? {
        SetTerm(bh, CondBr(cond, b, e));
      } else {
        elseBlock.n := NewBlock();
        assert blocks == NewBlocks(Add(c, Test(c.next, r.cell)), 1).blocks;
        SetTerm(bh, CondBr(cond, b, elseBlock.n));
      }
      err := None;
    }

    method ProcessAlternate(elseBlock: BlockHolder, alt: Alt, e: nat, ghost u: Code) returns (err: Option<Abort>)
      requires Ready(Now(elseBlock)) && Parked(Now(elseBlock), e) && In(u) && Moves(u, Now(elseBlock)) && !alt.NoElse?
      modifies this, vars, elseBlock
      ensures var c := LowerAlt(rt, alt, e, old(vars.tree), old(loopEnd), old(Now(elseBlock)), u);
              if c.NoStmt? then err == Some(c.why)
              else err == None && Code(blocks, next, e) == c.u && vars.tree == c.tree && loopEnd == old(loopEnd)
      decreases alt, 4
    {
      match alt
      case Else(body) =>
        err := ProcessBlock(elseBlock, body);
        if err.None? {
          FallTo(elseBlock, e);
        }
      case ElseIf(arm) =>
        err := ProcessIfElse(elseBlock, arm, Some(e));
    }

    /** A while loop: a block for its condition, one for its body and one for its end. */
    method ProcessWhile(bh: BlockHolder, s: Stmt) returns (err: Option<Abort>)
      requires Ready(Now(bh)) && s.While?
      modifies this, vars, bh
      ensures var c := LowerWhile(rt, s, old(vars.tree), old(loopEnd), old(Now(bh)));
              if c.NoStmt? then err == Some(c.why)
              else err == None && Now(bh) == c.u && vars.tree == c.tree && loopEnd == old(loopEnd)
      decreases s, 0
    {
      hide LowerBlock, LowerExpr, Keeps, NewCur, Parked;
      ghost var u, tree, loops := Now(bh), vars.tree, loopEnd;
      vars.AddBlock();
      var condEntry, bodyBlock, end := StartWhile(bh);
      var entry := condEntry.n;
      var r := ProcessExpression(condEntry, s.c);
      if r.Refused? {
        return Some(r.why);
      }
      WhileKeeps(u, Now(condEntry), r.cell);
      var cond := ToBool(condEntry, r.cell);
      SetTerm(condEntry, CondBr(cond, bodyBlock.n, end));
      bh.n := bodyBlock.n;
      loopEnd := loopEnd + [end];
      err := ProcessBlock(bodyBlock, s.body);
      if err.Some? {
        return;
      }
      loopEnd := loopEnd[..|loopEnd| - 1];
      FallTo(bodyBlock, entry);
      bh.n := end;
      vars.RemoveBlock();
    }

    method StartWhile(bh: BlockHolder) returns (condEntry: BlockHolder, bodyBlock: BlockHolder, end: nat)
      requires Ready(Now(bh))
      modifies this`blocks
      ensures fresh(condEntry) && fresh(bodyBlock) && condEntry != bodyBlock
      ensures var n := old(|blocks|); condEntry.n == n && bodyBlock.n == n + 1 && end == n + 2
      ensures Now(condEntry) == WhileHead(old(Now(bh)))
    {
      ghost var u := Now(bh);
      var n := NewBlock();
      var b := NewBlock();
      end := NewBlock();
      assert blocks == NewBlocks(u, 3).blocks;
      condEntry := new BlockHolder(n);
      bodyBlock := new BlockHolder(b);
      SetTerm(bh, Br(n));
    }

    /** A foreach loop: its bounds are evaluated before the loop, and it has blocks for its condition, its body, its
        increment and its end. */
    method ProcessFor(bh: BlockHolder, s: Stmt) returns (err: Option<Abort>)
      requires Ready(Now(bh)) && s.Foreach?
      modifies this, vars, bh
      ensures var c := LowerFor(rt, s, old(vars.tree), old(loopEnd), old(Now(bh)));
              if c.NoStmt? then err == Some(c.why)
              else err == None && Now(bh) == c.u && vars.tree == c.tree && loopEnd == old(loopEnd)
      decreases s, 0
    {
      hide LowerBlock, LowerExpr, LowerBounds, Keeps, NewCur, ForTest, ForNext, Fall, Indexed, Parked;
      ghost var u, tree := Now(bh), vars.tree;
      var i: nat, hi: nat;
      err, i, hi := ProcessBounds(bh, s);
      if err.Some? {
        return;
      }
      NextMore(u, Now(bh));
      ForKeeps(u, Now(bh), i, hi);
      ghost var b := Now(bh);
      var body := StartFor(bh, i, hi);
      var n := body.n - 1;
      loopEnd := loopEnd + [n + 3];
      err := ProcessBlock(body, s.body);
      if err.Some? {
        return;
      }
      loopEnd := loopEnd[..|loopEnd| - 1];
      NextKeeps(u, ForTest(b, i, hi), Now(body), i, n);
      FinishFor(bh, body, i, n);
      PopIndexed(tree, s.name, i);
      vars.RemoveBlock();
    }

    method FinishFor(bh: BlockHolder, body: BlockHolder, i: nat, n: nat)
      requires In(Now(body)) && n + 2 < |blocks| && Parked(Fall(Now(body), n + 2), n + 2) && bh != body
      modifies this`blocks, bh
      ensures Now(bh) == Go(ForNext(Fall(old(Now(body)), n + 2), i, n), n + 3)
    {
      FallTo(body, n + 2);
      bh.n := n + 2;
      Append(bh, Inc(i, i));
      SetTerm(bh, Br(n));
      bh.n := n + 3;
    }

    method ProcessBounds(bh: BlockHolder, s: Stmt) returns (err: Option<Abort>, i: nat, hi: nat)
      requires Ready(Now(bh)) && s.Foreach?
      modifies this`blocks, this`next, vars, bh
      ensures var b := LowerBounds(s, old(vars.tree), old(Now(bh)));
              if b.NoBounds? then err == Some(b.why)
              else
                && err == None && Now(bh) == b.u && i == b.i && hi == b.hi
                && vars.tree == Indexed(old(vars.tree), s.name, i)
    {
      vars.AddBlock();
      i, hi := 0, 0;
      var r := ProcessExpression(bh, s.lo);
      if r.Refused? {
        return Some(r.why), 0, 0;
      }
      i := ImplicitCast(bh, INT, r.cell);
      vars.AddNewVar(s.name, Slot(INT, i));
      r := ProcessExpression(bh, s.hi);
      if r.Refused? {
        return Some(r.why), 0, 0;
      }
      hi := ImplicitCast(bh, INT, r.cell);
      err := None;
    }

    method StartFor(bh: BlockHolder, i: nat, hi: nat) returns (body: BlockHolder)
      requires Ready(Now(bh))
      modifies this`blocks, this`next
      ensures fresh(body) && body.n == old(|blocks|) + 1 && Now(body) == ForTest(old(Now(bh)), i, hi)
    {
      ghost var u := Now(bh);
      var n := NewBlock();
      var b := NewBlock();
      var inc := NewBlock();
      var end := NewBlock();
      assert blocks == NewBlocks(u, 4).blocks;
      SetTerm(bh, Br(n));
      var loopCond := new BlockHolder(n);
      var c := NewCell();
      Append(loopCond, Less(c, i, hi));
      SetTerm(loopCond, CondBr(c, b, end));
      body := new BlockHolder(b);
    }

    /** A whole function: a block for its stack slots, its body, and a return at its end if it returns no value. */
    method DefineFunc(body: Stmts) returns (err: Option<Abort>)
      requires blocks == [] && loopEnd == [] && |vars.tree| == 1
      modifies this, vars
      ensures var c := LowerFunc(rt, old(vars.tree)[0], old(next), body);
              if c.NoStmt? then err == Some(c.why) else err == None && blocks == c.u.blocks
      ensures err == FirstFault(body, old(vars.tree)[0].Keys)
      ensures err == None <==> WellScoped(body, old(vars.tree)[0].Keys)
    {
      hide FirstFault, WellScoped;
      LoweredIff(rt, vars.tree[0], next, body);
      var v := NewBlock();
      var b := NewBlock();
      var bh := new BlockHolder(b);
      assert Now(bh) == Entry(next) && vars.tree == [vars.tree[0]];
      err := ProcessBlock(bh, body);
      if err.Some? {
        return;
      }
      blocks := blocks[v := blocks[v].(term := Br(b))];
      if rt.None? {
        blocks := blocks[bh.n := blocks[bh.n].(term := RetVoid)];
      }
    }
  }
}
