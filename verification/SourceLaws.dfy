// Laws of the source language: loops, short circuits and scopes.
module SourceLaws {
  import opened Options
  import opened SourceLang

  /** Calls of op return, and whole numbers are of type int already. */
  ghost predicate Calm(w: World, op: string)
  {
    && (forall a, b, trace :: w.act(op, a, b, trace).Got?)
    && (forall v :: w.cast(INT, v) == Got(v))
  }

  /** The body that calls op with the index. */
  function Call(op: string, x: string): Stmts
  {
    Cons(Eval(Bin(op, Sym(x), Num(0))), Nil)
  }

  /** The calls for the indices from lo up to, but not including, hi. */
  function Calls(op: string, lo: int, hi: int): (r: seq<Event>)
    ensures |r| == if lo < hi then hi - lo else 0
    ensures forall k :: 0 <= k < |r| ==> r[k] == Event(op, lo + k, 0)
    decreases hi - lo
  {
    if lo >= hi then [] else [Event(op, lo, 0)] + Calls(op, lo + 1, hi)
  }

  /** The scopes inside the loop while its index is i. */
  function At(env: Env, x: string, i: int): Env
  {
    Bind(env + [map[]], |env|, x, Local(INT, i))
  }

  lemma OneCall(w: World, fuel: nat, rt: Result, op: string, x: string, env: Env, i: int, trace: seq<Event>)
    requires Calm(w, op)
    ensures ExecBlock(w, fuel, rt, Call(op, x), At(env, x, i), trace) == Next(At(env, x, i), trace + [Event(op, i, 0)])
  {
    var inner := At(env, x, i) + [map[]];
    assert Depth(inner, x) == |env| by { assert inner[|env|] == map[x := Local(INT, i)]; }
    assert w.act(op, i, 0, trace).Got?;
    assert Run(w, Sym(x), inner, trace) == Val(i, trace);
    assert Run(w, Bin(op, Sym(x), Num(0)), inner, trace).trace == trace + [Event(op, i, 0)];
    assert Exec(w, fuel, rt, Eval(Bin(op, Sym(x), Num(0))), inner, trace) == Next(inner, trace + [Event(op, i, 0)]);
    assert ExecList(w, fuel, rt, Nil, inner, trace + [Event(op, i, 0)]) == Next(inner, trace + [Event(op, i, 0)]);
    assert Pop(inner) == At(env, x, i);
  }

  lemma NextIndex(env: Env, x: string, i: int)
    ensures Bind(At(env, x, i), |env|, x, Local(INT, i + 1)) == At(env, x, i + 1)
    ensures |At(env, x, i)| == |env| + 1 && At(env, x, i)[|env|] == map[x := Local(INT, i)]
  {
    assert map[x := Local(INT, i)][x := Local(INT, i + 1)] == map[x := Local(INT, i + 1)];
  }

  /** One turn of the loop: a call, and then the loop from the next index. */
  lemma OneTurn(w: World, fuel: nat, rt: Result, op: string, x: string, env: Env, i: int, hi: int, trace: seq<Event>)
    requires Calm(w, op) && fuel > 0 && -0x8000_0000_0000_0000 <= i < hi < 0x8000_0000_0000_0000
    ensures ExecFor(w, fuel, rt, x, hi, Call(op, x), At(env, x, i), trace)
         == ExecFor(w, fuel - 1, rt, x, hi, Call(op, x), At(env, x, i + 1), trace + [Event(op, i, 0)])
  {
    hide Calm, Call, At, ExecBlock;
    OneCall(w, fuel - 1, rt, op, x, env, i, trace);
    assert Wrap64(i + 1) == i + 1;
    NextIndex(env, x, i);
  }

  lemma {:induction false} Turns(w: World, fuel: nat, rt: Result, op: string, x: string, env: Env, i: int, hi: int,
                                 trace: seq<Event>)
    requires Calm(w, op) && fuel > (if i < hi then hi - i else 0)
    requires -0x8000_0000_0000_0000 <= i && hi < 0x8000_0000_0000_0000
    ensures ExecFor(w, fuel, rt, x, hi, Call(op, x), At(env, x, i), trace)
         == Next(At(env, x, if i < hi then hi else i), trace + Calls(op, i, hi))
    decreases fuel
  {
    hide Calm, Call, ExecBlock;
    if i < hi {
      hide ExecFor, At;
      OneTurn(w, fuel, rt, op, x, env, i, hi, trace);
      Turns(w, fuel - 1, rt, op, x, env, i + 1, hi, trace + [Event(op, i, 0)]);
      assert trace + [Event(op, i, 0)] + Calls(op, i + 1, hi) == trace + Calls(op, i, hi);
    } else {
      NextIndex(env, x, i);
      assert trace + Calls(op, i, hi) == trace;
    }
  }

  /** A foreach runs its body once for each index from its lower bound up to, but not including, its upper bound, in
      this order, and leaves the scopes as they were. */
  lemma ForeachRuns(w: World, fuel: nat, rt: Result, op: string, x: string, lo: int, hi: int, env: Env,
                    trace: seq<Event>)
    requires env != [] && Calm(w, op) && fuel > (if lo < hi then hi - lo else 0)
    requires -0x8000_0000_0000_0000 <= lo && hi < 0x8000_0000_0000_0000
    ensures Exec(w, fuel, rt, Foreach(x, Num(lo), Num(hi), Call(op, x)), env, trace)
         == Next(env, trace + Calls(op, lo, hi))
  {
    Turns(w, fuel, rt, op, x, env, lo, hi, trace);
    assert w.cast(INT, lo) == Got(lo) && w.cast(INT, hi) == Got(hi);
    assert Pop(At(env, x, if lo < hi then hi else lo)) == env;
  }

  /** A break leaves the loop at once: what stands behind it is not run, and neither is the loop again. */
  lemma BreakLeaves(w: World, fuel: nat, rt: Result, c: Expr, s: Stmt, rest: Stmts, env: Env, trace: seq<Event>)
    requires env != [] && fuel > 0
    requires var v := Run(w, c, env + [map[]], trace);
             v.Val? && v.value != 0 && Exec(w, fuel - 1, rt, s, env + [map[]] + [map[]], v.trace).Next?
    ensures var v := Run(w, c, env + [map[]], trace);
            var d := Exec(w, fuel - 1, rt, s, env + [map[]] + [map[]], v.trace);
            Exec(w, fuel, rt, While(c, Cons(s, Cons(Break, rest))), env, trace) == Next(d.env[..|env|], d.trace)
  {
    var inner := env + [map[]];
    var v := Run(w, c, inner, trace);
    var d := Exec(w, fuel - 1, rt, s, inner + [map[]], v.trace);
    var body := Cons(s, Cons(Break, rest));
    assert ExecList(w, fuel - 1, rt, Cons(Break, rest), d.env, d.trace) == Broke(d.env, d.trace);
    assert ExecBlock(w, fuel - 1, rt, body, inner, v.trace) == Broke(Pop(d.env), d.trace);
    assert ExecWhile(w, fuel, rt, c, body, inner, trace) == Next(Pop(d.env), d.trace);
    assert Pop(Pop(d.env)) == d.env[..|env|];
  }

  /** A conjunction does not run its right side when the left side is zero, nor a disjunction when it is not. */
  lemma ShortCircuits(w: World, l: Expr, r: Expr, env: Env, trace: seq<Event>)
    requires Run(w, l, env, trace).Val?
    ensures var a := Run(w, l, env, trace);
            && (a.value == 0 ==> Run(w, Logic(true, l, r), env, trace) == Val(0, a.trace))
            && (a.value != 0 ==> Run(w, Logic(false, l, r), env, trace) == Val(1, a.trace))
  {
  }

  /** A declaration in a block changes nothing outside of it. */
  lemma DeclarationHides(w: World, fuel: nat, rt: Result, x: string, ty: string, e: Expr, env: Env, trace: seq<Event>)
    requires Converted(w, ty, Run(w, e, env + [map[]], trace)).Val?
    ensures ExecBlock(w, fuel, rt, Cons(Decl(x, ty, Some(e)), Nil), env, trace)
         == Next(env, Converted(w, ty, Run(w, e, env + [map[]], trace)).trace)
  {
    var inner := env + [map[]];
    var v := Converted(w, ty, Run(w, e, inner, trace));
    var declared := Bind(inner, |env|, x, Local(ty, v.value));
    assert Exec(w, fuel, rt, Decl(x, ty, Some(e)), inner, trace) == Next(declared, v.trace);
    assert ExecList(w, fuel, rt, Nil, declared, v.trace) == Next(declared, v.trace);
    assert Pop(declared) == env;
  }

  /** An assignment in a block changes the innermost variable of that name outside, and nothing else. */
  lemma AssignmentReaches(w: World, fuel: nat, rt: Result, x: string, e: Expr, env: Env, trace: seq<Event>)
    requires Depth(env, x) >= 0
    requires Converted(w, env[Depth(env, x)][x].ty, Run(w, e, env + [map[]], trace)).Val?
    ensures var d := Depth(env, x);
            var v := Converted(w, env[d][x].ty, Run(w, e, env + [map[]], trace));
            ExecBlock(w, fuel, rt, Cons(Assign(x, e), Nil), env, trace)
              == Next(env[d := env[d][x := Local(env[d][x].ty, v.value)]], v.trace)
  {
    var inner := env + [map[]];
    var d := Depth(env, x);
    assert Depth(inner, x) == d by { assert inner[..|inner| - 1] == env; }
    var v := Converted(w, env[d][x].ty, Run(w, e, inner, trace));
    var changed := Bind(inner, d, x, Local(env[d][x].ty, v.value));
    assert Exec(w, fuel, rt, Assign(x, e), inner, trace) == Next(changed, v.trace);
    assert ExecList(w, fuel, rt, Nil, changed, v.trace) == Next(changed, v.trace);
    assert Pop(changed) == env[d := env[d][x := Local(env[d][x].ty, v.value)]];
  }
}
