// The part of the Picasso language whose lowering is modelled, and what a body of statements means: direct execution
// over a stack of scopes.  Execution is bounded by fuel, which only loop iterations spend.
module SourceLang {
  import opened Options

  type Value = int

  /** One run of an operator whose result the language leaves to the machine. */
  datatype Event = Event(op: string, left: Value, right: Value)

  datatype Answer = Got(value: Value) | Trap

  /** The world a body runs in.  An operator may look at everything that ran before it, and it may trap; so may a
      conversion to a type. */
  datatype World = World(act: (string, Value, Value, seq<Event>) -> Answer, cast: (string, Value) -> Answer)

  /** Logic is the conjunction of l and r when both, otherwise their disjunction. */
  datatype Expr =
    | Num(value: Value)
    | Sym(name: string)
    | Bin(op: string, l: Expr, r: Expr)
    | Logic(both: bool, l: Expr, r: Expr)
    | Not(e: Expr)

  datatype Stmt =
    | Decl(name: string, ty: string, init: Option<Expr>)
    | Assign(name: string, e: Expr)
    | Eval(e: Expr)
    | If(arm: Arm)
    | While(c: Expr, body: Stmts)
    | Foreach(name: string, lo: Expr, hi: Expr, body: Stmts)
    | Break
    | Return(e: Expr)

  datatype Stmts = Nil | Cons(s: Stmt, rest: Stmts)

  datatype Arm = Arm(c: Expr, body: Stmts, alt: Alt)

  datatype Alt = NoElse | Else(body: Stmts) | ElseIf(arm: Arm)

  /** The type of foreach bounds and index variables. */
  const INT := "int"

  function Bool(b: bool): Value
  {
    if b then 1 else 0
  }

  /** The value of an i64 after an addition. */
  function Wrap64(n: int): Value
  {
    (n + 0x8000_0000_0000_0000) % 0x1_0000_0000_0000_0000 - 0x8000_0000_0000_0000
  }

  // ---- Scopes ----

  /** The innermost of the scopes that has the name, or -1. */
  function Depth<T>(scopes: seq<map<string, T>>, name: string): (d: int)
    ensures -1 <= d < |scopes|
    ensures d >= 0 ==> name in scopes[d]
    ensures forall i :: d < i < |scopes| ==> name !in scopes[i]
  {
    if scopes == [] then -1
    else if name in scopes[|scopes| - 1] then |scopes| - 1
    else Depth(scopes[..|scopes| - 1], name)
  }

  function Pop<T>(scopes: seq<T>): seq<T>
    requires scopes != []
  {
    scopes[..|scopes| - 1]
  }

  /** The name gets a meaning in scope d. */
  function Bind<T>(scopes: seq<map<string, T>>, d: int, name: string, x: T): seq<map<string, T>>
    requires 0 <= d < |scopes|
  {
    scopes[d := scopes[d][name := x]]
  }

  // ---- Expressions ----

  datatype Local = Local(ty: string, value: Value)

  type Env = seq<map<string, Local>>

  /** Evaluation faults when an operator traps or a name has no meaning. */
  datatype Evaluated = Val(value: Value, trace: seq<Event>) | Fault(trace: seq<Event>)

  function Run(w: World, e: Expr, env: Env, trace: seq<Event>): Evaluated
  {
    match e
    case Num(v) => Val(v, trace)
    case Sym(x) =>
      var d := Depth(env, x);
      if d < 0 then Fault(trace) else Val(env[d][x].value, trace)
    case Bin(op, l, r) =>
      var a := Run(w, l, env, trace);
      if a.Fault? then a else
      var b := Run(w, r, env, a.trace);
      if b.Fault? then b else
      Act(w, op, a.value, b.value, b.trace)
    case Logic(both, l, r) =>
      var a := Run(w, l, env, trace);
      if a.Fault? then a else
      if (a.value != 0) != both then Val(Bool(!both), a.trace) else
      Truth(Run(w, r, env, a.trace))
    case Not(x) =>
      var a := Run(w, x, env, trace);
      if a.Fault? then a else Val(Bool(a.value == 0), a.trace)
  }

  function Act(w: World, op: string, a: Value, b: Value, trace: seq<Event>): Evaluated
  {
    var after := trace + [Event(op, a, b)];
    match w.act(op, a, b, trace)
    case Got(v) => Val(v, after)
    case Trap => Fault(after)
  }

  function Truth(e: Evaluated): Evaluated
  {
    if e.Fault? then e else Val(Bool(e.value != 0), e.trace)
  }

  function Converted(w: World, ty: string, e: Evaluated): Evaluated
  {
    if e.Fault? then e else
    match w.cast(ty, e.value)
    case Got(v) => Val(v, e.trace)
    case Trap => Fault(e.trace)
  }

  // ---- Statements ----

  datatype Done =
    | Next(env: Env, trace: seq<Event>)
    | Broke(env: Env, trace: seq<Event>)
    | Left(result: Option<Value>, trace: seq<Event>)
    | Failed(trace: seq<Event>)
    | Spent

  /** The type a function returns, if it returns a value. */
  type Result = Option<string>

  function Exec(w: World, fuel: nat, rt: Result, s: Stmt, env: Env, trace: seq<Event>): (d: Done)
    requires env != []
    ensures d.Next? || d.Broke? ==> |d.env| == |env|
    decreases fuel, s, 1
  {
    match s
    case Decl(x, ty, init) =>
      var v := if init.None? then Val(0, trace) else Converted(w, ty, Run(w, init.value, env, trace));
      if v.Fault? then Failed(v.trace) else Next(Bind(env, |env| - 1, x, Local(ty, v.value)), v.trace)
    case Assign(x, e) =>
      var d := Depth(env, x);
      var v := Run(w, e, env, trace);
      if v.Fault? || d < 0 then Failed(v.trace) else
      var c := Converted(w, env[d][x].ty, v);
      if c.Fault? then Failed(c.trace) else Next(Bind(env, d, x, Local(env[d][x].ty, c.value)), c.trace)
    case Eval(e) =>
      var v := Run(w, e, env, trace);
      if v.Fault? then Failed(v.trace) else Next(env, v.trace)
    case If(arm) => ExecIf(w, fuel, rt, arm, env, trace)
    case While(c, body) => Scoped(ExecWhile(w, fuel, rt, c, body, env + [map[]], trace))
    case Foreach(x, lo, hi, body) =>
      var inner := env + [map[]];
      var a := Converted(w, INT, Run(w, lo, inner, trace));
      if a.Fault? then Failed(a.trace) else
      var started := Bind(inner, |env|, x, Local(INT, a.value));
      var b := Converted(w, INT, Run(w, hi, started, a.trace));
      if b.Fault? then Failed(b.trace) else
      Scoped(ExecFor(w, fuel, rt, x, b.value, body, started, b.trace))
    case Break => Broke(env, trace)
    case Return(e) =>
      var v := Run(w, e, env, trace);
      if v.Fault? then Failed(v.trace) else
      if rt.None? then Left(None, v.trace) else
      var c := Converted(w, rt.value, v);
      if c.Fault? then Failed(c.trace) else Left(Some(c.value), c.trace)
  }

  function Scoped(d: Done): Done
    requires d.Next? || d.Broke? ==> d.env != []
  {
    if d.Next? then Next(Pop(d.env), d.trace)
    else if d.Broke? then Broke(Pop(d.env), d.trace)
    else d
  }

  function ExecList(w: World, fuel: nat, rt: Result, l: Stmts, env: Env, trace: seq<Event>): (d: Done)
    requires env != []
    ensures d.Next? || d.Broke? ==> |d.env| == |env|
    decreases fuel, l, 1
  {
    match l
    case Nil => Next(env, trace)
    case Cons(s, rest) =>
      var d := Exec(w, fuel, rt, s, env, trace);
      if d.Next? then ExecList(w, fuel, rt, rest, d.env, d.trace) else d
  }

  function ExecBlock(w: World, fuel: nat, rt: Result, l: Stmts, env: Env, trace: seq<Event>): (d: Done)
    ensures d.Next? || d.Broke? ==> |d.env| == |env|
    decreases fuel, l, 2
  {
    Scoped(ExecList(w, fuel, rt, l, env + [map[]], trace))
  }

  function ExecIf(w: World, fuel: nat, rt: Result, arm: Arm, env: Env, trace: seq<Event>): (d: Done)
    requires env != []
    ensures d.Next? || d.Broke? ==> |d.env| == |env|
    decreases fuel, arm, 3
  {
    var v := Run(w, arm.c, env, trace);
    if v.Fault? then Failed(v.trace)
    else if v.value != 0 then ExecBlock(w, fuel, rt, arm.body, env, v.trace)
    else ExecAlt(w, fuel, rt, arm.alt, env, v.trace)
  }

  function ExecAlt(w: World, fuel: nat, rt: Result, alt: Alt, env: Env, trace: seq<Event>): (d: Done)
    requires env != []
    ensures d.Next? || d.Broke? ==> |d.env| == |env|
    decreases fuel, alt, 4
  {
    match alt
    case NoElse => Next(env, trace)
    case Else(body) => ExecBlock(w, fuel, rt, body, env, trace)
    case ElseIf(arm) => ExecIf(w, fuel, rt, arm, env, trace)
  }

  function ExecWhile(w: World, fuel: nat, rt: Result, c: Expr, body: Stmts, env: Env, trace: seq<Event>): (d: Done)
    ensures d.Next? || d.Broke? ==> |d.env| == |env|
    decreases fuel, body, 3
  {
    if fuel == 0 then Spent else
    var v := Run(w, c, env, trace);
    if v.Fault? then Failed(v.trace) else
    if v.value == 0 then Next(env, v.trace) else
    match ExecBlock(w, fuel - 1, rt, body, env, v.trace)
    case Next(env2, trace2) => ExecWhile(w, fuel - 1, rt, c, body, env2, trace2)
    case Broke(env2, trace2) => Next(env2, trace2)
    case Left(r, t) => Left(r, t)
    case Failed(t) => Failed(t)
    case Spent => Spent
  }

  /** The index variable lives in the innermost scope of env; the upper bound is a value. */
  function ExecFor(w: World, fuel: nat, rt: Result, x: string, hi: Value, body: Stmts, env: Env, trace: seq<Event>)
    : (d: Done)
    requires env != [] && x in env[|env| - 1]
    ensures d.Next? || d.Broke? ==> |d.env| == |env|
    decreases fuel, body, 3
  {
    if fuel == 0 then Spent else
    if env[|env| - 1][x].value >= hi then Next(env, trace) else
    match ExecBlock(w, fuel - 1, rt, body, env, trace)
    case Next(env2, trace2) =>
      if x !in env2[|env2| - 1] then Failed(trace2) else
      var i := env2[|env2| - 1][x];
      ExecFor(w, fuel - 1, rt, x, hi, body,
              Bind(env2, |env2| - 1, x, Local(i.ty, Wrap64(i.value + 1))), trace2)
    case Broke(env2, trace2) => Next(env2, trace2)
    case Left(r, t) => Left(r, t)
    case Failed(t) => Failed(t)
    case Spent => Spent
  }
}
