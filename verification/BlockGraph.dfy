// Basic blocks and the machine that runs them.  Cells stand for the slots that alloca reserves and for the registers
// that instructions define; an operand that is a slot is loaded by the instruction that uses it.
module BlockGraph {
  import opened Options
  import opened SourceLang

  datatype Instr =
    | Const(d: nat, value: Value)
    | Move(d: nat, s: nat)
    | Op(d: nat, op: string, a: nat, b: nat)
    | Cast(d: nat, ty: string, s: nat)
    | Test(d: nat, s: nat)
    | Flip(d: nat, s: nat)
    | Less(d: nat, a: nat, b: nat)
    | Inc(d: nat, s: nat)
    | Phi(d: nat, left: nat, value: Value, right: nat, s: nat)

  datatype Term = Open | Br(to: nat) | CondBr(c: nat, yes: nat, no: nat) | RetVoid | Ret(s: nat)

  datatype Block = Block(code: seq<Instr>, term: Term)

  type Graph = seq<Block>

  type Memory = nat -> Value

  function Put(m: Memory, c: nat, v: Value): Memory
  {
    (x: nat) => if x == c then v else m(x)
  }

  datatype Outcome =
    | Returned(result: Option<Value>, trace: seq<Event>)
    | Trapped(trace: seq<Event>)
    | Stuck(trace: seq<Event>)

  /** A machine is about to run instruction pc of a block, or its terminator; prev is the block it came from. */
  datatype Machine =
    | At(block: nat, pc: nat, prev: nat, mem: Memory, trace: seq<Event>)
    | Halt(outcome: Outcome)

  function Advance(s: Machine, d: nat, v: Value): Machine
    requires s.At?
  {
    s.(pc := s.pc + 1, mem := Put(s.mem, d, v))
  }

  function Jump(s: Machine, to: nat): Machine
    requires s.At?
  {
    At(to, 0, s.block, s.mem, s.trace)
  }

  function RunInstr(w: World, i: Instr, s: Machine): Machine
    requires s.At?
  {
    match i
    case Const(d, v) => Advance(s, d, v)
    case Move(d, a) => Advance(s, d, s.mem(a))
    case Op(d, op, a, b) =>
      var r := Act(w, op, s.mem(a), s.mem(b), s.trace);
      if r.Fault? then Halt(Trapped(r.trace)) else Advance(s, d, r.value).(trace := r.trace)
    case Cast(d, ty, a) =>
      var r := w.cast(ty, s.mem(a));
      if r.Trap? then Halt(Trapped(s.trace)) else Advance(s, d, r.value)
    case Test(d, a) => Advance(s, d, Bool(s.mem(a) != 0))
    case Flip(d, a) => Advance(s, d, 1 - s.mem(a))
    case Less(d, a, b) => Advance(s, d, Bool(s.mem(a) < s.mem(b)))
    case Inc(d, a) => Advance(s, d, Wrap64(s.mem(a) + 1))
    case Phi(d, left, v, right, a) =>
      if s.prev == left then Advance(s, d, v)
      else if s.prev == right then Advance(s, d, s.mem(a))
      else Halt(Stuck(s.trace))
  }

  function RunTerm(t: Term, s: Machine): Machine
    requires s.At?
  {
    match t
    case Open => Halt(Stuck(s.trace))
    case Br(to) => Jump(s, to)
    case CondBr(c, yes, no) => Jump(s, if s.mem(c) != 0 then yes else no)
    case RetVoid => Halt(Returned(None, s.trace))
    case Ret(a) => Halt(Returned(Some(s.mem(a)), s.trace))
  }

  function Step(w: World, g: Graph, s: Machine): Machine
  {
    if s.Halt? then s
    else if s.block >= |g| then Halt(Stuck(s.trace))
    else if s.pc < |g[s.block].code| then RunInstr(w, g[s.block].code[s.pc], s)
    else RunTerm(g[s.block].term, s)
  }

  function Steps(w: World, g: Graph, s: Machine, n: nat): Machine
    decreases n
  {
    if n == 0 then s else Steps(w, g, Step(w, g, s), n - 1)
  }

  lemma {:induction false} StepsAdd(w: World, g: Graph, s: Machine, j: nat, k: nat)
    ensures Steps(w, g, s, j + k) == Steps(w, g, Steps(w, g, s, j), k)
    decreases j
  {
    if j > 0 {
      StepsAdd(w, g, Step(w, g, s), j - 1, k);
    }
  }

  lemma {:induction false} HaltStays(w: World, g: Graph, s: Machine, k: nat)
    requires s.Halt?
    ensures Steps(w, g, s, k) == s
  {
    if k > 0 {
      HaltStays(w, g, s, k - 1);
    }
  }
}
