// The drain loop of the write lock on top of the schedulers: a task takes steps of the mutex only while a scheduler
// runs it, and in the drain loop it yields without being queued.  Here the loop may go on after the yield; it never
// does.
module DrainLoop {
  import M = RwMutex
  import S = Scheduler

  datatype Both = Both(mutex: M.State, sched: S.State)

  datatype Move = Schedule(act: S.Act) | Call(t: nat)

  /** A step of the mutex by task t; a task that has yielded in the drain loop looks again when it is resumed. */
  ghost predicate CallStep(m: M.State, t: nat, n: M.State)
    requires t in m.pc
  {
    if m.pc[t] == M.WYield then n == M.Goto(m, t, M.WDrain) else M.Step(m, t, n)
  }

  /** Task t has a scheduler. */
  ghost predicate OnCpu(s: S.State, t: nat)
  {
    t in s.task && (s.task[t].status == S.Running || s.task[t].status == S.Leaving)
  }

  /** The schedulers move, or a task that is running goes on in its call; when it comes to yield in the drain loop it
      gives up its scheduler. */
  ghost predicate Step(x: Both, v: Move, y: Both)
    requires S.Shape(x.sched)
  {
    match v
    case Schedule(act) => y.mutex == x.mutex && S.Step(x.sched, act, y.sched)
    case Call(t) =>
      && t in x.mutex.pc && OnCpu(x.sched, t) && CallStep(x.mutex, t, y.mutex) && t in y.mutex.pc
      && if y.mutex.pc[t] == M.WYield then S.Step(x.sched, S.YieldUnqueued(t), y.sched) else y.sched == x.sched
  }

  /** A task at the yield of the drain loop is switched out and in no queue. */
  ghost predicate Stranded(x: Both, t: nat)
  {
    && t in x.mutex.pc && x.mutex.pc[t] == M.WYield
    && t in x.sched.task && x.sched.task[t].status == S.Off && x.sched.task[t].place == S.Nowhere
  }

  ghost predicate Inv(x: Both)
  {
    && M.Inv(x.mutex) && S.Inv(x.sched)
    && forall t :: t in x.mutex.pc && x.mutex.pc[t] == M.WYield ==> Stranded(x, t)
  }

  lemma SchedShape(s: S.State)
    requires S.Inv(s)
    ensures S.Shape(s)
  {
    hide S.Closing;
  }

  /** A task that yields without being queued is in no queue. */
  lemma YieldsNowhere(s: S.State, t: nat, n: S.State)
    requires S.Inv(s) && S.Shape(s) && S.Step(s, S.YieldUnqueued(t), n)
    ensures t in n.task && n.task[t].status == S.Off && n.task[t].place == S.Nowhere
  {
    hide S.Closing, S.OnCpu, S.ReadyOk, S.WaitOk, S.HandOk;
  }

  /** Another task's step of the mutex does not move a task that is at the yield, nor bring one there. */
  lemma OthersYield(m: M.State, t: nat, n: M.State, u: nat)
    requires t in m.pc && M.Hands(m) && M.Step(m, t, n) && u != t
    ensures (u in n.pc && n.pc[u] == M.WYield) <==> (u in m.pc && m.pc[u] == M.WYield)
  {
    hide M.Step;
    M.PcAfter(m, t, n);
    if M.Waking(m.pc[t]) {
      assert M.Carries(m.pc[t], M.Hand(m.pc[t]));
    }
  }

  lemma MutexHands(m: M.State)
    requires M.Inv(m)
    ensures M.Hands(m)
  {
    hide M.Counted, M.Exclusive, M.Locked, M.Expected, M.Queueing, M.Queues, M.Kept, M.Progress, M.NoLostWakeup;
  }

  /** A task that is stranded stays so, whatever moves. */
  lemma StaysStranded(x: Both, v: Move, y: Both, t: nat)
    requires Inv(x) && S.Shape(x.sched) && Step(x, v, y) && Stranded(x, t)
    ensures Stranded(y, t) && y.sched.task[t] == x.sched.task[t]
  {
    hide M.Inv, S.Inv, M.Step, S.Step, M.Hands;
    MutexHands(x.mutex);
    match v
    case Schedule(act) => S.NotTouched(x.sched, act, y.sched, t);
    case Call(u) =>
      assert x.mutex.pc[u] != M.WYield;
      OthersYield(x.mutex, u, y.mutex, t);
      if y.mutex.pc[u] == M.WYield {
        S.NotTouched(x.sched, S.YieldUnqueued(u), y.sched, t);
      }
  }

  /** Only what the mutex model allows happens to the mutex: the loop does not go on after a yield. */
  lemma Keeps(x: Both, v: Move, y: Both)
    requires Inv(x) && S.Shape(x.sched) && Step(x, v, y)
    ensures Inv(y) && S.Shape(y.sched)
    ensures v.Call? ==> M.Step(x.mutex, v.t, y.mutex)
  {
    hide M.Inv, S.Inv, M.Step, S.Step, M.Hands, S.Shape;
    MutexHands(x.mutex);
    match v {
      case Schedule(act) => S.Keeps(x.sched, act, y.sched);
      case Call(u) =>
        assert x.mutex.pc[u] != M.WYield;
        M.Keeps(x.mutex, u, y.mutex);
        if y.mutex.pc[u] == M.WYield {
          S.Keeps(x.sched, S.YieldUnqueued(u), y.sched);
          YieldsNowhere(x.sched, u, y.sched);
        }
    }
    SchedShape(y.sched);
    forall t | t in y.mutex.pc && y.mutex.pc[t] == M.WYield
      ensures Stranded(y, t)
    {
      YieldOf(x, v, y, t);
    }
  }

  lemma YieldOf(x: Both, v: Move, y: Both, t: nat)
    requires Inv(x) && S.Shape(x.sched) && Step(x, v, y) && t in y.mutex.pc && y.mutex.pc[t] == M.WYield
    requires v.Call? ==> x.mutex.pc[v.t] != M.WYield && M.Hands(x.mutex)
    ensures Stranded(y, t)
  {
    hide M.Inv, S.Inv, M.Step, S.Step, M.Hands, S.Shape;
    if v.Call? && v.t == t {
      YieldsNowhere(x.sched, t, y.sched);
    } else {
      if v.Call? {
        OthersYield(x.mutex, v.t, y.mutex, t);
      }
      StaysStranded(x, v, y, t);
    }
  }

  /** Any interleaving of schedulers and calls. */
  ghost predicate Run(run: seq<Both>, moves: seq<Move>)
  {
    && |run| == |moves| + 1 && M.Starts(run[0].mutex) && S.Starts(run[0].sched)
    && forall i :: 0 <= i < |moves| ==> S.Shape(run[i].sched) && Step(run[i], moves[i], run[i + 1])
  }

  lemma {:induction false} EveryRun(run: seq<Both>, moves: seq<Move>, i: nat)
    requires Run(run, moves) && i < |run|
    ensures Inv(run[i])
  {
    hide Inv, Step, M.Starts, S.Starts;
    if i == 0 {
      M.Starting(run[0].mutex);
      S.Starting(run[0].sched);
      assert Inv(run[0]) by { NoneYields(run[0]); }
    } else {
      EveryRun(run, moves, i - 1);
      Keeps(run[i - 1], moves[i - 1], run[i]);
    }
  }

  lemma NoneYields(x: Both)
    requires M.Starts(x.mutex) && M.Inv(x.mutex) && S.Inv(x.sched)
    ensures Inv(x)
  {
    hide M.Inv, S.Inv;
  }

  /** In every run a call that has yielded in the drain loop never takes another step, although its loop would let it:
      no scheduler ever resumes the task. */
  lemma {:induction false} NeverResumed(run: seq<Both>, moves: seq<Move>, i: nat, j: nat, t: nat)
    requires Run(run, moves) && i <= j < |run| && t in run[i].mutex.pc && run[i].mutex.pc[t] == M.WYield
    ensures t in run[j].mutex.pc && run[j].mutex.pc[t] == M.WYield && !OnCpu(run[j].sched, t)
    ensures j < |moves| ==> moves[j] != Call(t)
  {
    hide Step, M.Inv, S.Inv, M.Starts, S.Starts;
    EveryRun(run, moves, j);
    if i < j {
      NeverResumed(run, moves, i, j - 1, t);
      EveryRun(run, moves, j - 1);
      StaysStranded(run[j - 1], moves[j - 1], run[j], t);
    }
    assert Stranded(run[j], t);
    if j < |moves| && moves[j] == Call(t) {
      CallRuns(run[j], t, run[j + 1]);
    }
  }

  lemma CallRuns(x: Both, t: nat, y: Both)
    requires S.Shape(x.sched) && Step(x, Call(t), y)
    ensures OnCpu(x.sched, t)
  {
  }
}
