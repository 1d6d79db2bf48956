// Green tasks and the schedulers that run them, as a system of steps.  A task belongs to the scheduler it was created
// for; it gives up its scheduler by putting itself in a queue and yielding, and comes back through the ready queue.
module Scheduler {
  import opened Options

  type Task = nat

  /** Running: on its scheduler.  Leaving: still on it, but already in a queue.  Off: switched out.  Finished: it has
      returned, and its scheduler has not yet counted it off.  Reaped: it has been. */
  datatype Status = Running | Leaving | Off | Finished | Reaped

  /** Where a task is queued: nowhere, in the ready queue of its scheduler, in a wait queue, or in the hand of a task
      that took it from a wait queue or created it and has yet to make it ready. */
  datatype Place = Nowhere | InReady | InWait(q: nat) | InHand(holder: Task)

  datatype Info = Info(home: nat, status: Status, place: Place, hand: Option<Task>)

  /** What a scheduler is doing.  Check and Send: it counted off the last task; Done: it has told all schedulers to
      stop; Gone: it has been told. */
  datatype Sched = Pick | Run(t: Task) | Reap(t: Task) | Check | Send(next: nat) | Done | Gone

  /** A ready queue holds tasks and, as None, requests to stop.  closer is the scheduler that counted off the last task,
      and sent counts the requests to stop that each queue was given. */
  datatype State = State(task: map<Task, Info>, sched: seq<Sched>, ready: seq<seq<Option<Task>>>, wait: seq<seq<Task>>,
                         count: int, closer: Option<nat>, sent: seq<nat>)

  datatype Act =
    | Resume(k: nat)
    | Enqueue(t: Task, q: nat)
    | Preempt(t: Task)
    | Yield(t: Task)
    | YieldUnqueued(t: Task)
    | Take(t: Task, q: nat)
    | MakeReady(t: Task)
    | Complete(q: nat)
    | Spawn(t: Task, child: Task, k: nat)
    | Finish(t: Task)
    | CountOff(k: nat)
    | Recheck(k: nat)
    | Stop(k: nat)

  /** Task t is on its scheduler and has nothing in hand. */
  ghost predicate Free(s: State, t: Task)
  {
    t in s.task && s.task[t].status == Running && s.task[t].hand == None
  }

  function Set(s: State, t: Task, i: Info): State
  {
    s.(task := s.task[t := i])
  }

  function SetSched(s: State, k: nat, x: Sched): State
    requires k < |s.sched|
  {
    s.(sched := s.sched[k := x])
  }

  function PushReady(s: State, k: nat, x: Option<Task>): State
    requires k < |s.ready|
  {
    s.(ready := s.ready[k := s.ready[k] + [x]])
  }

  function PopReady(s: State, k: nat): State
    requires k < |s.ready| && s.ready[k] != []
  {
    s.(ready := s.ready[k := s.ready[k][1..]])
  }

  ghost predicate Shape(s: State)
  {
    && |s.sched| == |s.ready| == |s.sent| && |s.sched| > 0
    && forall t :: t in s.task ==> s.task[t].home < |s.sched|
  }

  /** One step. */
  ghost predicate Step(s: State, a: Act, n: State)
    requires Shape(s)
  {
    match a
    case Resume(k) =>
      && k < |s.sched| && s.sched[k] == Pick && s.ready[k] != []
      && (match s.ready[k][0]
          case None => n == SetSched(PopReady(s, k), k, Gone)
          case Some(t) =>
            t in s.task && n == Set(SetSched(PopReady(s, k), k, Run(t)), t,
                s.task[t].(status := Running, place := Nowhere)))
    case Enqueue(t, q) =>
      && Free(s, t) && q < |s.wait|
      && n == Set(s, t, s.task[t].(status := Leaving, place := InWait(q))).(wait := s.wait[q := s.wait[q] + [t]])
    case Preempt(t) =>
      && Free(s, t)
      && n == PushReady(Set(s, t, s.task[t].(status := Leaving, place := InReady)), s.task[t].home, Some(t))
    case Yield(t) =>
      && t in s.task && s.task[t].status == Leaving
      && n == SetSched(Set(s, t, s.task[t].(status := Off)), s.task[t].home, Pick)
    case YieldUnqueued(t) =>
      && Free(s, t)
      && n == SetSched(Set(s, t, s.task[t].(status := Off)), s.task[t].home, Pick)
    case Take(t, q) =>
      && Free(s, t) && q < |s.wait| && s.wait[q] != [] && s.wait[q][0] in s.task && s.wait[q][0] != t
      && var u := s.wait[q][0];
      n == Set(Set(s, u, s.task[u].(place := InHand(t))), t,
          s.task[t].(hand := Some(u))).(wait := s.wait[q := s.wait[q][1..]])
    case MakeReady(t) =>
      && t in s.task && s.task[t].status == Running && s.task[t].hand.Some?
      && var u := s.task[t].hand.value;
      && u in s.task && u != t
      && n == PushReady(Set(Set(s, u, s.task[u].(place := InReady)), t, s.task[t].(hand := None)), s.task[u].home,
         Some(u))
    case Complete(q) =>
      && q < |s.wait| && s.wait[q] != [] && s.wait[q][0] in s.task
      && var u := s.wait[q][0];
      n == PushReady(Set(s, u, s.task[u].(place := InReady)), s.task[u].home,
          Some(u)).(wait := s.wait[q := s.wait[q][1..]])
    case Spawn(t, child, k) =>
      && Free(s, t) && child !in s.task && k < |s.sched|
      && n == Set(Set(s, child, Info(k, Off, InHand(t), None)), t,
         s.task[t].(hand := Some(child))).(count := s.count + 1)
    case Finish(t) =>
      && Free(s, t)
      && n == SetSched(Set(s, t, s.task[t].(status := Finished)), s.task[t].home, Reap(t))
    case CountOff(k) =>
      && k < |s.sched| && s.sched[k].Reap? && s.sched[k].t in s.task
      && var t := s.sched[k].t; var count := s.count - 1;
      n == SetSched(Set(s, t, s.task[t].(status := Reaped)), k, if count == 0 then Check else Pick)
             .(count := count, closer := if count == 0 then Some(k) else s.closer)
    case Recheck(k) =>
      && k < |s.sched| && s.sched[k] == Check
      && n == SetSched(s, k, if s.count == 0 then Send(0) else Pick)
    case Stop(k) =>
      && k < |s.sched| && s.sched[k].Send?
      && var i := s.sched[k].next;
      if i < |s.ready| then n == SetSched(PushReady(s, i, None), k, Send(i + 1)).(sent := s.sent[i := s.sent[i] + 1])
      else n == SetSched(s, k, Done)
  }

  /** The first task has been created and put in the ready queue of its scheduler. */
  ghost predicate Starts(s: State)
  {
    && Shape(s) && s.count == 1 && s.closer == None
    && (exists t: Task, k: nat ::
          && k < |s.ready| && s.task == map[t := Info(k, Off, InReady, None)] && s.ready[k] == [Some(t)]
          && forall j :: 0 <= j < |s.ready| && j != k ==> s.ready[j] == [])
    && (forall k :: 0 <= k < |s.sched| ==> s.sched[k] == Pick && s.sent[k] == 0)
    && (forall q :: 0 <= q < |s.wait| ==> s.wait[q] == [])
  }

  // ---- What every step keeps: tasks and their places ----

  /** A scheduler runs its own tasks only, and a task that runs is the one its scheduler runs. */
  ghost predicate OnCpu(s: State)
  {
    && (forall k :: 0 <= k < |s.sched| && s.sched[k].Run? ==>
          var t := s.sched[k].t;
          t in s.task && s.task[t].home == k && (s.task[t].status == Running || s.task[t].status == Leaving))
    && (forall k :: 0 <= k < |s.sched| && s.sched[k].Reap? ==>
          var t := s.sched[k].t; t in s.task && s.task[t].home == k && s.task[t].status == Finished)
    && (forall t :: t in s.task && (s.task[t].status == Running || s.task[t].status == Leaving) ==>
          s.task[t].home < |s.sched| && s.sched[s.task[t].home] == Run(t))
    && (forall t :: t in s.task && s.task[t].status == Finished ==>
          s.task[t].home < |s.sched| && s.sched[s.task[t].home] == Reap(t))
  }

  ghost predicate Once<T>(q: seq<T>, x: T)
  {
    multiset(q)[x] == 1
  }

  /** A task is in a ready queue exactly when its place says so: once, in the queue of its own scheduler. */
  ghost predicate ReadyOk(s: State)
  {
    && |s.ready| == |s.sched|
    && (forall k, i :: 0 <= k < |s.ready| && 0 <= i < |s.ready[k]| && s.ready[k][i].Some? ==>
          var t := s.ready[k][i].value; t in s.task && s.task[t].home == k && s.task[t].place == InReady)
    && (forall t :: t in s.task && s.task[t].place == InReady ==>
          s.task[t].home < |s.ready| && Once(s.ready[s.task[t].home], Some(t)))
  }

  ghost predicate WaitOk(s: State)
  {
    && (forall q, i :: 0 <= q < |s.wait| && 0 <= i < |s.wait[q]| ==>
          s.wait[q][i] in s.task && s.task[s.wait[q][i]].place == InWait(q))
    && (forall t :: t in s.task && s.task[t].place.InWait? ==>
          s.task[t].place.q < |s.wait| && Once(s.wait[s.task[t].place.q], t))
  }

  ghost predicate HandOk(s: State)
  {
    && (forall t :: t in s.task && s.task[t].hand.Some? ==>
          && s.task[t].status == Running && s.task[t].hand.value in s.task
          && s.task[s.task[t].hand.value].place == InHand(t))
    && (forall t :: t in s.task && s.task[t].place.InHand? ==>
          s.task[t].place.holder in s.task && s.task[s.task[t].place.holder].hand == Some(t))
  }

  /** A task that runs or has finished is in no queue; one that is leaving is in one. */
  ghost predicate PlaceOk(s: State)
  {
    forall t :: t in s.task ==>
      && (s.task[t].status == Running || s.task[t].status == Finished || s.task[t].status == Reaped ==>
         s.task[t].place == Nowhere)
      && (s.task[t].status == Leaving ==> s.task[t].place != Nowhere)
  }

  ghost predicate Placed(s: State)
  {
    Shape(s) && OnCpu(s) && ReadyOk(s) && WaitOk(s) && HandOk(s) && PlaceOk(s)
  }

  // ---- One edit at a time ----

  /** The tasks of s are in n too, and those other than t and u are as they were. */
  ghost predicate Others(s: State, n: State, t: Task, u: Task)
  {
    && (forall x :: x in s.task ==> x in n.task)
    && (forall x {:trigger n.task[x]} :: x in n.task && x != t && x != u ==> x in s.task && n.task[x] == s.task[x])
  }

  /** Task t and its scheduler k change what they do. */
  lemma CpuMoves(s: State, n: State, t: Task, k: nat)
    requires OnCpu(s) && Others(s, n, t, t) && t in n.task && n.task[t].home == k && k < |s.sched|
    requires |n.sched| == |s.sched| && forall j :: 0 <= j < |s.sched| && j != k ==> n.sched[j] == s.sched[j]
    requires t in s.task && s.task[t].home == k
    requires s.sched[k] == Pick || s.sched[k] == Run(t) || s.sched[k] == Reap(t)
    requires if n.sched[k].Run?
             then n.sched[k] == Run(t) && (n.task[t].status == Running || n.task[t].status == Leaving)
             else if n.sched[k].Reap? then n.sched[k] == Reap(t) && n.task[t].status == Finished
             else n.task[t].status == Off || n.task[t].status == Reaped
    ensures OnCpu(n)
  {
    forall x | x in n.task && x != t && x in s.task && (s.task[x].status == Running || s.task[x].status == Leaving
        || s.task[x].status == Finished)
      ensures s.task[x].home != k
    {
    }
  }

  lemma CpuSame(s: State, n: State, k: nat)
    requires OnCpu(s) && k < |s.sched| && !s.sched[k].Run? && !s.sched[k].Reap?
    requires |n.sched| == |s.sched| && !n.sched[k].Run? && !n.sched[k].Reap? && n.task == s.task
    requires forall j :: 0 <= j < |s.sched| && j != k ==> n.sched[j] == s.sched[j]
    ensures OnCpu(n)
  {
  }

  /** Only places and hands change, or a task that is switched out is new. */
  lemma CpuStill(s: State, n: State, t: Task, u: Task)
    requires OnCpu(s) && n.sched == s.sched && Others(s, n, t, u)
    requires forall x :: x in n.task && (x == t || x == u) ==>
               if x in s.task then n.task[x].home == s.task[x].home && n.task[x].status == s.task[x].status
               else n.task[x].status == Off
    ensures OnCpu(n)
  {
  }

  lemma KeepsShape(s: State, a: Act, n: State)
    requires Placed(s) && Step(s, a, n)
    ensures Shape(n)
  {
    hide OnCpu, ReadyOk, WaitOk, HandOk, PlaceOk;
  }

  /** A step of a task that is on its scheduler, other than creating a task. */
  predicate ByTask(a: Act)
  {
    a.Enqueue? || a.Preempt? || a.Yield? || a.YieldUnqueued? || a.Take? || a.MakeReady? || a.Finish?
  }

  lemma KeepsOnCpu(s: State, a: Act, n: State)
    requires Placed(s) && Step(s, a, n)
    ensures OnCpu(n)
  {
    hide WaitOk, HandOk, OnCpu;
    if ByTask(a) {
      TaskKeepsOnCpu(s, a, n);
    } else {
      match a
      case Resume(k) =>
        var x := s.ready[k][0];
        if x.None? {
          CpuSame(s, n, k);
        } else {
          CpuMoves(s, n, x.value, k);
        }
      case Complete(q) => CpuStill(s, n, s.wait[q][0], s.wait[q][0]);
      case Spawn(t, child, _) => CpuStill(s, n, t, child);
      case CountOff(k) => ReapOf(s, k); CpuMoves(s, n, s.sched[k].t, k);
      case Recheck(k) => CpuSame(s, n, k);
      case Stop(k) => CpuSame(s, n, k);
    }
  }

  lemma TaskKeepsOnCpu(s: State, a: Act, n: State)
    requires Placed(s) && Step(s, a, n) && ByTask(a)
    ensures OnCpu(n)
  {
    hide WaitOk, HandOk, OnCpu, ReadyOk, PlaceOk;
    if a.Take? {
      CpuStill(s, n, a.t, s.wait[a.q][0]);
    } else if a.MakeReady? {
      CpuStill(s, n, a.t, s.task[a.t].hand.value);
    } else {
      CpuOf(s, a.t);
      CpuMoves(s, n, a.t, s.task[a.t].home);
    }
  }

  lemma CpuOf(s: State, t: Task)
    requires OnCpu(s) && t in s.task && (s.task[t].status == Running || s.task[t].status == Leaving)
    ensures s.task[t].home < |s.sched| && s.sched[s.task[t].home] == Run(t)
  {
  }

  lemma ReapOf(s: State, k: nat)
    requires OnCpu(s) && k < |s.sched| && s.sched[k].Reap?
    ensures s.sched[k].t in s.task && s.task[s.sched[k].t].home == k && s.task[s.sched[k].t].status == Finished
  {
  }

  // ---- Queues ----

  lemma OncePush<T>(q: seq<T>, x: T, y: T)
    ensures Once(q, x) && x != y ==> Once(q + [y], x)
    ensures y !in q ==> Once(q + [y], y)
  {
  }

  lemma OncePop<T>(q: seq<T>, x: T)
    requires q != []
    ensures Once(q, x) && x != q[0] ==> Once(q[1..], x)
    ensures Once(q, q[0]) ==> q[0] !in q[1..]
  {
    assert q == [q[0]] + q[1..];
  }

  /** No task comes to or leaves a ready queue. */
  lemma ReadySame(s: State, n: State, t: Task, u: Task)
    requires ReadyOk(s) && n.ready == s.ready && |n.sched| == |s.sched| && Others(s, n, t, u)
    requires forall x :: x in n.task && (x == t || x == u) ==>
               n.task[x].place != InReady && (x in s.task ==> s.task[x].place != InReady)
    ensures ReadyOk(n)
  {
    hide Once;
  }

  /** Task t comes to the ready queue of its scheduler. */
  lemma ReadyPush(s: State, n: State, t: Task, u: Task)
    requires ReadyOk(s) && |n.sched| == |s.sched| && Others(s, n, t, u) && t in s.task && t in n.task && u in n.task
             && u in s.task
    requires s.task[t].place != InReady && n.task[t].place == InReady && n.task[t].home == s.task[t].home < |s.ready|
    requires u != t ==> s.task[u].place != InReady && n.task[u].place != InReady
    requires n.ready == PushReady(s, s.task[t].home, Some(t)).ready
    ensures ReadyOk(n)
  {
    hide Once;
    var k := s.task[t].home;
    OncePush(s.ready[k], Some(t), Some(t));
    forall x | x in n.task && n.task[x].place == InReady
      ensures n.task[x].home < |n.ready| && Once(n.ready[n.task[x].home], Some(x))
    {
      OncePush(s.ready[k], Some(x), Some(t));
    }
  }

  /** The first of a ready queue leaves it. */
  lemma ReadyPop(s: State, n: State, k: nat)
    requires ReadyOk(s) && |n.sched| == |s.sched| && k < |s.ready| && s.ready[k] != []
             && n.ready == PopReady(s, k).ready
    requires match s.ready[k][0]
             case None => n.task == s.task
             case Some(t) => Others(s, n, t, t) && t in n.task && n.task[t].place != InReady
    ensures ReadyOk(n)
  {
    hide Once;
    var head := s.ready[k][0];
    OncePop(s.ready[k], head);
    forall x | x in n.task && n.task[x].place == InReady
      ensures n.task[x].home < |n.ready| && Once(n.ready[n.task[x].home], Some(x))
    {
      OncePop(s.ready[k], Some(x));
    }
  }

  lemma ReadyStop(s: State, n: State, k: nat)
    requires ReadyOk(s) && |n.sched| == |s.sched| && k < |s.ready| && n.task == s.task
             && n.ready == PushReady(s, k, None).ready
    ensures ReadyOk(n)
  {
    hide Once;
    forall x | x in n.task && n.task[x].place == InReady
      ensures n.task[x].home < |n.ready| && Once(n.ready[n.task[x].home], Some(x))
    {
      OncePush(s.ready[k], Some(x), None);
    }
  }

  lemma KeepsReady(s: State, a: Act, n: State)
    requires Placed(s) && Step(s, a, n)
    ensures ReadyOk(n)
  {
    hide ReadyOk, OnCpu;
    if ByTask(a) {
      TaskKeepsReady(s, a, n);
    } else {
      match a
      case Resume(k) => ReadyPop(s, n, k);
      case Complete(q) => ReadyPush(s, n, s.wait[q][0], s.wait[q][0]);
      case Spawn(t, child, _) => ReadySame(s, n, t, child);
      case CountOff(k) => ReapOf(s, k); ReadySame(s, n, s.sched[k].t, s.sched[k].t);
      case Recheck(_) => ReadyFrame(s, n);
      case Stop(k) =>
        var i := s.sched[k].next;
        if i < |s.ready| {
          ReadyStop(s, n, i);
        } else {
          ReadyFrame(s, n);
        }
    }
  }

  lemma TaskKeepsReady(s: State, a: Act, n: State)
    requires Placed(s) && Step(s, a, n) && ByTask(a)
    ensures ReadyOk(n)
  {
    hide ReadyOk, OnCpu;
    if a.Preempt? {
      ReadyPush(s, n, a.t, a.t);
    } else if a.Yield? {
      ReadyYield(s, n, a.t);
    } else if a.Take? {
      ReadySame(s, n, a.t, s.wait[a.q][0]);
    } else if a.MakeReady? {
      ReadyPush(s, n, s.task[a.t].hand.value, a.t);
    } else {
      ReadySame(s, n, a.t, a.t);
    }
  }

  lemma ReadyFrame(s: State, n: State)
    requires ReadyOk(s) && n.ready == s.ready && |n.sched| == |s.sched| && n.task == s.task
    ensures ReadyOk(n)
  {
  }

  /** Only the status of t changes. */
  lemma ReadyYield(s: State, n: State, t: Task)
    requires ReadyOk(s) && n.ready == s.ready && |n.sched| == |s.sched| && Others(s, n, t, t) && t in s.task
             && t in n.task
    requires n.task[t].home == s.task[t].home && n.task[t].place == s.task[t].place
    ensures ReadyOk(n)
  {
    hide Once;
  }

  // ---- Wait queues ----

  lemma WaitSame(s: State, n: State, t: Task, u: Task)
    requires WaitOk(s) && n.wait == s.wait && Others(s, n, t, u)
    requires forall x :: x in n.task && (x == t || x == u) ==>
               if x in s.task then n.task[x].place == s.task[x].place
                   || (!n.task[x].place.InWait? && !s.task[x].place.InWait?)
               else !n.task[x].place.InWait?
    ensures WaitOk(n)
  {
    hide Once;
  }

  lemma WaitPush(s: State, n: State, t: Task, q: nat)
    requires WaitOk(s) && Others(s, n, t, t) && t in s.task && t in n.task && q < |s.wait|
    requires !s.task[t].place.InWait? && n.task[t].place == InWait(q) && n.wait == s.wait[q := s.wait[q] + [t]]
    ensures WaitOk(n)
  {
    hide Once;
    OncePush(s.wait[q], t, t);
    forall x | x in n.task && n.task[x].place.InWait?
      ensures n.task[x].place.q < |n.wait| && Once(n.wait[n.task[x].place.q], x)
    {
      OncePush(s.wait[q], x, t);
    }
  }

  lemma WaitPop(s: State, n: State, q: nat, u: Task)
    requires WaitOk(s) && q < |s.wait| && s.wait[q] != [] && n.wait == s.wait[q := s.wait[q][1..]]
    requires var x := s.wait[q][0];
             && Others(s, n, x, u) && x in n.task && u in n.task && u in s.task && !n.task[x].place.InWait?
             && (u != x ==> !n.task[u].place.InWait? && !s.task[u].place.InWait?)
    ensures WaitOk(n)
  {
    hide Once;
    var head := s.wait[q][0];
    OncePop(s.wait[q], head);
    forall x | x in n.task && n.task[x].place.InWait?
      ensures n.task[x].place.q < |n.wait| && Once(n.wait[n.task[x].place.q], x)
    {
      OncePop(s.wait[q], x);
    }
    forall p, i | 0 <= p < |n.wait| && 0 <= i < |n.wait[p]|
      ensures n.wait[p][i] in n.task && n.task[n.wait[p][i]].place == InWait(p)
    {
      assert n.wait[p][i] == if p == q then s.wait[p][i + 1] else s.wait[p][i];
      assert p == q ==> n.wait[p][i] in s.wait[q][1..];
    }
  }

  lemma KeepsWait(s: State, a: Act, n: State)
    requires Placed(s) && Step(s, a, n)
    ensures WaitOk(n)
  {
    hide OnCpu, HandOk, Once;
    match a
    case Resume(k) =>
      if s.ready[k][0].Some? {
        WaitSame(s, n, s.ready[k][0].value, s.ready[k][0].value);
      }
    case Enqueue(t, q) => WaitPush(s, n, t, q);
    case Take(t, q) => WaitPop(s, n, q, t);
    case Complete(q) => WaitPop(s, n, q, s.wait[q][0]);
    case Spawn(t, child, _) => WaitSame(s, n, t, child);
    case CountOff(k) => ReapOf(s, k); WaitSame(s, n, s.sched[k].t, s.sched[k].t);
    case _ => WaitRest(s, a, n);
  }

  lemma WaitRest(s: State, a: Act, n: State)
    requires Placed(s) && Step(s, a, n)
    requires a.Preempt? || a.Yield? || a.YieldUnqueued? || a.MakeReady? || a.Finish? || a.Recheck? || a.Stop?
    ensures WaitOk(n)
  {
    hide OnCpu, ReadyOk, Once;
    if a.MakeReady? {
      WaitSame(s, n, a.t, s.task[a.t].hand.value);
    } else if !a.Recheck? && !a.Stop? {
      WaitSame(s, n, a.t, a.t);
    }
  }

  // ---- Hands and places ----

  /** Task t has nothing in hand and is in no hand, before and after. */
  lemma HandSame(s: State, n: State, t: Task)
    requires HandOk(s) && Others(s, n, t, t) && t in s.task && t in n.task
    requires s.task[t].hand == None && n.task[t].hand == None && !s.task[t].place.InHand? && !n.task[t].place.InHand?
    ensures HandOk(n)
  {
  }

  /** Task t takes u in hand. */
  lemma HandTakes(s: State, n: State, t: Task, u: Task)
    requires HandOk(s) && Others(s, n, t, u) && t in s.task && t in n.task && u in n.task && u != t
    requires s.task[t].hand == None && s.task[t].status == Running
    requires u in s.task ==>
               && !s.task[u].place.InHand?
               && n.task[u].hand == s.task[u].hand && n.task[u].status == s.task[u].status
    requires u !in s.task ==> n.task[u].hand == None
    requires n.task[t] == s.task[t].(hand := Some(u)) && n.task[u].place == InHand(t)
    ensures HandOk(n)
  {
  }

  /** Task t puts down what it has in hand. */
  lemma HandDrops(s: State, n: State, t: Task, u: Task)
    requires HandOk(s) && Others(s, n, t, u) && t in s.task && u in s.task && t in n.task && u in n.task && u != t
    requires s.task[t].hand == Some(u) && n.task[t] == s.task[t].(hand := None)
    requires !n.task[u].place.InHand? && n.task[u].hand == s.task[u].hand && n.task[u].status == s.task[u].status
    ensures HandOk(n)
  {
  }

  /** A task that is not running has nothing in hand. */
  lemma EmptyHand(s: State, t: Task)
    requires HandOk(s) && t in s.task && s.task[t].status != Running
    ensures s.task[t].hand == None
  {
  }

  lemma KeepsHand(s: State, a: Act, n: State)
    requires Placed(s) && Step(s, a, n)
    ensures HandOk(n)
  {
    hide OnCpu, Once, HandOk;
    if ByTask(a) {
      TaskKeepsHand(s, a, n);
    } else {
      match a
      case Resume(k) =>
        if s.ready[k][0].Some? {
          var t := s.ready[k][0].value;
          EmptyHand(s, t);
          HandSame(s, n, t);
        } else {
          HandFrame(s, n);
        }
      case Complete(q) => EmptyHand(s, s.wait[q][0]); HandSame(s, n, s.wait[q][0]);
      case Spawn(t, child, _) => HandTakes(s, n, t, child);
      case CountOff(k) => ReapOf(s, k); EmptyHand(s, s.sched[k].t); HandSame(s, n, s.sched[k].t);
      case Recheck(_) => HandFrame(s, n);
      case Stop(_) => HandFrame(s, n);
    }
  }

  lemma TaskKeepsHand(s: State, a: Act, n: State)
    requires Placed(s) && Step(s, a, n) && ByTask(a)
    ensures HandOk(n)
  {
    hide OnCpu, Once, HandOk, ReadyOk;
    if a.Take? {
      HandTakes(s, n, a.t, s.wait[a.q][0]);
    } else if a.MakeReady? {
      HandDrops(s, n, a.t, s.task[a.t].hand.value);
    } else if a.Yield? {
      HandYield(s, n, a.t);
    } else {
      HandSame(s, n, a.t);
    }
  }

  lemma HandFrame(s: State, n: State)
    requires HandOk(s) && n.task == s.task
    ensures HandOk(n)
  {
  }

  lemma HandYield(s: State, n: State, t: Task)
    requires HandOk(s) && Others(s, n, t, t) && t in s.task && t in n.task && s.task[t].status == Leaving
    requires n.task[t] == s.task[t].(status := Off)
    ensures HandOk(n)
  {
    EmptyHand(s, t);
  }

  lemma KeepsPlace(s: State, a: Act, n: State)
    requires Placed(s) && Step(s, a, n)
    ensures PlaceOk(n)
  {
    hide OnCpu, Once;
    if ByTask(a) {
      TaskKeepsPlace(s, a, n);
    } else if a.CountOff? {
      ReapOf(s, a.k);
    }
  }

  lemma TaskKeepsPlace(s: State, a: Act, n: State)
    requires Placed(s) && Step(s, a, n) && ByTask(a)
    ensures PlaceOk(n)
  {
    hide OnCpu, Once, ReadyOk;
  }

  lemma KeepsPlaced(s: State, a: Act, n: State)
    requires Placed(s) && Step(s, a, n)
    ensures Placed(n)
  {
    hide Step, Shape, OnCpu, ReadyOk, WaitOk, HandOk, PlaceOk;
    KeepsShape(s, a, n);
    KeepsOnCpu(s, a, n);
    KeepsReady(s, a, n);
    KeepsWait(s, a, n);
    KeepsHand(s, a, n);
    KeepsPlace(s, a, n);
  }

  // ---- What every step keeps: the end of the program ----

  ghost function Live(s: State): set<Task>
  {
    set t | t in s.task && s.task[t].status != Reaped
  }

  function One(b: bool): nat
  {
    if b then 1 else 0
  }

  /** How many requests to stop queue i has been given by a scheduler that is at x. */
  function SentBy(x: Sched, i: nat): nat
  {
    if x.Send? then One(i < x.next) else One(x.Done?)
  }

  predicate Closes(x: Sched)
  {
    x.Check? || x.Send? || x.Done?
  }

  /** While there are tasks nobody closes down; once there are none exactly one scheduler does. */
  ghost predicate Closing(s: State)
    requires Shape(s)
  {
    match s.closer
    case None =>
      && s.count > 0
      && forall k :: 0 <= k < |s.sched| ==>
           !Closes(s.sched[k]) && s.sched[k] != Gone && s.sent[k] == 0 && None !in s.ready[k]
    case Some(c) =>
      && s.count == 0 && c < |s.sched| && Closes(s.sched[c])
      && (forall k :: 0 <= k < |s.sched| && k != c ==> !Closes(s.sched[k]))
      && (forall i :: 0 <= i < |s.sched| ==>
            s.sent[i] == SentBy(s.sched[c], i) && multiset(s.ready[i])[None] + One(s.sched[i] == Gone) == s.sent[i])
  }

  ghost predicate Inv(s: State)
  {
    Placed(s) && s.count == |Live(s)| && Closing(s)
  }

  /** A task of s keeps being alive; a new one is alive. */
  lemma LiveStays(s: State, n: State, t: Task, u: Task)
    requires Others(s, n, t, u) && t in n.task && u in n.task && t in s.task && u in s.task
    requires n.task[t].status == Reaped <==> s.task[t].status == Reaped
    requires n.task[u].status == Reaped <==> s.task[u].status == Reaped
    ensures Live(n) == Live(s)
  {
  }

  lemma KeepsTally(s: State, a: Act, n: State)
    requires Inv(s) && Step(s, a, n)
    ensures n.count == |Live(n)|
  {
    hide WaitOk, HandOk, OnCpu, Once, Live, Closing;
    match a
    case Resume(k) =>
      if s.ready[k][0].Some? {
        LiveStays(s, n, s.ready[k][0].value, s.ready[k][0].value);
      } else {
        LiveFrame(s, n);
      }
    case Complete(q) => LiveStays(s, n, s.wait[q][0], s.wait[q][0]);
    case Spawn(t, child, _) => LiveBorn(s, n, t, child);
    case CountOff(k) => ReapOf(s, k); LiveEnds(s, n, s.sched[k].t);
    case Recheck(_) => LiveFrame(s, n);
    case Stop(_) => LiveFrame(s, n);
    case _ => TaskKeepsTally(s, a, n);
  }

  lemma LiveFrame(s: State, n: State)
    requires n.task == s.task
    ensures Live(n) == Live(s)
  {
  }

  lemma TaskKeepsTally(s: State, a: Act, n: State)
    requires Inv(s) && Step(s, a, n) && ByTask(a)
    ensures n.count == |Live(n)|
  {
    hide WaitOk, HandOk, OnCpu, Once, Live, Closing, ReadyOk, PlaceOk;
    if a.Take? {
      LiveStays(s, n, a.t, s.wait[a.q][0]);
    } else if a.MakeReady? {
      LiveStays(s, n, a.t, s.task[a.t].hand.value);
    } else {
      LiveStays(s, n, a.t, a.t);
    }
  }

  lemma LiveBorn(s: State, n: State, t: Task, child: Task)
    requires Others(s, n, t, child) && t in n.task && child in n.task && t in s.task && child !in s.task
    requires n.task[t].status == Reaped <==> s.task[t].status == Reaped
    requires n.task[child].status != Reaped
    ensures |Live(n)| == |Live(s)| + 1
  {
    assert Live(n) == Live(s) + {child};
  }

  lemma LiveEnds(s: State, n: State, t: Task)
    requires Others(s, n, t, t) && t in n.task && t in s.task && s.task[t].status != Reaped
             && n.task[t].status == Reaped
    ensures |Live(n)| == |Live(s)| - 1
  {
    assert Live(s) == Live(n) + {t};
  }

  /** Once no task is left only requests to stop are handled. */
  lemma Over(s: State, a: Act, n: State)
    requires Inv(s) && Step(s, a, n) && s.count == 0
    ensures (a.Resume? && a.k < |s.ready| && s.ready[a.k] != [] && s.ready[a.k][0] == None) || a.Recheck? || a.Stop?
  {
    hide Closing, Once;
    assert forall t :: t in s.task ==> s.task[t].status == Reaped by {
      NoneLive(s);
    }
  }

  lemma NoneLive(s: State)
    requires |Live(s)| == 0
    ensures forall t :: t in s.task ==> s.task[t].status == Reaped
  {
    forall t | t in s.task
      ensures s.task[t].status == Reaped
    {
      assert t !in Live(s);
    }
  }

  lemma KeepsClosing(s: State, a: Act, n: State)
    requires Inv(s) && Shape(n) && Step(s, a, n)
    ensures Closing(n)
  {
    hide WaitOk, HandOk, OnCpu, Once, Live, PlaceOk, ReadyOk;
    KeepsTally(s, a, n);
    if s.closer.None? {
      FirstCloses(s, a, n);
    } else {
      Over(s, a, n);
      CloserGoesOn(s, a, n);
    }
  }

  lemma FirstCloses(s: State, a: Act, n: State)
    requires Inv(s) && Shape(n) && Step(s, a, n) && s.closer.None? && n.count >= 0
    ensures Closing(n)
  {
    hide WaitOk, HandOk, OnCpu, Once, Live, PlaceOk, ReadyOk;
  }

  lemma CloserGoesOn(s: State, a: Act, n: State)
    requires Inv(s) && Shape(n) && Step(s, a, n) && s.closer.Some?
    requires (a.Resume? && a.k < |s.ready| && s.ready[a.k] != [] && s.ready[a.k][0] == None) || a.Recheck? || a.Stop?
    ensures Closing(n)
  {
    hide WaitOk, HandOk, OnCpu, Once, Live, PlaceOk, ReadyOk;
    if a.Resume? {
      Stopped(s, a, n);
    }
  }

  lemma Stopped(s: State, a: Act, n: State)
    requires Inv(s) && Shape(n) && Step(s, a, n) && s.closer.Some?
    requires a.Resume? && a.k < |s.ready| && s.ready[a.k] != [] && s.ready[a.k][0] == None
    ensures Closing(n)
  {
    hide WaitOk, HandOk, OnCpu, Once, Live, PlaceOk, ReadyOk;
    assert s.ready[a.k] == [None] + s.ready[a.k][1..];
  }

  // ---- Whole runs ----

  lemma Starting(s: State)
    requires Starts(s)
    ensures Inv(s)
  {
    var t: Task, k: nat :| k < |s.ready| && s.task == map[t := Info(k, Off, InReady, None)] && s.ready[k] == [Some(t)]
      && forall j :: 0 <= j < |s.ready| && j != k ==> s.ready[j] == [];
    assert Live(s) == {t};
  }

  lemma Keeps(s: State, a: Act, n: State)
    requires Inv(s) && Step(s, a, n)
    ensures Inv(n)
  {
    hide Step, Placed, Closing;
    PlacedShape(s);
    KeepsPlaced(s, a, n);
    PlacedShape(n);
    KeepsTally(s, a, n);
    KeepsClosing(s, a, n);
  }

  lemma PlacedShape(s: State)
    requires Placed(s)
    ensures Shape(s)
  {
  }

  /** Any interleaving of steps. */
  ghost predicate History(run: seq<State>, acts: seq<Act>)
  {
    && |run| == |acts| + 1 && Starts(run[0])
    && forall i :: 0 <= i < |acts| ==> Shape(run[i]) && Step(run[i], acts[i], run[i + 1])
  }

  lemma {:induction false} EveryRun(run: seq<State>, acts: seq<Act>, i: nat)
    requires History(run, acts) && i < |run|
    ensures Inv(run[i])
  {
    hide Step, Inv, Starts, Shape;
    if i == 0 {
      Starting(run[0]);
    } else {
      EveryRun(run, acts, i - 1);
      Keeps(run[i - 1], acts[i - 1], run[i]);
    }
  }

  // ---- What follows ----

  /** A task stands at index i of the ready queue, or of the wait queue, with number q. */
  ghost predicate Stands(s: State, t: Task, inReady: bool, q: nat, i: nat)
  {
    if inReady then q < |s.ready| && i < |s.ready[q]| && s.ready[q][i] == Some(t)
    else q < |s.wait| && i < |s.wait[q]| && s.wait[q][i] == t
  }

  /** A task is in at most one queue, at most once, also when it was woken before it had yielded. */
  lemma AtMostOnce(s: State, t: Task, r: bool, q: nat, i: nat, r2: bool, q2: nat, i2: nat)
    requires Placed(s) && Stands(s, t, r, q, i) && Stands(s, t, r2, q2, i2)
    ensures r == r2 && q == q2 && i == i2
  {
    hide OnCpu, HandOk, Once;
    if r == r2 && q == q2 && i != i2 {
      if r {
        Twice(s.ready[q], i, i2);
      } else {
        Twice(s.wait[q], i, i2);
      }
    }
  }

  lemma Twice<T>(q: seq<T>, i: nat, j: nat)
    requires i < |q| && j < |q| && i != j && q[i] == q[j]
    ensures !Once(q, q[i])
  {
    var a, b := if i < j then i else j, if i < j then j else i;
    assert q == q[..a] + [q[a]] + q[a + 1..b] + [q[b]] + q[b + 1..];
  }

  /** A scheduler resumes a task only if it is the task's own scheduler and the task has been switched out. */
  lemma ResumesItsOwn(s: State, k: nat, n: State)
    requires Placed(s) && Step(s, Resume(k), n) && n.sched[k].Run?
    ensures var t := n.sched[k].t; t in s.task && s.task[t].home == k && s.task[t].status == Off
  {
    hide HandOk, WaitOk, Once;
  }

  /** A task that yielded without being in a queue never runs again. */
  lemma {:induction false} NeverAgain(run: seq<State>, acts: seq<Act>, i: nat, j: nat, t: Task)
    requires History(run, acts) && i <= j < |run| && t in run[i].task
    requires run[i].task[t].status == Off && run[i].task[t].place == Nowhere
    ensures t in run[j].task && run[j].task[t] == run[i].task[t]
  {
    hide Step, Inv, Starts, Shape;
    if i < j {
      NeverAgain(run, acts, i, j - 1, t);
      EveryRun(run, acts, j - 1);
      NotTouched(run[j - 1], acts[j - 1], run[j], t);
    }
  }

  lemma NotTouched(s: State, a: Act, n: State, t: Task)
    requires Inv(s) && Step(s, a, n) && t in s.task && s.task[t].status == Off && s.task[t].place == Nowhere
    ensures t in n.task && n.task[t] == s.task[t]
  {
    hide Closing, Once, Live;
  }

  /** Once the count of tasks is zero no task is left, none is in a queue, and the count stays zero. */
  lemma {:induction false} ZeroForever(run: seq<State>, acts: seq<Act>, i: nat, j: nat)
    requires History(run, acts) && i <= j < |run| && run[i].count == 0
    ensures run[j].count == 0 && run[j].closer == run[i].closer && run[j].task == run[i].task
    ensures forall t :: t in run[j].task ==> run[j].task[t].status == Reaped && run[j].task[t].place == Nowhere
  {
    hide Step, Inv, Starts, Shape;
    EveryRun(run, acts, i);
    if i == j {
      NoTaskLeft(run[i]);
    } else {
      ZeroForever(run, acts, i, j - 1);
      EveryRun(run, acts, j - 1);
      ZeroStays(run[j - 1], acts[j - 1], run[j]);
    }
  }

  lemma NoTaskLeft(s: State)
    requires Inv(s) && s.count == 0
    ensures forall t :: t in s.task ==> s.task[t].status == Reaped && s.task[t].place == Nowhere
  {
    NoneLive(s);
  }

  lemma ZeroStays(s: State, a: Act, n: State)
    requires Inv(s) && Step(s, a, n) && s.count == 0
    ensures n.count == 0 && n.closer == s.closer && n.task == s.task
  {
    hide Closing, Once, Live, OnCpu, ReadyOk, WaitOk, HandOk, PlaceOk;
    Over(s, a, n);
  }

  /** When the scheduler that closes down is done, every queue has been given exactly one request to stop, and whatever
      is left in a queue is that request. */
  lemma OneStopEach(s: State, c: nat, i: nat)
    requires Inv(s) && c < |s.sched| && s.sched[c] == Done && i < |s.ready|
    ensures s.closer == Some(c) && s.sent[i] == 1 && s.count == 0
    ensures s.ready[i] == if s.sched[i] == Gone then [] else [None]
  {
    hide OnCpu, WaitOk, HandOk, Once;
    NoTaskLeft(s);
    OnlyStops(s.ready[i]);
  }

  lemma {:induction false} OnlyStops(q: seq<Option<Task>>)
    requires forall x :: x in q ==> x == None
    ensures multiset(q)[None] == |q|
  {
    if q != [] {
      assert q[0] in q && forall x :: x in q[1..] ==> x in q;
      OnlyStops(q[1..]);
      assert q == [q[0]] + q[1..];
    }
  }
}
