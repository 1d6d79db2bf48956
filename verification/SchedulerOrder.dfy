// The order in which tasks are resumed, and what schedulers and tasks can do.
module SchedulerOrder {
  import opened Options
  import opened Scheduler

  type Entry = Option<Task>

  // ---- First in, first out ----

  /** What a step puts into ready queue k. */
  function Queues(s: State, a: Act, k: nat): seq<Entry>
  {
    match a
    case Preempt(t) => if t in s.task && s.task[t].home == k then [Some(t)] else []
    case MakeReady(t) =>
      if t in s.task && s.task[t].hand.Some? && s.task[t].hand.value in s.task && s.task[s.task[t].hand.value].home == k
      then [s.task[t].hand] else []
    case Complete(q) =>
      if q < |s.wait| && s.wait[q] != [] && s.wait[q][0] in s.task && s.task[s.wait[q][0]].home == k
      then [Some(s.wait[q][0])] else []
    case Stop(j) => if j < |s.sched| && s.sched[j] == Send(k) && k < |s.ready| then [None] else []
    case _ => []
  }

  /** What scheduler k starts to work on in a step: a task that it runs, or the request to stop. */
  function Begins(s: State, a: Act, n: State, k: nat): seq<Entry>
  {
    if a == Resume(k) && k < |n.sched| then (if n.sched[k].Run? then [Some(n.sched[k].t)] else [None]) else []
  }

  lemma OneStep(s: State, a: Act, n: State, k: nat)
    requires Inv(s) && Shape(s) && Step(s, a, n) && k < |s.ready| && |n.ready| == |s.ready|
    ensures Begins(s, a, n, k) + n.ready[k] == s.ready[k] + Queues(s, a, k)
  {
    hide Inv, OnCpu, ReadyOk, WaitOk, HandOk, PlaceOk, Closing;
    if a == Resume(k) {
      assert s.ready[k] == [s.ready[k][0]] + s.ready[k][1..];
    }
  }

  ghost function Queued(run: seq<State>, acts: seq<Act>, k: nat, j: nat): seq<Entry>
    requires j <= |acts| < |run|
  {
    if j == 0 then [] else Queued(run, acts, k, j - 1) + Queues(run[j - 1], acts[j - 1], k)
  }

  ghost function Started(run: seq<State>, acts: seq<Act>, k: nat, j: nat): seq<Entry>
    requires j <= |acts| < |run|
  {
    if j == 0 then [] else Started(run, acts, k, j - 1) + Begins(run[j - 1], acts[j - 1], run[j], k)
  }

  lemma SameQueues(s: State, a: Act, n: State)
    requires Inv(s) && Shape(s) && Step(s, a, n)
    ensures |n.ready| == |s.ready|
  {
    hide Inv, OnCpu, ReadyOk, WaitOk, HandOk, PlaceOk, Closing;
  }

  /** In every run, what a scheduler has started on, followed by its ready queue, is what was there at the beginning
      followed by what was put into the queue, in the same order: tasks are resumed in the order in which they became
      ready. */
  lemma {:induction false} FirstInFirstOut(run: seq<State>, acts: seq<Act>, k: nat, j: nat)
    requires History(run, acts) && j <= |acts| && k < |run[0].ready|
    ensures k < |run[j].ready| && |run[j].ready| == |run[0].ready|
    ensures run[0].ready[k] + Queued(run, acts, k, j) == Started(run, acts, k, j) + run[j].ready[k]
  {
    hide Inv, Step, Starts, Shape, Begins, Queues;
    if j == 0 {
      assert run[0].ready[k] + [] == [] + run[0].ready[k];
    } else {
      FirstInFirstOut(run, acts, k, j - 1);
      EveryRun(run, acts, j - 1);
      SameQueues(run[j - 1], acts[j - 1], run[j]);
      OneStep(run[j - 1], acts[j - 1], run[j], k);
      Splice(run[0].ready[k], Queued(run, acts, k, j - 1), Started(run, acts, k, j - 1), run[j - 1].ready[k],
             Queues(run[j - 1], acts[j - 1], k), Begins(run[j - 1], acts[j - 1], run[j], k), run[j].ready[k]);
    }
  }

  lemma Splice(first: seq<Entry>, inn: seq<Entry>, out: seq<Entry>, q: seq<Entry>, more: seq<Entry>, taken: seq<Entry>,
               q2: seq<Entry>)
    requires first + inn == out + q && taken + q2 == q + more
    ensures first + (inn + more) == (out + taken) + q2
  {
    assert first + (inn + more) == (first + inn) + more;
    assert (out + q) + more == out + (q + more);
    assert out + (taken + q2) == (out + taken) + q2;
  }

  // ---- What can happen ----

  ghost predicate Possible(s: State, a: Act)
    requires Shape(s)
  {
    exists n :: Step(s, a, n)
  }

  /** The scheduler whose turn an act is: its own, or that of the task that acts. */
  ghost predicate ActOf(s: State, a: Act, k: nat)
  {
    match a
    case Resume(j) => j == k
    case CountOff(j) => j == k
    case Recheck(j) => j == k
    case Stop(j) => j == k
    case Yield(t) => t in s.task && s.task[t].home == k
    case Finish(t) => t in s.task && s.task[t].home == k
    case MakeReady(t) => t in s.task && s.task[t].home == k
    case _ => false
  }

  /** A scheduler has nothing to do: it is waiting at an empty queue, has told all others to stop, or has been told. */
  predicate Rests(s: State, k: nat)
    requires k < |s.sched| == |s.ready|
  {
    s.sched[k] == Done || s.sched[k] == Gone || (s.sched[k] == Pick && s.ready[k] == [])
  }

  /** A scheduler that has something to do can do it: it, or the task on it, has a step. */
  lemma NeverStuck(s: State, k: nat) returns (a: Act)
    requires Inv(s) && Shape(s) && k < |s.sched| && !Rests(s, k)
    ensures ActOf(s, a, k) && Possible(s, a)
  {
    hide Inv, Closing, WaitOk, Step, Possible;
    match s.sched[k]
    case Pick =>
      a := Resume(k);
      ResumePossible(s, k);
    case Run(t) =>
      assert t in s.task && s.task[t].home == k by { RunsTask(s, k); }
      if s.task[t].status == Leaving {
        a := Yield(t);
        YieldPossible(s, t);
      } else if s.task[t].hand.Some? {
        a := MakeReady(t);
        RunsTask(s, k);
        ReadyPossible(s, t);
      } else {
        a := Finish(t);
        RunsTask(s, k);
        FreeMay(s, t);
      }
    case Reap(t) =>
      a := CountOff(k);
      CountPossible(s, k);
    case Check =>
      a := Recheck(k);
      RecheckPossible(s, k);
    case Send(_) =>
      a := Stop(k);
      StopPossible(s, k);
    case _ =>
      a := Stop(k);
  }

  lemma RunsTask(s: State, k: nat)
    requires Inv(s) && Shape(s) && k < |s.sched| && s.sched[k].Run?
    ensures var t := s.sched[k].t;
            t in s.task && s.task[t].home == k && (s.task[t].status == Running || s.task[t].status == Leaving)
  {
    hide Closing, ReadyOk, WaitOk, HandOk, PlaceOk;
  }

  lemma ResumePossible(s: State, k: nat)
    requires Inv(s) && Shape(s) && k < |s.sched| && s.sched[k] == Pick && s.ready[k] != []
    ensures Possible(s, Resume(k))
  {
    hide Closing, WaitOk, HandOk, PlaceOk, OnCpu, Once;
    match s.ready[k][0]
    case None => assert Step(s, Resume(k), SetSched(PopReady(s, k), k, Gone));
    case Some(t) =>
      assert t in s.task;
      var i := s.task[t].(status := Running, place := Nowhere);
      assert Step(s, Resume(k), Set(SetSched(PopReady(s, k), k, Run(t)), t, i));
  }

  lemma YieldPossible(s: State, t: Task)
    requires Shape(s) && t in s.task && s.task[t].status == Leaving
    ensures Possible(s, Yield(t))
  {
    assert Step(s, Yield(t), SetSched(Set(s, t, s.task[t].(status := Off)), s.task[t].home, Pick));
  }

  /** A task that has another one in hand can make it ready. */
  lemma ReadyPossible(s: State, t: Task)
    requires Inv(s) && Shape(s) && t in s.task && s.task[t].status == Running && s.task[t].hand.Some?
    ensures Possible(s, MakeReady(t))
  {
    hide Closing, WaitOk, ReadyOk, OnCpu;
    var u := s.task[t].hand.value;
    assert u in s.task && u != t;
    var a := Set(Set(s, u, s.task[u].(place := InReady)), t, s.task[t].(hand := None));
    assert Step(s, MakeReady(t), PushReady(a, s.task[u].home, Some(u)));
  }

  lemma CountPossible(s: State, k: nat)
    requires Inv(s) && Shape(s) && k < |s.sched| && s.sched[k].Reap?
    ensures Possible(s, CountOff(k))
  {
    hide Closing, WaitOk, ReadyOk, HandOk, PlaceOk;
    var t, count := s.sched[k].t, s.count - 1;
    var a := SetSched(Set(s, t, s.task[t].(status := Reaped)), k, if count == 0 then Check else Pick);
    assert Step(s, CountOff(k), a.(count := count, closer := if count == 0 then Some(k) else s.closer));
  }

  lemma RecheckPossible(s: State, k: nat)
    requires Shape(s) && k < |s.sched| && s.sched[k] == Check
    ensures Possible(s, Recheck(k))
  {
    assert Step(s, Recheck(k), SetSched(s, k, if s.count == 0 then Send(0) else Pick));
  }

  lemma StopPossible(s: State, k: nat)
    requires Shape(s) && k < |s.sched| && s.sched[k].Send?
    ensures Possible(s, Stop(k))
  {
    var i := s.sched[k].next;
    if i < |s.ready| {
      assert Step(s, Stop(k), SetSched(PushReady(s, i, None), k, Send(i + 1)).(sent := s.sent[i := s.sent[i] + 1]));
    } else {
      assert Step(s, Stop(k), SetSched(s, k, Done));
    }
  }

  /** A task that runs with empty hands may finish, yield with or without queueing itself, wait in any queue, and create
      tasks on any scheduler. */
  lemma FreeMay(s: State, t: Task)
    requires Shape(s) && Free(s, t)
    ensures Possible(s, Finish(t)) && Possible(s, Preempt(t)) && Possible(s, YieldUnqueued(t))
    ensures forall q: nat :: q < |s.wait| ==> Possible(s, Enqueue(t, q))
    ensures forall child, k: nat :: child !in s.task && k < |s.sched| ==> Possible(s, Spawn(t, child, k))
  {
    var i := s.task[t];
    assert Step(s, Finish(t), SetSched(Set(s, t, i.(status := Finished)), i.home, Reap(t)));
    assert Step(s, Preempt(t), PushReady(Set(s, t, i.(status := Leaving, place := InReady)), i.home, Some(t)));
    assert Step(s, YieldUnqueued(t), SetSched(Set(s, t, i.(status := Off)), i.home, Pick));
    forall q: nat | q < |s.wait| ensures Possible(s, Enqueue(t, q)) {
      var a := Set(s, t, i.(status := Leaving, place := InWait(q)));
      assert Step(s, Enqueue(t, q), a.(wait := s.wait[q := s.wait[q] + [t]]));
    }
    forall child, k: nat | child !in s.task && k < |s.sched| ensures Possible(s, Spawn(t, child, k)) {
      var a := Set(Set(s, child, Info(k, Off, InHand(t), None)), t, i.(hand := Some(child)));
      assert Step(s, Spawn(t, child, k), a.(count := s.count + 1));
    }
  }

  /** A task that waits first in a queue can be taken by any task with empty hands, or be made ready by what it waits
      for. */
  lemma WaiterMay(s: State, t: Task, q: nat)
    requires Inv(s) && Shape(s) && q < |s.wait| && s.wait[q] != []
    ensures Possible(s, Complete(q)) && (Free(s, t) ==> Possible(s, Take(t, q)))
  {
    hide Closing, ReadyOk, OnCpu, HandOk, Once;
    var u := s.wait[q][0];
    assert u in s.task && s.task[u].place == InWait(q);
    var a := PushReady(Set(s, u, s.task[u].(place := InReady)), s.task[u].home, Some(u));
    assert Step(s, Complete(q), a.(wait := s.wait[q := s.wait[q][1..]]));
    if Free(s, t) {
      var b := Set(Set(s, u, s.task[u].(place := InHand(t))), t, s.task[t].(hand := Some(u)));
      assert Step(s, Take(t, q), b.(wait := s.wait[q := s.wait[q][1..]]));
    }
  }

  /** A new task belongs to the scheduler that it was created for, and is made ready there by its creator. */
  lemma SpawnsOn(s: State, t: Task, child: Task, k: nat, a: State, b: State)
    requires Shape(s) && Shape(a) && Step(s, Spawn(t, child, k), a) && Step(a, MakeReady(t), b)
    ensures k < |b.ready| && child in b.task && b.task[child].home == k && b.ready[k] == s.ready[k] + [Some(child)]
    ensures a.count == s.count + 1 && b.task[t].hand == None
  {
  }
}
