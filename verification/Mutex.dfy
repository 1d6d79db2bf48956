// The plain mutex as a system of steps: one atomic access, one operation of the internal lock or one queue operation
// each.  Any task may take the next step.
module Mutex {
  import opened Options

  type Task = nat

  /** Where a task is.  S: the slow path of lock, after the exchange of the fast path has failed; U: unlock.  At Park it
      has yielded and goes on once it has been made ready. */
  datatype PC =
    | Idle
    | Fast | SLock | SLoad | SStore | SGot | SPush | SPushed | Park | Held
    | ULock | UStore | UPop | UPush(w: Task) | UFree(woken: Option<Task>)

  /** `woken` is the task that was made ready last; nothing depends on it. */
  datatype State = State(state: int, lock: Option<Task>, waiters: seq<Task>, woken: Option<Task>, pc: map<Task, PC>)

  function Goto(s: State, t: Task, p: PC): State
  {
    s.(pc := s.pc[t := p])
  }

  /** One step of task t. */
  ghost predicate Step(s: State, t: Task, n: State)
    requires t in s.pc
  {
    match s.pc[t]
    case Idle => n == Goto(s, t, Fast)
    case Fast => n == if s.state == 0 then Goto(s, t, Held).(state := 1) else Goto(s, t, SLock)
    case SLock => s.lock == None && n == Goto(s, t, SLoad).(lock := Some(t))
    case SLoad => n == Goto(s, t, if s.state == 0 then SStore else SPush)
    case SStore => n == Goto(s, t, SGot).(state := 1)
    case SGot => n == Goto(s, t, Held).(lock := None)
    case SPush => n == Goto(s, t, SPushed).(waiters := s.waiters + [t])
    case SPushed => n == Goto(s, t, Park).(lock := None)
    case Park => false
    case Held => n == Goto(s, t, ULock)
    case ULock => s.lock == None && n == Goto(s, t, UStore).(lock := Some(t))
    case UStore => n == Goto(s, t, UPop).(state := 0)
    case UPop =>
      if s.waiters == [] then n == Goto(s, t, UFree(None))
      else n == Goto(s, t, UPush(s.waiters[0])).(waiters := s.waiters[1..])
    case UPush(w) => n == s.(pc := s.pc[w := SLock][t := UFree(Some(w))], woken := Some(w))
    case UFree(_) => n == Goto(s, t, Idle).(lock := None)
  }

  ghost predicate Starts(s: State)
  {
    && s.state == 0 && s.lock == None && s.waiters == [] && s.woken == None
    && forall t :: t in s.pc ==> s.pc[t] == Idle
  }

  /** The task holds the internal lock. */
  predicate Inside(p: PC)
  {
    p.SLoad? || p.SStore? || p.SGot? || p.SPush? || p.SPushed? || p.UStore? || p.UPop? || p.UPush? || p.UFree?
  }

  /** The task has taken the mutex and not given it back. */
  predicate Holds(p: PC)
  {
    p.SGot? || p.Held? || p.ULock? || p.UStore?
  }

  /** At most one task holds the mutex. */
  ghost predicate Exclusive(s: State)
  {
    forall t, u :: t in s.pc && u in s.pc && Holds(s.pc[t]) && Holds(s.pc[u]) ==> t == u
  }

  // ---- What every step keeps ----

  ghost predicate Locked(s: State)
  {
    forall t :: t in s.pc ==> (Inside(s.pc[t]) <==> s.lock == Some(t))
  }

  ghost predicate NoDup(q: seq<Task>)
  {
    forall i, j :: 0 <= i < j < |q| ==> q[i] != q[j]
  }

  ghost predicate Queued(s: State)
  {
    NoDup(s.waiters) && forall t :: t in s.waiters ==> t in s.pc && (s.pc[t].SPushed? || s.pc[t].Park?)
  }

  /** A task in hand has been taken from the queue. */
  ghost predicate Hands(s: State)
  {
    forall u :: u in s.pc && s.pc[u].UPush? ==>
      var w := s.pc[u].w; w in s.pc && s.pc[w] == Park && w !in s.waiters
  }

  /** A task that waits is queued or in hand. */
  ghost predicate Kept(s: State)
  {
    forall t :: t in s.pc && (s.pc[t].SPushed? || s.pc[t].Park?) ==>
      t in s.waiters || exists u :: u in s.pc && s.pc[u] == UPush(t)
  }

  /** A task queues itself only while the mutex is held. */
  ghost predicate Queueing(s: State)
  {
    forall t :: t in s.pc && (s.pc[t].SPush? || s.pc[t].SPushed?) ==> s.state != 0
  }

  /** A task on its way: it will look at the state word. */
  predicate Coming(p: PC)
  {
    p.SLock? || p.SLoad? || p.SStore?
  }

  ghost predicate WokenComes(s: State)
  {
    s.woken.Some? && s.woken.value in s.pc && Coming(s.pc[s.woken.value])
  }

  /** An unlock that is about to end has found the queue empty, or the task that it woke is on its way or the mutex is
      held again. */
  ghost predicate Progress(s: State)
  {
    forall t :: t in s.pc && s.pc[t].UFree? ==>
      if s.pc[t].woken == None then s.waiters == []
      else s.woken == s.pc[t].woken && (s.state != 0 || WokenComes(s))
  }

  predicate Unlocking(p: PC)
  {
    p.UPop? || p.UPush? || p.UFree?
  }

  /** No task stays queued while the mutex is free, unless an unlock is in progress or the task that was made ready
      last is on its way. */
  ghost predicate NoLostWakeup(s: State)
  {
    s.state == 0 && s.waiters != [] ==> (exists t :: t in s.pc && Unlocking(s.pc[t])) || WokenComes(s)
  }

  ghost predicate Inv(s: State)
  {
    Locked(s) && Queued(s) && Hands(s) && Kept(s) && Queueing(s) && Progress(s) && NoLostWakeup(s)
  }

  /** A step moves its own task, and the one that it makes ready. */
  lemma PcAfter(s: State, t: Task, n: State)
    requires t in s.pc && Step(s, t, n)
    ensures t in n.pc
    ensures if s.pc[t].UPush?
            then n == s.(pc := s.pc[s.pc[t].w := SLock][t := UFree(Some(s.pc[t].w))], woken := Some(s.pc[t].w))
            else n.pc == s.pc[t := n.pc[t]] && n.woken == s.woken
  {
  }

  lemma LockAfter(s: State, t: Task, n: State)
    requires t in s.pc && Step(s, t, n)
    ensures t in n.pc
    ensures Inside(s.pc[t]) == Inside(n.pc[t]) ==> n.lock == s.lock
    ensures Inside(s.pc[t]) && !Inside(n.pc[t]) ==> n.lock == None
    ensures !Inside(s.pc[t]) && Inside(n.pc[t]) ==> s.lock == None && n.lock == Some(t)
  {
  }

  lemma KeepsLocked(s: State, t: Task, n: State)
    requires t in s.pc && Inv(s) && Step(s, t, n)
    ensures Locked(n)
  {
    hide Step, Queued, Kept;
    PcAfter(s, t, n);
    LockAfter(s, t, n);
  }

  lemma QueueAfter(s: State, t: Task, n: State)
    requires t in s.pc && Step(s, t, n)
    ensures t in n.pc
    ensures n.waiters == if s.pc[t].SPush? then s.waiters + [t]
                         else if s.pc[t].UPop? && s.waiters != [] then s.waiters[1..] else s.waiters
    ensures n.pc[t].UPush? <==> s.pc[t].UPop? && s.waiters != []
    ensures n.pc[t].UPush? ==> n.pc[t].w == s.waiters[0]
    ensures (n.pc[t].SPushed? || n.pc[t].Park?) <==> (s.pc[t].SPush? || s.pc[t].SPushed?)
    ensures n.pc[t].SPushed? <==> s.pc[t].SPush?
    ensures s.pc[t] != Park
  {
  }

  lemma NoDupAfter(q: seq<Task>, t: Task)
    requires NoDup(q)
    ensures t !in q ==> NoDup(q + [t])
    ensures q != [] ==> q[0] in q && NoDup(q[1..]) && q[0] !in q[1..] && forall x :: x in q[1..] <==>
            x in q && x != q[0]
  {
    if q != [] {
      assert q == [q[0]] + q[1..];
    }
  }

  lemma KeepsQueue(s: State, t: Task, n: State)
    requires t in s.pc && Inv(s) && Step(s, t, n)
    ensures Queued(n) && Hands(n)
  {
    hide Step, Kept, NoDup;
    PcAfter(s, t, n);
    QueueAfter(s, t, n);
    NoDupAfter(s.waiters, t);
    assert s.pc[t].UPop? ==> s.lock == Some(t);
  }

  lemma KeepsKept(s: State, t: Task, n: State)
    requires t in s.pc && Inv(s) && Step(s, t, n)
    ensures Kept(n)
  {
    hide Step, NoDup;
    PcAfter(s, t, n);
    QueueAfter(s, t, n);
    NoDupAfter(s.waiters, t);
    forall x | x in n.pc && (n.pc[x].SPushed? || n.pc[x].Park?)
      ensures x in n.waiters || exists u :: u in n.pc && n.pc[u] == UPush(x)
    {
      if x != t && x !in s.waiters {
        var u :| u in s.pc && s.pc[u] == UPush(x);
        assert n.pc[u] == if u == t then UFree(Some(x)) else UPush(x);
      } else if x !in n.waiters && x in s.waiters {
        assert n.pc[t] == UPush(x);
      }
    }
  }

  /** Only a task inside the internal lock makes the mutex free or changes the queue. */
  lemma StateAfter(s: State, t: Task, n: State)
    requires t in s.pc && Step(s, t, n)
    ensures t in n.pc
    ensures n.state == 0 && s.state != 0 ==> s.pc[t] == UStore && n.pc[t] == UPop
    ensures !Inside(s.pc[t]) ==> n.waiters == s.waiters
    ensures n.pc[t].SPush? || n.pc[t].SPushed? ==>
              s.pc[t].SPush? || (s.pc[t].SLoad? && s.state != 0 && n.state == s.state)
    ensures s.pc[t].SPush? ==> n.state == s.state
    ensures Coming(s.pc[t]) ==> Coming(n.pc[t]) || n.state != 0
    ensures Unlocking(s.pc[t]) ==> Unlocking(n.pc[t]) || s.pc[t].UFree?
    ensures n.pc[t].UFree? ==> if n.pc[t].woken == None then s.pc[t].UPop? && s.waiters == [] else s.pc[t].UPush?
  {
  }

  lemma KeepsQueueing(s: State, t: Task, n: State)
    requires t in s.pc && Inv(s) && Step(s, t, n)
    ensures Queueing(n)
  {
    hide Step, NoDup, Queued, Kept, Progress, NoLostWakeup;
    PcAfter(s, t, n);
    StateAfter(s, t, n);
  }

  /** The task that was made ready last stays on its way until the mutex is held, or another one is made ready. */
  lemma WokenStays(s: State, t: Task, n: State)
    requires t in s.pc && Hands(s) && Step(s, t, n) && WokenComes(s)
    ensures WokenComes(n) || n.state != 0
  {
    hide Step;
    PcAfter(s, t, n);
    StateAfter(s, t, n);
  }

  lemma KeepsProgress(s: State, t: Task, n: State)
    requires t in s.pc && Inv(s) && Step(s, t, n)
    ensures Progress(n)
  {
    hide Step, NoDup, Queued, Kept, Queueing, NoLostWakeup;
    PcAfter(s, t, n);
    StateAfter(s, t, n);
    QueueAfter(s, t, n);
    if WokenComes(s) {
      WokenStays(s, t, n);
    }
  }

  lemma KeepsWakeup(s: State, t: Task, n: State)
    requires t in s.pc && Inv(s) && Step(s, t, n)
    ensures NoLostWakeup(n)
  {
    hide Step, NoDup, Queued, Kept;
    PcAfter(s, t, n);
    StateAfter(s, t, n);
    QueueAfter(s, t, n);
    if WokenComes(s) {
      WokenStays(s, t, n);
    }
    if u :| u in s.pc && Unlocking(s.pc[u]) {
      assert u != t ==> u in n.pc && n.pc[u] == s.pc[u];
    }
  }

  lemma Keeps(s: State, t: Task, n: State)
    requires t in s.pc && Inv(s) && Step(s, t, n)
    ensures Inv(n)
  {
    hide Step, Locked, Queued, Hands, Kept, Queueing, Progress, NoLostWakeup;
    KeepsQueueing(s, t, n);
    KeepsProgress(s, t, n);
    KeepsWakeup(s, t, n);
    KeepsLocked(s, t, n);
    KeepsQueue(s, t, n);
    KeepsKept(s, t, n);
  }

  ghost predicate Run(run: seq<State>, who: seq<Task>)
  {
    && |run| == |who| + 1 && Starts(run[0])
    && forall i :: 0 <= i < |who| ==> who[i] in run[i].pc && Step(run[i], who[i], run[i + 1])
  }

  /** In every run a task that waits is queued or about to be made ready, and queued tasks are attended to. */
  lemma {:induction false} EveryRun(run: seq<State>, who: seq<Task>, i: nat)
    requires Run(run, who) && i < |run|
    ensures Inv(run[i])
  {
    hide Step, Inv;
    if i == 0 {
      assert Inv(run[0]) by { Starting(run[0]); }
    } else {
      EveryRun(run, who, i - 1);
      Keeps(run[i - 1], who[i - 1], run[i]);
    }
  }

  lemma Starting(s: State)
    requires Starts(s)
    ensures Inv(s) && Owned(s) && Untaken(s)
  {
  }

  // ---- Mutual exclusion ----

  /** The state word says whether the mutex is held, by one task. */
  ghost predicate Owned(s: State)
  {
    Exclusive(s) && (s.state == 0 <==> forall t :: t in s.pc ==> !Holds(s.pc[t]))
  }

  /** What a slow path has seen free is still free. */
  ghost predicate Untaken(s: State)
  {
    forall u :: u in s.pc && s.pc[u] == SStore ==> s.state == 0
  }

  /** The exchange of t's fast path succeeds while a slow path is between its load and its store. */
  ghost predicate Barges(s: State, t: Task)
  {
    t in s.pc && s.pc[t] == Fast && s.state == 0 && exists u :: u in s.pc && s.pc[u] == SStore
  }

  /** What a step does to the state word and to who holds the mutex. */
  lemma HoldAfter(s: State, t: Task, n: State)
    requires t in s.pc && Step(s, t, n)
    ensures t in n.pc
    ensures Holds(n.pc[t]) == Holds(s.pc[t]) ==> n.state == s.state
    ensures Holds(n.pc[t]) && !Holds(s.pc[t]) ==>
              n.state == 1 && ((s.pc[t] == Fast && s.state == 0) || s.pc[t] == SStore)
    ensures !Holds(n.pc[t]) && Holds(s.pc[t]) ==> n.state == 0 && s.pc[t] == UStore
    ensures n.pc[t] == SStore ==> n.state == 0
  {
  }

  lemma KeepsOwned(s: State, t: Task, n: State)
    requires t in s.pc && Inv(s) && Step(s, t, n) && Owned(s) && Untaken(s) && !Barges(s, t)
    ensures Owned(n) && Untaken(n)
  {
    hide Step, Queued, Kept;
    PcAfter(s, t, n);
    HoldAfter(s, t, n);
    OthersHold(s, t, n);
    if Holds(n.pc[t]) && !Holds(s.pc[t]) {
      assert s.state == 0;
    }
  }

  /** A step does not change whether another task holds the mutex, or is about to store. */
  lemma OthersHold(s: State, t: Task, n: State)
    requires t in s.pc && Hands(s) && Step(s, t, n)
    ensures forall u :: u in s.pc && u != t ==> u in n.pc && Holds(n.pc[u]) == Holds(s.pc[u])
    ensures forall u :: u in n.pc && u != t ==> u in s.pc && (n.pc[u] == SStore <==> s.pc[u] == SStore)
  {
    hide Step;
    PcAfter(s, t, n);
  }

  lemma {:induction false} NoBargeRun(run: seq<State>, who: seq<Task>, i: nat)
    requires Run(run, who) && i < |run| && forall k :: 0 <= k < i ==> !Barges(run[k], who[k])
    ensures Owned(run[i]) && Untaken(run[i])
  {
    hide Step, Inv, Owned, Untaken, Barges;
    if i == 0 {
      Starting(run[0]);
    } else {
      NoBargeRun(run, who, i - 1);
      EveryRun(run, who, i - 1);
      KeepsOwned(run[i - 1], who[i - 1], run[i]);
    }
  }

  /** After a barge both tasks go on: t holds the mutex until u, which has the internal lock, has stored. */
  ghost predicate Doomed(s: State, t: Task, u: Task)
  {
    t != u && t in s.pc && u in s.pc && Holds(s.pc[t]) && (s.pc[u] == SStore || Holds(s.pc[u]))
  }

  lemma DoomedStep(s: State, x: Task, n: State, t: Task, u: Task)
    requires x in s.pc && Inv(s) && Step(s, x, n) && Doomed(s, t, u) && s.pc[u] == SStore
    ensures Doomed(n, t, u)
  {
    hide Queued, Kept;
    PcAfter(s, x, n);
    OthersHold(s, x, n);
    assert s.lock == Some(u);
  }

  lemma BargeDooms(s: State, t: Task, n: State) returns (u: Task)
    requires Inv(s) && Barges(s, t) && Step(s, t, n)
    ensures Doomed(n, t, u)
  {
    u :| u in s.pc && s.pc[u] == SStore;
  }

  lemma {:induction false} DoomedRun(run: seq<State>, who: seq<Task>, k: nat, i: nat, t: Task, u: Task) returns (j: nat)
    requires Run(run, who) && k <= i < |run| && Doomed(run[k], t, u)
    ensures k <= j <= i && Doomed(run[j], t, u) && (run[j].pc[u] == SStore ==> j == i)
    decreases i
  {
    hide Step, Inv, Doomed;
    j := k;
    if k < i {
      j := DoomedRun(run, who, k, i - 1, t, u);
      assert t in run[j].pc && u in run[j].pc by { DoomedIn(run[j], t, u); }
      if run[j].pc[u] == SStore {
        EveryRun(run, who, i - 1);
        DoomedStep(run[i - 1], who[i - 1], run[i], t, u);
        j := i;
      }
    }
  }

  lemma DoomedIn(s: State, t: Task, u: Task)
    requires Doomed(s, t, u)
    ensures t in s.pc && u in s.pc
    ensures s.pc[u] != SStore ==> !Exclusive(s)
  {
  }

  /** Mutual exclusion holds throughout a run in which every slow path has got past its store if and only if no fast
      path takes the mutex while a slow path is between its load and its store. */
  lemma ExclusiveIff(run: seq<State>, who: seq<Task>)
    requires Run(run, who) && forall u :: u in run[|who|].pc ==> run[|who|].pc[u] != SStore
    ensures (forall i :: 0 <= i < |run| ==> Exclusive(run[i])) <==> forall k :: 0 <= k < |who| ==>
            !Barges(run[k], who[k])
  {
    hide Step, Inv, Doomed, Exclusive, Barges, Starts;
    if k :| 0 <= k < |who| && Barges(run[k], who[k]) {
      EveryRun(run, who, k);
      var u := BargeDooms(run[k], who[k], run[k + 1]);
      var j := DoomedRun(run, who, k + 1, |who|, who[k], u);
      DoomedIn(run[j], who[k], u);
      assert !Exclusive(run[j]);
    } else {
      forall i | 0 <= i < |run|
        ensures Exclusive(run[i])
      {
        NoBargeRun(run, who, i);
      }
    }
  }

  // ---- It happens ----

  predicate Last(run: seq<State>, s: State)
  {
    run != [] && run[|run| - 1] == s
  }

  /** A run with one more step. */
  lemma Then(run: seq<State>, who: seq<Task>, s: State, t: Task, n: State) returns (r: seq<State>, w: seq<Task>)
    requires Run(run, who) && Last(run, s) && t in s.pc && Step(s, t, n)
    ensures Run(r, w) && Last(r, n)
  {
    hide Step;
    r, w := run + [n], who + [t];
    forall i | 0 <= i < |w|
      ensures w[i] in r[i].pc && Step(r[i], w[i], r[i + 1])
    {
      assert i < |who| ==> w[i] == who[i] && r[i] == run[i] && r[i + 1] == run[i + 1];
    }
  }

  lemma Alone(s: State) returns (run: seq<State>, who: seq<Task>)
    requires Starts(s)
    ensures Run(run, who) && Last(run, s)
  {
    run, who := [s], [];
  }

  /** Task 0 locks, and task 1 fails on the fast path. */
  lemma FailsFast() returns (run: seq<State>, who: seq<Task>, s: State)
    ensures Run(run, who) && Last(run, s) && s == State(1, None, [], None, s.pc) && s.pc == map[0 := Held, 1 := SLock]
  {
    hide Run;
    s := State(0, None, [], None, map[0 := Idle, 1 := Idle]);
    run, who := Alone(s);
    run, who, s := TakeStep(run, who, s, 0, Goto(s, 0, Fast));
    run, who, s := TakeStep(run, who, s, 0, Goto(s, 0, Held).(state := 1));
    run, who, s := TakeStep(run, who, s, 1, Goto(s, 1, Fast));
    run, who, s := TakeStep(run, who, s, 1, Goto(s, 1, SLock));
  }

  /** Task 0 unlocks. */
  lemma SlowPath() returns (run: seq<State>, who: seq<Task>, s: State)
    ensures Run(run, who) && Last(run, s) && s == State(0, None, [], None, s.pc) && s.pc == map[0 := Idle, 1 := SLock]
  {
    hide Run;
    run, who, s := FailsFast();
    run, who, s := TakeStep(run, who, s, 0, Goto(s, 0, ULock));
    run, who, s := TakeStep(run, who, s, 0, Goto(s, 0, UStore).(lock := Some(0)));
    run, who, s := TakeStep(run, who, s, 0, Goto(s, 0, UPop).(state := 0));
    run, who, s := TakeStep(run, who, s, 0, Goto(s, 0, UFree(None)));
    run, who, s := TakeStep(run, who, s, 0, Goto(s, 0, Idle).(lock := None));
  }

  lemma TakeStep(run: seq<State>, who: seq<Task>, s: State, t: Task, n: State)
      returns (r: seq<State>, w: seq<Task>, last: State)
    requires Run(run, who) && Last(run, s) && t in s.pc && Step(s, t, n)
    ensures Run(r, w) && Last(r, n) && last == n
  {
    hide Run, Step;
    r, w := Then(run, who, s, t, n);
    last := n;
  }

  /** Then task 1 sees the mutex free, task 0 takes it on the fast path, and both hold it. */
  lemma BothCanHold() returns (run: seq<State>, who: seq<Task>, s: State)
    ensures Run(run, who) && Last(run, s) && s.pc == map[0 := Held, 1 := Held] && !Exclusive(s)
  {
    hide Run;
    run, who, s := SlowPath();
    run, who, s := TakeStep(run, who, s, 1, Goto(s, 1, SLoad).(lock := Some(1)));
    run, who, s := TakeStep(run, who, s, 1, Goto(s, 1, SStore));
    run, who, s := TakeStep(run, who, s, 0, Goto(s, 0, Fast));
    run, who, s := TakeStep(run, who, s, 0, Goto(s, 0, Held).(state := 1));
    run, who, s := TakeStep(run, who, s, 1, Goto(s, 1, SGot).(state := 1));
    run, who, s := TakeStep(run, who, s, 1, Goto(s, 1, Held).(lock := None));
    assert Holds(s.pc[0]) && Holds(s.pc[1]);
  }

  // ---- What can happen ----

  ghost predicate CanStep(s: State, t: Task)
    requires t in s.pc
  {
    exists n :: Step(s, t, n)
  }

  /** A task has a step exactly if it is not parked and does not wait for an internal lock that is taken. */
  lemma StepsIff(s: State, t: Task)
    requires t in s.pc
    ensures CanStep(s, t) <==> s.pc[t] != Park && (s.pc[t] == SLock || s.pc[t] == ULock ==> s.lock == None)
  {
    match s.pc[t]
    case Idle => assert Step(s, t, Goto(s, t, Fast));
    case Fast => assert Step(s, t, if s.state == 0 then Goto(s, t, Held).(state := 1) else Goto(s, t, SLock));
    case SLock => assert s.lock == None ==> Step(s, t, Goto(s, t, SLoad).(lock := Some(t)));
    case SLoad => assert Step(s, t, Goto(s, t, if s.state == 0 then SStore else SPush));
    case SStore => assert Step(s, t, Goto(s, t, SGot).(state := 1));
    case SGot => assert Step(s, t, Goto(s, t, Held).(lock := None));
    case SPush => assert Step(s, t, Goto(s, t, SPushed).(waiters := s.waiters + [t]));
    case SPushed => assert Step(s, t, Goto(s, t, Park).(lock := None));
    case Park =>
    case Held => assert Step(s, t, Goto(s, t, ULock));
    case ULock => assert s.lock == None ==> Step(s, t, Goto(s, t, UStore).(lock := Some(t)));
    case UStore => assert Step(s, t, Goto(s, t, UPop).(state := 0));
    case UPop =>
      assert if s.waiters == [] then Step(s, t, Goto(s, t, UFree(None)))
             else Step(s, t, Goto(s, t, UPush(s.waiters[0])).(waiters := s.waiters[1..]));
    case UPush(w) => assert Step(s, t, s.(pc := s.pc[w := SLock][t := UFree(Some(w))], woken := Some(w)));
    case UFree(_) => assert Step(s, t, Goto(s, t, Idle).(lock := None));
  }

  /** Whoever has the internal lock has a step. */
  lemma HolderSteps(s: State, h: Task)
    requires Inv(s) && s.lock == Some(h) && h in s.pc
    ensures CanStep(s, h)
  {
    hide CanStep, Queued, Hands, Kept, Queueing, Progress, NoLostWakeup;
    StepsIff(s, h);
  }

  /** The fast path takes the mutex exactly if it is free, and the slow path exactly if its look finds it free. */
  lemma TakesIff(s: State, t: Task, n: State)
    requires t in s.pc && (s.pc[t] == Fast || s.pc[t] == SLoad) && Step(s, t, n)
    ensures s.pc[t] == Fast ==> (Holds(n.pc[t]) <==> s.state == 0) && (s.state != 0 ==> n.pc[t] == SLock)
    ensures s.pc[t] == SLoad ==>
              (s.state == 0 <==> n.pc[t] == SStore) && (s.state != 0 <==> n.pc[t] == SPush)
  {
  }

  /** An unlock that finds waiters makes the one ready that has waited longest; it looks at the mutex again. */
  lemma WakesFirst(s: State, t: Task, a: State, b: State)
    requires t in s.pc && s.pc[t] == UPop && s.waiters != [] && s.waiters[0] != t
    requires Step(s, t, a) && t in a.pc && Step(a, t, b)
    ensures var w := s.waiters[0]; w in b.pc && b.pc[w] == SLock && b.waiters == s.waiters[1..] && b.woken == Some(w)
  {
  }
}
