// The wait group as a system of steps: one atomic access, one operation of its lock or one queue operation each.
module WaitGroup {
  import opened Options

  type Task = nat

  /** Where a task is.  A: Add or Done after the counter has come to zero; W: Wait.  At WPark a task has yielded and
      goes on once it has been made ready. */
  datatype PC =
    | Idle
    | ALock | APop | APush(w: Task) | AFree
    | WLoad | WLock | WCheck | WZero | WPush | WPushed | WPark

  /** deltas is everything added so far; a program whose counter becomes negative has been aborted. */
  datatype State = State(count: int, lock: Option<Task>, waiters: seq<Task>, pc: map<Task, PC>, deltas: seq<int>,
      aborted: bool)

  function Goto(s: State, t: Task, p: PC): State
  {
    s.(pc := s.pc[t := p])
  }

  /** The counter is changed; whoever brings it down to zero has to wake the waiters. */
  function Added(s: State, t: Task, delta: int): State
  {
    var count := s.count + delta;
    var n := s.(count := count, deltas := s.deltas + [delta], aborted := count < 0);
    if count == 0 && delta < 0 then Goto(n, t, ALock) else n
  }

  /** One step of task t. */
  ghost predicate Step(s: State, t: Task, n: State)
    requires t in s.pc
  {
    && !s.aborted
    && match s.pc[t]
       case Idle => n == Goto(s, t, WLoad) || exists delta :: n == Added(s, t, delta)
       case ALock => s.lock == None && n == Goto(s, t, APop).(lock := Some(t))
       case APop =>
         if s.waiters == [] then n == Goto(s, t, AFree)
         else n == Goto(s, t, APush(s.waiters[0])).(waiters := s.waiters[1..])
       case APush(w) => n == s.(pc := s.pc[w := WLoad][t := APop])
       case AFree => n == Goto(s, t, Idle).(lock := None)
       case WLoad => n == Goto(s, t, if s.count == 0 then Idle else WLock)
       case WLock => s.lock == None && n == Goto(s, t, WCheck).(lock := Some(t))
       case WCheck => n == Goto(s, t, if s.count == 0 then WZero else WPush)
       case WZero => n == Goto(s, t, Idle).(lock := None)
       case WPush => n == Goto(s, t, WPushed).(waiters := s.waiters + [t])
       case WPushed => n == Goto(s, t, WPark).(lock := None)
       case WPark => false
  }

  ghost predicate Starts(s: State)
  {
    && s.count == 0 && s.lock == None && s.waiters == [] && s.deltas == [] && !s.aborted
    && forall t :: t in s.pc ==> s.pc[t] == Idle
  }

  // ---- What every step keeps ----

  predicate Inside(p: PC)
  {
    p.APop? || p.APush? || p.AFree? || p.WCheck? || p.WZero? || p.WPush? || p.WPushed?
  }

  /** The task has brought the counter to zero and has not yet found the queue empty. */
  predicate Draining(p: PC)
  {
    p.ALock? || p.APop? || p.APush?
  }

  function Sum(a: seq<int>): int
  {
    if a == [] then 0 else Sum(a[..|a| - 1]) + a[|a| - 1]
  }

  ghost predicate Locked(s: State)
  {
    forall t :: t in s.pc ==> (Inside(s.pc[t]) <==> s.lock == Some(t))
  }

  ghost predicate NoDup(q: seq<Task>)
  {
    forall i, j :: 0 <= i < j < |q| ==> q[i] != q[j]
  }

  /** A task in the queue waits; nothing is queued twice. */
  ghost predicate Listed(s: State)
  {
    NoDup(s.waiters) && forall t :: t in s.waiters ==> t in s.pc && (s.pc[t].WPushed? || s.pc[t].WPark?)
  }

  /** A task in hand waits, and is no longer in the queue. */
  ghost predicate Handed(s: State)
  {
    forall u :: u in s.pc && s.pc[u].APush? ==>
      s.pc[u].w in s.pc && s.pc[s.pc[u].w].WPark? && s.pc[u].w !in s.waiters
  }

  ghost predicate Carried(s: State, t: Task)
  {
    exists u :: u in s.pc && s.pc[u] == APush(t)
  }

  /** A task that waits is in the queue or about to be made ready. */
  ghost predicate Kept(s: State)
  {
    forall t :: t in s.pc && (s.pc[t].WPushed? || s.pc[t].WPark?) ==> t in s.waiters || Carried(s, t)
  }

  /** A task that has queued itself, or is about to, has a drainer coming for it if the counter is zero. */
  ghost predicate NoLostWakeup(s: State)
  {
    !s.aborted && s.count == 0 && (s.waiters != [] || exists t :: t in s.pc && s.pc[t] == WPush) ==>
      exists d :: d in s.pc && Draining(s.pc[d])
  }

  /** The drainer leaves an empty queue. */
  ghost predicate Drained(s: State)
  {
    forall t :: t in s.pc && s.pc[t] == AFree ==> s.waiters == []
  }

  ghost predicate Counted(s: State)
  {
    s.count == Sum(s.deltas) && (s.aborted <==> s.count < 0)
  }

  ghost predicate Inv(s: State)
  {
    Counted(s) && Locked(s) && Listed(s) && Handed(s) && Kept(s) && Drained(s) && NoLostWakeup(s)
  }

  lemma KeepsCounted(s: State, t: Task, n: State)
    requires t in s.pc && Inv(s) && Step(s, t, n)
    ensures Counted(n)
  {
    hide Locked, Listed, Handed, Kept, Drained, NoLostWakeup;
    if s.pc[t] == Idle && n.deltas != s.deltas {
      var delta :| n == Added(s, t, delta);
      assert n.deltas[..|n.deltas| - 1] == s.deltas;
    }
  }

  lemma KeepsLocked(s: State, t: Task, n: State)
    requires t in s.pc && Inv(s) && Step(s, t, n)
    ensures Locked(n) && Drained(n)
  {
    hide Kept, NoLostWakeup, Counted;
  }

  lemma NoDupAfter(q: seq<Task>, t: Task)
    requires NoDup(q)
    ensures t !in q ==> NoDup(q + [t])
    ensures q != [] ==> NoDup(q[1..]) && q[0] !in q[1..] && forall x :: x in q[1..] ==> x in q
  {
  }

  lemma KeepsListed(s: State, t: Task, n: State)
    requires t in s.pc && Inv(s) && Step(s, t, n)
    ensures Listed(n)
  {
    hide Kept, NoLostWakeup, Counted, Drained, Locked, NoDup;
    NoDupAfter(s.waiters, t);
  }

  lemma KeepsHanded(s: State, t: Task, n: State)
    requires t in s.pc && Inv(s) && Step(s, t, n)
    ensures Handed(n)
  {
    hide Kept, NoLostWakeup, Counted, Drained, NoDup;
    NoDupAfter(s.waiters, t);
  }

  lemma KeepsKept(s: State, t: Task, n: State)
    requires t in s.pc && Inv(s) && Step(s, t, n)
    ensures Kept(n)
  {
    hide NoLostWakeup, Counted, Drained;
    forall x | x in n.pc && (n.pc[x].WPushed? || n.pc[x].WPark?)
      ensures x in n.waiters || Carried(n, x)
    {
      if x in s.pc && Carried(s, x) {
        var u :| u in s.pc && s.pc[u] == APush(x);
        assert u != t ==> n.pc[u] == APush(x);
      }
      if x in s.waiters && x !in n.waiters {
        assert n.pc[t] == APush(x);
      }
    }
  }

  lemma KeepsWakeup(s: State, t: Task, n: State)
    requires t in s.pc && Inv(s) && Step(s, t, n)
    ensures NoLostWakeup(n)
  {
    hide Kept;
    if !n.aborted && n.count == 0 && (n.waiters != [] || exists u :: u in n.pc && n.pc[u] == WPush) {
      if s.count != 0 {
        assert Draining(n.pc[t]);
      } else {
        if u :| u in n.pc && n.pc[u] == WPush {
          assert u in s.pc && s.pc[u] == WPush;
        }
        assert s.waiters != [] || exists u :: u in s.pc && s.pc[u] == WPush;
        var d :| d in s.pc && Draining(s.pc[d]);
        assert d != t ==> n.pc[d] == s.pc[d];
        assert d == t ==> Draining(n.pc[t]);
      }
    }
  }

  // ---- Whole runs ----

  lemma Keeps(s: State, t: Task, n: State)
    requires t in s.pc && Inv(s) && Step(s, t, n)
    ensures Inv(n)
  {
    hide Step, Counted, Locked, Listed, Handed, Kept, Drained, NoLostWakeup;
    KeepsCounted(s, t, n);
    KeepsLocked(s, t, n);
    KeepsListed(s, t, n);
    KeepsHanded(s, t, n);
    KeepsKept(s, t, n);
    KeepsWakeup(s, t, n);
  }

  /** Any interleaving of the steps of any tasks. */
  ghost predicate Run(run: seq<State>, who: seq<Task>)
  {
    && |run| == |who| + 1 && Starts(run[0])
    && forall i :: 0 <= i < |who| ==> who[i] in run[i].pc && Step(run[i], who[i], run[i + 1])
  }

  /** In every run: the counter is the sum of all deltas, a task that waits is queued or about to be made ready, and a
      queue that is not empty while the counter is zero has a task that will empty it. */
  lemma {:induction false} EveryRun(run: seq<State>, who: seq<Task>, i: nat)
    requires Run(run, who) && i < |run|
    ensures Inv(run[i])
  {
    hide Step, Inv;
    if i == 0 {
      assert Inv(run[0]) by {
        Starting(run[0]);
      }
    } else {
      EveryRun(run, who, i - 1);
      Keeps(run[i - 1], who[i - 1], run[i]);
    }
  }

  lemma Starting(s: State)
    requires Starts(s)
    ensures Inv(s)
  {
  }

  /** The task is inside Wait. */
  predicate Waiting(p: PC)
  {
    p.WLoad? || p.WLock? || p.WCheck? || p.WZero? || p.WPush? || p.WPushed? || p.WPark?
  }

  /** Since index i, where the counter was zero, task t has been inside Wait. */
  ghost predicate SawZero(run: seq<State>, i: nat, j: nat, t: Task)
  {
    i <= j < |run| && run[i].count == 0 && forall k :: i <= k <= j ==> t in run[k].pc && Waiting(run[k].pc[t])
  }

  /** Wait returns only after the counter has been zero during the call. */
  lemma {:induction false} ReturnsAfterZero(run: seq<State>, who: seq<Task>, j: nat) returns (i: nat)
    requires Run(run, who) && j < |who| && Waiting(run[j].pc[who[j]]) && !Waiting(run[j + 1].pc[who[j]])
    ensures SawZero(run, i, j, who[j])
  {
    i := j;
    if run[j].pc[who[j]] == WZero {
      i := ZeroBefore(run, who, j, who[j]);
    }
  }

  lemma {:induction false} ZeroBefore(run: seq<State>, who: seq<Task>, j: nat, t: Task) returns (i: nat)
    requires Run(run, who) && 0 < j < |run| && t in run[j].pc && run[j].pc[t] == WZero
    ensures SawZero(run, i, j, t)
  {
    hide Step, Inv;
    EveryRun(run, who, j - 1);
    BecomesZero(run[j - 1], who[j - 1], run[j], t);
    if run[j - 1].pc[t] == WZero {
      i := ZeroBefore(run, who, j - 1, t);
    } else {
      i := j - 1;
    }
  }

  lemma BecomesZero(s: State, u: Task, n: State, t: Task)
    requires u in s.pc && Inv(s) && Step(s, u, n) && t in n.pc && n.pc[t] == WZero
    ensures t in s.pc && (s.pc[t] == WZero || (s.pc[t] == WCheck && s.count == 0))
  {
    hide Kept, NoLostWakeup, Counted, Drained, Locked;
  }

  // ---- What can happen ----

  ghost predicate CanStep(s: State, t: Task)
    requires t in s.pc
  {
    exists n :: Step(s, t, n)
  }

  /** Unless the program was aborted, a task has a step exactly if it is not parked and does not wait for a lock that is
      taken. */
  lemma StepsIff(s: State, t: Task)
    requires t in s.pc
    ensures CanStep(s, t) <==>
              !s.aborted && s.pc[t] != WPark && (s.pc[t] == ALock || s.pc[t] == WLock ==> s.lock == None)
  {
    if !s.aborted {
      match s.pc[t]
      case Idle => assert Step(s, t, Goto(s, t, WLoad));
      case ALock => assert s.lock == None ==> Step(s, t, Goto(s, t, APop).(lock := Some(t)));
      case APop =>
        assert if s.waiters == [] then Step(s, t, Goto(s, t, AFree))
               else Step(s, t, Goto(s, t, APush(s.waiters[0])).(waiters := s.waiters[1..]));
      case APush(w) => assert Step(s, t, s.(pc := s.pc[w := WLoad][t := APop]));
      case AFree => assert Step(s, t, Goto(s, t, Idle).(lock := None));
      case WLoad => assert Step(s, t, Goto(s, t, if s.count == 0 then Idle else WLock));
      case WLock => assert s.lock == None ==> Step(s, t, Goto(s, t, WCheck).(lock := Some(t)));
      case WCheck => assert Step(s, t, Goto(s, t, if s.count == 0 then WZero else WPush));
      case WZero => assert Step(s, t, Goto(s, t, Idle).(lock := None));
      case WPush => assert Step(s, t, Goto(s, t, WPushed).(waiters := s.waiters + [t]));
      case WPushed => assert Step(s, t, Goto(s, t, WPark).(lock := None));
      case WPark =>
    }
  }

  /** Whoever has the lock has a step. */
  lemma HolderSteps(s: State, h: Task)
    requires Inv(s) && s.lock == Some(h) && h in s.pc && !s.aborted
    ensures CanStep(s, h)
  {
    hide CanStep, Listed, Handed, Kept, NoLostWakeup, Drained, Counted;
    StepsIff(s, h);
  }

  /** Wait returns when it finds the counter at zero, at its first look or under the lock, and only then. */
  lemma WaitReturnsIff(s: State, t: Task, n: State)
    requires t in s.pc && (s.pc[t] == WLoad || s.pc[t] == WCheck) && Step(s, t, n)
    ensures s.pc[t] == WLoad ==> (n.pc[t] == Idle <==> s.count == 0)
    ensures s.pc[t] == WCheck ==> (n.pc[t] == WZero <==> s.count == 0)
    ensures s.pc[t] == WCheck && s.count == 0 ==> Step(n, t, Goto(s, t, Idle).(lock := None))
    ensures s.count != 0 ==> n.pc[t] == WLock || n.pc[t] == WPush
  {
    assert Goto(Goto(s, t, WZero), t, Idle) == Goto(s, t, Idle);
  }

  /** A task that is in no call may add any number, and goes on to wake the waiters exactly if it brings the counter
      down to zero. */
  lemma AddsAny(s: State, t: Task, delta: int)
    requires t in s.pc && s.pc[t] == Idle && !s.aborted
    ensures exists n :: Step(s, t, n) && n.count == s.count + delta && n.aborted == (s.count + delta < 0)
                        && (n.pc[t] == ALock <==> s.count + delta == 0 && delta < 0)
  {
    assert Step(s, t, Added(s, t, delta));
  }

  /** The drainer makes the task ready that has waited longest, and looks again. */
  lemma WakesFirst(s: State, t: Task, a: State, b: State)
    requires t in s.pc && s.pc[t] == APop && s.waiters != [] && s.waiters[0] != t
    requires Step(s, t, a) && t in a.pc && Step(a, t, b)
    ensures var w := s.waiters[0]; w in b.pc && b.pc[w] == WLoad && b.waiters == s.waiters[1..] && b.pc[t] == APop
  {
  }
}
