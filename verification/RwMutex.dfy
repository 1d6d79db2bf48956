// The reader-writer mutex as a system of steps: one atomic access, one operation of the internal lock or one queue
// operation each.  Any task may take the next step, and a compare-and-swap may fail for no reason.
module RwMutex {
  import opened Options

  type Task = nat

  const WRITER_BIT := 1
  const READER_INC := 2

  /** Where a task is.  R: read lock; U: read unlock; W: write lock; X: write unlock.  At RPark and WPark it has yielded
      and goes on once it has been made ready; at WYield it has yielded without being in any queue. */
  datatype PC =
    | Idle
    | RLoad | RCas(seen: int) | RLock | RCheck | RPush | RPushed | RRetry | RPark | RHeld
    | ULock | UPop | UPush(w: Task) | UFree
    | WLoad | WCas(seen: int) | WLock | WCheck | WPush | WPushed | WRetry | WPark | WDrain | WYield | WHeld
    | XLock | XStore | XPop | XPush(w: Task) | XReaders | XReader(r: Task) | XFree(woken: Option<Task>)

  /** `woken` is the writer that was made ready last; nothing depends on it. */
  datatype State = State(state: int, lock: Option<Task>, readers: seq<Task>, writers: seq<Task>, woken: Option<Task>,
                         pc: map<Task, PC>)

  predicate Bit(state: int)
  {
    state % 2 == 1
  }

  function Goto(s: State, t: Task, p: PC): State
  {
    s.(pc := s.pc[t := p])
  }

  function Acquire(s: State, t: Task, p: PC): State
  {
    Goto(s, t, p).(lock := Some(t))
  }

  function Free(s: State, t: Task, p: PC): State
  {
    Goto(s, t, p).(lock := None)
  }

  /** Task t goes on; w, which it has taken from a queue, starts again. */
  function Wake(s: State, t: Task, p: PC, w: Task, again: PC): State
  {
    s.(pc := s.pc[w := again][t := p])
  }

  function Pop(q: seq<Task>): seq<Task>
    requires q != []
  {
    q[1..]
  }

  /** One step of task t. */
  ghost predicate Step(s: State, t: Task, n: State)
    requires t in s.pc
  {
    match s.pc[t]
    case Idle => n == Goto(s, t, RLoad) || n == Goto(s, t, WLoad)

    case RLoad => n == Goto(s, t, if Bit(s.state) then RLock else RCas(s.state))
    case RCas(seen) =>
      || n == Goto(s, t, RLoad)
      || (s.state == seen && n == Goto(s, t, RHeld).(state := seen + READER_INC))
    case RLock => s.lock == None && n == Acquire(s, t, RCheck)
    case RCheck => n == Goto(s, t, if Bit(s.state) then RPush else RRetry)
    case RPush => n == Goto(s, t, RPushed).(readers := s.readers + [t])
    case RPushed => n == Free(s, t, RPark)
    case RRetry => n == Free(s, t, RLoad)
    case RPark => false
    case RHeld =>
      n == Goto(s, t, if s.state - READER_INC == WRITER_BIT then ULock else Idle).(state := s.state - READER_INC)

    case ULock => s.lock == None && n == Acquire(s, t, UPop)
    case UPop =>
      if s.writers == [] then n == Goto(s, t, UFree)
      else n == Goto(s, t, UPush(s.writers[0])).(writers := Pop(s.writers))
    case UPush(w) => n == Wake(s, t, UFree, w, WLoad).(woken := Some(w))
    case UFree => n == Free(s, t, Idle)

    case WLoad => n == Goto(s, t, if Bit(s.state) then WLock else WCas(s.state))
    case WCas(seen) =>
      || n == Goto(s, t, WLoad)
      || (s.state == seen && n == Goto(s, t, WDrain).(state := seen + WRITER_BIT))
    case WLock => s.lock == None && n == Acquire(s, t, WCheck)
    case WCheck => n == Goto(s, t, if Bit(s.state) then WPush else WRetry)
    case WPush => n == Goto(s, t, WPushed).(writers := s.writers + [t])
    case WPushed => n == Free(s, t, WPark)
    case WRetry => n == Free(s, t, WLoad)
    case WPark => false
    case WDrain => n == Goto(s, t, if s.state == WRITER_BIT then WHeld else WYield)
    case WYield => false
    case WHeld => n == Goto(s, t, XLock)

    case XLock => s.lock == None && n == Acquire(s, t, XStore)
    case XStore => n == Goto(s, t, XPop).(state := 0)
    case XPop =>
      if s.writers == [] then n == Goto(s, t, XReaders)
      else n == Goto(s, t, XPush(s.writers[0])).(writers := Pop(s.writers))
    case XPush(w) => n == Wake(s, t, XFree(Some(w)), w, WLoad).(woken := Some(w))
    case XReaders =>
      if s.readers == [] then n == Goto(s, t, XFree(None))
      else n == Goto(s, t, XReader(s.readers[0])).(readers := Pop(s.readers))
    case XReader(r) => n == Wake(s, t, XReaders, r, RLoad)
    case XFree(_) => n == Free(s, t, Idle)
  }

  ghost predicate Starts(s: State)
  {
    && s.state == 0 && s.lock == None && s.readers == [] && s.writers == [] && s.woken == None
    && forall t :: t in s.pc ==> s.pc[t] == Idle
  }

  // ---- Classes of places ----

  /** The task holds the internal lock. */
  predicate Inside(p: PC)
  {
    p.RCheck? || p.RPush? || p.RPushed? || p.RRetry? || p.UPop? || p.UPush? || p.UFree? || p.WCheck? || p.WPush?
        || p.WPushed?
    || p.WRetry? || p.XStore? || p.XPop? || p.XPush? || p.XReaders? || p.XReader? || p.XFree?
  }

  /** The task has set the writer bit and not cleared it. */
  predicate Owns(p: PC)
  {
    p.WDrain? || p.WYield? || p.WHeld? || p.XLock? || p.XStore?
  }

  /** The task has returned from the write lock. */
  predicate Writing(p: PC)
  {
    p.WHeld? || p.XLock? || p.XStore?
  }

  /** The task has cleared the writer bit and not finished its unlock. */
  predicate Unlocking(p: PC)
  {
    p.XPop? || p.XPush? || p.XReaders? || p.XReader? || p.XFree?
  }

  /** A writer on its way: it is neither queued nor has it set the bit. */
  predicate Coming(p: PC)
  {
    p.WLoad? || p.WCas? || p.WLock? || p.WCheck? || p.WRetry?
  }

  /** The task that p has in hand, taken from a queue and not yet made ready. */
  predicate Carries(p: PC, t: Task)
  {
    (p.UPush? && p.w == t) || (p.XPush? && p.w == t) || (p.XReader? && p.r == t)
  }

  ghost function Readers(s: State): set<Task>
  {
    set t | t in s.pc && s.pc[t] == RHeld
  }

  ghost function Owners(s: State): set<Task>
  {
    set t | t in s.pc && Owns(s.pc[t])
  }

  // ---- What every step keeps ----

  /** The state counts the readers and the writer. */
  ghost predicate Counted(s: State)
  {
    |Owners(s)| <= 1 && s.state == READER_INC * |Readers(s)| + WRITER_BIT * |Owners(s)|
  }

  /** Nobody reads while a writer that has returned from lock has not unlocked. */
  ghost predicate Exclusive(s: State)
  {
    (exists t :: t in s.pc && Writing(s.pc[t])) ==> Readers(s) == {}
  }

  ghost predicate Locked(s: State)
  {
    forall t :: t in s.pc ==> (Inside(s.pc[t]) <==> s.lock == Some(t))
  }

  /** A compare-and-swap never starts from a state with the writer bit. */
  ghost predicate Expected(s: State)
  {
    forall t :: t in s.pc ==> (s.pc[t].RCas? ==> !Bit(s.pc[t].seen)) && (s.pc[t].WCas? ==> !Bit(s.pc[t].seen))
  }

  /** A task queues itself only while the bit is set. */
  ghost predicate Queueing(s: State)
  {
    forall t :: t in s.pc && (s.pc[t].RPush? || s.pc[t].RPushed? || s.pc[t].WPush? || s.pc[t].WPushed?) ==> Bit(s.state)
  }

  ghost predicate NoDup(q: seq<Task>)
  {
    forall i, j :: 0 <= i < j < |q| ==> q[i] != q[j]
  }

  /** A task in a queue waits there; nothing is queued twice. */
  ghost predicate Queues(s: State)
  {
    && NoDup(s.readers) && NoDup(s.writers)
    && (forall t :: t in s.readers ==> t in s.pc && (s.pc[t].RPushed? || s.pc[t].RPark?))
    && (forall t :: t in s.writers ==> t in s.pc && (s.pc[t].WPushed? || s.pc[t].WPark?))
  }

  /** A task in hand has been taken from a queue. */
  ghost predicate Hands(s: State)
  {
    forall u, t {:trigger Carries(s.pc[u], t)} :: u in s.pc && Carries(s.pc[u], t) ==>
      t in s.pc && t !in s.readers && t !in s.writers && (if s.pc[u].XReader? then s.pc[t].RPark? else s.pc[t].WPark?)
  }

  /** Task t is in somebody's hand. */
  ghost predicate Carried(s: State, t: Task)
  {
    exists u :: u in s.pc && Carries(s.pc[u], t)
  }

  /** A task that waits is in its queue or in somebody's hand. */
  ghost predicate Kept(s: State)
  {
    forall t :: t in s.pc ==>
      && (s.pc[t].RPushed? || s.pc[t].RPark? ==> t in s.readers || Carried(s, t))
      && (s.pc[t].WPushed? || s.pc[t].WPark? ==> t in s.writers || Carried(s, t))
  }

  /** How far an unlock has come: it has found no writer, or no reader either, or the writer it woke is on its way or
      the bit is set again. */
  ghost predicate Progress(s: State)
  {
    forall t :: t in s.pc ==>
      && (s.pc[t].XReaders? || s.pc[t].XReader? ==> s.writers == [])
      && (s.pc[t] == XFree(None) ==> s.writers == [] && s.readers == [])
      && (s.pc[t].XFree? && s.pc[t].woken.Some? ==>
            var w := s.pc[t].woken.value; s.woken == Some(w) && (Bit(s.state) || (w in s.pc && Coming(s.pc[w]))))
  }

  /** The writer that was made ready last is on its way. */
  ghost predicate WokenComes(s: State)
  {
    s.woken.Some? && s.woken.value in s.pc && Coming(s.pc[s.woken.value])
  }

  /** Somebody will see to the queues: an unlock is in progress, or the writer made ready last is on its way. */
  ghost predicate Attended(s: State)
  {
    (exists t :: t in s.pc && Unlocking(s.pc[t])) || WokenComes(s)
  }

  /** No task stays queued while no writer has the bit, unless an unlock is in progress or the writer that was made
      ready last is on its way. */
  ghost predicate NoLostWakeup(s: State)
  {
    !Bit(s.state) && (s.readers != [] || s.writers != []) ==> Attended(s)
  }

  ghost predicate Inv(s: State)
  {
    && Counted(s) && Exclusive(s) && Locked(s) && Expected(s) && Queueing(s) && Queues(s) && Hands(s) && Kept(s)
       && Progress(s)
    && NoLostWakeup(s)
  }

  // ---- Sets of tasks ----

  lemma Moved(s: State, n: State, t: Task)
    requires t in s.pc && n.pc.Keys == s.pc.Keys && forall u :: u in s.pc && u != t ==> n.pc[u] == s.pc[u]
    ensures Readers(n) == (if n.pc[t] == RHeld then Readers(s) + {t} else Readers(s) - {t})
    ensures Owners(n) == (if Owns(n.pc[t]) then Owners(s) + {t} else Owners(s) - {t})
  {
  }

  /** A task that is woken held nothing and holds nothing. */
  lemma Woken(s: State, n: State, t: Task, w: Task)
    requires t in s.pc && w in s.pc && n.pc.Keys == s.pc.Keys && forall u :: u in s.pc && u != t && u != w ==>
             n.pc[u] == s.pc[u]
    requires s.pc[w] != RHeld && n.pc[w] != RHeld && !Owns(s.pc[w]) && !Owns(n.pc[w])
    requires s.pc[t] != RHeld && n.pc[t] != RHeld && !Owns(s.pc[t]) && !Owns(n.pc[t])
    ensures Readers(n) == Readers(s) && Owners(n) == Owners(s)
  {
  }

  /** Task t makes a task ready that it has in hand. */
  predicate Waking(p: PC)
  {
    p.UPush? || p.XPush? || p.XReader?
  }

  function Hand(p: PC): Task
    requires Waking(p)
  {
    if p.XReader? then p.r else p.w
  }

  /** A step moves its own task, and at most one more: the one it wakes. */
  lemma PcAfter(s: State, t: Task, n: State)
    requires t in s.pc && Step(s, t, n)
    ensures if Waking(s.pc[t])
            then n == s.(pc := s.pc[Hand(s.pc[t]) := if s.pc[t].XReader? then RLoad else WLoad][t := n.pc[t]],
                         woken := if s.pc[t].XReader? then s.woken else Some(Hand(s.pc[t])))
                 && (if s.pc[t].UPush? then n.pc[t] == UFree
                     else if s.pc[t].XPush? then n.pc[t] == XFree(Some(Hand(s.pc[t])))
                     else n.pc[t] == XReaders)
            else t in n.pc && n.pc == s.pc[t := n.pc[t]] && n.woken == s.woken
  {
  }

  /** The sets of readers and owners after any step. */
  lemma SetsAfter(s: State, t: Task, n: State)
    requires t in s.pc && Hands(s) && Step(s, t, n)
    ensures n.pc.Keys == s.pc.Keys
    ensures Readers(n) == (if n.pc[t] == RHeld then Readers(s) + {t} else Readers(s) - {t})
    ensures Owners(n) == (if Owns(n.pc[t]) then Owners(s) + {t} else Owners(s) - {t})
  {
    hide Step;
    PcAfter(s, t, n);
    if Waking(s.pc[t]) {
      var w := Hand(s.pc[t]);
      assert Carries(s.pc[t], w);
      Woken(s, n, t, w);
    } else {
      Moved(s, n, t);
    }
  }

  /** Only four kinds of steps change who reads, who owns the bit or what the state says. */
  predicate Counts(p: PC)
  {
    p.RCas? || p.RHeld? || p.WCas? || p.WDrain? || p.WHeld? || p.XLock? || p.XStore?
  }

  lemma Uncounted(s: State, t: Task, n: State)
    requires t in s.pc && Hands(s) && Step(s, t, n) && !Counts(s.pc[t])
    ensures n.state == s.state && Readers(n) == Readers(s) && Owners(n) == Owners(s) && n.pc.Keys == s.pc.Keys
    ensures t in n.pc && n.pc[t] != RHeld && !Owns(n.pc[t])
  {
    SetsAfter(s, t, n);
    assert t !in Readers(s) && t !in Owners(s);
    QuietState(s, t, n);
  }

  lemma QuietState(s: State, t: Task, n: State)
    requires t in s.pc && Step(s, t, n) && !Counts(s.pc[t])
    ensures n.state == s.state && t in n.pc && n.pc[t] != RHeld && !Owns(n.pc[t])
  {
  }

  // ---- Each part is kept ----

  lemma KeepsCounted(s: State, t: Task, n: State)
    requires t in s.pc && Inv(s) && Step(s, t, n)
    ensures Counted(n)
  {
    hide Step, Kept, Progress, NoLostWakeup, Queues, Hands, Readers, Owners, Locked;
    if !Counts(s.pc[t]) {
      Uncounted(s, t, n);
    } else {
      CountedAfter(s, t, n);
    }
  }

  lemma CountedAfter(s: State, t: Task, n: State)
    requires t in s.pc && Inv(s) && Step(s, t, n) && Counts(s.pc[t])
    ensures Counted(n)
  {
    hide Kept, Progress, NoLostWakeup, Queues, Hands, Locked, Queueing, Readers, Owners, Counted, Exclusive, Bit;
    SetsAfter(s, t, n);
    InSets(s, t);
    if s.pc[t].WCas? {
      NoOwner(s);
    } else if s.pc[t].XStore? {
      StoreSees(s, t);
    }
    CountStep(s, t, n);
  }

  lemma InSets(s: State, t: Task)
    requires t in s.pc
    ensures t in Readers(s) <==> s.pc[t] == RHeld
    ensures t in Owners(s) <==> Owns(s.pc[t])
  {
  }

  /** Without the bit nobody owns it. */
  lemma NoOwner(s: State)
    requires Counted(s)
    ensures Bit(s.state) <==> Owners(s) != {}
  {
  }

  /** The unlocking writer finds the bit and nothing else. */
  lemma StoreSees(s: State, t: Task)
    requires t in s.pc && Writing(s.pc[t]) && Counted(s) && Exclusive(s)
    ensures s.state == WRITER_BIT
  {
    InSets(s, t);
    assert |Owners(s)| == 1 by {
      assert Owners(s) - {t} < Owners(s);
    }
  }

  lemma CountStep(s: State, t: Task, n: State)
    requires Counted(s) && (t in Owners(n) && t !in Owners(s) ==> Owners(s) == {})
    requires Readers(n) == Readers(s) + {t} || Readers(n) == Readers(s) - {t}
    requires Owners(n) == Owners(s) + {t} || Owners(n) == Owners(s) - {t}
    requires n.state - s.state == READER_INC * (One(t in Readers(n)) - One(t in Readers(s)))
                                + WRITER_BIT * (One(t in Owners(n)) - One(t in Owners(s)))
    ensures Counted(n)
  {
    hide Readers, Owners;
    SizeAfter(Readers(s), t, Readers(n));
    SizeAfter(Owners(s), t, Owners(n));
  }

  function One(b: bool): int
  {
    if b then 1 else 0
  }

  lemma SizeAfter(a: set<Task>, t: Task, b: set<Task>)
    requires b == a + {t} || b == a - {t}
    ensures |b| == |a| + One(t in b) - One(t in a)
  {
    if t in a {
      assert a == a - {t} + {t};
    } else {
      assert a - {t} == a;
    }
  }

  /** A step that begins to read starts from a state without the bit; one that begins to write sees no reader. */
  lemma BeginAfter(s: State, t: Task, n: State)
    requires t in s.pc && Step(s, t, n) && Expected(s)
    ensures t in n.pc
    ensures n.pc[t] == RHeld ==> s.pc[t].RCas? && !Bit(s.state)
    ensures Writing(n.pc[t]) ==> Writing(s.pc[t]) || s.state == WRITER_BIT
  {
  }

  lemma KeepsExclusive(s: State, t: Task, n: State)
    requires t in s.pc && Inv(s) && Step(s, t, n)
    ensures Exclusive(n)
  {
    hide Step, Kept, Progress, NoLostWakeup, Queues, Locked, Queueing, Readers, Owners, Counted, Bit;
    SetsAfter(s, t, n);
    PcAfter(s, t, n);
    BeginAfter(s, t, n);
    if u :| u in n.pc && Writing(n.pc[u]) {
      InSets(s, u);
      NoOwner(s);
      if s.state == WRITER_BIT {
        NoReaders(s);
      }
      assert u != t ==> u in s.pc && Writing(s.pc[u]);
    }
  }

  lemma NoReaders(s: State)
    requires Counted(s) && s.state == WRITER_BIT
    ensures Readers(s) == {}
  {
  }

  /** How a step changes the internal lock. */
  lemma LockAfter(s: State, t: Task, n: State)
    requires t in s.pc && Step(s, t, n)
    ensures t in n.pc
    ensures Inside(s.pc[t]) == Inside(n.pc[t]) ==> n.lock == s.lock
    ensures Inside(s.pc[t]) && !Inside(n.pc[t]) ==> n.lock == None
    ensures !Inside(s.pc[t]) && Inside(n.pc[t]) ==> s.lock == None && n.lock == Some(t)
  {
  }

  lemma KeepsLocked(s: State, t: Task, n: State)
    requires t in s.pc && Inv(s) && Step(s, t, n)
    ensures Locked(n)
  {
    hide Step, Kept, Progress, NoLostWakeup, Queues, Queueing, Counted, Exclusive, Expected, Bit;
    PcAfter(s, t, n);
    LockAfter(s, t, n);
    if Waking(s.pc[t]) {
      assert Carries(s.pc[t], Hand(s.pc[t]));
    }
  }

  lemma KeepsExpected(s: State, t: Task, n: State)
    requires t in s.pc && Inv(s) && Step(s, t, n)
    ensures Expected(n)
  {
    hide Kept, Progress, NoLostWakeup, Queues, Queueing, Counted, Exclusive, Hands, Locked, Bit;
    PcAfter(s, t, n);
  }

  /** The bit is cleared only by an unlocking writer, which is inside the internal lock. */
  lemma BitStays(s: State, t: Task, n: State)
    requires t in s.pc && Step(s, t, n) && Bit(s.state) && !s.pc[t].XStore? && Expected(s)
    ensures Bit(n.state)
  {
  }

  lemma KeepsQueueing(s: State, t: Task, n: State)
    requires t in s.pc && Inv(s) && Step(s, t, n)
    ensures Queueing(n)
  {
    hide Kept, Progress, NoLostWakeup, Queues, Counted, Exclusive, Hands, Bit;
    PcAfter(s, t, n);
    if Bit(s.state) && !s.pc[t].XStore? {
      BitStays(s, t, n);
    }
  }

  /** How a step changes the queues. */
  lemma QueuesAfter(s: State, t: Task, n: State)
    requires t in s.pc && Step(s, t, n)
    ensures n.readers == (if s.pc[t].RPush? then s.readers + [t]
                          else if s.pc[t].XReaders? && s.readers != [] then Pop(s.readers) else s.readers)
    ensures n.writers == (if s.pc[t].WPush? then s.writers + [t]
                          else if (s.pc[t].UPop? || s.pc[t].XPop?) && s.writers != [] then Pop(s.writers)
                              else s.writers)
    ensures !Inside(s.pc[t]) ==> n.readers == s.readers && n.writers == s.writers
  {
  }

  /** What task t does next, where queues and hands are concerned. */
  lemma HandAfter(s: State, t: Task, n: State)
    requires t in s.pc && Step(s, t, n)
    ensures t in n.pc
    ensures s.pc[t].UPop? && s.writers != [] ==> n.pc[t] == UPush(s.writers[0])
    ensures s.pc[t].XPop? && s.writers != [] ==> n.pc[t] == XPush(s.writers[0])
    ensures s.pc[t].XReaders? && s.readers != [] ==> n.pc[t] == XReader(s.readers[0])
    ensures Waking(n.pc[t]) ==>
              || ((s.pc[t].UPop? || s.pc[t].XPop?) && s.writers != [])
              || (s.pc[t].XReaders? && s.readers != [])
  {
  }

  /** Where task t comes to wait. */
  lemma WaitAfter(s: State, t: Task, n: State)
    requires t in s.pc && Step(s, t, n)
    ensures t in n.pc
    ensures (n.pc[t].RPushed? || n.pc[t].RPark?) <==> (s.pc[t].RPush? || s.pc[t].RPushed?)
    ensures (n.pc[t].WPushed? || n.pc[t].WPark?) <==> (s.pc[t].WPush? || s.pc[t].WPushed?)
    ensures n.pc[t].RPark? ==> s.pc[t].RPushed?
    ensures n.pc[t].WPark? ==> s.pc[t].WPushed?
    ensures !s.pc[t].RPark? && !s.pc[t].WPark?
  {
  }

  lemma NoDupAfter(q: seq<Task>, t: Task)
    requires NoDup(q)
    ensures t !in q ==> NoDup(q + [t])
    ensures q != [] ==> NoDup(Pop(q)) && q[0] !in Pop(q) && forall x :: x in Pop(q) ==> x in q
  {
  }

  lemma KeepsQueues(s: State, t: Task, n: State)
    requires t in s.pc && Inv(s) && Step(s, t, n)
    ensures Queues(n)
  {
    hide Step, Kept, Progress, NoLostWakeup, Counted, Exclusive, Expected, Queueing, Locked, NoDup, Pop;
    PcAfter(s, t, n);
    QueuesAfter(s, t, n);
    HandAfter(s, t, n);
    WaitAfter(s, t, n);
    NoDupAfter(s.readers, t);
    NoDupAfter(s.writers, t);
    if Waking(s.pc[t]) {
      assert Carries(s.pc[t], Hand(s.pc[t]));
    }
  }

  lemma KeepsHands(s: State, t: Task, n: State)
    requires t in s.pc && Inv(s) && Step(s, t, n)
    ensures Hands(n)
  {
    hide Step, Kept, Progress, NoLostWakeup, Counted, Exclusive, Expected, Queueing, NoDup, Pop;
    PcAfter(s, t, n);
    QueuesAfter(s, t, n);
    HandAfter(s, t, n);
    WaitAfter(s, t, n);
    NoDupAfter(s.readers, t);
    NoDupAfter(s.writers, t);
    forall u, x | u in n.pc && Carries(n.pc[u], x)
      ensures x in n.pc && x !in n.readers && x !in n.writers
              && (if n.pc[u].XReader? then n.pc[x].RPark? else n.pc[x].WPark?)
    {
      if u == t {
        assert Inside(s.pc[t]) && (s.readers != [] ==> s.readers[0] in s.readers)
               && (s.writers != [] ==> s.writers[0] in s.writers);
      } else {
        CarriedStays(s, t, n, u, x);
      }
    }
  }

  /** What another task has in hand is not touched. */
  lemma CarriedStays(s: State, t: Task, n: State, u: Task, x: Task)
    requires t in s.pc && Inv(s) && Step(s, t, n) && u != t && u in n.pc && Carries(n.pc[u], x)
    ensures x in n.pc && x !in n.readers && x !in n.writers
            && (if n.pc[u].XReader? then n.pc[x].RPark? else n.pc[x].WPark?)
  {
    hide Step, Kept, Progress, NoLostWakeup, Counted, Exclusive, Expected, Queueing, NoDup, Pop, Queues;
    PcAfter(s, t, n);
    QueuesAfter(s, t, n);
    HandAfter(s, t, n);
    WaitAfter(s, t, n);
    if Waking(s.pc[t]) {
      assert Carries(s.pc[t], Hand(s.pc[t]));
    }
    assert n.pc[u] == s.pc[u];
    assert Inside(s.pc[u]);
  }

  lemma KeepsKept(s: State, t: Task, n: State)
    requires t in s.pc && Inv(s) && Step(s, t, n)
    ensures Kept(n)
  {
    hide Step, Progress, NoLostWakeup, Counted, Exclusive, Expected, Queueing, NoDup, Queues, Carried, Locked;
    PcAfter(s, t, n);
    if Waking(s.pc[t]) {
      assert Carries(s.pc[t], Hand(s.pc[t]));
    }
    forall x | x in n.pc
      ensures n.pc[x].RPushed? || n.pc[x].RPark? ==> x in n.readers || Carried(n, x)
      ensures n.pc[x].WPushed? || n.pc[x].WPark? ==> x in n.writers || Carried(n, x)
    {
      HandAfter(s, t, n);
      WaitAfter(s, t, n);
      QueuesAfter(s, t, n);
      if x == t && (s.pc[t].RPushed? || s.pc[t].WPushed?) {
        NotCarried(s, t);
      }
      StillKept(s, t, n, x);
    }
  }

  /** A task that still runs is in nobody's hand. */
  lemma NotCarried(s: State, t: Task)
    requires t in s.pc && Hands(s) && !s.pc[t].RPark? && !s.pc[t].WPark?
    ensures !Carried(s, t)
  {
  }

  /** A task that waits in a queue or a hand still does, unless this step wakes it. */
  lemma StillKept(s: State, t: Task, n: State, x: Task)
    requires t in s.pc && Inv(s) && Step(s, t, n) && x in n.pc && x in s.pc
    ensures x in s.readers ==> x in n.readers || Carried(n, x)
    ensures x in s.writers ==> x in n.writers || Carried(n, x)
    ensures Carried(s, x) ==> Carried(n, x) || (Waking(s.pc[t]) && Hand(s.pc[t]) == x)
  {
    hide Step, Progress, NoLostWakeup, Counted, Exclusive, Expected, Queueing, NoDup, Queues, Kept, Hands, Locked;
    PcAfter(s, t, n);
    QueuesAfter(s, t, n);
    HandAfter(s, t, n);
    WaitAfter(s, t, n);
    if u :| u in s.pc && Carries(s.pc[u], x) && u != t {
      assert !(Waking(s.pc[t]) && Hand(s.pc[t]) == u) ==> Carries(n.pc[u], x);
      CarrierRuns(s, t, u, x);
    }
    if (x in s.readers && x !in n.readers) || (x in s.writers && x !in n.writers) {
      assert Carries(n.pc[t], x);
    }
  }

  lemma CarrierRuns(s: State, t: Task, u: Task, x: Task)
    requires t in s.pc && u in s.pc && Hands(s) && Carries(s.pc[u], x)
    ensures !(Waking(s.pc[t]) && Hand(s.pc[t]) == u)
  {
    if Waking(s.pc[t]) && Hand(s.pc[t]) == u {
      assert Carries(s.pc[t], u);
    }
  }

  /** How far an unlock gets in one step. */
  lemma UnlockAfter(s: State, t: Task, n: State)
    requires t in s.pc && Step(s, t, n)
    ensures t in n.pc
    ensures n.pc[t].XReaders? || n.pc[t].XReader? ==>
              (s.pc[t].XPop? && s.writers == []) || s.pc[t].XReader? || (s.pc[t].XReaders? && n.pc[t].XReader?)
    ensures n.pc[t] == XFree(None) ==> s.pc[t].XReaders? && s.readers == []
    ensures n.pc[t].XFree? && n.pc[t].woken.Some? ==> s.pc[t].XPush?
    ensures Unlocking(s.pc[t]) ==> Unlocking(n.pc[t]) || s.pc[t].XFree?
    ensures s.pc[t].XStore? ==> n.pc[t] == XPop
  {
  }

  /** A writer on its way stays so until it has set the bit, or sees it set. */
  lemma ComingAfter(s: State, t: Task, n: State)
    requires t in s.pc && Step(s, t, n)
    ensures t in n.pc
    ensures Coming(s.pc[t]) ==>
              Coming(n.pc[t]) || Bit(s.state) || (s.pc[t].WCas? && n.state == s.pc[t].seen + WRITER_BIT)
    ensures Coming(s.pc[t]) && s.lock != None && s.lock != Some(t) && !Inside(s.pc[t]) ==>
              Coming(n.pc[t]) || (s.pc[t].WCas? && n.state == s.pc[t].seen + WRITER_BIT)
  {
  }

  lemma KeepsProgress(s: State, t: Task, n: State)
    requires t in s.pc && Inv(s) && Step(s, t, n)
    ensures Progress(n)
  {
    hide Step, NoLostWakeup, Counted, Exclusive, Queueing, NoDup, Queues, Kept;
    PcAfter(s, t, n);
    if Waking(s.pc[t]) {
      assert Carries(s.pc[t], Hand(s.pc[t]));
    }
    forall u | u in n.pc
      ensures n.pc[u].XReaders? || n.pc[u].XReader? ==> n.writers == []
      ensures n.pc[u] == XFree(None) ==> n.writers == [] && n.readers == []
      ensures n.pc[u].XFree? && n.pc[u].woken.Some? ==>
                var w := n.pc[u].woken.value; n.woken == Some(w) && (Bit(n.state) || (w in n.pc && Coming(n.pc[w])))
    {
      QueuesAfter(s, t, n);
      UnlockAfter(s, t, n);
      ComingAfter(s, t, n);
      if u != t && u in s.pc && n.pc[u] == s.pc[u] {
        OthersProgress(s, t, n, u);
      }
    }
  }

  /** An unlock is not set back by the steps of others: they are outside the internal lock. */
  lemma OthersProgress(s: State, t: Task, n: State, u: Task)
    requires t in s.pc && Inv(s) && Step(s, t, n) && u != t && u in s.pc && u in n.pc && n.pc[u] == s.pc[u]
    ensures n.pc[u].XReaders? || n.pc[u].XReader? ==> n.writers == []
    ensures n.pc[u] == XFree(None) ==> n.writers == [] && n.readers == []
    ensures n.pc[u].XFree? && n.pc[u].woken.Some? ==>
              var w := n.pc[u].woken.value; n.woken == Some(w) && (Bit(n.state) || (w in n.pc && Coming(n.pc[w])))
  {
    hide Step, NoLostWakeup, Counted, Exclusive, Queueing, NoDup, Queues, Kept, Hands, Bit;
    if Inside(s.pc[u]) {
      assert !Inside(s.pc[t]);
      PcAfter(s, t, n);
      QueuesAfter(s, t, n);
      UnlockAfter(s, t, n);
      ComingAfter(s, t, n);
      if Bit(s.state) {
        BitStays(s, t, n);
      }
      if s.pc[t].WCas? {
        SetsBit(s.pc[t].seen);
      }
    }
  }

  lemma SetsBit(state: int)
    ensures !Bit(state) ==> Bit(state + WRITER_BIT)
  {
  }

  lemma KeepsWakeup(s: State, t: Task, n: State)
    requires t in s.pc && Inv(s) && Step(s, t, n)
    ensures NoLostWakeup(n)
  {
    hide Step, Counted, Exclusive, NoDup, Queues, Kept, Hands, Bit;
    PcAfter(s, t, n);
    QueuesAfter(s, t, n);
    UnlockAfter(s, t, n);
    ComingAfter(s, t, n);
    if !Bit(n.state) && (n.readers != [] || n.writers != []) {
      if s.pc[t].WCas? {
        SetsBit(s.pc[t].seen);
      }
      if s.pc[t].XStore? {
        assert Unlocking(n.pc[t]);
      } else {
        if Bit(s.state) {
          BitStays(s, t, n);
        }
        if WokenComes(s) {
          WokenStays(s, t, n);
        } else {
          var u :| u in s.pc && Unlocking(s.pc[u]);
          StillAttended(s, t, n, u);
        }
      }
    }
  }

  /** The writer that was made ready last stays on its way until the bit is set, or another one is made ready. */
  lemma WokenStays(s: State, t: Task, n: State)
    requires t in s.pc && Inv(s) && Step(s, t, n) && WokenComes(s) && !Bit(s.state) && !Bit(n.state)
    ensures WokenComes(n)
  {
    hide Step, Counted, Exclusive, NoDup, Queues, Kept, Bit, Locked, NoLostWakeup, Queueing, Progress;
    PcAfter(s, t, n);
    ComingAfter(s, t, n);
    if s.pc[t].WCas? {
      SetsBit(s.pc[t].seen);
    }
    if Waking(s.pc[t]) {
      assert Carries(s.pc[t], Hand(s.pc[t]));
    }
  }

  /** An unlock leaves a free bit with the writer that it woke on its way, or empty queues. */
  lemma StillAttended(s: State, t: Task, n: State, u: Task)
    requires t in s.pc && Inv(s) && Step(s, t, n) && u in s.pc && Unlocking(s.pc[u])
    requires !Bit(s.state) && !Bit(n.state) && (n.readers != [] || n.writers != [])
    ensures Attended(n)
  {
    hide Step, Counted, Exclusive, NoDup, Queues, Kept, Bit, Locked, NoLostWakeup, Queueing;
    PcAfter(s, t, n);
    QueuesAfter(s, t, n);
    UnlockAfter(s, t, n);
    if u == t {
      if s.pc[t].XFree? {
        assert s.pc[t].woken.Some?;
        var w := s.pc[t].woken.value;
        assert w != t && w in n.pc && n.pc[w] == s.pc[w];
      } else {
        assert Unlocking(n.pc[t]);
      }
    } else {
      assert Waking(s.pc[t]) ==> Carries(s.pc[t], Hand(s.pc[t]));
      assert u in n.pc && n.pc[u] == s.pc[u];
    }
  }

  // ---- Whole runs ----

  lemma Starting(s: State)
    requires Starts(s)
    ensures Inv(s)
  {
    assert Readers(s) == {} && Owners(s) == {};
  }

  lemma Keeps(s: State, t: Task, n: State)
    requires t in s.pc && Inv(s) && Step(s, t, n)
    ensures Inv(n)
  {
    hide Step, Counted, Exclusive, Locked, Expected, Queueing, Queues, Hands, Kept, Progress, NoLostWakeup;
    KeepsCounted(s, t, n);
    KeepsExclusive(s, t, n);
    KeepsLocked(s, t, n);
    KeepsExpected(s, t, n);
    KeepsQueueing(s, t, n);
    KeepsQueues(s, t, n);
    KeepsHands(s, t, n);
    KeepsKept(s, t, n);
    KeepsProgress(s, t, n);
    KeepsWakeup(s, t, n);
  }

  /** Any interleaving of the steps of any tasks. */
  ghost predicate Run(run: seq<State>, who: seq<Task>)
  {
    && |run| == |who| + 1 && Starts(run[0])
    && forall i :: 0 <= i < |who| ==> who[i] in run[i].pc && Step(run[i], who[i], run[i + 1])
  }

  /** In every run: the state word counts readers and writer; a writer that has returned from lock excludes all others;
      a task that waits is queued or about to be made ready, and queued tasks are attended to. */
  lemma {:induction false} EveryRun(run: seq<State>, who: seq<Task>, i: nat)
    requires Run(run, who) && i < |run|
    ensures Inv(run[i])
  {
    hide Step, Inv, Starts;
    if i == 0 {
      Starting(run[0]);
    } else {
      EveryRun(run, who, i - 1);
      Keeps(run[i - 1], who[i - 1], run[i]);
    }
  }

  /** A writer that has returned from lock is alone. */
  lemma WriterIsAlone(s: State, t: Task, u: Task)
    requires Inv(s) && t in s.pc && u in s.pc && u != t && Writing(s.pc[t])
    ensures s.pc[u] != RHeld && !Owns(s.pc[u]) && s.state == WRITER_BIT
  {
    StoreSees(s, t);
    InSets(s, t);
    InSets(s, u);
    if Owns(s.pc[u]) {
      assert {t, u} <= Owners(s);
      Larger({t, u}, Owners(s));
    }
  }

  lemma Larger(a: set<Task>, b: set<Task>)
    requires a <= b
    ensures |a| <= |b|
  {
    assert b == a + (b - a);
  }

  // ---- A writer that has to wait for readers ----

  /** A writer that finds readers at its first look yields, and nobody has it in a queue to make it ready again. */
  lemma {:induction false} StuckForever(run: seq<State>, who: seq<Task>, i: nat, j: nat, t: Task)
    requires Run(run, who) && i <= j < |run| && t in run[i].pc && run[i].pc[t] == WYield
    ensures t in run[j].pc && run[j].pc[t] == WYield && Bit(run[j].state) && Readers(run[j]) <= Readers(run[i])
    ensures forall u :: u in run[j].pc ==> !Writing(run[j].pc[u])
  {
    hide Step, Inv, Starts, Readers, Owners, Bit;
    EveryRun(run, who, j);
    if i < j {
      StuckForever(run, who, i, j - 1, t);
      EveryRun(run, who, j - 1);
      StuckStep(run[j - 1], who[j - 1], run[j], t);
    }
    Blocks(run[j], t);
  }

  lemma StuckStep(s: State, u: Task, n: State, t: Task)
    requires Inv(s) && u in s.pc && Step(s, u, n) && t in s.pc && s.pc[t] == WYield && Bit(s.state)
    ensures t in n.pc && n.pc[t] == WYield && Readers(n) <= Readers(s)
  {
    hide Counted, Exclusive, Locked, Queueing, Queues, Kept, Progress, NoLostWakeup, Bit;
    SetsAfter(s, u, n);
    PcAfter(s, u, n);
    BeginAfter(s, u, n);
    if Waking(s.pc[u]) {
      assert Carries(s.pc[u], Hand(s.pc[u]));
    }
  }

  /** While it is stuck nobody else writes, and the bit is set. */
  lemma Blocks(s: State, t: Task)
    requires Inv(s) && t in s.pc && s.pc[t] == WYield
    ensures Bit(s.state) && forall u :: u in s.pc ==> !Writing(s.pc[u])
  {
    hide Locked, Queueing, Queues, Kept, Progress, NoLostWakeup;
    InSets(s, t);
    NoOwner(s);
    forall u | u in s.pc
      ensures !Writing(s.pc[u])
    {
      if Writing(s.pc[u]) {
        WriterIsAlone(s, u, t);
      }
    }
  }

  /** The write lock returns exactly when its first look finds no readers. */
  lemma ReturnsIff(s: State, t: Task, n: State)
    requires Inv(s) && t in s.pc && s.pc[t] == WDrain && Step(s, t, n)
    ensures n.pc[t] == WHeld <==> Readers(s) == {}
    ensures n.pc[t] != WHeld ==> n.pc[t] == WYield
  {
    hide Locked, Queueing, Queues, Kept, Progress, NoLostWakeup, Hands;
    InSets(s, t);
    assert |Owners(s)| == 1 by {
      assert Owners(s) - {t} < Owners(s);
    }
    if s.state == WRITER_BIT {
      NoReaders(s);
    }
  }

  /** A run with one more step. */
  lemma Then(run: seq<State>, who: seq<Task>, s: State, t: Task, n: State) returns (r: seq<State>, w: seq<Task>)
    requires Run(run, who) && Last(run, s) && t in s.pc && Step(s, t, n)
    ensures Run(r, w) && Last(r, n)
  {
    hide Step;
    r, w := run + [n], who + [t];
    forall i | 0 <= i < |w|
      ensures w[i] in r[i].pc && Step(r[i], w[i], r[i + 1])
    {
      assert i < |who| ==> w[i] == who[i] && r[i] == run[i] && r[i + 1] == run[i + 1];
    }
  }

  predicate Last(run: seq<State>, s: State)
  {
    run != [] && run[|run| - 1] == s
  }

  /** It happens: task 0 reads, and task 1 comes to write. */
  lemma WriterCanGetStuck() returns (run: seq<State>, who: seq<Task>)
    ensures Run(run, who) && run != [] && 1 in run[|run| - 1].pc && run[|run| - 1].pc[1] == WYield
  {
    hide Run;
    var s: State;
    run, who, s := WriterAfterReader();
    var w3 := Goto(s, 1, WDrain).(state := 3);
    var w4 := Goto(w3, 1, WYield);
    run, who := Then(run, who, s, 1, w3);
    run, who := Then(run, who, w3, 1, w4);
  }

  lemma ReaderFirst() returns (run: seq<State>, who: seq<Task>, s: State)
    ensures Run(run, who) && Last(run, s) && s == State(2, None, [], [], None, s.pc)
            && s.pc == map[0 := RHeld, 1 := Idle]
  {
    hide Run;
    s := State(0, None, [], [], None, map[0 := Idle, 1 := Idle]);
    run, who := Alone(s);
    var r1 := Goto(s, 0, RLoad);
    var r2 := Goto(r1, 0, RCas(0));
    var r3 := Goto(r2, 0, RHeld).(state := 2);
    run, who := Then(run, who, s, 0, r1);
    run, who := Then(run, who, r1, 0, r2);
    run, who := Then(run, who, r2, 0, r3);
    s := r3;
  }

  lemma WriterAfterReader() returns (run: seq<State>, who: seq<Task>, s: State)
    ensures Run(run, who) && Last(run, s) && s == State(2, None, [], [], None, s.pc)
            && s.pc == map[0 := RHeld, 1 := WCas(2)]
  {
    hide Run;
    run, who, s := ReaderFirst();
    var w1 := Goto(s, 1, WLoad);
    var w2 := Goto(w1, 1, WCas(2));
    run, who := Then(run, who, s, 1, w1);
    run, who := Then(run, who, w1, 1, w2);
    s := w2;
  }

  lemma Alone(s: State) returns (run: seq<State>, who: seq<Task>)
    requires Starts(s)
    ensures Run(run, who) && Last(run, s)
  {
    run, who := [s], [];
  }
}
