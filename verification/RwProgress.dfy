// What can happen at the reader-writer mutex: which tasks have a step, and where it leads.
module RwProgress {
  import opened Options
  import opened RwMutex

  predicate WaitsForLock(p: PC)
  {
    p.RLock? || p.ULock? || p.WLock? || p.XLock?
  }

  /** The task has yielded. */
  predicate Yielded(p: PC)
  {
    p.RPark? || p.WPark? || p.WYield?
  }

  ghost predicate CanStep(s: State, t: Task)
    requires t in s.pc
  {
    exists n :: Step(s, t, n)
  }

  lemma ReadCallSteps(s: State, t: Task)
    requires t in s.pc && !Yielded(s.pc[t]) && (WaitsForLock(s.pc[t]) ==> s.lock == None)
    requires var p := s.pc[t];
             p.Idle? || p.RLoad? || p.RCas? || p.RLock? || p.RCheck? || p.RPush? || p.RPushed? || p.RRetry?
    ensures CanStep(s, t)
  {
    match s.pc[t]
    case Idle => assert Step(s, t, Goto(s, t, RLoad));
    case RLoad => assert Step(s, t, Goto(s, t, if Bit(s.state) then RLock else RCas(s.state)));
    case RCas(_) => assert Step(s, t, Goto(s, t, RLoad));
    case RLock => assert Step(s, t, Acquire(s, t, RCheck));
    case RCheck => assert Step(s, t, Goto(s, t, if Bit(s.state) then RPush else RRetry));
    case RPush => assert Step(s, t, Goto(s, t, RPushed).(readers := s.readers + [t]));
    case RPushed => assert Step(s, t, Free(s, t, RPark));
    case RRetry => assert Step(s, t, Free(s, t, RLoad));
  }

  lemma WriteCallSteps(s: State, t: Task)
    requires t in s.pc && !Yielded(s.pc[t]) && (WaitsForLock(s.pc[t]) ==> s.lock == None)
    requires var p := s.pc[t];
             p.WLoad? || p.WCas? || p.WLock? || p.WCheck? || p.WPush? || p.WPushed? || p.WRetry? || p.WDrain?
                 || p.WHeld?
    ensures CanStep(s, t)
  {
    match s.pc[t]
    case WLoad => assert Step(s, t, Goto(s, t, if Bit(s.state) then WLock else WCas(s.state)));
    case WCas(_) => assert Step(s, t, Goto(s, t, WLoad));
    case WLock => assert Step(s, t, Acquire(s, t, WCheck));
    case WCheck => assert Step(s, t, Goto(s, t, if Bit(s.state) then WPush else WRetry));
    case WPush => assert Step(s, t, Goto(s, t, WPushed).(writers := s.writers + [t]));
    case WPushed => assert Step(s, t, Free(s, t, WPark));
    case WRetry => assert Step(s, t, Free(s, t, WLoad));
    case WDrain => assert Step(s, t, Goto(s, t, if s.state == WRITER_BIT then WHeld else WYield));
    case WHeld => assert Step(s, t, Goto(s, t, XLock));
  }

  lemma ReadUnlockSteps(s: State, t: Task)
    requires t in s.pc && (WaitsForLock(s.pc[t]) ==> s.lock == None)
    requires var p := s.pc[t]; p.RHeld? || p.ULock? || p.UPop? || p.UPush? || p.UFree? || p.XLock? || p.XStore?
    ensures CanStep(s, t)
  {
    match s.pc[t]
    case RHeld =>
      var next := if s.state - READER_INC == WRITER_BIT then ULock else Idle;
      assert Step(s, t, Goto(s, t, next).(state := s.state - READER_INC));
    case ULock => assert Step(s, t, Acquire(s, t, UPop));
    case UPop =>
      assert if s.writers == [] then Step(s, t, Goto(s, t, UFree))
             else Step(s, t, Goto(s, t, UPush(s.writers[0])).(writers := Pop(s.writers)));
    case UPush(w) => assert Step(s, t, Wake(s, t, UFree, w, WLoad).(woken := Some(w)));
    case UFree => assert Step(s, t, Free(s, t, Idle));
    case XLock => assert Step(s, t, Acquire(s, t, XStore));
    case XStore => assert Step(s, t, Goto(s, t, XPop).(state := 0));
  }

  lemma WriteUnlockSteps(s: State, t: Task)
    requires t in s.pc && Unlocking(s.pc[t])
    ensures CanStep(s, t)
  {
    match s.pc[t]
    case XPop =>
      assert if s.writers == [] then Step(s, t, Goto(s, t, XReaders))
             else Step(s, t, Goto(s, t, XPush(s.writers[0])).(writers := Pop(s.writers)));
    case XPush(w) => assert Step(s, t, Wake(s, t, XFree(Some(w)), w, WLoad).(woken := Some(w)));
    case XReaders =>
      assert if s.readers == [] then Step(s, t, Goto(s, t, XFree(None)))
             else Step(s, t, Goto(s, t, XReader(s.readers[0])).(readers := Pop(s.readers)));
    case XReader(r) => assert Step(s, t, Wake(s, t, XReaders, r, RLoad));
    case XFree(_) => assert Step(s, t, Free(s, t, Idle));
  }

  /** A task has a step exactly if it has not yielded and does not wait for an internal lock that is taken. */
  lemma StepsIff(s: State, t: Task)
    requires t in s.pc
    ensures CanStep(s, t) <==> !Yielded(s.pc[t]) && (WaitsForLock(s.pc[t]) ==> s.lock == None)
  {
    if !Yielded(s.pc[t]) && (WaitsForLock(s.pc[t]) ==> s.lock == None) {
      StepsOne(s, t);
    }
  }

  lemma StepsOne(s: State, t: Task)
    requires t in s.pc && !Yielded(s.pc[t]) && (WaitsForLock(s.pc[t]) ==> s.lock == None)
    ensures CanStep(s, t)
  {
    hide CanStep, Step;
    var p := s.pc[t];
    if p.Idle? || p.RLoad? || p.RCas? || p.RLock? || p.RCheck? || p.RPush? || p.RPushed? || p.RRetry? {
      ReadCallSteps(s, t);
    } else if p.RHeld? || p.ULock? || p.UPop? || p.UPush? || p.UFree? || p.XLock? || p.XStore? {
      ReadUnlockSteps(s, t);
    } else if Unlocking(p) {
      WriteUnlockSteps(s, t);
    } else {
      WriteCallSteps(s, t);
    }
  }

  /** Whoever has the internal lock has a step, in every run. */
  lemma HolderSteps(run: seq<State>, who: seq<Task>, i: nat, h: Task)
    requires Run(run, who) && i < |run| && run[i].lock == Some(h)
    ensures h in run[i].pc && CanStep(run[i], h)
  {
    hide Step, Run, CanStep, Inv;
    HolderIsTask(run, who, i);
    EveryRun(run, who, i);
    HolderInside(run[i], h);
    StepsIff(run[i], h);
  }

  lemma HolderInside(s: State, h: Task)
    requires Inv(s) && s.lock == Some(h) && h in s.pc
    ensures Inside(s.pc[h]) && !Yielded(s.pc[h]) && !WaitsForLock(s.pc[h])
  {
    hide Counted, Exclusive, Expected, Queueing, Queues, Hands, Kept, Progress, NoLostWakeup;
  }

  lemma {:induction false} HolderIsTask(run: seq<State>, who: seq<Task>, i: nat)
    requires Run(run, who) && i < |run|
    ensures run[i].lock.Some? ==> run[i].lock.value in run[i].pc
  {
    hide Step, Inv;
    if i > 0 {
      HolderIsTask(run, who, i - 1);
      EveryRun(run, who, i - 1);
      HolderStays(run[i - 1], who[i - 1], run[i]);
    }
  }

  lemma HolderStays(s: State, t: Task, n: State)
    requires t in s.pc && Inv(s) && Step(s, t, n) && (s.lock.Some? ==> s.lock.value in s.pc)
    ensures n.lock.Some? ==> n.lock.value in n.pc
  {
    hide Step, Counted, Exclusive, Locked, Expected, Queueing, Queues, Kept, Progress, NoLostWakeup;
    LockAfter(s, t, n);
    SetsAfter(s, t, n);
  }

  /** A reader whose exchange starts from what the state word says can return, whoever else reads. */
  lemma ReaderEnters(s: State, t: Task)
    requires Inv(s) && t in s.pc && s.pc[t] == RCas(s.state)
    ensures exists n :: Step(s, t, n) && n.pc[t] == RHeld && Readers(n) == Readers(s) + {t}
  {
    hide Counted, Exclusive, Locked, Expected, Queueing, Queues, Kept, Progress, NoLostWakeup;
    var n := Goto(s, t, RHeld).(state := s.state + READER_INC);
    assert Step(s, t, n);
    SetsAfter(s, t, n);
  }

  /** A writer whose exchange starts from what the state word says can set the bit, and has returned in two steps if
      nobody reads. */
  lemma WriterEnters(s: State, t: Task)
    requires Inv(s) && t in s.pc && s.pc[t] == WCas(s.state)
    ensures exists n :: Step(s, t, n) && n.pc[t] == WDrain && Owners(n) == Owners(s) + {t}
                        && (Readers(s) == {} ==> Step(n, t, Goto(n, t, WHeld)))
  {
    hide Exclusive, Locked, Queueing, Queues, Kept, Progress, NoLostWakeup, Readers, Owners;
    var n := Goto(s, t, WDrain).(state := s.state + WRITER_BIT);
    assert Step(s, t, n);
    SetsAfter(s, t, n);
    NoOwner(s);
  }

  /** Without a writer a call of the read lock that is not disturbed returns after three steps, however many read. */
  lemma ReadsAlone(s: State, t: Task)
    requires t in s.pc && s.pc[t] == Idle && !Bit(s.state)
    ensures var a := Goto(s, t, RLoad); var b := Goto(s, t, RCas(s.state));
            var c := Goto(s, t, RHeld).(state := s.state + READER_INC);
            Step(s, t, a) && Step(a, t, b) && Step(b, t, c)
  {
    var a, b := Goto(s, t, RLoad), Goto(s, t, RCas(s.state));
    assert Goto(a, t, RCas(s.state)) == b;
    assert Goto(b, t, RHeld) == Goto(s, t, RHeld);
  }

  /** Without readers and writers a call of the write lock that is not disturbed returns after four steps. */
  lemma WritesAlone(s: State, t: Task)
    requires t in s.pc && s.pc[t] == Idle && s.state == 0
    ensures var a := Goto(s, t, WLoad); var b := Goto(s, t, WCas(0)); var c := Goto(s, t, WDrain).(state := WRITER_BIT);
            Step(s, t, a) && Step(a, t, b) && Step(b, t, c) && Step(c, t, Goto(s, t, WHeld).(state := WRITER_BIT))
  {
    var a, b, c := Goto(s, t, WLoad), Goto(s, t, WCas(0)), Goto(s, t, WDrain).(state := WRITER_BIT);
    assert Goto(a, t, WCas(0)) == b;
    assert Goto(b, t, WDrain) == Goto(s, t, WDrain);
    assert Goto(c, t, WHeld).pc == Goto(s, t, WHeld).pc;
  }

  /** A reader that unlocks goes on to wake a writer exactly if it was the last reader and the writer bit is set. */
  lemma LastReaderWakes(s: State, t: Task, n: State)
    requires Inv(s) && t in s.pc && s.pc[t] == RHeld && Step(s, t, n)
    ensures n.pc[t] == ULock <==> Readers(s) == {t} && Bit(s.state)
    ensures n.pc[t] == ULock || n.pc[t] == Idle
  {
    hide Exclusive, Locked, Expected, Queueing, Queues, Kept, Progress, NoLostWakeup, Hands;
    InSets(s, t);
    NoOwner(s);
    SizeAfter(Readers(s), t, Readers(s) - {t});
  }

  /** An unlock that finds writers makes the one ready that has waited longest. */
  lemma WakesFirstWriter(s: State, t: Task, a: State, b: State)
    requires t in s.pc && (s.pc[t].UPop? || s.pc[t].XPop?) && s.writers != [] && s.writers[0] != t
    requires Step(s, t, a) && t in a.pc && Step(a, t, b)
    ensures var w := s.writers[0];
            w in b.pc && b.pc[w] == WLoad && b.writers == s.writers[1..] && b.readers == s.readers && b.woken == Some(w)
  {
  }

  /** A write unlock that finds no writer makes the readers ready, one after the other. */
  lemma WakesFirstReader(s: State, t: Task, a: State, b: State)
    requires t in s.pc && s.pc[t].XReaders? && s.readers != [] && s.readers[0] != t
    requires Step(s, t, a) && t in a.pc && Step(a, t, b)
    ensures var r := s.readers[0];
            r in b.pc && b.pc[r] == RLoad && b.readers == s.readers[1..] && b.writers == s.writers
                && b.pc[t] == XReaders
  {
  }

  // ---- Readers together ----

  /** The tasks 0 to n - 1. */
  function Tasks(n: nat): (r: set<Task>)
    ensures forall t: Task :: t in r <==> t < n
  {
    if n == 0 then {} else Tasks(n - 1) + {n - 1}
  }

  function ReadingPc(n: nat, k: nat): map<Task, PC>
  {
    map t | t in Tasks(n) :: if t < k then RHeld else Idle
  }

  function Reading(n: nat, k: nat): State
  {
    State(READER_INC * k, None, [], [], None, ReadingPc(n, k))
  }

  lemma {:induction false} ReadersCome(n: nat, k: nat) returns (run: seq<State>, who: seq<Task>)
    requires k <= n
    ensures Run(run, who) && Last(run, Reading(n, k))
    decreases k
  {
    hide Run, Step, Last;
    if k == 0 {
      run, who := Alone(Reading(n, 0));
    } else {
      run, who := ReadersCome(n, k - 1);
      var s, t := Reading(n, k - 1), k - 1;
      var a, b := Goto(s, t, RLoad), Goto(s, t, RCas(s.state));
      assert !Bit(s.state) by { EvenState(k - 1); }
      ReadsAlone(s, t);
      run, who := Then(run, who, s, t, a);
      run, who := Then(run, who, a, t, b);
      run, who := Then(run, who, b, t, Goto(s, t, RHeld).(state := s.state + READER_INC));
      assert Goto(s, t, RHeld).pc == ReadingPc(n, k);
      assert Goto(s, t, RHeld).(state := s.state + READER_INC) == Reading(n, k);
    }
  }

  lemma EvenState(k: nat)
    ensures !Bit(READER_INC * k)
  {
  }

  /** Any number of readers can hold the lock together. */
  lemma ReadersTogether(n: nat) returns (run: seq<State>, who: seq<Task>)
    ensures Run(run, who) && run != []
    ensures Readers(run[|run| - 1]) == Tasks(n) && run[|run| - 1].state == READER_INC * n
  {
    hide Run;
    run, who := ReadersCome(n, n);
  }
}
