/** The sweep of the collector: it walks the chunks of every heap while releases merge chunks under the walk. */
module GcSweep {
  import opened ChunkLayout
  import opened Rings
  import opened Blocks
  import opened BinLists
  import opened ArenaSteps
  import opened Payloads
  import opened ArenaSpec
  import opened AllocSpec
  import opened ArenaModel
  import opened GcWalk

  // ---- One chunk of the walk ----

  /** What a sweep asks of the arena it starts from. */
  ghost predicate Sweepable(base: Addr, m: Headers, l: Lists)
  {
    Good(base, m, l) && NoneLoose(m) && Bounded(m)
  }

  ghost predicate Sweeping(base: Addr, m0: Headers, l0: Lists, m: Headers, l: Lists, j: int, s: Addr)
  {
    && Sweepable(base, m0, l0)
    && Keeps(base, m0, l0, m, l) && NoneLoose(m)
    && Swept(m0, m, j, s)
  }

  lemma SweepingRelease(base: Addr, m0: Headers, l0: Lists, m: Headers, l: Lists, j: int, s: Addr, k: Headers,
                        lk: Lists)
    requires Sweeping(base, m0, l0, m, l, j, s) && s in m0.place && 0 <= j < |m0.heaps| && InSpan(m0.heaps, j, s)
    requires !m.marked(s) && Live(m, s)
    requires k == ReleaseH(m, s) && Keeps(base, m, l, k, lk) && GivenBack(m, k, s) && NoneLoose(k)
    ensures Sweeping(base, m0, l0, k, lk, j, Next(m0.size, s))
  {
    hide HeadersOk, ListsOk, Frame, ReleaseH, Swept, TouchesOnly;
    ReleaseTouches(base, m, s);
    ReleaseStep(base, m0, m, j, s, k);
    SweptBetween(m0, m, j, s, k);
    FrameTrans(base, m0, l0, m, l, k, lk);
  }

  lemma SweptBetween(m0: Headers, m: Headers, j: int, s: Addr, k: Headers)
    requires Swept(m0, m, j, s) && GivenBack(m, k, s)
    ensures Between(m0, m, k)
  {
  }

  lemma SweepingUnmark(base: Addr, m0: Headers, l0: Lists, m: Headers, l: Lists, j: int, s: Addr)
    requires Sweeping(base, m0, l0, m, l, j, s) && s in m0.place && 0 <= j < |m0.heaps| && InSpan(m0.heaps, j, s)
    requires m.marked(s)
    ensures Sweeping(base, m0, l0, m.(marked := Flag(m.marked, s, false)), l, j, Next(m0.size, s))
  {
    hide Swept;
    UnmarkStep(base, m0, m, j, s);
    UnmarkKeeps(base, m0, l0, m, l, s);
  }

  lemma UnmarkKeeps(base: Addr, m0: Headers, l0: Lists, m: Headers, l: Lists, s: Addr)
    requires Keeps(base, m0, l0, m, l) && s in m0.place
    ensures Keeps(base, m0, l0, m.(marked := Flag(m.marked, s, false)), l)
  {
    hide ListsOk;
    var k := m.(marked := Flag(m.marked, s, false));
    assert HeadersOk(base, k);
    forall x | Idle(base, m0, k, x)
      ensures HdrSame(m0, k, x)
    {
      assert HdrSame(m0, m, x);
    }
    forall x | (Live(m0, x) && Live(k, x)) || Idle(base, m0, k, x)
      ensures LnkSame(l0, l, x)
    {
      assert Live(m, x) <==> Live(k, x);
    }
    forall c | Live(m0, c) && Live(k, c)
      ensures k.size(c) == m0.size(c)
    {
      assert Live(m, c);
    }
  }

  lemma SweepingSkip(base: Addr, m0: Headers, l0: Lists, m: Headers, l: Lists, j: int, s: Addr)
    requires Sweeping(base, m0, l0, m, l, j, s) && s in m0.place && 0 <= j < |m0.heaps| && InSpan(m0.heaps, j, s)
    requires !m.marked(s) && !Live(m0, s)
    ensures Sweeping(base, m0, l0, m, l, j, Next(m0.size, s))
  {
    hide Swept;
    SkipStep(base, m0, m, j, s);
  }

  lemma ScanFacts(base: Addr, m0: Headers, l0: Lists, m: Headers, l: Lists, j: int, s: Addr)
    requires Sweeping(base, m0, l0, m, l, j, s) && s in m0.place && 0 <= j < |m0.heaps| && InSpan(m0.heaps, j, s)
    ensures m.size(s) == m0.size(s) && m.marked(s) == m0.marked(s) && s != NULL && s + HEADER != NULL
    ensures Live(m, s) <==> Live(m0, s)
    ensures Frees(m, s) <==> (Live(m0, s) && !m0.marked(s)) || (s == m0.top && !TopClear(m0))
    ensures Frees(m, s) && s == m.top <==> s == m0.top && !TopClear(m0)
    ensures Live(m0, s) ==> m.size(s) < MMAP_THRESHOLD && m.inUse(s) && s != m0.top
    ensures Good(base, m, l) && NoneLoose(m)
  {
    hide ListsOk, Frame, Swept;
    LooksLive(base, m0, m, j, s);
  }

  /** The walk has come to (j, s) in n steps. */
  ghost predicate Follows(m0: Headers, n: nat, m: Headers, j: int, s: Addr)
  {
    ScanAfter(m0, n) == Scan(m, j, s)
  }

  lemma FollowVisit(m0: Headers, n: nat, m: Headers, j: int, s: Addr)
    requires Follows(m0, n, m, j, s) && 0 <= j < |m.heaps| && s < m.heaps[j].end
    ensures Follows(m0, n + 1, Visit(m, s), j, Next(m.size, s))
  {
    hide Visit;
  }

  lemma FollowHeap(m0: Headers, n: nat, m: Headers, j: int)
    requires 0 <= j < |m.heaps| && Follows(m0, n, m, j, m.heaps[j].end)
    ensures Follows(m0, n + 1, m, j + 1, StartOf(m.heaps, j + 1))
  {
    hide Visit;
  }

  /** One chunk of the walk: clear its mark, or release it if it looks in use.  The top chunk may look in use;
      releasing it is not what `_release` is for, and the walk is followed no further. */
  method SweepChunk(a: Arena, scan: Addr, ghost m0: Headers, ghost l0: Lists, ghost j: int)
      returns (payload: int, freed: bool, stray: bool)
    requires Sweeping(a.base, m0, l0, a.Hdr(), a.Lst(), j, scan)
    requires scan in m0.place && 0 <= j < |m0.heaps| && InSpan(m0.heaps, j, scan)
    modifies a
    ensures a.expoIters == old(a.expoIters) && a.constIters == old(a.constIters) && a.heaps == old(a.heaps)
    ensures stray <==> scan == m0.top && !TopClear(m0)
    ensures stray ==> a.Hdr() == old(a.Hdr()) && a.Lst() == old(a.Lst()) && Frees(a.Hdr(), scan) && scan == a.top
    ensures payload == m0.size(scan) == old(a.size)(scan)
    ensures !stray ==> (freed <==> Live(m0, scan) && !m0.marked(scan)) && a.Hdr() == Visit(old(a.Hdr()), scan)
    ensures !stray ==> Sweeping(a.base, m0, l0, a.Hdr(), a.Lst(), j, Next(m0.size, scan))
  {
    hide Sweeping, Good, Keeps, GivenBack, NoneLoose, ReleaseH, Live, TopClear;
    ghost var m, l := a.Hdr(), a.Lst();
    ScanFacts(a.base, m0, l0, m, l, j, scan);
    payload := a.size(scan);
    freed, stray := false, false;
    if a.marked(scan) {
      SweepingUnmark(a.base, m0, l0, m, l, j, scan);
      a.marked := Flag(a.marked, scan, false);
    } else if a.inUse(scan) && scan == a.top {
      stray := true;
    } else if a.inUse(scan) {
      var unmapped := a.Release(scan + HEADER);
      SweepingRelease(a.base, m0, l0, m, l, j, scan, a.Hdr(), a.Lst());
      freed := true;
    } else {
      SweepingSkip(a.base, m0, l0, m, l, j, scan);
    }
  }

  /** The visited addresses are the original chunks behind the scan, each once; the freed ones were unmarked. */
  ghost predicate Tallied(m0: Headers, j: int, s: Addr, visited: seq<Addr>, released: seq<Addr>)
  {
    && Distinct(visited) && (forall t :: t in visited <==> t in m0.place && Behind(m0.heaps, j, s, t))
    && Distinct(released) && (forall t :: t in released <==> t in visited && Live(m0, t) && !m0.marked(t))
  }

  lemma TallyStep(base: Addr, m0: Headers, j: int, s: Addr, visited: seq<Addr>, released: seq<Addr>, freed: bool)
    requires TiledHeaps(base, m0) && s in m0.place && 0 <= j < |m0.heaps| && InSpan(m0.heaps, j, s)
    requires Tallied(m0, j, s, visited, released) && (freed <==> Live(m0, s) && !m0.marked(s))
    ensures Tallied(m0, j, Next(m0.size, s), visited + [s], if freed then released + [s] else released)
  {
    forall t | t in m0.place
      ensures Behind(m0.heaps, j, Next(m0.size, s), t) <==> Behind(m0.heaps, j, s, t) || t == s
    {
      BehindStep(base, m0, j, s, t);
    }
    BehindStep(base, m0, j, s, s);
    assert s !in visited && s !in released;
  }

  lemma TallyHeap(m0: Headers, m: Headers, j: int, s: Addr, visited: seq<Addr>, released: seq<Addr>)
    requires 0 <= j < |m0.heaps| && (j + 1 < |m0.heaps| ==> s == m0.heaps[j + 1].start)
    requires Tallied(m0, j, m0.heaps[j].end, visited, released) && Swept(m0, m, j, m0.heaps[j].end)
    ensures Tallied(m0, j + 1, s, visited, released) && Swept(m0, m, j + 1, s)
  {
    forall t
      ensures Behind(m0.heaps, j + 1, s, t) <==> Behind(m0.heaps, j, m0.heaps[j].end, t)
    {
      BehindHeap(m0.heaps, j, s, t);
    }
  }

  /** Where the walk stops short: at the top chunk, which looks in use and unmarked. */
  ghost predicate Strayed(base: Addr, m0: Headers, l0: Lists, m: Headers, l: Lists, n: nat, s: Addr)
  {
    && !TopClear(m0) && s == m0.top == m.top && s != NULL && !Live(m, s)
    && Keeps(base, m0, l0, m, l) && NoneLoose(m)
    && Releases(ScanAfter(m0, n)) && ScanAfter(m0, n).m == m && ScanAfter(m0, n).at == s
  }

  lemma StraysAt(base: Addr, m0: Headers, l0: Lists, m: Headers, l: Lists, j: int, s: Addr, n: nat)
    requires Sweeping(base, m0, l0, m, l, j, s) && Follows(m0, n, m, j, s)
    requires s in m0.place && 0 <= j < |m0.heaps| && InSpan(m0.heaps, j, s) && s == m0.top && !TopClear(m0)
    ensures Strayed(base, m0, l0, m, l, n, s)
  {
    hide ListsOk, Frame, Swept, ScanAfter, HeadersOk;
    ScanFacts(base, m0, l0, m, l, j, s);
    TopIsPlaced(base, m0);
    SameHeaps(base, m0, l0, m, l, j, s);
  }

  lemma NotStray(m0: Headers, s: Addr, visited: seq<Addr>)
    requires (m0.top in visited ==> TopClear(m0)) && (s == m0.top ==> TopClear(m0))
    ensures m0.top in visited + [s] ==> TopClear(m0)
  {
  }

  /** All that the walk over a heap keeps track of. */
  ghost predicate InWalk(base: Addr, m0: Headers, l0: Lists, m: Headers, l: Lists, j: int, s: Addr, n: nat,
                         visited: seq<Addr>, released: seq<Addr>)
  {
    && Sweeping(base, m0, l0, m, l, j, s) && Follows(m0, n, m, j, s) && Tallied(m0, j, s, visited, released)
    && (m0.top in visited ==> TopClear(m0))
  }

  lemma WalkOn(base: Addr, m0: Headers, l0: Lists, m: Headers, l: Lists, k: Headers, lk: Lists, j: int, s: Addr, n: nat,
               visited: seq<Addr>, released: seq<Addr>, freed: bool)
    requires InWalk(base, m0, l0, m, l, j, s, n, visited, released) && TiledHeaps(base, m0)
    requires s in m0.place && 0 <= j < |m0.heaps| && InSpan(m0.heaps, j, s) && (s == m0.top ==> TopClear(m0))
    requires Sweeping(base, m0, l0, k, lk, j, Next(m0.size, s)) && k == Visit(m, s) && m.size(s) == m0.size(s)
    requires freed <==> Live(m0, s) && !m0.marked(s)
    ensures InWalk(base, m0, l0, k, lk, j, Next(m0.size, s), n + 1, visited + [s],
                   if freed then released + [s] else released)
  {
    hide Sweeping, Tallied, TiledHeaps, Live, Follows, TopClear, Visit;
    SameHeaps(base, m0, l0, m, l, j, s);
    FollowVisit(m0, n, m, j, s);
    TallyStep(base, m0, j, s, visited, released, freed);
    NotStray(m0, s, visited);
  }

  lemma WalkIs(base: Addr, m0: Headers, l0: Lists, m: Headers, l: Lists, j: int, s: Addr, n: nat,
               visited: seq<Addr>, released: seq<Addr>)
    requires InWalk(base, m0, l0, m, l, j, s, n, visited, released)
    ensures Sweeping(base, m0, l0, m, l, j, s) && m.heaps == m0.heaps
    ensures s in m0.place && 0 <= j < |m0.heaps| && InSpan(m0.heaps, j, s) && s == m0.top && !TopClear(m0) ==>
              Strayed(base, m0, l0, m, l, n, s) && s != NULL
  {
    hide Sweeping, Tallied, Follows, TopClear, Strayed;
    SameHeaps(base, m0, l0, m, l, j, s);
    if s in m0.place && 0 <= j < |m0.heaps| && InSpan(m0.heaps, j, s) {
      StrayHere(base, m0, l0, m, l, j, s, n);
    }
  }

  /** The walk over heap j. */
  method SweepHeap(a: Arena, j: int, ghost m0: Headers, ghost l0: Lists, ghost n0: nat,
                   visited0: seq<Addr>, released0: seq<Addr>)
      returns (visited: seq<Addr>, released: seq<Addr>, stray: Addr, ghost n: nat)
    requires 0 <= j < |a.heaps| && a.heaps == m0.heaps && TiledHeaps(a.base, m0)
    requires InWalk(a.base, m0, l0, a.Hdr(), a.Lst(), j, a.heaps[j].start, n0, visited0, released0)
    modifies a
    ensures a.expoIters == old(a.expoIters) && a.constIters == old(a.constIters) && a.heaps == old(a.heaps)
    ensures stray == NULL ==> InWalk(a.base, m0, l0, a.Hdr(), a.Lst(), j, m0.heaps[j].end, n, visited, released)
    ensures stray != NULL ==> Strayed(a.base, m0, l0, a.Hdr(), a.Lst(), n, stray)
  {
    hide Sweeping, TiledHeaps, InSpan, Live, Strayed, TopClear, Visit, Frees, InWalk;
    visited, released, n, stray := visited0, released0, n0, NULL;
    var end := a.heaps[j].end;
    var scan := a.heaps[j].start;
    HeapStart(a.base, m0, j);
    while scan < end
      invariant scan <= end && (scan == end || (scan in m0.place && InSpan(m0.heaps, j, scan)))
      invariant InWalk(a.base, m0, l0, a.Hdr(), a.Lst(), j, scan, n, visited, released)
      invariant a.expoIters == old(a.expoIters) && a.constIters == old(a.constIters) && a.heaps == old(a.heaps)
      decreases end - scan
    {
      ghost var m, l := a.Hdr(), a.Lst();
      WalkIs(a.base, m0, l0, m, l, j, scan, n, visited, released);
      var payload, freed, found := SweepChunk(a, scan, m0, l0, j);
      if found {
        stray := scan;
        return;
      }
      NextInHeap(a.base, m0, j, scan);
      WalkOn(a.base, m0, l0, m, l, a.Hdr(), a.Lst(), j, scan, n, visited, released, freed);
      visited := visited + [scan];
      if freed {
        released := released + [scan];
      }
      scan, n := scan + HEADER + payload, n + 1;
    }
  }

  lemma StrayHere(base: Addr, m0: Headers, l0: Lists, m: Headers, l: Lists, j: int, s: Addr, n: nat)
    requires Sweeping(base, m0, l0, m, l, j, s) && Follows(m0, n, m, j, s)
    requires s in m0.place && 0 <= j < |m0.heaps| && InSpan(m0.heaps, j, s)
    ensures s == m0.top && !TopClear(m0) ==> Strayed(base, m0, l0, m, l, n, s) && s != NULL
  {
    hide Sweeping, Follows, Strayed, TopClear;
    if s == m0.top && !TopClear(m0) {
      StraysAt(base, m0, l0, m, l, j, s, n);
      ScanFacts(base, m0, l0, m, l, j, s);
    }
  }

  lemma SameHeaps(base: Addr, m0: Headers, l0: Lists, m: Headers, l: Lists, j: int, s: Addr)
    requires Sweeping(base, m0, l0, m, l, j, s)
    ensures m.heaps == m0.heaps
  {
  }

  lemma SweepStart(base: Addr, m: Headers, l: Lists)
    requires Sweepable(base, m, l)
    ensures TiledHeaps(base, m) && Follows(m, 0, m, 0, StartOf(m.heaps, 0))
    ensures var s := StartOf(m.heaps, 0); Sweeping(base, m, l, m, l, 0, s) && Tallied(m, 0, s, [], [])
  {
    SelfKeeps(base, m, l);
  }

  lemma SweepingHeap(base: Addr, m0: Headers, l0: Lists, m: Headers, l: Lists, j: int, s: Addr,
                     visited: seq<Addr>, released: seq<Addr>)
    requires 0 <= j < |m0.heaps| && (j + 1 < |m0.heaps| ==> s == m0.heaps[j + 1].start)
    requires Sweeping(base, m0, l0, m, l, j, m0.heaps[j].end) && Tallied(m0, j, m0.heaps[j].end, visited, released)
    ensures Sweeping(base, m0, l0, m, l, j + 1, s) && Tallied(m0, j + 1, s, visited, released)
  {
    hide Swept, Tallied;
    TallyHeap(m0, m, j, s, visited, released);
  }

  /** The outcome of a sweep: exactly the marked chunks stay live, no mark is left, and each chunk was visited once. */
  ghost predicate SweptAll(m0: Headers, m: Headers, visited: seq<Addr>, released: seq<Addr>)
  {
    && (forall c {:trigger Live(m, c)} :: Live(m, c) <==> Live(m0, c) && m0.marked(c))
    && (forall t :: t in m0.place ==> !m.marked(t)) && (forall t :: t in m.place ==> t in m0.place)
    && Distinct(visited) && (forall t :: t in visited <==> t in m0.place)
    && Distinct(released) && (forall t :: t in released <==> Live(m0, t) && !m0.marked(t))
  }

  lemma SweepEnd(base: Addr, m0: Headers, l0: Lists, m: Headers, l: Lists, j: int, s: Addr,
                 visited: seq<Addr>, released: seq<Addr>)
    requires Sweeping(base, m0, l0, m, l, j, s) && Tallied(m0, j, s, visited, released) && j == |m0.heaps|
    ensures SweptAll(m0, m, visited, released) && Keeps(base, m0, l0, m, l) && NoneLoose(m)
  {
    hide Sweepable, Keeps, NoneLoose, Behind, TiledHeaps, Follows;
    SweepStart(base, m0, l0);
    forall t | t in m0.place
      ensures Behind(m0.heaps, j, s, t)
    {
      AllBehind(base, m0, j, s, t);
    }
    AllDone(m0, m, j, s, visited, released);
  }

  lemma AllDone(m0: Headers, m: Headers, j: int, s: Addr, visited: seq<Addr>, released: seq<Addr>)
    requires Swept(m0, m, j, s) && Tallied(m0, j, s, visited, released)
    requires forall t :: t in m0.place ==> Behind(m0.heaps, j, s, t)
    ensures SweptAll(m0, m, visited, released)
  {
    hide Behind, Distinct;
    forall t | t in m0.place
      ensures Done(m0, m, t)
    {
    }
    forall c
      ensures Live(m, c) <==> Live(m0, c) && m0.marked(c)
    {
      assert c in m0.place ==> Done(m0, m, c);
    }
  }

  /** All chunks were visited, the top chunk among them. */
  lemma TopWasClear(base: Addr, m0: Headers, l0: Lists, m: Headers, visited: seq<Addr>, released: seq<Addr>)
    requires Sweepable(base, m0, l0) && SweptAll(m0, m, visited, released) && (m0.top in visited ==> TopClear(m0))
    ensures TopClear(m0)
  {
    hide HeadersOk, ListsOk;
    if m0.top != NULL {
      TopIsPlaced(base, m0);
    }
  }

  /** `gc_sweep` on one arena.  If the top chunk does not look like an unmarked chunk in use, exactly the marked
      chunks stay live; otherwise the walk comes to the top chunk and calls `release` for it. */
  method Sweep(a: Arena) returns (visited: seq<Addr>, released: seq<Addr>, stray: Addr, ghost n: nat)
    requires Sweepable(a.base, a.Hdr(), a.Lst())
    modifies a
    ensures a.expoIters == old(a.expoIters) && a.constIters == old(a.constIters) && a.heaps == old(a.heaps)
    ensures stray == NULL <==> TopClear(old(a.Hdr()))
    ensures stray == NULL ==> SweptAll(old(a.Hdr()), a.Hdr(), visited, released)
    ensures stray == NULL ==> Keeps(a.base, old(a.Hdr()), old(a.Lst()), a.Hdr(), a.Lst()) && NoneLoose(a.Hdr())
    ensures stray == NULL ==> ScanAfter(old(a.Hdr()), n) == Scan(a.Hdr(), |old(a.heaps)|, NULL)
    ensures stray != NULL ==> Strayed(a.base, old(a.Hdr()), old(a.Lst()), a.Hdr(), a.Lst(), n, stray)
  {
    hide Sweepable, Sweeping, Tallied, SweptAll, Keeps, NoneLoose, TiledHeaps, Follows, TopClear, Strayed, ScanAfter;
    hide Grown;
    ghost var m0, l0 := a.Hdr(), a.Lst();
    SweepStart(a.base, m0, l0);
    visited, released, stray, n := [], [], NULL, 0;
    var j := 0;
    ghost var s := StartOf(a.heaps, 0);
    while j < |a.heaps|
      invariant 0 <= j <= |a.heaps| && a.heaps == m0.heaps && s == StartOf(a.heaps, j)
      invariant stray == NULL && (m0.top in visited ==> TopClear(m0))
      invariant Sweeping(a.base, m0, l0, a.Hdr(), a.Lst(), j, s) && Tallied(m0, j, s, visited, released)
      invariant Follows(m0, n, a.Hdr(), j, s)
      invariant a.expoIters == old(a.expoIters) && a.constIters == old(a.constIters) && a.heaps == old(a.heaps)
      decreases |m0.heaps| - j
    {
      visited, released, stray, n := SweepHeap(a, j, m0, l0, n, visited, released);
      if stray != NULL {
        NotClear(a.base, m0, l0, a.Hdr(), a.Lst(), n, stray);
        return;
      }
      s := StartOf(m0.heaps, j + 1);
      SweepingHeap(a.base, m0, l0, a.Hdr(), a.Lst(), j, s, visited, released);
      FollowHeap(m0, n, a.Hdr(), j);
      j, n := j + 1, n + 1;
    }
    SweepEnd(a.base, m0, l0, a.Hdr(), a.Lst(), j, s, visited, released);
    TopWasClear(a.base, m0, l0, a.Hdr(), visited, released);
    assert Scan(a.Hdr(), j, NULL) == ScanAfter(m0, n) by { FollowsScan(m0, n, a.Hdr(), j, s); }
  }

  lemma NotClear(base: Addr, m0: Headers, l0: Lists, m: Headers, l: Lists, n: nat, s: Addr)
    requires Strayed(base, m0, l0, m, l, n, s)
    ensures !TopClear(m0)
  {
  }

  lemma FollowsScan(m0: Headers, n: nat, m: Headers, j: int, s: Addr)
    requires Follows(m0, n, m, j, s)
    ensures ScanAfter(m0, n) == Scan(m, j, s)
  {
  }

  // ---- Finding a chunk ----

  /** Pointer ptr points into the payload of chunk t, which looks in use. */
  ghost predicate PointsInto(m: Headers, ptr: Addr, t: Addr)
  {
    t in m.place && m.inUse(t) && t + HEADER <= ptr < Next(m.size, t)
  }

  /** `find_chunk_in_heap`: the chunk in use whose payload holds ptr, if heap j has one. */
  method FindChunk(a: Arena, j: int, ptr: Addr) returns (chunk: Addr)
    requires Good(a.base, a.Hdr(), a.Lst()) && 0 <= j < |a.heaps|
    ensures chunk != NULL ==> PointsInto(a.Hdr(), ptr, chunk) && InSpan(a.heaps, j, chunk)
    ensures chunk == NULL ==> forall t :: PointsInto(a.Hdr(), ptr, t) ==> !InSpan(a.heaps, j, t)
  {
    hide ListsOk, HeadersOk, TiledHeaps;
    ghost var m := a.Hdr();
    GoodTiles(a.base, m, a.Lst());
    HeapStart(a.base, m, j);
    var scan := a.heaps[j].start;
    while scan < a.heaps[j].end
      invariant scan <= a.heaps[j].end
      invariant scan == a.heaps[j].end || (scan in m.place && InSpan(m.heaps, j, scan))
      invariant forall t :: PointsInto(m, ptr, t) && InSpan(m.heaps, j, t) ==> scan <= t
      decreases a.heaps[j].end - scan
    {
      NextInHeap(a.base, m, j, scan);
      if a.inUse(scan) && scan + HEADER <= ptr < scan + HEADER + a.size(scan) {
        NotNull(a.base, m, scan);
        return scan;
      }
      scan := scan + HEADER + a.size(scan);
    }
    chunk := NULL;
  }

  lemma GoodTiles(base: Addr, m: Headers, l: Lists)
    requires Good(base, m, l)
    ensures TiledHeaps(base, m)
  {
  }

  lemma NotNull(base: Addr, m: Headers, a: Addr)
    requires TiledHeaps(base, m) && a in m.place
    ensures a != NULL
  {
  }

  /** At most one chunk holds a pointer. */
  lemma PointsIntoOne(base: Addr, m: Headers, ptr: Addr, t: Addr, u: Addr)
    requires TiledHeaps(base, m) && PointsInto(m, ptr, t) && PointsInto(m, ptr, u)
    ensures t == u
  {
  }
}
