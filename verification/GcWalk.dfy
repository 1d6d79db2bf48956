/** The walk of `gc_sweep` over the headers: releases merge chunks under it, and what it reads may be stale. */
module GcWalk {
  import opened ChunkLayout
  import opened Rings
  import opened Blocks
  import opened BinLists
  import opened ArenaSteps
  import opened Payloads
  import opened ArenaSpec
  import opened AllocSpec

  // ---- What a release writes ----

  /** The chunk c or the chunk just before it. */
  ghost predicate AtOrBefore(m: Headers, c: Addr, x: Addr)
  {
    x == c || (x in m.place && Next(m.size, x) == c)
  }

  /** From m to k, sizes and in-use bits change at most at c or just before it, marks only at boundaries, and no other
      chunk in use disappears. */
  ghost predicate TouchesOnly(m: Headers, k: Headers, c: Addr)
  {
    && k.heaps == m.heaps && k.ends == m.ends
    && (forall x :: x in k.place ==> x in m.place)
    && (forall x :: x in m.place && m.inUse(x) && x != c ==> x in k.place)
    && (forall x {:trigger k.marked(x)} :: x !in m.ends ==> k.marked(x) == m.marked(x))
    && (forall x {:trigger k.size(x)} :: !AtOrBefore(m, c, x) ==> k.size(x) == m.size(x))
    && (forall x {:trigger k.inUse(x)} :: !AtOrBefore(m, c, x) ==> k.inUse(x) == m.inUse(x))
  }

  lemma PrevIsFree(base: Addr, m: Headers, c: Addr)
    requires HeadersOk(base, m) && OnlyLoose(m, c) && !m.prevInUse(c)
    ensures var p := BackAt(m, c); p in m.place && m.place[p].Bin? && Next(m.size, p) == c && p != c
  {
    assert PrevFree(m.size, m.prevSize, m.place, c);
  }

  lemma BackTouches(base: Addr, m: Headers, c: Addr)
    requires HeadersOk(base, m) && OnlyLoose(m, c)
    ensures TouchesOnly(m, BackwardH(m, c), c) && AtOrBefore(m, c, BackAt(m, c))
    ensures HeadersOk(base, BackwardH(m, c)) && OnlyLoose(BackwardH(m, c), BackAt(m, c))
    ensures BackwardH(m, c).inUse == m.inUse && SameLive(m, BackwardH(m, c))
  {
    hide HeadersOk;
    if !m.prevInUse(c) {
      PrevIsFree(base, m, c);
      var p := BackAt(m, c);
      LoosenKeeps(base, m, p);
      JoinKeeps(base, Loosen(m, p), p, c);
    }
  }

  lemma TopBoundary(base: Addr, m: Headers, b: Addr)
    requires HeadersOk(base, m) && IsLoose(m, b) && Absorbs(m, b)
    ensures Next(m.size, b) == m.top ==>
              m.top != NULL && m.top != b && m.top in m.place && Next(AbsorbTopH(m, b).size, b) in m.ends
  {
    var n := Next(m.size, b);
    assert n in m.place || n in m.ends;
    if n == m.top {
      assert Next(m.size, m.top) in m.ends;
    }
  }

  lemma ForwardTouches(base: Addr, m: Headers, b: Addr)
    requires HeadersOk(base, m) && OnlyLoose(m, b)
    ensures var k := ForwardH(m, b);
            && k.heaps == m.heaps && k.ends == m.ends && k.inUse == m.inUse && SameLive(m, k)
            && (forall x :: x in k.place ==> x in m.place)
            && (forall x :: x in m.place && m.inUse(x) ==> x in k.place)
            && (forall x {:trigger k.marked(x)} :: x !in m.ends ==> k.marked(x) == m.marked(x))
            && (forall x {:trigger k.size(x)} :: x != b ==> k.size(x) == m.size(x))
  {
    if Absorbs(m, b) {
      var n := Next(m.size, b);
      assert n in m.place || n in m.ends;
      TopBoundary(base, m, b);
    }
  }

  lemma ReleaseTouches(base: Addr, m: Headers, c: Addr)
    requires HeadersOk(base, m) && NoneLoose(m) && Live(m, c)
    ensures TouchesOnly(m, ReleaseH(m, c), c)
  {
    hide HeadersOk, BackwardH, ForwardH;
    if m.size(c) > 16 * FASTBINS {
      var j := Loosen(m, c);
      LoosenKeeps(base, m, c);
      BackTouches(base, j, c);
      ForwardTouches(base, BackwardH(j, c), BackAt(j, c));
    }
  }

  // ---- How far the walk has come ----

  ghost predicate InSpan(heaps: seq<Span>, i: int, t: Addr)
    requires 0 <= i < |heaps|
  {
    heaps[i].start <= t < heaps[i].end
  }

  /** Address t lies in one of the first j heaps, or in heap j before s. */
  ghost predicate Behind(heaps: seq<Span>, j: int, s: Addr, t: Addr)
  {
    || (exists i :: 0 <= i < j && i < |heaps| && InSpan(heaps, i, t))
    || (0 <= j < |heaps| && InSpan(heaps, j, t) && t < s)
  }

  ghost predicate HeaderAsBefore(m0: Headers, m: Headers, t: Addr)
  {
    && m.size(t) == m0.size(t) && m.inUse(t) == m0.inUse(t) && m.marked(t) == m0.marked(t)
    && (Live(m, t) <==> Live(m0, t)) && (m.inUse(t) ==> t in m.place)
  }

  ghost predicate Done(m0: Headers, m: Headers, t: Addr)
  {
    !m.marked(t) && (Live(m, t) <==> Live(m0, t) && m0.marked(t))
  }

  /** Original chunks behind the scan are done, all others still have their original headers. */
  ghost predicate Swept(m0: Headers, m: Headers, j: int, s: Addr)
  {
    && m.heaps == m0.heaps && m.ends == m0.ends
    && (forall x :: x in m.place ==> x in m0.place)
    && (forall t {:trigger Done(m0, m, t)} :: t in m0.place && Behind(m0.heaps, j, s, t) ==> Done(m0, m, t))
    && (forall t {:trigger HeaderAsBefore(m0, m, t)} ::
          t in m0.place && !Behind(m0.heaps, j, s, t) ==> HeaderAsBefore(m0, m, t))
  }

  lemma OneHeap(base: Addr, heaps: seq<Span>, ends: set<Addr>, i: int, j: int, t: Addr)
    requires HeapsOk(base, heaps, ends) && 0 <= i < |heaps| && 0 <= j < |heaps|
    requires heaps[i].start <= t <= heaps[i].end && heaps[j].start <= t <= heaps[j].end
    ensures i == j
  {
  }

  /** The chunk after t in heap j is in heap j, or the heap ends there; nothing lies between. */
  lemma NextInHeap(base: Addr, m: Headers, j: int, t: Addr)
    requires TiledHeaps(base, m) && t in m.place && 0 <= j < |m.heaps| && InSpan(m.heaps, j, t)
    ensures var n := Next(m.size, t);
            && t < n <= m.heaps[j].end
            && (n == m.heaps[j].end || (n in m.place && InSpan(m.heaps, j, n)))
            && forall x :: x in m.place && t < x ==> n <= x
  {
    var n := Next(m.size, t);
    assert InHeap(m.heaps, m.size, t);
    var i :| 0 <= i < |m.heaps| && m.heaps[i].start <= t && n <= m.heaps[i].end;
    OneHeap(base, m.heaps, m.ends, i, j, t);
    if n in m.ends {
      assert IsEnd(m.heaps, n);
      var e :| 0 <= e < |m.heaps| && m.heaps[e].end == n;
      OneHeap(base, m.heaps, m.ends, e, j, n);
    }
  }

  lemma BehindStep(base: Addr, m: Headers, j: int, s: Addr, t: Addr)
    requires TiledHeaps(base, m) && s in m.place && t in m.place && 0 <= j < |m.heaps| && InSpan(m.heaps, j, s)
    ensures Behind(m.heaps, j, Next(m.size, s), t) <==> Behind(m.heaps, j, s, t) || t == s
    ensures !Behind(m.heaps, j, s, s)
  {
    NextInHeap(base, m, j, s);
    forall i | 0 <= i < j && InSpan(m.heaps, i, s)
      ensures false
    {
      OneHeap(base, m.heaps, m.ends, i, j, s);
    }
  }

  lemma BehindHeap(heaps: seq<Span>, j: int, s: Addr, t: Addr)
    requires 0 <= j < |heaps| && (j + 1 < |heaps| ==> s == heaps[j + 1].start)
    ensures Behind(heaps, j + 1, s, t) <==> Behind(heaps, j, heaps[j].end, t)
  {
  }

  /** A chunk and its predecessor are in the same heap. */
  lemma PrevInHeap(base: Addr, m: Headers, j: int, p: Addr, c: Addr)
    requires TiledHeaps(base, m) && p in m.place && c in m.place && c == Next(m.size, p)
    requires 0 <= j < |m.heaps| && InSpan(m.heaps, j, c)
    ensures InSpan(m.heaps, j, p) && p < c
  {
    NeighbourInHeap(base, m, p, c);
    var i :| 0 <= i < |m.heaps| && m.heaps[i].start <= p && Next(m.size, c) <= m.heaps[i].end;
    OneHeap(base, m.heaps, m.ends, i, j, c);
  }

  lemma NotAnEnd(base: Addr, m: Headers, t: Addr)
    requires TiledHeaps(base, m) && t in m.place
    ensures t !in m.ends
  {
    if t in m.ends {
      EndsAreOutside(base, m, t, t);
    }
  }

  // ---- One chunk of the walk ----

  lemma SkipStep(base: Addr, m0: Headers, m: Headers, j: int, s: Addr)
    requires HeadersOk(base, m0) && Swept(m0, m, j, s) && s in m0.place && 0 <= j < |m0.heaps| && InSpan(m0.heaps, j, s)
    requires !m.marked(s) && !Live(m0, s)
    ensures Swept(m0, m, j, Next(m0.size, s))
  {
    forall t | t in m0.place
      ensures if Behind(m0.heaps, j, Next(m0.size, s), t) then Done(m0, m, t) else HeaderAsBefore(m0, m, t)
    {
      BehindStep(base, m0, j, s, t);
      assert Behind(m0.heaps, j, s, t) ==> Done(m0, m, t);
      assert !Behind(m0.heaps, j, s, t) ==> HeaderAsBefore(m0, m, t);
    }
  }

  lemma UnmarkStep(base: Addr, m0: Headers, m: Headers, j: int, s: Addr)
    requires HeadersOk(base, m0) && Swept(m0, m, j, s) && s in m0.place && 0 <= j < |m0.heaps| && InSpan(m0.heaps, j, s)
    requires m.marked(s)
    ensures Swept(m0, m.(marked := Flag(m.marked, s, false)), j, Next(m0.size, s))
  {
    var k := m.(marked := Flag(m.marked, s, false));
    forall t | t in m0.place
      ensures if Behind(m0.heaps, j, Next(m0.size, s), t) then Done(m0, k, t) else HeaderAsBefore(m0, k, t)
    {
      BehindStep(base, m0, j, s, t);
      assert Behind(m0.heaps, j, s, t) ==> Done(m0, m, t);
      assert !Behind(m0.heaps, j, s, t) ==> HeaderAsBefore(m0, m, t);
    }
  }

  lemma ReleaseStep(base: Addr, m0: Headers, m: Headers, j: int, s: Addr, k: Headers)
    requires HeadersOk(base, m0) && HeadersOk(base, m) && Swept(m0, m, j, s)
    requires s in m0.place && 0 <= j < |m0.heaps| && InSpan(m0.heaps, j, s)
    requires !m.marked(s) && Live(m, s) && TouchesOnly(m, k, s) && GivenBack(m, k, s)
    ensures Swept(m0, k, j, Next(m0.size, s))
  {
    forall t | t in m0.place
      ensures if Behind(m0.heaps, j, Next(m0.size, s), t) then Done(m0, k, t) else HeaderAsBefore(m0, k, t)
    {
      BehindStep(base, m0, j, s, t);
      NotAnEnd(base, m0, t);
      assert Live(k, t) <==> Live(m, t) && t != s;
      if Behind(m0.heaps, j, s, t) {
        assert Done(m0, m, t);
      } else {
        assert HeaderAsBefore(m0, m, t);
        if t in m.place && Next(m.size, t) == s {
          PrevInHeap(base, m, j, t, s);
        }
        assert t != s ==> !AtOrBefore(m, s, t);
      }
    }
  }

  // ---- What the walk reads ----

  /** The top chunk does not look like an unmarked chunk in use. */
  ghost predicate TopClear(m: Headers)
  {
    m.top != NULL && m.inUse(m.top) ==> m.marked(m.top)
  }

  /** The chunk at s is about to be released. */
  ghost predicate Frees(m: Headers, s: Addr)
  {
    !m.marked(s) && m.inUse(s)
  }

  /** A chunk that the walk still has before it is released exactly if it was unmarked and handed out, or is the top
      chunk and looks like that. */
  lemma LooksLive(base: Addr, m0: Headers, m: Headers, j: int, s: Addr)
    requires HeadersOk(base, m0) && NoneLoose(m0) && HeadersOk(base, m) && NoneLoose(m)
    requires Swept(m0, m, j, s) && s in m0.place && 0 <= j < |m0.heaps| && InSpan(m0.heaps, j, s)
    ensures m.size(s) == m0.size(s) && m.marked(s) == m0.marked(s) && (Live(m, s) <==> Live(m0, s))
    ensures Frees(m, s) <==> (Live(m0, s) && !m0.marked(s)) || (s == m0.top && !TopClear(m0))
    ensures Frees(m, s) && s == m.top <==> s == m0.top && !TopClear(m0)
  {
    BehindStep(base, m0, j, s, s);
    assert HeaderAsBefore(m0, m, s);
  }

  // ---- The walk as it is written ----

  /** The walk is at address `at` of heap j. */
  datatype Scan = Scan(m: Headers, j: int, at: Addr)

  function StartOf(heaps: seq<Span>, j: int): Addr
  {
    if 0 <= j < |heaps| then heaps[j].start else NULL
  }

  ghost predicate AtChunk(x: Scan)
  {
    0 <= x.j < |x.m.heaps| && x.at < x.m.heaps[x.j].end
  }

  /** What the walk does to the chunk at s: clear its mark, or release it if it looks in use. */
  ghost function Visit(m: Headers, s: Addr): Headers
  {
    if m.marked(s) then m.(marked := Flag(m.marked, s, false))
    else if m.inUse(s) && m.size(s) < MMAP_THRESHOLD then ReleaseH(m, s)
    else m
  }

  /** The next chunk, whose address was computed before the visit, or the next heap. */
  ghost function ScanNext(x: Scan): Scan
  {
    if AtChunk(x) then Scan(Visit(x.m, x.at), x.j, Next(x.m.size, x.at))
    else if 0 <= x.j < |x.m.heaps| then Scan(x.m, x.j + 1, StartOf(x.m.heaps, x.j + 1))
    else x
  }

  ghost function ScanAfter(m: Headers, n: nat): Scan
  {
    if n == 0 then Scan(m, 0, StartOf(m.heaps, 0)) else ScanNext(ScanAfter(m, n - 1))
  }

  /** The walk calls `release` at x. */
  ghost predicate Releases(x: Scan)
  {
    AtChunk(x) && Frees(x.m, x.at)
  }

  /** Every call of `release` in the walk is for a chunk that is handed out. */
  ghost predicate SafeWalk(m: Headers)
  {
    forall n: nat :: Releases(ScanAfter(m, n)) ==> Live(ScanAfter(m, n).m, ScanAfter(m, n).at)
  }

  // ---- Headers after a release ----

  lemma ForwardHeaders(base: Addr, m: Headers, b: Addr)
    requires HeadersOk(base, m) && OnlyLoose(m, b)
    ensures var k := ForwardH(m, b);
            HeadersOk(base, k) && if ForwardAt(m, b) == NULL then NoneLoose(k) else OnlyLoose(k, b)
  {
    if Absorbs(m, b) {
      var n := Next(m.size, b);
      assert n in m.place || n in m.ends;
      TopBoundary(base, m, b);
      if n == m.top {
        AbsorbTopHeaders(base, m, b);
      } else {
        LoosenKeeps(base, m, n);
        JoinKeeps(base, Loosen(m, n), b, n);
      }
    }
  }

  lemma AbsorbTopHeaders(base: Addr, m: Headers, b: Addr)
    requires HeadersOk(base, m) && OnlyLoose(m, b) && m.top != NULL && Next(m.size, b) == m.top && b != NULL
    ensures HeadersOk(base, AbsorbTopH(m, b)) && NoneLoose(AbsorbTopH(m, b))
  {
    hide HeadersOk;
    var n, j := m.top, LoosenTop(m);
    LoosenTopKeeps(base, m);
    TopEnd(base, m);
    JoinKeeps(base, j, b, n);
    var k := Join(j, b, n);
    MakeTopKeeps(base, k, b);
    UnmarkHeaders(base, MakeTop(k, b), Next(k.size, b));
  }

  lemma TopEnd(base: Addr, m: Headers)
    requires HeadersOk(base, m) && m.top != NULL
    ensures m.top in m.place && m.place[m.top].Top? && Next(m.size, m.top) in m.ends && m.prevInUse(Next(m.size, m.top))
  {
  }

  lemma UnmarkHeaders(base: Addr, m: Headers, x: Addr)
    requires HeadersOk(base, m)
    ensures HeadersOk(base, m.(marked := Flag(m.marked, x, false)))
  {
  }

  lemma ReleaseHeaders(base: Addr, m: Headers, c: Addr)
    requires HeadersOk(base, m) && NoneLoose(m) && Live(m, c)
    ensures HeadersOk(base, ReleaseH(m, c)) && NoneLoose(ReleaseH(m, c)) && GivenBack(m, ReleaseH(m, c), c)
  {
    hide HeadersOk, BackwardH, ForwardH, AbsorbTopH;
    if m.size(c) <= 16 * FASTBINS {
      FastHeaders(base, m, c);
    } else {
      var j := Loosen(m, c);
      LoosenKeeps(base, m, c);
      BackTouches(base, j, c);
      var b, k := BackAt(j, c), BackwardH(j, c);
      ForwardHeaders(base, k, b);
      ForwardTouches(base, k, b);
      if ForwardAt(k, b) != NULL {
        ShelveKeeps(base, ForwardH(k, b), b, UNSORTED);
      }
      forall x
        ensures Live(ReleaseH(m, c), x) <==> Live(m, x) && x != c
      {
        assert Live(k, x) <==> Live(j, x);
        assert Live(ForwardH(k, b), x) <==> Live(k, x);
      }
    }
  }

  lemma FastHeaders(base: Addr, m: Headers, c: Addr)
    requires HeadersOk(base, m) && NoneLoose(m) && Live(m, c) && m.size(c) <= 16 * FASTBINS
    ensures HeadersOk(base, ReleaseH(m, c)) && NoneLoose(ReleaseH(m, c)) && GivenBack(m, ReleaseH(m, c), c)
  {
    hide HeadersOk;
    FastClass(base, m, c);
    ToFastKeeps(base, m, c, m.size(c) / 16 - 1);
  }

  lemma FastClass(base: Addr, m: Headers, c: Addr)
    requires HeadersOk(base, m) && c in m.place && m.size(c) <= 16 * FASTBINS
    ensures m.size(c) == 16 * (m.size(c) / 16) && 1 < m.size(c) / 16 <= FASTBINS
  {
    assert m.size(c) >= MIN_PAYLOAD && Aligned(m.size(c));
  }

  // ---- The walk is safe exactly when the top chunk is clear ----

  /** As far as the walk has come, everything behind it is done and everything before it looks as it did. */
  ghost predicate Walking(base: Addr, m0: Headers, x: Scan)
  {
    && HeadersOk(base, x.m) && NoneLoose(x.m) && Swept(m0, x.m, x.j, x.at) && 0 <= x.j <= |m0.heaps|
    && (x.j < |m0.heaps| ==>
          x.at == m0.heaps[x.j].end || (x.at in m0.place && InSpan(m0.heaps, x.j, x.at)))
  }

  lemma VisitStep(base: Addr, m0: Headers, x: Scan)
    requires HeadersOk(base, m0) && NoneLoose(m0) && Bounded(m0) && Walking(base, m0, x) && AtChunk(x)
    requires x.at == m0.top ==> TopClear(m0)
    ensures Walking(base, m0, ScanNext(x))
  {
    hide HeadersOk, Swept, ReleaseH, TouchesOnly, GivenBack;
    var m, j, s := x.m, x.j, x.at;
    SweptHeaps(m0, m, j, s);
    LooksLive(base, m0, m, j, s);
    NextInHeapOk(base, m0, j, s);
    if m.marked(s) {
      UnmarkStep(base, m0, m, j, s);
      UnmarkHeaders(base, m, s);
    } else if m.inUse(s) {
      assert Live(m0, s);
      ReleaseTouches(base, m, s);
      ReleaseHeaders(base, m, s);
      ReleaseStep(base, m0, m, j, s, ReleaseH(m, s));
    } else {
      UseBit(base, m, s);
      SkipStep(base, m0, m, j, s);
    }
  }

  lemma SweptHeaps(m0: Headers, m: Headers, j: int, s: Addr)
    requires Swept(m0, m, j, s)
    ensures m.heaps == m0.heaps
  {
  }

  lemma UseBit(base: Addr, m: Headers, s: Addr)
    requires HeadersOk(base, m) && !m.inUse(s)
    ensures !Live(m, s)
  {
  }

  lemma NextInHeapOk(base: Addr, m: Headers, j: int, t: Addr)
    requires HeadersOk(base, m) && t in m.place && 0 <= j < |m.heaps| && InSpan(m.heaps, j, t)
    ensures var n := Next(m.size, t);
            t < n <= m.heaps[j].end && (n == m.heaps[j].end || (n in m.place && InSpan(m.heaps, j, n)))
  {
    NextInHeap(base, m, j, t);
  }

  lemma HeapStep(base: Addr, m0: Headers, x: Scan)
    requires HeadersOk(base, m0) && Walking(base, m0, x) && !AtChunk(x) && x.j < |m0.heaps|
    ensures Walking(base, m0, ScanNext(x))
    ensures forall t :: Behind(m0.heaps, x.j + 1, StartOf(m0.heaps, x.j + 1), t) <==> Behind(m0.heaps, x.j, x.at, t)
  {
    hide HeadersOk, Behind, Swept;
    var s := StartOf(m0.heaps, x.j + 1);
    WalkingHeaps(base, m0, x);
    forall t
      ensures Behind(m0.heaps, x.j + 1, s, t) <==> Behind(m0.heaps, x.j, m0.heaps[x.j].end, t)
    {
      BehindHeap(m0.heaps, x.j, s, t);
    }
    SweptAt(m0, x.m, x.j, x.at, x.j + 1, s);
    if x.j + 1 < |m0.heaps| {
      HeadersTile(base, m0);
      HeapStart(base, m0, x.j + 1);
    }
  }

  lemma SweptAt(m0: Headers, m: Headers, j: int, s: Addr, j': int, s': Addr)
    requires Swept(m0, m, j, s) && forall t :: Behind(m0.heaps, j', s', t) <==> Behind(m0.heaps, j, s, t)
    ensures Swept(m0, m, j', s')
  {
    hide Behind;
  }

  lemma HeapStart(base: Addr, m: Headers, j: int)
    requires TiledHeaps(base, m) && 0 <= j < |m.heaps|
    ensures m.heaps[j].start in m.place && InSpan(m.heaps, j, m.heaps[j].start)
  {
  }

  lemma WalkStart(base: Addr, m0: Headers)
    requires HeadersOk(base, m0) && NoneLoose(m0)
    ensures Walking(base, m0, ScanAfter(m0, 0))
  {
    forall t | t in m0.place
      ensures HeaderAsBefore(m0, m0, t) && !Behind(m0.heaps, 0, StartOf(m0.heaps, 0), t)
    {
    }
  }

  /** With a clear top chunk the walk never meets anything but what it looks like. */
  lemma {:induction false} ClearWalk(base: Addr, m0: Headers, n: nat)
    requires HeadersOk(base, m0) && NoneLoose(m0) && Bounded(m0) && TopClear(m0)
    ensures Walking(base, m0, ScanAfter(m0, n))
  {
    hide HeadersOk, Walking, Visit;
    if n == 0 {
      WalkStart(base, m0);
    } else {
      var x := ScanAfter(m0, n - 1);
      ClearWalk(base, m0, n - 1);
      assert x.m.heaps == m0.heaps && 0 <= x.j <= |m0.heaps| by { WalkingHeaps(base, m0, x); }
      if AtChunk(x) {
        VisitStep(base, m0, x);
      } else if x.j < |m0.heaps| {
        HeapStep(base, m0, x);
      }
    }
  }

  lemma WalkingHeaps(base: Addr, m0: Headers, x: Scan)
    requires Walking(base, m0, x)
    ensures x.m.heaps == m0.heaps && 0 <= x.j <= |m0.heaps|
    ensures AtChunk(x) ==> x.at in m0.place && InSpan(m0.heaps, x.j, x.at)
    ensures !AtChunk(x) && x.j < |m0.heaps| ==> x.at == m0.heaps[x.j].end
    ensures HeadersOk(base, x.m) && NoneLoose(x.m) && Swept(m0, x.m, x.j, x.at)
  {
  }

  lemma TopIsPlaced(base: Addr, m: Headers)
    requires HeadersOk(base, m) && m.top != NULL
    ensures m.top in m.place && !Live(m, m.top)
  {
  }

  /** How much of the heaps is still before the walk. */
  ghost function Ahead(heaps: seq<Span>, x: Scan): int
  {
    if 0 <= x.j < |heaps| && x.at < heaps[x.j].end then heaps[x.j].end - x.at else 0
  }

  lemma TopAhead(base: Addr, m0: Headers, x: Scan)
    requires HeadersOk(base, m0) && NoneLoose(m0) && Walking(base, m0, x) && m0.top != NULL
    requires !Behind(m0.heaps, x.j, x.at, m0.top)
    ensures x.j < |m0.heaps|
    ensures AtChunk(x) && x.at != m0.top ==> !Behind(m0.heaps, x.j, Next(x.m.size, x.at), m0.top)
    ensures AtChunk(x) ==> x.m.heaps == m0.heaps && x.at < Next(x.m.size, x.at) <= m0.heaps[x.j].end
  {
    hide HeadersOk, Behind, Swept;
    WalkingHeaps(base, m0, x);
    TopIsPlaced(base, m0);
    HeadersTile(base, m0);
    if x.j == |m0.heaps| {
      AllBehind(base, m0, x.j, x.at, m0.top);
    } else if AtChunk(x) {
      LooksLive(base, m0, x.m, x.j, x.at);
      BehindStep(base, m0, x.j, x.at, m0.top);
      NextInHeapOk(base, m0, x.j, x.at);
    }
  }

  lemma HeadersTile(base: Addr, m: Headers)
    requires HeadersOk(base, m)
    ensures TiledHeaps(base, m)
  {
  }

  /** Everything is behind the end of the last heap. */
  lemma AllBehind(base: Addr, m: Headers, j: int, s: Addr, t: Addr)
    requires TiledHeaps(base, m) && t in m.place && j == |m.heaps|
    ensures Behind(m.heaps, j, s, t)
  {
    assert InHeap(m.heaps, m.size, t);
    var i :| 0 <= i < |m.heaps| && m.heaps[i].start <= t && Next(m.size, t) <= m.heaps[i].end;
    assert InSpan(m.heaps, i, t);
  }

  /** The walk comes to the top chunk, with its header as it was before the sweep. */
  lemma {:induction false} ReachesTop(base: Addr, m0: Headers, n: nat) returns (k: nat)
    requires HeadersOk(base, m0) && NoneLoose(m0) && Bounded(m0) && m0.top != NULL
    requires var x := ScanAfter(m0, n); Walking(base, m0, x) && !Behind(m0.heaps, x.j, x.at, m0.top)
    ensures var x := ScanAfter(m0, k); Walking(base, m0, x) && AtChunk(x) && x.at == m0.top
    decreases |m0.heaps| - ScanAfter(m0, n).j, Ahead(m0.heaps, ScanAfter(m0, n))
  {
    hide HeadersOk, Walking, Behind, Visit;
    var x := ScanAfter(m0, n);
    TopAhead(base, m0, x);
    WalkingHeaps(base, m0, x);
    k := n;
    if AtChunk(x) && x.at != m0.top {
      VisitStep(base, m0, x);
      k := ReachesTop(base, m0, n + 1);
    } else if !AtChunk(x) {
      HeapStep(base, m0, x);
      k := ReachesTop(base, m0, n + 1);
    }
  }

  /** The walk releases only chunks that are handed out exactly when the top chunk is clear before it: otherwise it
      comes to the top chunk and calls `release` for it. */
  lemma SafeIffTopClear(base: Addr, m: Headers)
    requires HeadersOk(base, m) && NoneLoose(m) && Bounded(m)
    ensures SafeWalk(m) <==> TopClear(m)
  {
    hide HeadersOk, Walking, ScanAfter;
    if TopClear(m) {
      forall n: nat | Releases(ScanAfter(m, n))
        ensures Live(ScanAfter(m, n).m, ScanAfter(m, n).at)
      {
        var x := ScanAfter(m, n);
        ClearWalk(base, m, n);
        WalkingHeaps(base, m, x);
        LooksLive(base, m, x.m, x.j, x.at);
      }
    } else {
      var n := MeetsTop(base, m);
    }
  }

  /** A top chunk that is not clear is released by the walk, although it is not handed out. */
  lemma MeetsTop(base: Addr, m: Headers) returns (n: nat)
    requires HeadersOk(base, m) && NoneLoose(m) && Bounded(m) && !TopClear(m)
    ensures var x := ScanAfter(m, n); Releases(x) && x.at == m.top && x.m.top == m.top && !Live(x.m, x.at)
  {
    hide HeadersOk, Walking, ScanAfter;
    WalkStart(base, m);
    StartAhead(base, m);
    n := ReachesTop(base, m, 0);
    var x := ScanAfter(m, n);
    WalkingHeaps(base, m, x);
    LooksLive(base, m, x.m, x.j, x.at);
    TopIsPlaced(base, m);
  }

  lemma StartAhead(base: Addr, m: Headers)
    requires HeadersOk(base, m) && m.top != NULL
    ensures var x := ScanAfter(m, 0); !Behind(m.heaps, x.j, x.at, m.top)
  {
  }
}
