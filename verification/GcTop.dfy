/** What a sweep does to the top chunk, and when the next sweep is safe again. */
module GcTop {
  import opened ChunkLayout
  import opened Rings
  import opened Blocks
  import opened BinLists
  import opened ArenaSteps
  import opened Payloads
  import opened ArenaSpec
  import opened AllocSpec
  import opened GcWalk

  // ---- When a release leaves the top chunk flagged ----

  /** Releasing a chunk in front of the top chunk leaves the new top chunk looking in use, unless the chunk before
      it was free: the next sweep is then unsafe. */
  lemma ReleaseCanFlagTop(base: Addr, m: Headers, c: Addr)
    requires HeadersOk(base, m) && NoneLoose(m) && Live(m, c) && 16 * FASTBINS < m.size(c)
    requires Absorbs(m, c) && Next(m.size, c) == m.top
    ensures var k := ReleaseH(m, c);
            k.top != NULL && (k.inUse(k.top) <==> m.prevInUse(c))
  {
    hide HeadersOk;
    var j := Loosen(m, c);
    LoosenKeeps(base, m, c);
    BackTouches(base, j, c);
    FlagBefore(base, m, c);
    TopBoundary(base, BackwardH(j, c), BackAt(j, c));
  }

  lemma FlagBefore(base: Addr, m: Headers, c: Addr)
    requires HeadersOk(base, m) && NoneLoose(m) && Live(m, c)
    ensures var j := Loosen(m, c);
            var b, k := BackAt(j, c), BackwardH(j, c);
            && b != NULL && Next(k.size, b) == Next(m.size, c) && k.top == m.top && k.inUse == m.inUse
            && (m.inUse(b) <==> m.prevInUse(c))
            && (Next(m.size, c) in m.place ==> k.size(Next(m.size, c)) == m.size(Next(m.size, c)))
  {
    LoosenKeeps(base, m, c);
    if !m.prevInUse(c) {
      PrevIsFree(base, Loosen(m, c), c);
    }
  }

  /** Chunk c is released into the top chunk. */
  ghost predicate IntoTop(m: Headers, c: Addr)
  {
    m.size(c) > 16 * FASTBINS && Absorbs(m, c) && Next(m.size, c) == m.top
  }

  /** Any other release leaves the top chunk and its in-use bit alone. */
  lemma ReleaseKeepsTop(base: Addr, m: Headers, c: Addr)
    requires HeadersOk(base, m) && NoneLoose(m) && Live(m, c) && !IntoTop(m, c)
    ensures var k := ReleaseH(m, c); k.top == m.top && (m.top != NULL ==> k.inUse(m.top) == m.inUse(m.top))
  {
    hide HeadersOk;
    if m.top != NULL {
      TopIsPlaced(base, m);
    }
    if m.size(c) > 16 * FASTBINS {
      var j := Loosen(m, c);
      LoosenKeeps(base, m, c);
      BackTouches(base, j, c);
      FlagBefore(base, m, c);
      BackNotTop(base, m, c);
      SameNext(base, m, c);
    }
  }

  lemma BackNotTop(base: Addr, m: Headers, c: Addr)
    requires HeadersOk(base, m) && NoneLoose(m) && Live(m, c)
    ensures m.top != NULL ==> BackAt(Loosen(m, c), c) != m.top
  {
    LoosenKeeps(base, m, c);
    if !m.prevInUse(c) {
      PrevIsFree(base, Loosen(m, c), c);
    }
  }

  /** Looking backward does not change what is seen forward. */
  lemma SameNext(base: Addr, m: Headers, c: Addr)
    requires HeadersOk(base, m) && NoneLoose(m) && Live(m, c)
    ensures var j := Loosen(m, c);
            var b, k := BackAt(j, c), BackwardH(j, c);
            Absorbs(k, b) <==> Absorbs(m, c)
  {
    LoosenKeeps(base, m, c);
    FlagBefore(base, m, c);
    assert Next(m.size, c) in m.place || Next(m.size, c) in m.ends;
  }

  /** A release tells the next chunk that its predecessor is free exactly if the released chunk is too large for a
      fastbin. */
  lemma ReleasePrev(base: Addr, m: Headers, s: Addr, c: Addr)
    requires HeadersOk(base, m) && NoneLoose(m) && Live(m, s) && Live(m, c) && s != c
    ensures ReleaseH(m, s).prevInUse(c) <==>
              m.prevInUse(c) && !(m.size(s) > 16 * FASTBINS && Next(m.size, s) == c)
  {
    hide HeadersOk;
    if m.size(s) > 16 * FASTBINS {
      var j := Loosen(m, s);
      var b, k := BackAt(j, s), BackwardH(j, s);
      LoosenKeeps(base, m, s);
      BackTouches(base, j, s);
      FlagBefore(base, m, s);
      SameNext(base, m, s);
      AheadOf(base, m, s, c);
    }
  }

  /** If the chunk behind s is merged into it, the one behind that already knew. */
  lemma AheadOf(base: Addr, m: Headers, s: Addr, c: Addr)
    requires HeadersOk(base, m) && NoneLoose(m) && Live(m, s) && Live(m, c)
    ensures var n := Next(m.size, s);
            Absorbs(m, s) ==> n in m.place && n != c && (n != m.top && Next(m.size, n) == c ==> !m.prevInUse(c))
  {
    var n := Next(m.size, s);
    assert n in m.place || n in m.ends;
    if n in m.place {
      assert Next(m.size, n) == c && m.place[n].Bin? ==> !m.prevInUse(c);
    }
  }

  // ---- The top chunk through a whole sweep ----

  /** Chunk c, just before the top chunk, is one that the sweep merges into it. */
  ghost predicate Grows(m: Headers, c: Addr)
  {
    Live(m, c) && !m.marked(c) && IntoTop(m, c)
  }

  /** Chunk p is free for the chunk behind it once the sweep has passed: it is in a ring bin or goes there. */
  ghost predicate Ripe(m: Headers, p: Addr)
  {
    p in m.place && (m.place[p].Bin? || (Live(m, p) && !m.marked(p) && m.size(p) > 16 * FASTBINS))
  }

  /** The chunk before c is free when the walk is at (j, s). */
  ghost predicate FreeBefore(m: Headers, j: int, s: Addr, c: Addr)
  {
    exists p :: p in m.place && Next(m.size, p) == c && Ripe(m, p) && (m.place[p].Bin? || Behind(m.heaps, j, s, p))
  }

  ghost predicate Backed(m: Headers, c: Addr)
  {
    exists p :: p in m.place && Next(m.size, p) == c && Ripe(m, p)
  }

  /** After the sweep the top chunk is clear: it did not look in use, and whatever was merged into it was first merged
      into a free chunk. */
  ghost predicate StaysClear(m: Headers)
  {
    (m.top != NULL ==> !m.inUse(m.top)) && forall c :: Grows(m, c) ==> Backed(m, c)
  }

  /** Where the top chunk is when nothing is merged into it. */
  ghost predicate TopUntouched(m0: Headers, m: Headers)
  {
    m.top == m0.top && (m.top != NULL ==> m.inUse(m.top) == m0.inUse(m0.top))
  }

  /** Where the top chunk is when c is merged into it: before and after the walk has passed c. */
  ghost predicate TopAt(m0: Headers, c: Addr, m: Headers, j: int, s: Addr)
  {
    if Behind(m0.heaps, j, s, c)
    then m.top != NULL && Behind(m0.heaps, j, s, m.top) && (m.inUse(m.top) <==> !Backed(m0, c))
    else TopUntouched(m0, m) && (m.prevInUse(c) <==> !FreeBefore(m0, j, s, c))
  }

  /** The walk is at a chunk that it may visit. */
  ghost predicate Visits(base: Addr, m0: Headers, x: Scan)
  {
    && HeadersOk(base, m0) && NoneLoose(m0) && Bounded(m0) && TopClear(m0)
    && Walking(base, m0, x) && AtChunk(x)
  }

  /** What a visit does: a live chunk is released, or only marks change. */
  lemma VisitIs(base: Addr, m0: Headers, x: Scan)
    requires Visits(base, m0, x)
    ensures var m, s := x.m, x.at;
            && s in m0.place && 0 <= x.j < |m0.heaps| && InSpan(m0.heaps, x.j, s) && HeadersOk(base, m) && NoneLoose(m)
            && m.size(s) == m0.size(s) && !Behind(m0.heaps, x.j, s, s)
            && if Live(m0, s) && !m0.marked(s) then Live(m, s) && Visit(m, s) == ReleaseH(m, s)
               else Visit(m, s) == m.(marked := Visit(m, s).marked)
  {
    hide HeadersOk, Swept, Behind, ReleaseH;
    WalkingHeaps(base, m0, x);
    LooksLive(base, m0, x.m, x.j, x.at);
    HeadersTile(base, m0);
    BehindStep(base, m0, x.j, x.at, x.at);
    if !x.m.inUse(x.at) {
      UseBit(base, x.m, x.at);
    }
  }

  /** The chunk behind the one that is visited is still before the walk. */
  lemma NextNotBehind(base: Addr, m: Headers, j: int, s: Addr)
    requires HeadersOk(base, m) && s in m.place && 0 <= j < |m.heaps| && InSpan(m.heaps, j, s)
    requires Next(m.size, s) in m.place
    ensures !Behind(m.heaps, j, s, Next(m.size, s))
  {
    var n := Next(m.size, s);
    NextInHeap(base, m, j, s);
    if i :| 0 <= i < j && i < |m.heaps| && InSpan(m.heaps, i, n) {
      OneHeap(base, m.heaps, m.ends, i, j, n);
    }
  }

  /** Whether the chunk at the walk is merged into the top chunk shows before the sweep. */
  lemma MergesAsSeen(base: Addr, m0: Headers, x: Scan)
    requires Visits(base, m0, x) && x.m.top == m0.top && Live(m0, x.at)
    ensures IntoTop(x.m, x.at) <==> IntoTop(m0, x.at)
  {
    hide HeadersOk, Behind;
    var m, s := x.m, x.at;
    VisitIs(base, m0, x);
    if Next(m0.size, s) == m0.top {
      NextIsPlaced(base, m0, s);
      NextNotBehind(base, m0, x.j, s);
      assert HeaderAsBefore(m0, m, m0.top);
    }
  }

  lemma NextIsPlaced(base: Addr, m: Headers, s: Addr)
    requires HeadersOk(base, m) && s in m.place && Next(m.size, s) == m.top
    ensures m.top in m.place && m.top != NULL
  {
  }

  /** A visit of a chunk that is not merged into the top chunk leaves the top chunk alone. */
  lemma VisitKeepsTop(base: Addr, m0: Headers, x: Scan)
    requires Visits(base, m0, x) && !(Live(m0, x.at) && !m0.marked(x.at) && IntoTop(x.m, x.at))
    ensures var k := Visit(x.m, x.at); k.top == x.m.top && (k.top != NULL ==> k.inUse(k.top) == x.m.inUse(k.top))
  {
    hide HeadersOk, Behind, ReleaseH, Walking, Visit;
    VisitIs(base, m0, x);
    if Live(m0, x.at) && !m0.marked(x.at) {
      ReleaseKeepsTop(base, x.m, x.at);
    }
  }

  lemma UntouchedStep(base: Addr, m0: Headers, x: Scan)
    requires Visits(base, m0, x) && TopUntouched(m0, x.m) && !Grows(m0, x.at)
    ensures TopUntouched(m0, Visit(x.m, x.at))
  {
    hide HeadersOk, Walking, Visit, IntoTop;
    if Live(m0, x.at) {
      MergesAsSeen(base, m0, x);
    }
    VisitKeepsTop(base, m0, x);
  }

  /** Only one chunk is just before the top chunk. */
  lemma OneGrows(base: Addr, m: Headers, c: Addr, d: Addr)
    requires HeadersOk(base, m) && Grows(m, c) && Grows(m, d)
    ensures c == d
  {
    OtherNext(m, c);
  }

  /** The visit of c merges it into the top chunk. */
  lemma GrowStep(base: Addr, m0: Headers, x: Scan)
    requires Visits(base, m0, x) && Grows(m0, x.at) && TopAt(m0, x.at, x.m, x.j, x.at)
    ensures TopAt(m0, x.at, Visit(x.m, x.at), x.j, Next(x.m.size, x.at))
  {
    hide HeadersOk, Walking, Visit, ReleaseH, Behind;
    var m, c := x.m, x.at;
    VisitIs(base, m0, x);
    MergesAsSeen(base, m0, x);
    ReleaseCanFlagTop(base, m, c);
    NewTop(base, m0, x);
    HeadersTile(base, m0);
    BehindStep(base, m0, x.j, c, c);
    BackedIsFree(base, m0, x.j, c);
  }

  /** The new top chunk is behind the walk. */
  lemma NewTop(base: Addr, m0: Headers, x: Scan)
    requires Visits(base, m0, x) && Live(x.m, x.at) && IntoTop(x.m, x.at)
    ensures Behind(m0.heaps, x.j, Next(m0.size, x.at), ReleaseH(x.m, x.at).top)
  {
    hide HeadersOk, Swept;
    var m, c := x.m, x.at;
    VisitIs(base, m0, x);
    NewTopAt(base, m, c);
    SweptHeaps(m0, m, x.j, c);
    HeadersTile(base, m0);
    NextInHeapOk(base, m0, x.j, c);
    if ReleaseH(m, c).top != c {
      HeadersTile(base, m);
      PrevInHeap(base, m, x.j, ReleaseH(m, c).top, c);
    }
  }

  lemma NewTopAt(base: Addr, m: Headers, c: Addr)
    requires HeadersOk(base, m) && NoneLoose(m) && Live(m, c) && IntoTop(m, c)
    ensures var b := ReleaseH(m, c).top; b != c ==> b in m.place && Next(m.size, b) == c
  {
    hide HeadersOk;
    var j := Loosen(m, c);
    LoosenKeeps(base, m, c);
    FlagBefore(base, m, c);
    SameNext(base, m, c);
    if !m.prevInUse(c) {
      PrevIsFree(base, j, c);
    }
  }

  /** When the walk is at c, the chunk before it is behind the walk. */
  lemma BackedIsFree(base: Addr, m: Headers, j: int, c: Addr)
    requires HeadersOk(base, m) && c in m.place && 0 <= j < |m.heaps| && InSpan(m.heaps, j, c)
    ensures FreeBefore(m, j, c, c) <==> Backed(m, c)
  {
    hide HeadersOk;
    if p :| p in m.place && Next(m.size, p) == c && Ripe(m, p) {
      HeadersTile(base, m);
      PrevInHeap(base, m, j, p, c);
      assert Behind(m.heaps, j, c, p);
    }
  }

  /** Visits of other chunks, before c and after it. */
  lemma OtherStep(base: Addr, m0: Headers, x: Scan, c: Addr)
    requires Visits(base, m0, x) && Grows(m0, c) && x.at != c && TopAt(m0, c, x.m, x.j, x.at)
    ensures TopAt(m0, c, Visit(x.m, x.at), x.j, Next(x.m.size, x.at))
  {
    hide HeadersOk, Walking, Visit, ReleaseH, Behind, FreeBefore, Backed;
    var m, s := x.m, x.at;
    VisitIs(base, m0, x);
    HeadersTile(base, m0);
    BehindStep(base, m0, x.j, s, c);
    if Behind(m0.heaps, x.j, s, c) {
      TopBehind(base, m0, x);
    } else {
      NotGrows(base, m0, s, c);
      UntouchedStep(base, m0, x);
      FreeStep(base, m0, x, c);
    }
  }

  lemma NotGrows(base: Addr, m: Headers, s: Addr, c: Addr)
    requires HeadersOk(base, m) && Grows(m, c) && s != c
    ensures !Grows(m, s)
  {
    if Grows(m, s) {
      OneGrows(base, m, c, s);
    }
  }

  /** A top chunk behind the walk is not changed any more. */
  lemma TopBehind(base: Addr, m0: Headers, x: Scan)
    requires Visits(base, m0, x) && x.m.top != NULL && Behind(m0.heaps, x.j, x.at, x.m.top)
    ensures var k := Visit(x.m, x.at);
            && k.top == x.m.top && k.inUse(k.top) == x.m.inUse(k.top)
            && Behind(m0.heaps, x.j, Next(m0.size, x.at), k.top)
  {
    hide HeadersOk, Visit, Behind;
    VisitIs(base, m0, x);
    HeadersTile(base, m0);
    TopIsPlaced(base, x.m);
    TopWasChunk(m0, x);
    BehindStep(base, m0, x.j, x.at, x.m.top);
    if Next(m0.size, x.at) == x.m.top {
      NextNotBehind(base, m0, x.j, x.at);
    }
    VisitKeepsTop(base, m0, x);
  }

  lemma TopWasChunk(m0: Headers, x: Scan)
    requires Swept(m0, x.m, x.j, x.at) && x.m.top in x.m.place
    ensures x.m.top in m0.place
  {
  }

  /** A visit before c tells c about its predecessor. */
  lemma FreeStep(base: Addr, m0: Headers, x: Scan, c: Addr)
    requires Visits(base, m0, x) && Live(m0, c) && x.at != c && !Behind(m0.heaps, x.j, x.at, c)
    requires x.m.prevInUse(c) <==> !FreeBefore(m0, x.j, x.at, c)
    ensures Visit(x.m, x.at).prevInUse(c) <==> !FreeBefore(m0, x.j, Next(m0.size, x.at), c)
  {
    hide HeadersOk, Visit, ReleaseH, Behind, Walking;
    var m, s := x.m, x.at;
    VisitIs(base, m0, x);
    StillLive(base, m0, x, c);
    if Live(m0, s) && !m0.marked(s) {
      ReleasePrev(base, m, s, c);
    }
    FreeLater(base, m0, x.j, s, c);
  }

  lemma StillLive(base: Addr, m0: Headers, x: Scan, c: Addr)
    requires Walking(base, m0, x) && Live(m0, c) && !Behind(m0.heaps, x.j, x.at, c)
    ensures Live(x.m, c)
  {
    assert HeaderAsBefore(m0, x.m, c);
  }

  lemma FreeLater(base: Addr, m: Headers, j: int, s: Addr, c: Addr)
    requires HeadersOk(base, m) && s in m.place && 0 <= j < |m.heaps| && InSpan(m.heaps, j, s)
    ensures FreeBefore(m, j, Next(m.size, s), c) <==>
              || FreeBefore(m, j, s, c)
              || (Next(m.size, s) == c && Live(m, s) && !m.marked(s) && m.size(s) > 16 * FASTBINS)
  {
    hide HeadersOk, Behind;
    HeadersTile(base, m);
    forall p | p in m.place
      ensures Behind(m.heaps, j, Next(m.size, s), p) <==> Behind(m.heaps, j, s, p) || p == s
    {
      BehindStep(base, m, j, s, p);
    }
    if p :| p in m.place && Next(m.size, p) == c && Ripe(m, p) && (m.place[p].Bin? || Behind(m.heaps, j, s, p)) {
      assert FreeBefore(m, j, Next(m.size, s), c);
    }
    if Next(m.size, s) == c && Live(m, s) && !m.marked(s) && m.size(s) > 16 * FASTBINS {
      assert Ripe(m, s);
    }
  }

  // ---- After the sweep ----

  lemma StartBefore(base: Addr, m: Headers, c: Addr)
    requires HeadersOk(base, m) && NoneLoose(m) && Live(m, c)
    ensures TopAt(m, c, m, 0, StartOf(m.heaps, 0))
  {
    assert forall p :: p in m.place ==> !Behind(m.heaps, 0, StartOf(m.heaps, 0), p);
    if !m.prevInUse(c) {
      assert PrevFree(m.size, m.prevSize, m.place, c);
      var p := c - HEADER - m.prevSize(c);
      assert Next(m.size, p) == c && Ripe(m, p);
    }
  }

  lemma SameBehind(m0: Headers, c: Addr, m: Headers, j: int, s: Addr, j': int, s': Addr)
    requires TopAt(m0, c, m, j, s) && forall t :: Behind(m0.heaps, j', s', t) <==> Behind(m0.heaps, j, s, t)
    ensures TopAt(m0, c, m, j', s')
  {
    hide Behind;
    assert FreeBefore(m0, j', s', c) <==> FreeBefore(m0, j, s, c);
  }

  lemma {:induction false} GrowWalk(base: Addr, m0: Headers, c: Addr, n: nat)
    requires HeadersOk(base, m0) && NoneLoose(m0) && Bounded(m0) && TopClear(m0) && Grows(m0, c)
    ensures var x := ScanAfter(m0, n); TopAt(m0, c, x.m, x.j, x.at)
  {
    hide HeadersOk, Walking, Visit, TopAt, Behind, NoneLoose, Bounded, TopClear, Grows;
    if n == 0 {
      GrowsIsLive(m0, c);
      StartBefore(base, m0, c);
    } else {
      var x := ScanAfter(m0, n - 1);
      GrowWalk(base, m0, c, n - 1);
      ClearWalk(base, m0, n - 1);
      WalkingHeaps(base, m0, x);
      if AtChunk(x) {
        if x.at == c {
          GrowStep(base, m0, x);
        } else {
          OtherStep(base, m0, x, c);
        }
      } else if x.j < |m0.heaps| {
        HeapStep(base, m0, x);
        SameBehind(m0, c, x.m, x.j, x.at, x.j + 1, StartOf(m0.heaps, x.j + 1));
      }
    }
  }

  lemma GrowsIsLive(m: Headers, c: Addr)
    requires Grows(m, c)
    ensures Live(m, c)
  {
  }

  lemma {:induction false} QuietWalk(base: Addr, m0: Headers, n: nat)
    requires HeadersOk(base, m0) && NoneLoose(m0) && Bounded(m0) && TopClear(m0) && forall c :: !Grows(m0, c)
    ensures TopUntouched(m0, ScanAfter(m0, n).m)
  {
    hide HeadersOk, Walking, Visit, Behind, NoneLoose, Bounded, TopClear, Grows;
    if n > 0 {
      var x := ScanAfter(m0, n - 1);
      QuietWalk(base, m0, n - 1);
      ClearWalk(base, m0, n - 1);
      WalkingHeaps(base, m0, x);
      if AtChunk(x) {
        UntouchedStep(base, m0, x);
      }
    }
  }

  /** At its end the walk has cleared the mark of every chunk that it started with. */
  lemma EndUnmarked(base: Addr, m0: Headers, x: Scan)
    requires HeadersOk(base, m0) && Walking(base, m0, x) && x.j == |m0.heaps|
    ensures x.m.top != NULL ==> x.m.top in m0.place && !x.m.marked(x.m.top)
    ensures forall c :: c in m0.place ==> Behind(m0.heaps, x.j, x.at, c)
  {
    hide HeadersOk, Behind;
    HeadersTile(base, m0);
    forall c | c in m0.place
      ensures Behind(m0.heaps, x.j, x.at, c)
    {
      AllBehind(base, m0, x.j, x.at, c);
    }
    if x.m.top != NULL {
      TopIsPlaced(base, x.m);
      assert Done(m0, x.m, x.m.top);
    }
  }

  /** A sweep leaves the top chunk clear, so that the next one is safe too, exactly if the top chunk did not look in use
      before it and what the sweep merges into the top chunk has a free chunk before it. */
  lemma ClearAfterSweep(base: Addr, m0: Headers, n: nat)
    requires HeadersOk(base, m0) && NoneLoose(m0) && Bounded(m0) && TopClear(m0)
    requires ScanAfter(m0, n).j == |m0.heaps|
    ensures TopClear(ScanAfter(m0, n).m) <==> StaysClear(m0)
  {
    hide HeadersOk, Walking, Behind, ScanAfter, Grows, Backed;
    var x := ScanAfter(m0, n);
    ClearWalk(base, m0, n);
    EndUnmarked(base, m0, x);
    if c :| Grows(m0, c) {
      GrowWalk(base, m0, c, n);
      GrowsIsLive(m0, c);
      GrowsUnflagged(m0, c);
      forall d | Grows(m0, d)
        ensures d == c
      {
        OneGrows(base, m0, c, d);
      }
    } else {
      QuietWalk(base, m0, n);
    }
  }

  lemma GrowsUnflagged(m: Headers, c: Addr)
    requires Grows(m, c)
    ensures !m.inUse(m.top)
  {
  }
}
