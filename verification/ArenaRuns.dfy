/** Runs of an arena from its creation to the corners that the contracts allow. */
module ArenaRuns {
  import opened ChunkLayout
  import opened Rings
  import opened Blocks
  import opened BinLists
  import opened ArenaSteps
  import opened Payloads
  import opened ArenaSpec
  import opened AllocSpec
  import opened ArenaModel
  import opened Merging
  import opened GcWalk
  import opened GcTop
  import opened GcSweep

  // ---- Requests that the top chunk serves ----

  lemma AlignedPayload(z: int)
    requires Aligned(z) && MIN_PAYLOAD <= z < MMAP_THRESHOLD
    ensures PayloadFor(z) == z
  {
  }

  lemma ServedFacts(base: Addr, m: Headers, l: Lists, k: Headers, lk: Lists, v: Addr, z: int)
    requires Served(base, m, l, k, lk, v, z, 32)
    ensures Good(base, k, lk) && NoneLoose(k) && Live(k, v)
  {
  }

  lemma ChosenTop(m: Headers, l: Lists, k: Headers, v: Addr, z: int)
    requires Chosen(m, l, k, v, z) && FromTop(m, l, z)
    ensures v == m.top && |l.bins| == BINS && k == CarveH(Filed(m, l), z)
  {
    hide CarveH, Filed;
  }

  lemma TopIsEnough(m: Headers, l: Lists, z: int)
    requires FromTop(m, l, z)
    ensures !NeedsHeap(m, l, z)
  {
  }

  /** A request for which nothing is binned but the top chunk is large enough. */
  method FromTopChunk(a: Arena, z: int) returns (ptr: Addr)
    requires Good(a.base, a.Hdr(), a.Lst()) && NoneLoose(a.Hdr())
    requires Aligned(z) && MIN_PAYLOAD <= z < MMAP_THRESHOLD && FromTop(a.Hdr(), a.Lst(), z)
    modifies a
    ensures ptr == old(a.top) + HEADER && |old(a.bins)| == BINS
    ensures a.Hdr() == CarveH(Filed(old(a.Hdr()), old(a.Lst())), z)
    ensures Good(a.base, a.Hdr(), a.Lst()) && NoneLoose(a.Hdr()) && Live(a.Hdr(), ptr - HEADER)
  {
    hide Good, NoneLoose, FromTop, NeedsHeap, Served, Chosen, CarveH, Filed, Live, NextHeapSize, PayloadFor;
    ghost var m, l := a.Hdr(), a.Lst();
    AlignedPayload(z);
    TopIsEnough(m, l, z);
    var r := a.Allocate(z, NULL);
    ptr := r.ptr;
    ChosenTop(m, l, a.Hdr(), ptr - HEADER, z);
    ServedFacts(a.base, m, l, a.Hdr(), a.Lst(), ptr - HEADER, z);
  }

  /** Filing moves chunks between bins only. */
  lemma FiledTop(base: Addr, m: Headers, l: Lists)
    requires Good(base, m, l) && NoneLoose(m) && |l.bins| == BINS
    ensures var j := Filed(m, l);
            && j.top == m.top && j.size == m.size && j.heaps == m.heaps && j.inUse == m.inUse
            && j.prevInUse == m.prevInUse && j.marked == m.marked
            && forall x :: x in j.place ==> x in m.place && (j.place[x] == m.place[x] || j.place[x].Bin?)
  {
    hide Good, FileAll;
    UnsortedExactly(base, m, l);
    FileAllPlaces(m, l.bins[UNSORTED], |l.bins[UNSORTED]|);
  }

  /** What a carved chunk gets, after the unsorted chunks have been filed. */
  lemma FiledCarveSize(base: Addr, m: Headers, l: Lists, z: int)
    requires Good(base, m, l) && NoneLoose(m) && |l.bins| == BINS
    ensures CarveH(Filed(m, l), z).size(m.top) == if Splits(m, m.top, z) then z else m.size(m.top)
  {
    hide Good, Filed;
    FiledTop(base, m, l);
  }

  /** What the top chunk serves is unmapped by `_release`, as if it were a mapping of its own, exactly if the top chunk
      reaches the threshold and cannot be split: the region is then inside a heap, and nothing else learns of it. */
  method RequestAndReturn(a: Arena, z: int) returns (ptr: Addr, unmapped: bool)
    requires Good(a.base, a.Hdr(), a.Lst()) && NoneLoose(a.Hdr())
    requires Aligned(z) && MIN_PAYLOAD <= z < MMAP_THRESHOLD && FromTop(a.Hdr(), a.Lst(), z)
    modifies a
    ensures ptr == old(a.top) + HEADER
    ensures unmapped <==> MMAP_THRESHOLD <= old(a.size)(old(a.top)) < z + MIN_PAYLOAD + HEADER
    ensures unmapped ==> InHeap(a.heaps, a.size, ptr - HEADER) && Live(a.Hdr(), ptr - HEADER)
    ensures unmapped ==> a.size(ptr - HEADER) >= MMAP_THRESHOLD
    ensures !unmapped ==> !Live(a.Hdr(), ptr - HEADER)
    ensures Good(a.base, a.Hdr(), a.Lst())
  {
    hide Good, NoneLoose, FromTop, CarveH, Filed, Live, ReleaseH, InHeap, GivenBack, Frame;
    ghost var m, l := a.Hdr(), a.Lst();
    TopNotNull(m, l, z);
    TopFacts(a.base, m, l);
    ptr := FromTopChunk(a, z);
    FiledCarveSize(a.base, m, l, z);
    LiveInHeap(a.base, a.Hdr(), a.Lst(), ptr - HEADER);
    ghost var k := a.Hdr();
    unmapped := a.Release(ptr);
    if !unmapped {
      GoneAfter(k, a.Hdr(), ptr - HEADER);
    }
  }

  lemma TopNotNull(m: Headers, l: Lists, z: int)
    requires FromTop(m, l, z)
    ensures m.top != NULL && m.size(m.top) >= z
  {
  }

  lemma GoneAfter(m: Headers, k: Headers, c: Addr)
    requires GivenBack(m, k, c)
    ensures !Live(k, c)
  {
  }

  // ---- A heap that ends with a top chunk of exactly the threshold ----

  /** While nothing has been released, the top chunk serves everything that it has room for. */
  method Carve(a: Arena, z: int) returns (ptr: Addr)
    requires Good(a.base, a.Hdr(), a.Lst()) && NoneLoose(a.Hdr()) && Unbinned(a.Hdr())
    requires Aligned(z) && MIN_PAYLOAD <= z < MMAP_THRESHOLD && a.top != NULL && Splits(a.Hdr(), a.top, z)
    modifies a
    ensures ptr == old(a.top) + HEADER && a.Hdr() == CarveH(old(a.Hdr()), z)
    ensures Good(a.base, a.Hdr(), a.Lst()) && NoneLoose(a.Hdr()) && Unbinned(a.Hdr())
    ensures a.top == ptr + z && a.size(a.top) == old(a.size)(old(a.top)) - z - HEADER
    ensures Live(a.Hdr(), ptr - HEADER) && a.size(ptr - HEADER) == z
  {
    hide Good, NoneLoose, Unbinned, CarveH, Filed, Live, NoneBinned;
    ghost var m, l := a.Hdr(), a.Lst();
    TopFacts(a.base, m, l);
    UnbinnedSearch(a.base, m, l, z);
    ptr := FromTopChunk(a, z);
    CarvedTop(a.base, m, z);
  }

  lemma CarvedTop(base: Addr, m: Headers, z: int)
    requires m.top != NULL && Unbinned(m) && Splits(m, m.top, z) && z > 0
    ensures var k := CarveH(m, z);
            && k.top == m.top + HEADER + z && k.size(k.top) == m.size(m.top) - z - HEADER && k.size(m.top) == z
            && Unbinned(k)
  {
  }

  lemma NewIsUnbinned(m: Headers, block: Addr, z: int)
    requires NewArena(m, block, z)
    ensures Unbinned(m) && m.top == block && m.top in m.place && m.size(m.top) == z && m.prevInUse(block)
    ensures forall x :: !m.marked(x)
  {
  }

  /** Eight requests of 114672 bytes leave a top chunk of 131072 bytes in the first heap. */
  method Fill(base: Addr, block: Addr) returns (a: Arena)
    requires 0 < base && FreshRegion(base, [], block, NextHeapSize(0, 0))
    ensures fresh(a) && a.base == base && Good(base, a.Hdr(), a.Lst()) && NoneLoose(a.Hdr()) && Unbinned(a.Hdr())
    ensures a.top > 0 && a.size(a.top) == MMAP_THRESHOLD
  {
    hide Good, FreshRegion, NoneLoose, Unbinned, NewArena, CarveH, Live;
    a := new Arena(base, block);
    FirstHeapSize();
    NewIsUnbinned(a.Hdr(), block, NextHeapSize(0, 0));
    TopPositive(base, a.Hdr(), a.Lst());
    var n := 0;
    while n < 8
      invariant 0 <= n <= 8 && fresh(a) && a.base == base
      invariant Good(base, a.Hdr(), a.Lst()) && NoneLoose(a.Hdr()) && Unbinned(a.Hdr())
      invariant a.top > 0 && a.size(a.top) == 1048576 - 114688 * n
    {
      var ptr := Carve(a, 114672);
      n := n + 1;
    }
  }

  lemma FirstHeapSize()
    ensures NextHeapSize(0, 0) == 1048576
  {
    assert Pow2(0) == 1;
  }

  lemma TopPositive(base: Addr, m: Headers, l: Lists)
    requires Good(base, m, l) && Unbinned(m) && m.top in m.place
    ensures m.top > 0
  {
  }

  /** From there a request of 131040 bytes, less than the threshold, gets a chunk of the arena that its release
      unmaps. */
  method ReachesThreshold(base: Addr, block: Addr) returns (a: Arena, ptr: Addr, unmapped: bool)
    requires 0 < base && FreshRegion(base, [], block, NextHeapSize(0, 0))
    ensures unmapped && InHeap(a.heaps, a.size, ptr - HEADER) && Live(a.Hdr(), ptr - HEADER)
    ensures a.size(ptr - HEADER) >= MMAP_THRESHOLD
  {
    hide Good, FreshRegion, NoneLoose, Unbinned, NoneBinned, Live, InHeap, NextHeapSize, Filed;
    a := Fill(base, block);
    UnbinnedSearch(base, a.Hdr(), a.Lst(), 131040);
    ptr, unmapped := RequestAndReturn(a, 131040);
  }

  // ---- A top chunk that looks in use ----

  lemma NoMarksAfter(m: Headers, z: int, c: Addr)
    requires forall x :: !m.marked(x)
    ensures forall x :: !CarveH(m, z).marked(x)
    ensures forall x :: !ReleaseH(m, c).marked(x)
  {
  }

  /** A chunk of more than fastbin size that was carved first and is given back first takes its in-use bit along. */
  lemma FlaggedTop(base: Addr, m: Headers, block: Addr, z: int, n: int)
    requires NewArena(m, block, n) && Splits(m, block, z) && n - z - HEADER > 16 * FASTBINS && 16 * FASTBINS < z
    requires var k := CarveH(m, z); HeadersOk(base, k) && NoneLoose(k) && block > 0
    ensures var k := CarveH(m, z); Live(k, block) && k.size(block) == z && !TopClear(ReleaseH(k, block))
  {
    hide HeadersOk;
    var k := CarveH(m, z);
    assert Next(k.size, block) == k.top && Absorbs(k, block) && k.prevInUse(block);
    ReleaseCanFlagTop(base, k, block);
    NoMarksAfter(m, z, block);
    NoMarksAfter(k, z, block);
  }

  lemma OneLive(m: Headers, k: Headers, block: Addr, z: int, n: int)
    requires NewArena(m, block, n) && k == CarveH(m, z) && Splits(m, block, z) && z > 0
    ensures forall c :: Live(k, c) ==> c == block
  {
  }

  lemma NoneLiveBounded(m: Headers, k: Headers, block: Addr)
    requires (forall c :: Live(m, c) ==> c == block) && GivenBack(m, k, block)
    ensures Bounded(k)
  {
    forall c
      ensures !Live(k, c)
    {
      assert Live(k, c) <==> Live(m, c) && c != block;
    }
  }

  /** One request of 128 bytes and its release: the sweep after it calls `release` for the top chunk. */
  method SweepMeetsTop(base: Addr, block: Addr) returns (a: Arena, stray: Addr)
    requires 0 < base && FreshRegion(base, [], block, NextHeapSize(0, 0))
    ensures stray != NULL && stray == a.top && Frees(a.Hdr(), stray) && !Live(a.Hdr(), stray)
  {
    hide Good, FreshRegion, NoneLoose, Unbinned, NewArena, CarveH, Live, ReleaseH, TopClear, Bounded, Frame, GivenBack;
    hide Strayed, SweptAll;
    a := new Arena(base, block);
    FirstHeapSize();
    ghost var m := a.Hdr();
    NewIsUnbinned(m, block, 1048576);
    TopPositive(base, m, a.Lst());
    var ptr := Carve(a, 128);
    ghost var k, l := a.Hdr(), a.Lst();
    OneLive(m, k, block, 128, 1048576);
    assert HeadersOk(base, k) by { GoodIsHeaders(base, k, l); }
    FlaggedTop(base, m, block, 128, 1048576);
    var unmapped := a.Release(ptr);
    NoneLiveBounded(k, a.Hdr(), block);
    ghost var m0, l0 := a.Hdr(), a.Lst();
    var visited, released;
    ghost var n;
    visited, released, stray, n := Sweep(a);
    StrayIsTop(base, m0, l0, a.Hdr(), a.Lst(), n, stray);
  }

  lemma GoodIsHeaders(base: Addr, m: Headers, l: Lists)
    requires Good(base, m, l)
    ensures HeadersOk(base, m)
  {
  }

  lemma StrayIsTop(base: Addr, m0: Headers, l0: Lists, m: Headers, l: Lists, n: nat, s: Addr)
    requires Strayed(base, m0, l0, m, l, n, s)
    ensures s == m.top && Frees(m, s) && !Live(m, s)
  {
  }

  // ---- A chunk that a small request passes over ----

  /** Every binned chunk is in a large bin or unsorted; those that are unsorted, and for large requests the others too,
      are smaller than z. */
  ghost predicate NoneFor(m: Headers, z: int)
  {
    forall x :: x in m.place ==>
      || m.place[x].InUse? || m.place[x].Top?
      || (m.place[x] == Bin(UNSORTED) && m.size(x) < z)
      || (IsLarge(m.place[x]) && (z < 512 || m.size(x) < z))
  }

  lemma NoneForSearch(base: Addr, m: Headers, l: Lists, z: int)
    requires Good(base, m, l) && NoneFor(m, z) && z >= MIN_PAYLOAD
    ensures NoneBinned(m, l, z)
  {
    ListLengths(base, m, l);
    if HasExact(l, z) {
      ExactWasBinned(base, m, l, z);
    }
  }

  /** Only c is binned: it is in bin b. */
  ghost predicate OnlyBinned(m: Headers, c: Addr, b: int)
  {
    && c in m.place && m.place[c] == Bin(b) && m.top != NULL
    && forall x :: x in m.place && x != c ==> m.place[x].InUse? || m.place[x].Top?
  }

  /** Between two chunks in use a released chunk is merged with nothing. */
  lemma ReleasedAlone(m: Headers, c: Addr)
    requires Unbinned(m) && Live(m, c) && m.size(c) > 16 * FASTBINS && m.prevInUse(c) && m.inUse(Next(m.size, c))
    requires m.top != NULL && c != NULL
    ensures var k := ReleaseH(m, c);
            OnlyBinned(k, c, UNSORTED) && k.size == m.size && k.top == m.top
  {
  }

  /** The first chunk of an arena with two chunks out. */
  lemma FirstOfTwo(m: Headers, block: Addr, n: int, z: int, z': int)
    requires NewArena(m, block, n) && block > 0 && Splits(m, block, z) && z > 0 && z' > 0
    requires var k := CarveH(m, z); Splits(k, k.top, z')
    ensures var k := CarveH(CarveH(m, z), z');
            Live(k, block) && k.size(block) == z && k.prevInUse(block) && k.inUse(Next(k.size, block))
  {
    var j := CarveH(m, z);
    assert j.top == block + HEADER + z && Next(j.size, block) == j.top;
  }

  /** Filing moves the chunk to the large bin of its size. */
  lemma FiledLarge(base: Addr, m: Headers, l: Lists, c: Addr, z: int)
    requires Good(base, m, l) && |l.bins| == BINS && OnlyBinned(m, c, UNSORTED) && m.size(c) >= 512
    requires Splits(m, m.top, z) && z > 0 && m.top in m.place && m.place[m.top].Top?
    ensures var k := CarveH(Filed(m, l), z);
            && OnlyBinned(k, c, BinFor(m.size(c))) && IsLarge(Bin(BinFor(m.size(c)))) && k.size(c) == m.size(c)
            && k.size(k.top) == m.size(m.top) - z - HEADER && k.top == m.top + HEADER + z
  {
    hide Good, FileAll, LargeBinIndex;
    UnsortedExactly(base, m, l);
    FileAllPlaces(m, l.bins[UNSORTED], |l.bins[UNSORTED]|);
    var s := l.bins[UNSORTED];
    assert s[..|s|] == s;
    CutFar(base, m, l, c, z);
  }

  lemma CutFar(base: Addr, m: Headers, l: Lists, c: Addr, z: int)
    requires Good(base, m, l) && c in m.place && m.top in m.place && c != m.top && Splits(m, m.top, z) && z > 0
    ensures c != m.top + HEADER + z && m.top > 0
  {
  }

  /** A request of 256 bytes is carved from the top chunk although a chunk of 1024 bytes is in a large bin. */
  method PassesOverLarge(base: Addr, block: Addr) returns (a: Arena, ptr: Addr, ghost before: Headers)
    requires 0 < base && FreshRegion(base, [], block, NextHeapSize(0, 0))
    ensures Fits(before, block, 256) && before.size(block) == 1024 && ptr - HEADER == before.top
    ensures Live(a.Hdr(), ptr - HEADER)
  {
    hide Good, FreshRegion, NoneLoose, Unbinned, NewArena, CarveH, Live, ReleaseH, Frame, GivenBack, OnlyBinned,
         IsLarge;
    hide NoneFor, Fits, Filed, NoneBinned, BinFor;
    a := new Arena(base, block);
    FirstHeapSize();
    ghost var m := a.Hdr();
    NewIsUnbinned(m, block, 1048576);
    TopPositive(base, m, a.Lst());
    var p := Carve(a, 1024);
    var q := Carve(a, 128);
    FirstOfTwo(m, block, 1048576, 1024, 128);
    ReleasedAlone(a.Hdr(), block);
    var unmapped := a.Release(p);
    ghost var k, l := a.Hdr(), a.Lst();
    TopFacts(base, k, l);
    SmallerThan(k, block, UNSORTED, 2048);
    NoneForSearch(base, k, l, 2048);
    var r := FromTopChunk(a, 2048);
    FiledLarge(base, k, l, block, 2048);
    before := a.Hdr();
    SmallerThan(before, block, BinFor(1024), 256);
    NoneForSearch(base, before, a.Lst(), 256);
    ptr := FromTopChunk(a, 256);
  }

  lemma SmallerThan(m: Headers, c: Addr, b: int, z: int)
    requires OnlyBinned(m, c, b)
    requires (b == UNSORTED && m.size(c) < z) || (IsLarge(Bin(b)) && z < 512)
    ensures NoneFor(m, z) && m.top != NULL && (IsLarge(Bin(b)) && m.size(c) >= z ==> Fits(m, c, z))
  {
  }

  // ---- Free chunks side by side ----

  /** Chunk c is binned unsorted, and every other chunk is in use or the top chunk, which does not look in use. */
  ghost predicate OneFree(m: Headers, c: Addr)
  {
    OnlyBinned(m, c, UNSORTED) && !m.inUse(m.top)
  }

  /** Nothing starts before the block of the only heap. */
  ghost predicate FirstIs(m: Headers, block: Addr)
  {
    block in m.place && forall x :: x in m.place ==> block <= x && m.size(x) >= MIN_PAYLOAD
  }

  lemma NothingBefore(m: Headers, block: Addr)
    requires FirstIs(m, block)
    ensures !RingedInFront(m, block)
  {
  }

  /** Between chunks in use a release bins the chunk as it is. */
  lemma ReleasedBetween(m: Headers, k: Headers, c: Addr, block: Addr)
    requires Unbinned(m) && Live(m, c) && m.size(c) > 112 && GivenBackAs(m, k, c) && m.top in m.place && m.top != NULL
    requires Live(m, Next(m.size, c)) && !m.inUse(m.top) && m.place[m.top].Top? && FirstIs(m, block)
    ensures OneFree(k, c) && FirstIs(k, block) && k.top == m.top
    ensures forall x :: x in m.place <==> x in k.place
    ensures forall x :: x in m.place ==> k.size(x) == m.size(x) && (x != c ==> k.place[x] == m.place[x])
  {
    var b :| Merged(m, k, c, b);
    assert !RingedInFront(m, c);
  }

  /** A chunk in front of a binned one of more than 112 bytes is merged with it. */
  lemma ReleasedBefore(m: Headers, k: Headers, block: Addr, c: Addr)
    requires OneFree(m, c) && Live(m, block) && m.size(block) > 112 && m.size(c) > 112 && GivenBackAs(m, k, block)
    requires FirstIs(m, block) && Next(m.size, block) == c && m.top != c
    ensures OnlyBinned(k, block, UNSORTED) && Next(k.size, block) == Next(m.size, c) && c !in k.place
  {
    NothingBefore(m, block);
    var b :| Merged(m, k, block, b);
  }

  lemma CarvedFree(base: Addr, m: Headers, z: int, block: Addr)
    requires m.top != NULL && FirstIs(m, block) && Splits(m, m.top, z) && z >= MIN_PAYLOAD && m.top in m.place
             && m.top > 0
    ensures var k := CarveH(m, z);
            && FirstIs(k, block) && !k.inUse(k.top) && k.top in k.place && k.place[k.top].Top? && k.top > 0
            && (forall x :: Live(m, x) && x != k.top ==> Live(k, x) && (x != m.top ==> k.size(x) == m.size(x)))
  {
  }

  lemma NewIsFirst(m: Headers, block: Addr, z: int)
    requires NewArena(m, block, z) && z >= MIN_PAYLOAD
    ensures FirstIs(m, block)
  {
  }

  /** After that only c is unsorted. */
  lemma OnlyChoice(base: Addr, m: Headers, l: Lists, k: Headers, v: Addr, c: Addr, z: int)
    requires Good(base, m, l) && OnlyBinned(m, c, UNSORTED) && m.size(c) >= z && z >= 512 && Chosen(m, l, k, v, z)
    ensures v == c && TakenFrom(m, k, c, z) && !NeedsHeap(m, l, z)
  {
    hide Good, TakenFrom;
    UnsortedExactly(base, m, l);
    assert !HasExact(l, z) && !NothingFits(m, z);
  }

  lemma BinnedFits(m: Headers, l: Lists, c: Addr, z: int)
    requires OnlyBinned(m, c, UNSORTED) && m.size(c) >= z
    ensures !NeedsHeap(m, l, z)
  {
  }

  /** A request of at least 512 bytes that the only binned chunk serves. */
  method TakeOnly(a: Arena, c: Addr, z: int) returns (ptr: Addr)
    requires Good(a.base, a.Hdr(), a.Lst()) && NoneLoose(a.Hdr()) && OnlyBinned(a.Hdr(), c, UNSORTED)
    requires Aligned(z) && 512 <= z < MMAP_THRESHOLD && a.size(c) >= z
    modifies a
    ensures ptr == c + HEADER && TakenFrom(old(a.Hdr()), a.Hdr(), c, z)
    ensures Good(a.base, a.Hdr(), a.Lst()) && NoneLoose(a.Hdr()) && Live(a.Hdr(), c)
  {
    hide Good, NoneLoose, NeedsHeap, Served, Chosen, Live, NextHeapSize, PayloadFor, OnlyBinned, TakenFrom, Grown;
    ghost var m, l := a.Hdr(), a.Lst();
    AlignedPayload(z);
    BinnedFits(m, l, c, z);
    var r := a.Allocate(z, NULL);
    ptr := r.ptr;
    OnlyChoice(a.base, m, l, a.Hdr(), ptr - HEADER, c, z);
    ServedFacts(a.base, m, l, a.Hdr(), a.Lst(), ptr - HEADER, z);
  }

  /** Nothing is binned, the top chunk does not look in use, and the only heap starts at block. */
  ghost predicate Plain(m: Headers, block: Addr)
  {
    Unbinned(m) && FirstIs(m, block) && m.top > 0 && m.top in m.place && m.place[m.top].Top? && !m.inUse(m.top)
  }

  /** Chunk c is handed out with z bytes, and the chunk behind it starts at n. */
  ghost predicate Holds(m: Headers, c: Addr, z: int, n: Addr)
  {
    Live(m, c) && m.size(c) == z && n == c + HEADER + z
  }

  lemma CarvedPlain(base: Addr, m: Headers, z: int, block: Addr)
    requires Plain(m, block) && Splits(m, m.top, z) && z >= MIN_PAYLOAD
    ensures var k := CarveH(m, z);
            && Plain(k, block) && Holds(k, m.top, z, k.top)
            && forall x :: Live(m, x) && x != k.top ==> Live(k, x) && k.size(x) == m.size(x)
  {
    CarvedTop(base, m, z);
    CarvedFree(base, m, z, block);
  }

  /** One more chunk of z bytes; c, handed out before, is as it was. */
  method CarvePlain(a: Arena, z: int, ghost block: Addr) returns (ptr: Addr)
    requires Good(a.base, a.Hdr(), a.Lst()) && NoneLoose(a.Hdr()) && Plain(a.Hdr(), block)
    requires Aligned(z) && MIN_PAYLOAD <= z < MMAP_THRESHOLD && Splits(a.Hdr(), a.top, z)
    modifies a
    ensures ptr == old(a.top) + HEADER && Good(a.base, a.Hdr(), a.Lst()) && NoneLoose(a.Hdr()) && Plain(a.Hdr(), block)
    ensures Holds(a.Hdr(), old(a.top), z, a.top) && a.size(a.top) == old(a.size)(old(a.top)) - z - HEADER
    ensures forall x :: Live(old(a.Hdr()), x) && x != a.top ==> Live(a.Hdr(), x) && a.size(x) == old(a.size)(x)
  {
    hide Good, NoneLoose, CarveH, Live, Holds;
    CarvedPlain(a.base, a.Hdr(), z, block);
    ptr := Carve(a, z);
  }

  lemma NewIsPlain(base: Addr, m: Headers, l: Lists, block: Addr, z: int)
    requires NewArena(m, block, z) && z >= MIN_PAYLOAD && Good(base, m, l)
    ensures Plain(m, block) && m.top == block && m.size(block) == z && block > 0
  {
    hide Good;
    NewIsFirst(m, block, z);
    NewIsUnbinned(m, block, z);
    TopPositive(base, m, l);
  }

  method NewPlain(base: Addr, block: Addr) returns (a: Arena)
    requires 0 < base && FreshRegion(base, [], block, NextHeapSize(0, 0))
    ensures fresh(a) && a.base == base && Good(base, a.Hdr(), a.Lst()) && NoneLoose(a.Hdr()) && Plain(a.Hdr(), block)
    ensures a.top == block > 0 && a.size(block) == 1048576
  {
    hide Good, FreshRegion, NoneLoose, NewArena, Plain, Grown;
    a := new Arena(base, block);
    FirstHeapSize();
    NewIsPlain(base, a.Hdr(), a.Lst(), block, 1048576);
  }

  lemma PlainIs(m: Headers, block: Addr)
    requires Plain(m, block)
    ensures Unbinned(m) && FirstIs(m, block) && m.top != NULL && m.top in m.place && m.place[m.top].Top?
            && !m.inUse(m.top)
    ensures !Live(m, m.top)
  {
  }

  lemma StaysLive(m: Headers, k: Headers, x: Addr, c: Addr)
    requires GivenBack(m, k, c) && Live(m, x) && x != c
    ensures Live(k, x)
  {
  }

  lemma TakenWhole(m: Headers, k: Headers, v: Addr, z: int)
    requires TakenFrom(m, k, v, z) && m.size(v) - z < 48
    ensures k.size(v) == m.size(v)
  {
  }

  lemma LivePlaced(m: Headers, x: Addr)
    requires Live(m, x)
    ensures x in m.place
  {
  }

  /** Two neighbours are given back, the second one first: they are one chunk, which serves what neither could. */
  method MergesNeighbours(base: Addr, block: Addr) returns (a: Arena, p: Addr, q: Addr)
    requires 0 < base && FreshRegion(base, [], block, NextHeapSize(0, 0))
    ensures q == p && Live(a.Hdr(), q - HEADER) && a.size(q - HEADER) == 2064
  {
    hide Good, FreshRegion, NoneLoose, Live, ReleaseH, Frame, GivenBack, GivenBackAs, OnlyBinned, TakenFrom, Plain;
    hide NextHeapSize, OneFree;
    a := NewPlain(base, block);
    p := CarvePlain(a, 1024, block);
    var b := CarvePlain(a, 1024, block);
    var c := CarvePlain(a, 1024, block);
    ghost var m := a.Hdr();
    PlainIs(m, block);
    LivePlaced(m, block);
    LivePlaced(m, block + 1040);
    var unmapped := a.Release(b);
    ghost var k := a.Hdr();
    ReleasedBetween(m, k, block + 1040, block);
    StaysLive(m, k, block, block + 1040);
    NotTop(k, block + 1040);
    unmapped := a.Release(p);
    ghost var n := a.Hdr();
    ReleasedBefore(k, n, block, block + 1040);
    q := TakeOnly(a, block, 2048);
    TakenWhole(n, a.Hdr(), block, 2048);
  }

  lemma NotTop(m: Headers, c: Addr)
    requires OneFree(m, c) && m.top in m.place && m.place[m.top].Top?
    ensures m.top != c
  {
  }

  /** The first chunk is handed out with 1024 bytes, behind it is an unsorted chunk of 64 bytes, and then one that is
      handed out with 128. */
  ghost predicate SmallRest(m: Headers, block: Addr)
  {
    && FirstIs(m, block) && Live(m, block) && m.size(block) == 1024 && Ringed(m, block + 1040)
       && m.size(block + 1040) == 64
    && Holds(m, block + 1120, 128, block + 1264)
    && forall x :: x in m.place && Ringed(m, x) ==> x == block + 1040
  }

  lemma RestIsSmall(m: Headers, k: Headers, block: Addr)
    requires OnlyBinned(m, block, UNSORTED) && FirstIs(m, block) && m.size(block) == 1104 && Live(k, block)
    requires Holds(m, block + 1120, 128, block + 1264) && TakenFrom(m, k, block, 1024)
    ensures SmallRest(k, block)
  {
  }

  /** The small chunk does not join, so that two ring-binned chunks are side by side. */
  lemma SmallStays(m: Headers, k: Headers, block: Addr)
    requires SmallRest(m, block) && GivenBackAs(m, k, block)
    ensures Ringed(k, block) && k.size(block) == 1024 && Ringed(k, block + 1040) && k.size(block + 1040) == 64
    ensures Holds(k, block + 1120, 128, block + 1264)
  {
    NothingBefore(m, block);
    var b :| Merged(m, k, block, b);
  }

  /** Backward merging goes one chunk far. */
  lemma FreeStays(base: Addr, m: Headers, k: Headers, block: Addr)
    requires HeadersOk(base, m) && Ringed(m, block) && m.size(block) == 1024 && Ringed(m, block + 1040)
    requires m.size(block + 1040) == 64 && Holds(m, block + 1120, 128, block + 1264)
    requires GivenBackAs(m, k, block + 1120)
    ensures exists b :: Merged(m, k, block + 1120, b) && RingedInFront(k, b)
  {
    var b :| Merged(m, k, block + 1120, b);
    assert InFront(m, block + 1040, block + 1120) && InFront(m, block, block + 1040);
    assert b == block + 1040;
    FreeInFront(base, m, k, block + 1120, b);
  }

  /** Not all free neighbours are merged: here the merged chunk has a ring-binned chunk of 1024 bytes in front of it. */
  method LeavesNeighbour(base: Addr, block: Addr)
      returns (a: Arena, ghost before: Headers, ghost c: Addr)
    requires 0 < base && FreshRegion(base, [], block, NextHeapSize(0, 0))
    ensures Live(before, c) && exists b :: Merged(before, a.Hdr(), c, b) && RingedInFront(a.Hdr(), b)
  {
    hide Good, FreshRegion, NoneLoose, Live, ReleaseH, Frame, GivenBack, GivenBackAs, OnlyBinned, TakenFrom, Plain;
    hide NextHeapSize, OneFree, SmallRest, Merged, RingedInFront, Ringed;
    a := NewPlain(base, block);
    var p := CarvePlain(a, 1104, block);
    var g := CarvePlain(a, 128, block);
    ghost var m := a.Hdr();
    PlainIs(m, block);
    LivePlaced(m, block);
    LivePlaced(m, block + 1120);
    var unmapped := a.Release(p);
    ghost var k := a.Hdr();
    ReleasedBetween(m, k, block, block);
    StaysLive(m, k, block + 1120, block);
    OneFreeIs(k, block);
    var q := TakeOnly(a, block, 1024);
    ghost var n := a.Hdr();
    RestIsSmall(k, n, block);
    SmallRestIs(n, block);
    unmapped := a.Release(q);
    before, c := a.Hdr(), block + 1120;
    SmallStays(n, before, block);
    GoodIs(a.base, before, a.Lst());
    unmapped := a.Release(g);
    FreeStays(a.base, before, a.Hdr(), block);
  }

  lemma OneFreeIs(m: Headers, c: Addr)
    requires OneFree(m, c)
    ensures OnlyBinned(m, c, UNSORTED)
  {
  }

  lemma SmallRestIs(m: Headers, block: Addr)
    requires SmallRest(m, block)
    ensures Live(m, block) && m.size(block) == 1024
  {
  }
}
