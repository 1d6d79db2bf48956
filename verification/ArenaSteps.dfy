/** Steps of the arena as a whole: each keeps headers and lists well formed together. */
module ArenaSteps {
  import opened ChunkLayout
  import opened Rings
  import opened Blocks
  import opened BinLists

  /** A well-formed arena, possibly with detached chunks. */
  ghost predicate Good(base: Addr, m: Headers, l: Lists)
  {
    HeadersOk(base, m) && ListsOk(base, l, m.size, m.place)
  }

  ghost predicate NoneLoose(m: Headers)
  {
    forall a :: a in m.place ==> !m.place[a].Loose?
  }

  ghost predicate OnlyLoose(m: Headers, p: Addr)
  {
    IsLoose(m, p) && forall a :: a in m.place && m.place[a].Loose? ==> a == p
  }

  lemma ChunksAreSeparate(base: Addr, m: Headers)
    requires TiledHeaps(base, m)
    ensures Separate(base, m.place)
  {
    forall b | 0 <= b < BINS
      ensures Head(base, b) !in m.place
    {
      assert Head(base, b) in m.place ==> InHeap(m.heaps, m.size, Head(base, b));
    }
  }

  // ---- Steps on the lists ----

  /** Chunk p, at position k of ring bin i, leaves the bin. */
  ghost function UnbinL(l: Lists, p: Addr, i: int, k: int): Lists
    requires 0 <= i < |l.bins| && 0 <= k < |l.bins[i]|
  {
    l.(fd := Bypassed(l.fd, l.bk, p), bk := Bypassed(l.bk, l.fd, p), bins := l.bins[i := Without(l.bins[i], k)])
  }

  /** Chunk p, at position k of the size ring of large bin i, leaves that ring. */
  ghost function UnsortL(l: Lists, p: Addr, i: int, k: int): Lists
    requires 0 <= i < |l.sorted| && 0 <= k < |l.sorted[i]|
  {
    l.(nextSize := Bypassed(l.nextSize, l.prevSizePtr, p),
       prevSizePtr := Bypassed(l.prevSizePtr, l.nextSize, p),
       sorted := l.sorted[i := Without(l.sorted[i], k)])
  }

  /** Chunk p enters ring bin i at the front. */
  ghost function PushL(base: Addr, l: Lists, p: Addr, i: int): Lists
    requires 0 <= i < |l.bins|
  {
    var h := Head(base, i);
    l.(fd := Put(Put(l.fd, p, l.fd(h)), h, p),
       bk := Put(Put(l.bk, p, h), l.fd(h), p),
       bins := l.bins[i := Insert(l.bins[i], 0, p)])
  }

  /** Chunk p enters the size ring of large bin i at position k. */
  ghost function SortL(base: Addr, l: Lists, p: Addr, i: int, k: int): Lists
    requires 0 <= i < |l.sorted| && 0 <= k <= |l.sorted[i]|
  {
    var h := Head(base, LARGE0 + i);
    var n, m := After(h, l.sorted[i], k - 1), Before(h, l.sorted[i], k);
    l.(nextSize := Put(Put(l.nextSize, p, n), m, p),
       prevSizePtr := Put(Put(l.prevSizePtr, p, m), n, p),
       sorted := l.sorted[i := Insert(l.sorted[i], k, p)])
  }

  ghost function ClearSizeL(l: Lists, p: Addr): Lists
  {
    l.(nextSize := Put(l.nextSize, p, NULL), prevSizePtr := Put(l.prevSizePtr, p, NULL))
  }

  ghost function FastPushL(l: Lists, p: Addr, i: int): Lists
    requires 0 <= i < |l.fast| == |l.fastbins|
  {
    l.(fd := Put(l.fd, p, l.fastbins[i]), fastbins := l.fastbins[i := p], fast := l.fast[i := [p] + l.fast[i]])
  }

  ghost function FastPopL(l: Lists, i: int): Lists
    requires 0 <= i < |l.fast| == |l.fastbins| && l.fast[i] != []
  {
    var p := l.fastbins[i];
    l.(fd := Put(l.fd, p, NULL), fastbins := l.fastbins[i := l.fd(p)], fast := l.fast[i := l.fast[i][1..]])
  }

  lemma UnbinLists(base: Addr, l: Lists, size: Addr -> int, place: map<Addr, Place>, p: Addr, i: int, k: int)
    requires ListsOk(base, l, size, place) && At(0, l.bins, place, p, i, k) && !IsLarge(place[p])
    ensures ListsOk(base, UnbinL(l, p, i, k), size, place[p := Loose])
  {
    var l' := UnbinL(l, p, i, k);
    RingsUnlink(base, 0, l.fd, l.bk, l.bins, place, p, i, k);
    assert Distinct(l.bins[i]) by { assert Ring(l.fd, l.bk, Head(base, i), l.bins[i]); }
    UnlinkMembers(0, l.bins, place, p, i, k);
    assert Members(LARGE0, l.sorted, place[p := Loose]);
    assert NoSizeLinks(l.nextSize, place[p := Loose]);
    assert FastMembers(l.fast, place[p := Loose]);
    ChainsFrame(l.fastbins, l.fd, l.fast, place, l'.fd);
  }

  lemma DetachLists(base: Addr, l: Lists, size: Addr -> int, place: map<Addr, Place>, p: Addr, i: int, k: int, j: int)
    requires ListsOk(base, l, size, place) && LARGE0 <= i < UNSORTED
    requires At(0, l.bins, place, p, i, k) && At(LARGE0, l.sorted, place, p, i - LARGE0, j)
    ensures ListsOk(base, UnsortL(UnbinL(l, p, i, k), p, i - LARGE0, j), size, place[p := Loose])
  {
    var l' := UnsortL(UnbinL(l, p, i, k), p, i - LARGE0, j);
    RingsUnlink(base, 0, l.fd, l.bk, l.bins, place, p, i, k);
    assert Distinct(l.bins[i]) by { assert Ring(l.fd, l.bk, Head(base, i), l.bins[i]); }
    UnlinkMembers(0, l.bins, place, p, i, k);
    DetachSorted(base, l, size, place, p, i - LARGE0, j);
    assert FastMembers(l.fast, place[p := Loose]);
    ChainsFrame(l.fastbins, l.fd, l.fast, place, l'.fd);
  }

  lemma DetachSorted(base: Addr, l: Lists, size: Addr -> int, place: map<Addr, Place>, p: Addr, i: int, j: int)
    requires ListsOk(base, l, size, place) && At(LARGE0, l.sorted, place, p, i, j)
    ensures var l' := UnsortL(l, p, i, j);
            && Members(LARGE0, l'.sorted, place[p := Loose])
            && RingsOk(base, LARGE0, l'.nextSize, l'.prevSizePtr, l'.sorted)
            && AllBySize(size, l'.sorted)
            && NoSizeLinks(l'.nextSize, place[p := Loose])
  {
    RingsUnlink(base, LARGE0, l.nextSize, l.prevSizePtr, l.sorted, place, p, i, j);
    assert Distinct(l.sorted[i]) by {
      assert Ring(l.nextSize, l.prevSizePtr, Head(base, LARGE0 + i), l.sorted[i]);
    }
    UnlinkMembers(LARGE0, l.sorted, place, p, i, j);
    assert BySize(size, l.sorted[i]);
    WithoutBySize(size, l.sorted[i], j);
  }

  lemma PushRing(base: Addr, l: Lists, size: Addr -> int, place: map<Addr, Place>, p: Addr, i: int)
    requires ListsOk(base, l, size, place) && p in place && place[p].Loose? && 0 <= i < BINS
    ensures var l' := PushL(base, l, p, i);
            && Separate(base, place[p := Bin(i)])
            && Members(0, l'.bins, place[p := Bin(i)])
            && RingsOk(base, 0, l'.fd, l'.bk, l'.bins)
            && FastMembers(l.fast, place[p := Bin(i)])
            && ChainsOk(l.fastbins, l'.fd, l.fast)
  {
    var l' := PushL(base, l, p, i);
    RingsInsert(base, 0, l.fd, l.bk, l.bins, place, p, i, 0);
    assert Ring(l.fd, l.bk, Head(base, i), l.bins[i]);
    InsertedMembers(0, l.bins, place, p, i, 0);
    ChainsFrame(l.fastbins, l.fd, l.fast, place, l'.fd);
  }

  lemma PushLists(base: Addr, l: Lists, size: Addr -> int, place: map<Addr, Place>, p: Addr, i: int)
    requires ListsOk(base, l, size, place) && p in place && place[p].Loose? && l.nextSize(p) == NULL
    requires 0 <= i < BINS && !IsLarge(Bin(i))
    ensures ListsOk(base, PushL(base, l, p, i), size, place[p := Bin(i)])
  {
    PushRing(base, l, size, place, p, i);
    assert Members(LARGE0, l.sorted, place[p := Bin(i)]);
    assert NoSizeLinks(l.nextSize, place[p := Bin(i)]);
  }

  /** The position where `insert_into_largebin` stops: everything before is smaller, nothing after is. */
  ghost predicate CeilAt(size: Addr -> int, s: seq<Addr>, k: int, z: int)
  {
    0 <= k <= |s| && (forall i :: 0 <= i < k ==> size(s[i]) < z) && (k < |s| ==> size(s[k]) >= z)
  }

  lemma SortLists(base: Addr, l: Lists, size: Addr -> int, place: map<Addr, Place>, p: Addr, i: int, k: int)
    requires ListsOk(base, l, size, place) && p in place && place[p].Loose?
    requires 0 <= i < LARGEBINS && CeilAt(size, l.sorted[i], k, size(p))
    ensures ListsOk(base, PushL(base, SortL(base, l, p, i, k), p, LARGE0 + i), size, place[p := Bin(LARGE0 + i)])
  {
    PushRing(base, l, size, place, p, LARGE0 + i);
    SortedInsert(base, l, size, place, p, i, k);
  }

  lemma SortedInsert(base: Addr, l: Lists, size: Addr -> int, place: map<Addr, Place>, p: Addr, i: int, k: int)
    requires ListsOk(base, l, size, place) && p in place && place[p].Loose?
    requires 0 <= i < LARGEBINS && CeilAt(size, l.sorted[i], k, size(p))
    ensures var l' := SortL(base, l, p, i, k);
            && Members(LARGE0, l'.sorted, place[p := Bin(LARGE0 + i)])
            && RingsOk(base, LARGE0, l'.nextSize, l'.prevSizePtr, l'.sorted)
            && AllBySize(size, l'.sorted)
            && NoSizeLinks(l'.nextSize, place[p := Bin(LARGE0 + i)])
  {
    hide Members, RingsOk, FastMembers, ChainsOk, Separate, NoSizeLinks;
    RingsInsert(base, LARGE0, l.nextSize, l.prevSizePtr, l.sorted, place, p, i, k);
    InsertedMembers(LARGE0, l.sorted, place, p, i, k);
    assert BySize(size, l.sorted[i]);
    InsertBySize(size, l.sorted[i], k, p);
    SortedNoLinks(base, l, size, place, p, i, k);
  }

  lemma SortedNoLinks(base: Addr, l: Lists, size: Addr -> int, place: map<Addr, Place>, p: Addr, i: int, k: int)
    requires ListsOk(base, l, size, place) && p in place && place[p].Loose?
    requires 0 <= i < LARGEBINS && CeilAt(size, l.sorted[i], k, size(p))
    ensures NoSizeLinks(SortL(base, l, p, i, k).nextSize, place[p := Bin(LARGE0 + i)])
  {
    RingsInsert(base, LARGE0, l.nextSize, l.prevSizePtr, l.sorted, place, p, i, k);
  }

  lemma ClearSizeLists(base: Addr, l: Lists, size: Addr -> int, place: map<Addr, Place>, p: Addr)
    requires ListsOk(base, l, size, place) && p in place && place[p].Loose?
    ensures ListsOk(base, ClearSizeL(l, p), size, place)
  {
    var l' := ClearSizeL(l, p);
    forall i | 0 <= i < LARGEBINS
      ensures Ring(l'.nextSize, l'.prevSizePtr, Head(base, LARGE0 + i), l.sorted[i])
    {
      RingFrame(l.nextSize, l.prevSizePtr, Head(base, LARGE0 + i), l.sorted[i], l'.nextSize, l'.prevSizePtr);
    }
  }

  lemma FastPushLists(base: Addr, l: Lists, size: Addr -> int, place: map<Addr, Place>, p: Addr, i: int)
    requires ListsOk(base, l, size, place) && p in place && place[p].InUse? && 0 <= i < FASTBINS
    ensures ListsOk(base, FastPushL(l, p, i), size, place[p := Fast(i)])
  {
    var l' := FastPushL(l, p, i);
    ListsFrame(base, l, size, place, size, place[p := InUse]);
    ChainPush(l.fd, l.fastbins[i], l.fast[i], p);
    FastRings(base, l, size, place, p, l'.fd);
    forall j | 0 <= j < FASTBINS && j != i
      ensures Chain(l'.fd, l.fastbins[j], l.fast[j])
    {
      ChainFrame(l.fd, l.fastbins[j], l.fast[j], l'.fd);
    }
    assert FastMembers(l'.fast, place[p := Fast(i)]);
    assert Members(0, l.bins, place[p := Fast(i)]);
    assert Members(LARGE0, l.sorted, place[p := Fast(i)]);
  }

  /** Writing the fd link of a chunk that is in no ring leaves the rings alone. */
  lemma FastRings(base: Addr, l: Lists, size: Addr -> int, place: map<Addr, Place>, p: Addr, fd': Links)
    requires ListsOk(base, l, size, place) && p in place && !place[p].Bin?
    requires forall x :: x != p ==> fd'(x) == l.fd(x)
    ensures RingsOk(base, 0, fd', l.bk, l.bins)
  {
    forall b | 0 <= b < BINS
      ensures Ring(fd', l.bk, Head(base, b), l.bins[b])
    {
      RingFrame(l.fd, l.bk, Head(base, b), l.bins[b], fd', l.bk);
    }
  }

  lemma FastPopLists(base: Addr, l: Lists, size: Addr -> int, place: map<Addr, Place>, i: int)
    requires ListsOk(base, l, size, place) && 0 <= i < FASTBINS && l.fast[i] != []
    ensures var p := l.fastbins[i];
            p in place && place[p] == Fast(i) && ListsOk(base, FastPopL(l, i), size, place[p := InUse])
  {
    var p := l.fastbins[i];
    assert Chain(l.fd, l.fastbins[i], l.fast[i]);
    assert p == l.fast[i][0] && l.fast[i][0] in l.fast[i];
    var l' := FastPopL(l, i);
    ChainPop(l.fd, l.fastbins[i], l.fast[i]);
    FastRings(base, l, size, place, p, l'.fd);
    forall j | 0 <= j < FASTBINS && j != i
      ensures Chain(l'.fd, l.fastbins[j], l.fast[j])
    {
      ChainFrame(l.fd, l.fastbins[j], l.fast[j], l'.fd);
    }
    FastPopMembers(l.fast, place, i);
    assert Members(0, l.bins, place[p := InUse]);
    assert Members(LARGE0, l.sorted, place[p := InUse]);
  }

  lemma FastPopMembers(fast: seq<seq<Addr>>, place: map<Addr, Place>, i: int)
    requires FastMembers(fast, place) && 0 <= i < FASTBINS && fast[i] != [] && Distinct(fast[i])
    ensures FastMembers(fast[i := fast[i][1..]], place[fast[i][0] := InUse])
  {
    var s := fast[i];
    forall x | x in s && x != s[0]
      ensures x in s[1..]
    {
      var j :| 0 <= j < |s| && s[j] == x;
      assert s[1..][j - 1] == x;
    }
    forall x | x in s[1..]
      ensures x in s && x != s[0]
    {
      var j :| 0 <= j < |s[1..]| && s[1..][j] == x;
      assert s[j + 1] == x;
    }
    assert s[0] in s;
  }

  // ---- Steps of the whole arena ----

  lemma UnbinGood(base: Addr, m: Headers, l: Lists, p: Addr, i: int, k: int)
    requires Good(base, m, l) && At(0, l.bins, m.place, p, i, k) && !IsLarge(m.place[p])
    ensures Good(base, Loosen(m, p), UnbinL(l, p, i, k))
  {
    LoosenKeeps(base, m, p);
    UnbinLists(base, l, m.size, m.place, p, i, k);
  }

  lemma DetachGood(base: Addr, m: Headers, l: Lists, p: Addr, i: int, k: int, j: int)
    requires Good(base, m, l) && LARGE0 <= i < UNSORTED
    requires At(0, l.bins, m.place, p, i, k) && At(LARGE0, l.sorted, m.place, p, i - LARGE0, j)
    ensures Good(base, Loosen(m, p), UnsortL(UnbinL(l, p, i, k), p, i - LARGE0, j))
  {
    LoosenKeeps(base, m, p);
    DetachLists(base, l, m.size, m.place, p, i, k, j);
  }

  lemma ShelveGood(base: Addr, m: Headers, l: Lists, p: Addr)
    requires Good(base, m, l) && IsLoose(m, p)
    ensures Good(base, Shelve(m, p, UNSORTED), PushL(base, ClearSizeL(l, p), p, UNSORTED))
  {
    ShelveKeeps(base, m, p, UNSORTED);
    ClearSizeLists(base, l, m.size, m.place, p);
    PushLists(base, ClearSizeL(l, p), m.size, m.place, p, UNSORTED);
  }

  /** A detached chunk that still carries the marks of a binned chunk. */
  ghost predicate StillTold(m: Headers, p: Addr)
  {
    && IsLoose(m, p) && !m.inUse(p)
    && !m.prevInUse(Next(m.size, p)) && m.prevSize(Next(m.size, p)) == m.size(p)
  }

  lemma SmallGood(base: Addr, m: Headers, l: Lists, p: Addr)
    requires Good(base, m, l) && StillTold(m, p) && l.nextSize(p) == NULL && m.size(p) < 16 * SMALLBINS
    ensures var b := SmallBinIndex(m.size(p));
            0 <= b < SMALLBINS && Good(base, Reshelve(m, p, b), PushL(base, l, p, b))
  {
    var b := SmallBinIndex(m.size(p));
    assert Aligned(m.size(p));
    ReshelveKeeps(base, m, p, b);
    PushLists(base, l, m.size, m.place, p, b);
  }

  lemma LargeGood(base: Addr, m: Headers, l: Lists, p: Addr, i: int, k: int)
    requires Good(base, m, l) && StillTold(m, p) && LargeBinIndex(m.size(p)) == i >= 0
    requires CeilAt(m.size, l.sorted[i], k, m.size(p))
    ensures Good(base, Reshelve(m, p, LARGE0 + i), PushL(base, SortL(base, l, p, i, k), p, LARGE0 + i))
  {
    ReshelveKeeps(base, m, p, LARGE0 + i);
    SortLists(base, l, m.size, m.place, p, i, k);
  }

  /** Steps that only move chunks in and out of lists' sight. */
  lemma HeaderStep(base: Addr, m: Headers, l: Lists, k: Headers)
    requires Good(base, m, l) && HeadersOk(base, k) && SameBinned(m.place, k.place)
    requires forall x :: x in m.place && IsLarge(m.place[x]) ==> k.size(x) == m.size(x)
    ensures Good(base, k, l)
  {
    ChunksAreSeparate(base, k);
    ListsFrame(base, l, m.size, m.place, k.size, k.place);
  }

  lemma JoinGood(base: Addr, m: Headers, l: Lists, a: Addr, n: Addr)
    requires Good(base, m, l) && IsLoose(m, a) && IsLoose(m, n) && n == Next(m.size, a)
    ensures Good(base, Join(m, a, n), l)
  {
    JoinKeeps(base, m, a, n);
    HeaderStep(base, m, l, Join(m, a, n));
  }

  lemma CutGood(base: Addr, m: Headers, l: Lists, a: Addr, z: int)
    requires Good(base, m, l) && IsLoose(m, a) && CanCut(m, a, z)
    ensures Good(base, Cut(m, a, z), l) && a + HEADER + z !in m.place
  {
    CutKeeps(base, m, a, z);
    HeaderStep(base, m, l, Cut(m, a, z));
  }

  lemma HandGood(base: Addr, m: Headers, l: Lists, a: Addr)
    requires Good(base, m, l) && IsLoose(m, a) && m.prevInUse(Next(m.size, a))
    ensures Good(base, Hand(m, a), l)
  {
    HandKeeps(base, m, a);
    HeaderStep(base, m, l, Hand(m, a));
  }

  lemma TellInUseGood(base: Addr, m: Headers, l: Lists, a: Addr)
    requires Good(base, m, l) && IsLoose(m, a)
    ensures Good(base, TellInUse(m, a), l)
  {
    TellInUseKeeps(base, m, a);
  }

  lemma GiveBackGood(base: Addr, m: Headers, l: Lists, a: Addr)
    requires Good(base, m, l) && a in m.place && m.place[a].InUse?
    ensures Good(base, Loosen(m, a), l)
  {
    LoosenKeeps(base, m, a);
    HeaderStep(base, m, l, Loosen(m, a));
  }

  lemma LoosenTopGood(base: Addr, m: Headers, l: Lists)
    requires Good(base, m, l) && m.top != NULL
    ensures Good(base, LoosenTop(m), l)
  {
    LoosenTopKeeps(base, m);
    HeaderStep(base, m, l, LoosenTop(m));
  }

  lemma MakeTopGood(base: Addr, m: Headers, l: Lists, a: Addr)
    requires Good(base, m, l) && m.top == NULL && IsLoose(m, a)
    requires Next(m.size, a) in m.ends && m.prevInUse(Next(m.size, a))
    ensures Good(base, MakeTop(m, a), l)
  {
    MakeTopKeeps(base, m, a);
    HeaderStep(base, m, l, MakeTop(m, a));
  }

  lemma FastPushGood(base: Addr, m: Headers, l: Lists, a: Addr, i: int)
    requires Good(base, m, l) && a in m.place && m.place[a].InUse? && 0 <= i < FASTBINS && m.size(a) == 16 * (i + 1)
    ensures Good(base, ToFast(m, a, i), FastPushL(l, a, i))
  {
    ToFastKeeps(base, m, a, i);
    FastPushLists(base, l, m.size, m.place, a, i);
  }

  lemma FastPopGood(base: Addr, m: Headers, l: Lists, i: int)
    requires Good(base, m, l) && 0 <= i < FASTBINS && l.fast[i] != []
    ensures var p := l.fastbins[i];
            && p in m.place && m.place[p] == Fast(i) && m.size(p) == 16 * (i + 1)
            && Good(base, Hand(m, p), FastPopL(l, i))
  {
    FastPopLists(base, l, m.size, m.place, i);
    var p := l.fastbins[i];
    assert m.prevInUse(Next(m.size, p));
    LoosenKeeps(base, m, p);
    HandKeeps(base, Loosen(m, p), p);
    assert Hand(m, p) == Hand(Loosen(m, p), p) by {
      assert m.place[p := InUse] == m.place[p := Loose][p := InUse];
    }
  }

  ghost function GrowL(l: Lists, start: Addr, end: Addr): Lists
  {
    l.(fd := Put(Put(l.fd, start, NULL), end, NULL), bk := Put(Put(l.bk, start, NULL), end, NULL))
  }

  lemma GrowGood(base: Addr, m: Headers, l: Lists, start: Addr, z: int)
    requires Good(base, m, l) && m.top == NULL
    requires FreshRegion(base, m.heaps, start, z) && z >= MIN_PAYLOAD && Aligned(z)
    ensures Good(base, Grow(m, start, z), GrowL(l, start, start + HEADER + z))
  {
    hide ListsOk, ClassOk, TopOk, UseOk, PrevOk, NoOverlap, Housed, Gapless, HeapsOk, FreshRegion;
    var k := Grow(m, start, z);
    GrowKeeps(base, m, start, z);
    FreshIsFar(base, m, start, z);
    HeaderStep(base, m, l, k);
    GrowLists(base, k, l, start, start + HEADER + z);
  }

  lemma GrowLists(base: Addr, k: Headers, l: Lists, start: Addr, end: Addr)
    requires Good(base, k, l) && start in k.place && k.place[start].Top? && end in k.ends
    ensures Good(base, k, GrowL(l, start, end))
  {
    var l' := GrowL(l, start, end);
    assert end !in k.place by {
      if end in k.place {
        EndsAreOutside(base, k, end, end);
      }
    }
    forall b | 0 <= b < BINS
      ensures Ring(l'.fd, l'.bk, Head(base, b), l.bins[b])
    {
      assert IsEnd(k.heaps, end);
      RingFrame(l.fd, l.bk, Head(base, b), l.bins[b], l'.fd, l'.bk);
    }
    ChainsFrame(l.fastbins, l.fd, l.fast, k.place, l'.fd);
  }
}
