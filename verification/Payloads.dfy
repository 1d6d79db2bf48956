/** What the allocator may write: nothing inside the payload of a chunk that stays handed out. */
module Payloads {
  import opened ChunkLayout
  import opened Rings
  import opened Blocks
  import opened BinLists
  import opened ArenaSteps

  ghost predicate Live(m: Headers, c: Addr)
  {
    c in m.place && m.place[c].InUse?
  }

  ghost predicate IsHead(base: Addr, x: Addr)
  {
    exists b :: 0 <= b < BINS && x == Head(base, b)
  }

  ghost predicate HdrSame(m: Headers, k: Headers, x: Addr)
  {
    && k.size(x) == m.size(x) && k.prevInUse(x) == m.prevInUse(x) && k.inUse(x) == m.inUse(x)
    && k.prevSize(x) == m.prevSize(x) && k.marked(x) == m.marked(x)
  }

  ghost predicate LnkSame(l: Lists, l': Lists, x: Addr)
  {
    && l'.fd(x) == l.fd(x) && l'.bk(x) == l.bk(x)
    && l'.nextSize(x) == l.nextSize(x) && l'.prevSizePtr(x) == l.prevSizePtr(x)
  }

  /** No chunk, boundary or sentinel lies at x, before or after. */
  ghost predicate Idle(base: Addr, m: Headers, k: Headers, x: Addr)
  {
    x !in m.place && x !in k.place && x !in k.ends && !IsHead(base, x)
  }

  /** Headers change only at chunks and boundaries, links only at chunks that are not live throughout. */
  ghost predicate Frame(base: Addr, m: Headers, l: Lists, k: Headers, l': Lists)
  {
    && m.ends <= k.ends
    && (forall c {:trigger Live(k, c)} :: Live(m, c) && Live(k, c) ==> k.size(c) == m.size(c))
    && (forall x {:trigger HdrSame(m, k, x)} :: Idle(base, m, k, x) ==> HdrSame(m, k, x))
    && (forall x {:trigger LnkSame(l, l', x)} ::
          (Live(m, x) && Live(k, x)) || Idle(base, m, k, x) ==> LnkSame(l, l', x))
  }

  /** Chunks of the intermediate state are chunks before or after; chunks live before and after are live in between. */
  ghost predicate Between(m: Headers, j: Headers, k: Headers)
  {
    && (forall x :: x in j.place ==> x in m.place || x in k.place)
    && (forall c {:trigger Live(j, c)} :: Live(m, c) && Live(k, c) ==> Live(j, c))
  }

  lemma FrameTrans(base: Addr, m: Headers, l: Lists, j: Headers, lj: Lists, k: Headers, lk: Lists)
    requires Frame(base, m, l, j, lj) && Frame(base, j, lj, k, lk) && Between(m, j, k)
    ensures Frame(base, m, l, k, lk)
  {
    forall c | Live(m, c) && Live(k, c)
      ensures k.size(c) == m.size(c)
    {
      assert Live(j, c);
    }
    forall x | Idle(base, m, k, x)
      ensures HdrSame(m, k, x)
    {
      assert HdrSame(m, j, x) && HdrSame(j, k, x);
    }
    forall x | (Live(m, x) && Live(k, x)) || Idle(base, m, k, x)
      ensures LnkSame(l, lk, x)
    {
      assert Live(m, x) && Live(k, x) ==> Live(j, x);
      assert LnkSame(l, lj, x) && LnkSame(lj, lk, x);
    }
  }

  // ---- The frame of every step ----

  lemma LinkFrame(base: Addr, m: Headers, l: Lists, k: Headers, l': Lists)
    requires Frame(base, m, l, k, l)
    requires forall x {:trigger LnkSame(l, l', x)} ::
               (Live(m, x) && Live(k, x)) || Idle(base, m, k, x) ==> LnkSame(l, l', x)
    ensures Frame(base, m, l, k, l')
  {
  }

  lemma LoosenFrame(base: Addr, m: Headers, l: Lists, p: Addr)
    requires p in m.place
    ensures Frame(base, m, l, Loosen(m, p), l)
  {
  }

  lemma OnRingsIsBusy(base: Addr, first: int, n: int, m: Headers, x: Addr)
    requires OnRings(base, first, n, m.place, x) && 0 <= first && first + n <= BINS && Separate(base, m.place)
    ensures x in m.place || IsHead(base, x)
    ensures !Live(m, x)
  {
  }

  /** Links that change only at chunks that are not live and at sentinels. */
  ghost predicate Busy(base: Addr, m: Headers, x: Addr)
  {
    (x in m.place || IsHead(base, x)) && !Live(m, x)
  }

  lemma UnlinkBusy(base: Addr, first: int, fd: Links, bk: Links, rings: seq<seq<Addr>>, m: Headers, p: Addr, i: int,
                   k: int)
    requires FamilyOk(base, first, fd, bk, rings, m.place) && At(first, rings, m.place, p, i, k)
    ensures Busy(base, m, p) && Busy(base, m, fd(p)) && Busy(base, m, bk(p))
  {
    RingsUnlink(base, first, fd, bk, rings, m.place, p, i, k);
    OnRingsIsBusy(base, first, |rings|, m, fd(p));
    OnRingsIsBusy(base, first, |rings|, m, bk(p));
  }

  lemma UnbinFrame(base: Addr, m: Headers, l: Lists, p: Addr, i: int, k: int)
    requires FamilyOk(base, 0, l.fd, l.bk, l.bins, m.place) && At(0, l.bins, m.place, p, i, k)
    ensures Frame(base, m, l, Loosen(m, p), UnbinL(l, p, i, k))
  {
    UnlinkBusy(base, 0, l.fd, l.bk, l.bins, m, p, i, k);
    LoosenFrame(base, m, l, p);
    LinkFrame(base, m, l, Loosen(m, p), UnbinL(l, p, i, k));
  }

  lemma UnsortFrame(base: Addr, m: Headers, l: Lists, p: Addr, i: int, j: int)
    requires FamilyOk(base, LARGE0, l.nextSize, l.prevSizePtr, l.sorted, m.place)
    requires At(LARGE0, l.sorted, m.place, p, i, j)
    ensures Frame(base, m, l, Loosen(m, p), UnsortL(l, p, i, j))
  {
    UnlinkBusy(base, LARGE0, l.nextSize, l.prevSizePtr, l.sorted, m, p, i, j);
    LoosenFrame(base, m, l, p);
    LinkFrame(base, m, l, Loosen(m, p), UnsortL(l, p, i, j));
  }

  lemma DetachFrame(base: Addr, m: Headers, l: Lists, p: Addr, i: int, k: int, j: int)
    requires Good(base, m, l) && LARGE0 <= i < UNSORTED
    requires At(0, l.bins, m.place, p, i, k) && At(LARGE0, l.sorted, m.place, p, i - LARGE0, j)
    ensures Frame(base, m, l, Loosen(m, p), UnsortL(UnbinL(l, p, i, k), p, i - LARGE0, j))
  {
    UnbinFrame(base, m, l, p, i, k);
    UnsortFrame(base, m, l, p, i - LARGE0, j);
    BothFrames(base, m, l, Loosen(m, p), UnbinL(l, p, i, k), UnsortL(l, p, i - LARGE0, j),
               UnsortL(UnbinL(l, p, i, k), p, i - LARGE0, j));
  }

  lemma InsertBusy(base: Addr, first: int, fd: Links, bk: Links, rings: seq<seq<Addr>>, m: Headers, p: Addr, i: int,
                   k: int)
    requires FamilyOk(base, first, fd, bk, rings, m.place)
    requires IsLoose(m, p) && 0 <= i < |rings| && 0 <= k <= |rings[i]|
    ensures var h := Head(base, first + i);
            Busy(base, m, After(h, rings[i], k - 1)) && Busy(base, m, Before(h, rings[i], k))
  {
    var h := Head(base, first + i);
    RingsInsert(base, first, fd, bk, rings, m.place, p, i, k);
    OnRingsIsBusy(base, first, |rings|, m, After(h, rings[i], k - 1));
    OnRingsIsBusy(base, first, |rings|, m, Before(h, rings[i], k));
  }

  lemma PushFrame(base: Addr, m: Headers, l: Lists, p: Addr, b: int, k: Headers)
    requires FamilyOk(base, 0, l.fd, l.bk, l.bins, m.place) && IsLoose(m, p) && 0 <= b < |l.bins|
    requires Frame(base, m, l, k, l)
    ensures Frame(base, m, l, k, PushL(base, l, p, b))
  {
    InsertBusy(base, 0, l.fd, l.bk, l.bins, m, p, b, 0);
    assert Ring(l.fd, l.bk, Head(base, b), l.bins[b]);
    LinkFrame(base, m, l, k, PushL(base, l, p, b));
  }

  lemma SortFrame(base: Addr, m: Headers, l: Lists, p: Addr, i: int, k: int, m': Headers)
    requires FamilyOk(base, LARGE0, l.nextSize, l.prevSizePtr, l.sorted, m.place) && IsLoose(m, p)
    requires 0 <= i < |l.sorted| && 0 <= k <= |l.sorted[i]| && Frame(base, m, l, m', l)
    ensures Frame(base, m, l, m', SortL(base, l, p, i, k))
  {
    InsertBusy(base, LARGE0, l.nextSize, l.prevSizePtr, l.sorted, m, p, i, k);
    LinkFrame(base, m, l, m', SortL(base, l, p, i, k));
  }

  /** Two groups of link writes, each within the frame, are within the frame together. */
  lemma BothFrames(base: Addr, m: Headers, l: Lists, k: Headers, u: Lists, v: Lists, l': Lists)
    requires Frame(base, m, l, k, u) && Frame(base, m, l, k, v)
    requires l'.fd == u.fd && l'.bk == u.bk && l'.nextSize == v.nextSize && l'.prevSizePtr == v.prevSizePtr
    ensures Frame(base, m, l, k, l')
  {
    forall x | (Live(m, x) && Live(k, x)) || Idle(base, m, k, x)
      ensures LnkSame(l, l', x)
    {
      assert LnkSame(l, u, x) && LnkSame(l, v, x);
    }
  }

  lemma ShelveHeaders(base: Addr, m: Headers, l: Lists, p: Addr)
    requires HeadersOk(base, m) && IsLoose(m, p)
    ensures Frame(base, m, l, Shelve(m, p, UNSORTED), l)
    ensures Frame(base, m, l, Shelve(m, p, UNSORTED), ClearSizeL(l, p))
  {
    assert Next(m.size, p) in m.place || Next(m.size, p) in m.ends;
  }

  lemma ShelveFrame(base: Addr, m: Headers, l: Lists, p: Addr)
    requires Good(base, m, l) && IsLoose(m, p)
    ensures Frame(base, m, l, Shelve(m, p, UNSORTED), PushL(base, ClearSizeL(l, p), p, UNSORTED))
  {
    var k, c := Shelve(m, p, UNSORTED), ClearSizeL(l, p);
    ShelveHeaders(base, m, l, p);
    PushFrame(base, m, l, p, UNSORTED, k);
    BothFrames(base, m, l, k, PushL(base, l, p, UNSORTED), c, PushL(base, c, p, UNSORTED));
  }

  lemma SmallFrame(base: Addr, m: Headers, l: Lists, p: Addr, b: int)
    requires Good(base, m, l) && IsLoose(m, p) && 0 <= b < BINS
    ensures Frame(base, m, l, Reshelve(m, p, b), PushL(base, l, p, b))
  {
    assert Frame(base, m, l, Reshelve(m, p, b), l);
    PushFrame(base, m, l, p, b, Reshelve(m, p, b));
  }

  lemma LargeFrame(base: Addr, m: Headers, l: Lists, p: Addr, i: int, k: int)
    requires Good(base, m, l) && IsLoose(m, p) && 0 <= i < LARGEBINS && 0 <= k <= |l.sorted[i]|
    ensures Frame(base, m, l, Reshelve(m, p, LARGE0 + i), PushL(base, SortL(base, l, p, i, k), p, LARGE0 + i))
  {
    var m', s := Reshelve(m, p, LARGE0 + i), SortL(base, l, p, i, k);
    assert Frame(base, m, l, m', l);
    PushFrame(base, m, l, p, LARGE0 + i, m');
    SortFrame(base, m, l, p, i, k, m');
    BothFrames(base, m, l, m', PushL(base, l, p, LARGE0 + i), s, PushL(base, s, p, LARGE0 + i));
  }

  lemma JoinFrame(base: Addr, m: Headers, l: Lists, a: Addr, n: Addr)
    requires HeadersOk(base, m) && IsLoose(m, a) && IsLoose(m, n) && n == Next(m.size, a)
    ensures Frame(base, m, l, Join(m, a, n), l)
  {
    hide HeadersOk;
    NextPlaced(base, m, n);
  }

  lemma CutFrame(base: Addr, m: Headers, l: Lists, a: Addr, z: int)
    requires HeadersOk(base, m) && IsLoose(m, a) && CanCut(m, a, z) && a + HEADER + z !in m.place
    ensures Frame(base, m, l, Cut(m, a, z), l)
  {
    hide HeadersOk, Aligned;
    NextPlaced(base, m, a);
  }

  lemma NextPlaced(base: Addr, m: Headers, a: Addr)
    requires HeadersOk(base, m) && a in m.place
    ensures Next(m.size, a) in m.place || Next(m.size, a) in m.ends
  {
  }

  lemma FlagFrame(base: Addr, m: Headers, l: Lists, a: Addr)
    requires HeadersOk(base, m) && a in m.place
    ensures Frame(base, m, l, Hand(m, a), l)
    ensures Frame(base, m, l, TellInUse(m, a), l)
    ensures a != NULL && !Live(m, a) ==> Frame(base, m, l, MakeTop(m, a), l)
  {
    assert Next(m.size, a) in m.place || Next(m.size, a) in m.ends;
  }

  lemma FastPushFrame(base: Addr, m: Headers, l: Lists, a: Addr, i: int)
    requires a in m.place && 0 <= i < |l.fast| == |l.fastbins|
    ensures Frame(base, m, l, ToFast(m, a, i), FastPushL(l, a, i))
  {
  }

  lemma FastPopFrame(base: Addr, m: Headers, l: Lists, i: int)
    requires Good(base, m, l) && 0 <= i < FASTBINS && l.fast[i] != []
    ensures Frame(base, m, l, Hand(m, l.fastbins[i]), FastPopL(l, i))
  {
    FastPopGood(base, m, l, i);
  }

  lemma GrowFrame(base: Addr, m: Headers, l: Lists, start: Addr, z: int)
    requires Sized(m.size, m.place) && FarFrom(m, start, z) && z >= MIN_PAYLOAD
    ensures Frame(base, m, l, Grow(m, start, z), GrowL(l, start, start + HEADER + z))
  {
  }

  // ---- What frames are good for ----

  /** Every word between lo and hi has kept its value, whatever field it is read as. */
  ghost predicate WordsSame(m: Headers, l: Lists, k: Headers, l': Lists, lo: Addr, hi: Addr)
  {
    && (forall a {:trigger k.prevSize(a)} {:trigger k.marked(a)} :: lo <= a < hi ==>
          k.prevSize(a) == m.prevSize(a) && k.marked(a) == m.marked(a))
    && (forall a {:trigger k.size(a)} {:trigger k.prevInUse(a)} {:trigger k.inUse(a)} :: lo <= a + 8 < hi ==>
          k.size(a) == m.size(a) && k.prevInUse(a) == m.prevInUse(a) && k.inUse(a) == m.inUse(a))
    && (forall a {:trigger l'.fd(a)} :: lo <= a + 16 < hi ==> l'.fd(a) == l.fd(a))
    && (forall a {:trigger l'.bk(a)} :: lo <= a + 24 < hi ==> l'.bk(a) == l.bk(a))
    && (forall a {:trigger l'.nextSize(a)} :: lo <= a + 32 < hi ==> l'.nextSize(a) == l.nextSize(a))
    && (forall a {:trigger l'.prevSizePtr(a)} :: lo <= a + 40 < hi ==> l'.prevSizePtr(a) == l.prevSizePtr(a))
  }

  lemma HeadsAreApart(base: Addr, m: Headers, a: Addr, x: Addr)
    requires TiledHeaps(base, m) && a in m.place && IsHead(base, x)
    ensures Next(m.size, a) <= x || x + 48 <= a
  {
    assert InHeap(m.heaps, m.size, a);
  }

  /** Nothing but the chunk itself has a header or links that reach into its payload. */
  lemma NothingInside(base: Addr, m: Headers, c: Addr, x: Addr)
    requires TiledHeaps(base, m) && c in m.place && c - 32 < x < Next(m.size, c) && x != c
    ensures x !in m.place && x !in m.ends && !IsHead(base, x)
  {
    if x in m.ends {
      EndsAreOutside(base, m, c, x);
    }
    if IsHead(base, x) {
      HeadsAreApart(base, m, c, x);
    }
  }

  /** The payload of a chunk that is live before and after keeps every word. */
  lemma PayloadKept(base: Addr, m: Headers, l: Lists, k: Headers, l': Lists, c: Addr)
    requires TiledHeaps(base, m) && TiledHeaps(base, k) && Frame(base, m, l, k, l') && Live(m, c) && Live(k, c)
    ensures WordsSame(m, l, k, l', c + HEADER, Next(m.size, c))
  {
    forall x | c - 32 < x < Next(m.size, c) && x != c
      ensures k.size(x) == m.size(x) && k.prevInUse(x) == m.prevInUse(x) && k.inUse(x) == m.inUse(x)
      ensures k.prevSize(x) == m.prevSize(x) && k.marked(x) == m.marked(x)
      ensures l'.fd(x) == l.fd(x) && l'.bk(x) == l.bk(x)
      ensures l'.nextSize(x) == l.nextSize(x) && l'.prevSizePtr(x) == l.prevSizePtr(x)
    {
      NothingInside(base, m, c, x);
      NothingInside(base, k, c, x);
      assert HdrSame(m, k, x) && LnkSame(l, l', x);
    }
    assert LnkSame(l, l', c);
  }
}
