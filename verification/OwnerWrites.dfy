/** What the owner of a payload may write there: it is no business of the allocator. */
module OwnerWrites {
  import opened ChunkLayout
  import opened Rings
  import opened Blocks
  import opened BinLists
  import opened ArenaSteps
  import opened Payloads

  /** Only words between lo and hi have changed, whatever fields they are read as. */
  ghost predicate OnlyInside(m: Headers, l: Lists, k: Headers, lk: Lists, lo: Addr, hi: Addr)
  {
    && WordsSameOutside(m, l, k, lk, lo, hi)
    && k.heaps == m.heaps && k.ends == m.ends && k.top == m.top && k.place == m.place
    && lk.fastbins == l.fastbins && lk.bins == l.bins && lk.sorted == l.sorted && lk.fast == l.fast
  }

  ghost predicate WordsSameOutside(m: Headers, l: Lists, k: Headers, lk: Lists, lo: Addr, hi: Addr)
  {
    && (forall a {:trigger k.prevSize(a)} {:trigger k.marked(a)} :: !(lo <= a < hi) ==>
          k.prevSize(a) == m.prevSize(a) && k.marked(a) == m.marked(a))
    && (forall a {:trigger k.size(a)} {:trigger k.prevInUse(a)} {:trigger k.inUse(a)} :: !(lo <= a + 8 < hi) ==>
          k.size(a) == m.size(a) && k.prevInUse(a) == m.prevInUse(a) && k.inUse(a) == m.inUse(a))
    && (forall a {:trigger lk.fd(a)} :: !(lo <= a + 16 < hi) ==> lk.fd(a) == l.fd(a))
    && (forall a {:trigger lk.bk(a)} :: !(lo <= a + 24 < hi) ==> lk.bk(a) == l.bk(a))
    && (forall a {:trigger lk.nextSize(a)} :: !(lo <= a + 32 < hi) ==> lk.nextSize(a) == l.nextSize(a))
    && (forall a {:trigger lk.prevSizePtr(a)} :: !(lo <= a + 40 < hi) ==> lk.prevSizePtr(a) == l.prevSizePtr(a))
  }

  /** The headers of all chunks and boundaries are the same. */
  ghost predicate SameHeaders(m: Headers, k: Headers)
  {
    && k.heaps == m.heaps && k.ends == m.ends && k.top == m.top && k.place == m.place
    && forall x {:trigger HdrSame(m, k, x)} :: x in m.place || x in m.ends ==> HdrSame(m, k, x)
  }

  lemma SameHeadersTile(base: Addr, m: Headers, k: Headers)
    requires TiledHeaps(base, m) && SameHeaders(m, k)
    ensures TiledHeaps(base, k)
  {
    forall x | x in m.place
      ensures k.size(x) == m.size(x) && Next(k.size, x) == Next(m.size, x) && InHeap(k.heaps, k.size, x)
    {
      assert HdrSame(m, k, x) && InHeap(m.heaps, m.size, x);
    }
    assert forall x :: x in m.place ==> Aligned(x) && Aligned(m.size(x));
  }

  lemma SameHeadersTold(m: Headers, k: Headers)
    requires Gapless(m.size, m.place, m.heaps, m.ends) && Told(m.size, m.prevInUse, m.prevSize, m.place)
    requires SameHeaders(m, k)
    ensures Told(k.size, k.prevInUse, k.prevSize, k.place)
  {
    forall p | p in m.place
      ensures Next(k.size, p) == Next(m.size, p) && HdrSame(m, k, p) && HdrSame(m, k, Next(m.size, p))
    {
      assert HdrSame(m, k, p);
    }
  }

  lemma SameHeadersKnown(m: Headers, k: Headers)
    requires PrevKnown(m.size, m.prevInUse, m.prevSize, m.place, m.ends) && SameHeaders(m, k)
    ensures PrevKnown(k.size, k.prevInUse, k.prevSize, k.place, k.ends)
  {
    forall x | (x in k.place || x in k.ends) && !k.prevInUse(x)
      ensures PrevFree(k.size, k.prevSize, k.place, x)
    {
      assert HdrSame(m, k, x);
      assert PrevFree(m.size, m.prevSize, m.place, x);
      assert HdrSame(m, k, x - HEADER - m.prevSize(x));
    }
  }

  lemma SameHeadersOk(base: Addr, m: Headers, k: Headers)
    requires HeadersOk(base, m) && SameHeaders(m, k)
    ensures HeadersOk(base, k)
  {
    SameHeadersTile(base, m, k);
    SameHeadersTold(m, k);
    SameHeadersKnown(m, k);
    forall x | x in m.place || x in m.ends
      ensures k.size(x) == m.size(x) && k.inUse(x) == m.inUse(x)
    {
      assert HdrSame(m, k, x);
    }
    assert ClassOk(k.size, k.place);
    assert TopOk(k.size, k.place, k.top, k.ends) by {
      assert m.top != NULL ==> Next(k.size, m.top) == Next(m.size, m.top);
    }
  }

  /** The links of everything but c are the same. */
  ghost predicate SameLinks(base: Addr, m: Headers, l: Lists, lk: Lists, c: Addr)
  {
    && lk.fastbins == l.fastbins && lk.bins == l.bins && lk.sorted == l.sorted && lk.fast == l.fast
    && forall x {:trigger LnkSame(l, lk, x)} :: x != c && (x in m.place || IsHead(base, x)) ==> LnkSame(l, lk, x)
  }

  lemma SameLinksRings(base: Addr, m: Headers, l: Lists, lk: Lists, c: Addr)
    requires ListsOk(base, l, m.size, m.place) && SameLinks(base, m, l, lk, c) && Live(m, c)
    ensures RingsOk(base, 0, lk.fd, lk.bk, lk.bins)
    ensures RingsOk(base, LARGE0, lk.nextSize, lk.prevSizePtr, lk.sorted)
  {
    forall i | 0 <= i < BINS
      ensures Ring(lk.fd, lk.bk, Head(base, i), l.bins[i])
    {
      assert Ring(l.fd, l.bk, Head(base, i), l.bins[i]);
      assert IsHead(base, Head(base, i)) && LnkSame(l, lk, Head(base, i));
      forall x | x in l.bins[i] ensures LnkSame(l, lk, x) { }
      RingFrame(l.fd, l.bk, Head(base, i), l.bins[i], lk.fd, lk.bk);
    }
    forall i | 0 <= i < LARGEBINS
      ensures Ring(lk.nextSize, lk.prevSizePtr, Head(base, LARGE0 + i), l.sorted[i])
    {
      var h := Head(base, LARGE0 + i);
      assert Ring(l.nextSize, l.prevSizePtr, h, l.sorted[i]);
      assert IsHead(base, h) && LnkSame(l, lk, h);
      forall x | x in l.sorted[i] ensures LnkSame(l, lk, x) { }
      RingFrame(l.nextSize, l.prevSizePtr, h, l.sorted[i], lk.nextSize, lk.prevSizePtr);
    }
  }

  lemma SameLinksOk(base: Addr, m: Headers, l: Lists, size: Addr -> int, lk: Lists, c: Addr)
    requires ListsOk(base, l, m.size, m.place) && SameLinks(base, m, l, lk, c) && Live(m, c)
    requires forall x :: x in m.place ==> size(x) == m.size(x)
    ensures ListsOk(base, lk, size, m.place)
  {
    SameLinksRings(base, m, l, lk, c);
    forall x | x in m.place && x != c ensures lk.fd(x) == l.fd(x) && lk.nextSize(x) == l.nextSize(x) {
      assert LnkSame(l, lk, x);
    }
    ChainsFrame(l.fastbins, l.fd, l.fast, m.place, lk.fd);
    forall i | 0 <= i < LARGEBINS
      ensures BySize(size, l.sorted[i])
    {
      assert BySize(m.size, l.sorted[i]);
      forall n | 0 <= n < |l.sorted[i]| ensures size(l.sorted[i][n]) == m.size(l.sorted[i][n]) {
        assert l.sorted[i][n] in l.sorted[i];
      }
    }
  }

  /** A write into the payload of a live chunk touches no header and no link of anything else. */
  lemma InsideIsOwn(base: Addr, m: Headers, l: Lists, k: Headers, lk: Lists, c: Addr)
    requires TiledHeaps(base, m) && Live(m, c) && OnlyInside(m, l, k, lk, c + HEADER, Next(m.size, c))
    ensures SameHeaders(m, k) && SameLinks(base, m, l, lk, c)
  {
    forall x | x != c && (x in m.place || x in m.ends || IsHead(base, x))
      ensures HdrSame(m, k, x) && LnkSame(l, lk, x)
    {
      if c - 32 < x < Next(m.size, c) {
        NothingInside(base, m, c, x);
      }
    }
  }

  /** Whatever is written into the payload of a live chunk, the arena stays well formed, with the same sizes. */
  lemma WritesKeepGood(base: Addr, m: Headers, l: Lists, k: Headers, lk: Lists, c: Addr)
    requires Good(base, m, l) && Live(m, c) && OnlyInside(m, l, k, lk, c + HEADER, Next(m.size, c))
    ensures Good(base, k, lk) && k.place == m.place && forall x :: x in m.place ==> k.size(x) == m.size(x)
  {
    hide OnlyInside, ListsOk, SameLinks;
    InsideIsOwn(base, m, l, k, lk, c);
    SameHeadersOk(base, m, k);
    forall x | x in m.place ensures k.size(x) == m.size(x) { assert HdrSame(m, k, x); }
    SameLinksOk(base, m, l, k.size, lk, c);
  }

  lemma ApartSame(m: Headers, l: Lists, k: Headers, lk: Lists, lo: Addr, hi: Addr, lo': Addr, hi': Addr)
    requires OnlyInside(m, l, k, lk, lo, hi) && (hi <= lo' || hi' <= lo)
    ensures WordsSame(m, l, k, lk, lo', hi')
  {
  }
}
