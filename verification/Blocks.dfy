/** The chunks of an arena as a tiling of its heaps, and the elementary steps that change it. */
module Blocks {
  import opened ChunkLayout
  import opened Rings

  /** A registered heap: chunks tile [start, end), a boundary header sits at end. */
  datatype Span = Span(start: Addr, end: Addr)

  /** Where a chunk is: handed out, the top chunk, in a fastbin, in a ring bin, or detached in mid-operation. */
  datatype Place = InUse | Top | Fast(i: int) | Bin(b: int) | Loose

  // Ring bins are numbered: small bins 0..31, large bins 32..95, the unsorted bin 96.
  const LARGE0: int := 32
  const UNSORTED: int := 96
  const BINS: int := 97

  /** The header fields of all chunks, the heaps, and the place of every chunk. */
  datatype Headers = Headers(
    heaps: seq<Span>,
    ends: set<Addr>,
    size: Addr -> int,
    prevInUse: Addr -> bool,
    inUse: Addr -> bool,
    prevSize: Addr -> int,
    marked: Addr -> bool,
    top: Addr,
    place: map<Addr, Place>)

  /** Sentinels are laid out one after another behind the arena record. */
  function Head(base: Addr, b: int): Addr
  {
    base + 48 * b
  }

  function Next(size: Addr -> int, a: Addr): Addr
  {
    a + HEADER + size(a)
  }

  ghost predicate Aligned(x: int)
  {
    x % 16 == 0
  }

  ghost predicate IsEnd(heaps: seq<Span>, x: Addr)
  {
    exists i :: 0 <= i < |heaps| && heaps[i].end == x
  }

  ghost predicate InHeap(heaps: seq<Span>, size: Addr -> int, a: Addr)
  {
    exists i :: 0 <= i < |heaps| && heaps[i].start <= a && Next(size, a) <= heaps[i].end
  }

  ghost predicate Apart(g: Span, h: Span)
  {
    g.end + 32 <= h.start || h.end + 32 <= g.start
  }

  /** The mapped regions: heaps with their boundary headers, and the block of sentinels. */
  ghost predicate HeapsOk(base: Addr, heaps: seq<Span>, ends: set<Addr>)
  {
    && 0 < base
    && (forall i :: 0 <= i < |heaps| ==>
          0 < heaps[i].start && heaps[i].start % 16 == 0 && heaps[i].start + 48 <= heaps[i].end)
    && (forall i :: 0 <= i < |heaps| ==> heaps[i].end + 32 <= base || base + 48 * BINS <= heaps[i].start)
    && (forall i, j :: 0 <= i < j < |heaps| ==> Apart(heaps[i], heaps[j]))
    && (forall i :: 0 <= i < |heaps| ==> heaps[i].end in ends)
    && (forall x {:trigger IsEnd(heaps, x)} :: x in ends ==> IsEnd(heaps, x))
  }

  ghost predicate Sized(size: Addr -> int, place: map<Addr, Place>)
  {
    && (forall a :: a in place ==> 0 < a && size(a) >= MIN_PAYLOAD)
    && (forall a {:trigger Aligned(a)} {:trigger Aligned(size(a))} :: a in place ==> Aligned(a) && Aligned(size(a)))
  }

  ghost predicate NoOverlap(size: Addr -> int, place: map<Addr, Place>)
  {
    forall a, b {:trigger a in place, b in place} ::
      a in place && b in place && a < b ==> a + HEADER + size(a) <= b
  }

  ghost predicate Housed(size: Addr -> int, place: map<Addr, Place>, heaps: seq<Span>)
  {
    forall a {:trigger InHeap(heaps, size, a)} :: a in place ==> InHeap(heaps, size, a)
  }

  ghost predicate Gapless(size: Addr -> int, place: map<Addr, Place>, heaps: seq<Span>, ends: set<Addr>)
  {
    && (forall a {:trigger Next(size, a)} :: a in place ==> Next(size, a) in place || Next(size, a) in ends)
    && (forall i :: 0 <= i < |heaps| ==> heaps[i].start in place)
  }

  /** Chunks tile every heap exactly up to its boundary. */
  ghost predicate Tiling(size: Addr -> int, place: map<Addr, Place>, heaps: seq<Span>, ends: set<Addr>)
  {
    && Sized(size, place)
    && NoOverlap(size, place)
    && Housed(size, place, heaps)
    && Gapless(size, place, heaps, ends)
  }

  /** Every chunk has a size of the class of the bin that holds it. */
  ghost predicate ClassOk(size: Addr -> int, place: map<Addr, Place>)
  {
    && (forall a :: a in place && place[a].Fast? ==>
          0 <= place[a].i < FASTBINS && size(a) == 16 * (place[a].i + 1))
    && (forall a :: a in place && place[a].Bin? ==>
          && 0 <= place[a].b < BINS
          && (place[a].b < LARGE0 ==> size(a) == 16 * (place[a].b + 1))
          && (LARGE0 <= place[a].b < UNSORTED ==> LargeBinIndex(size(a)) == place[a].b - LARGE0))
  }

  ghost predicate TopOk(size: Addr -> int, place: map<Addr, Place>, top: Addr, ends: set<Addr>)
  {
    && (forall a :: a in place ==> (place[a].Top? <==> a == top))
    && (top != NULL ==> top in place && Next(size, top) in ends)
  }

  /** In-use bits agree with places, except on the top chunk; boundaries look like empty chunks in use. */
  ghost predicate UseOk(size: Addr -> int, inUse: Addr -> bool, place: map<Addr, Place>, ends: set<Addr>)
  {
    && (forall a :: a in place && place[a].InUse? ==> inUse(a))
    && (forall a :: a in place && (place[a].Fast? || place[a].Bin?) ==> !inUse(a))
    && (forall x :: x in ends ==> size(x) == 0 && inUse(x))
  }

  /** The successor of a binned chunk knows its size; the successor of any other settled chunk takes it for used. */
  ghost predicate Told(size: Addr -> int, prevInUse: Addr -> bool, prevSize: Addr -> int, place: map<Addr, Place>)
  {
    && (forall p {:trigger Next(size, p)} :: p in place && place[p].Bin? ==>
          !prevInUse(Next(size, p)) && prevSize(Next(size, p)) == size(p))
    && (forall p {:trigger Next(size, p)} :: p in place && !place[p].Bin? && !place[p].Loose? ==>
          prevInUse(Next(size, p)))
  }

  ghost predicate PrevFree(size: Addr -> int, prevSize: Addr -> int, place: map<Addr, Place>, x: Addr)
  {
    var p := x - HEADER - prevSize(x);
    p in place && p + HEADER + size(p) == x && (place[p].Bin? || place[p].Loose?)
  }

  /** A clear previous-in-use bit means that the previous chunk is binned and prevSize is its size. */
  ghost predicate PrevKnown(size: Addr -> int, prevInUse: Addr -> bool, prevSize: Addr -> int,
                            place: map<Addr, Place>, ends: set<Addr>)
  {
    forall x {:trigger PrevFree(size, prevSize, place, x)} ::
      (x in place || x in ends) && !prevInUse(x) ==> PrevFree(size, prevSize, place, x)
  }

  ghost predicate PrevOk(size: Addr -> int, prevInUse: Addr -> bool, prevSize: Addr -> int,
                         place: map<Addr, Place>, ends: set<Addr>)
  {
    Told(size, prevInUse, prevSize, place) && PrevKnown(size, prevInUse, prevSize, place, ends)
  }

  ghost predicate HeadersOk(base: Addr, m: Headers)
  {
    && HeapsOk(base, m.heaps, m.ends)
    && Tiling(m.size, m.place, m.heaps, m.ends)
    && ClassOk(m.size, m.place)
    && TopOk(m.size, m.place, m.top, m.ends)
    && UseOk(m.size, m.inUse, m.place, m.ends)
    && PrevOk(m.size, m.prevInUse, m.prevSize, m.place, m.ends)
  }

  ghost predicate TiledHeaps(base: Addr, m: Headers)
  {
    HeapsOk(base, m.heaps, m.ends) && Tiling(m.size, m.place, m.heaps, m.ends)
  }

  // ---- Elementary steps ----

  ghost predicate IsLoose(m: Headers, a: Addr)
  {
    a in m.place && m.place[a].Loose?
  }

  /** A chunk leaves its bin, or its owner gives it back. */
  ghost function Loosen(m: Headers, a: Addr): Headers
  {
    m.(place := m.place[a := Loose])
  }

  /** The top chunk is detached. */
  ghost function LoosenTop(m: Headers): Headers
  {
    m.(place := m.place[m.top := Loose], top := NULL)
  }

  /** Chunk a absorbs its successor n. */
  ghost function Join(m: Headers, a: Addr, n: Addr): Headers
  {
    var z := m.size(a) + HEADER + m.size(n);
    m.(size := Put(m.size, a, z),
       prevSize := Put(m.prevSize, a + HEADER + z, z),
       place := m.place - {n})
  }

  /** Chunk a shrinks to z bytes; the remainder becomes a chunk of its own. */
  ghost function Cut(m: Headers, a: Addr, z: int): Headers
  {
    var r, rz := a + HEADER + z, m.size(a) - z - HEADER;
    m.(size := Put(Put(m.size, r, rz), a, z),
       prevInUse := Flag(m.prevInUse, r, true),
       inUse := Flag(m.inUse, r, false),
       prevSize := Put(m.prevSize, r + HEADER + rz, rz),
       marked := Flag(m.marked, r + HEADER + rz, false),
       place := m.place[r := Loose])
  }

  /** A chunk is entered in ring bin b, and its successor is told. */
  ghost function Shelve(m: Headers, a: Addr, b: int): Headers
  {
    m.(inUse := Flag(m.inUse, a, false),
       prevInUse := Flag(m.prevInUse, Next(m.size, a), false),
       prevSize := Put(m.prevSize, Next(m.size, a), m.size(a)),
       place := m.place[a := Bin(b)])
  }

  /** A chunk moves from the unsorted bin to bin b; all its marks are already set. */
  ghost function Reshelve(m: Headers, a: Addr, b: int): Headers
  {
    m.(place := m.place[a := Bin(b)])
  }

  /** A chunk is handed out. */
  ghost function Hand(m: Headers, a: Addr): Headers
  {
    m.(inUse := Flag(m.inUse, a, true), place := m.place[a := InUse])
  }

  /** The successor of a chunk is told that the chunk is in use. */
  ghost function TellInUse(m: Headers, a: Addr): Headers
  {
    m.(prevInUse := Flag(m.prevInUse, Next(m.size, a), true))
  }

  /** A handed-out chunk is put on a fastbin; its successor is not told. */
  ghost function ToFast(m: Headers, a: Addr, i: int): Headers
  {
    m.(inUse := Flag(m.inUse, a, false), place := m.place[a := Fast(i)])
  }

  ghost function MakeTop(m: Headers, a: Addr): Headers
  {
    m.(top := a, place := m.place[a := Top])
  }

  // ---- Every elementary step keeps the headers well formed ----

  /** Tiling does not depend on flags and places. */
  lemma SameTiling(base: Addr, m: Headers, k: Headers)
    requires TiledHeaps(base, m)
    requires k.size == m.size && k.heaps == m.heaps && k.ends == m.ends && k.place.Keys == m.place.Keys
    ensures TiledHeaps(base, k)
  {
    assert forall x :: x in k.place <==> x in m.place;
  }

  lemma LoosenKeeps(base: Addr, m: Headers, a: Addr)
    requires HeadersOk(base, m) && a in m.place && !m.place[a].Top?
    ensures HeadersOk(base, Loosen(m, a))
  {
    var k := Loosen(m, a);
    SameTiling(base, m, k);
    LoosenPrev(m, a);
    assert ClassOk(k.size, k.place);
    assert TopOk(k.size, k.place, k.top, k.ends);
    assert UseOk(k.size, k.inUse, k.place, k.ends);
  }

  lemma LoosenPrev(m: Headers, a: Addr)
    requires PrevOk(m.size, m.prevInUse, m.prevSize, m.place, m.ends) && a in m.place
    ensures var k := Loosen(m, a); PrevOk(k.size, k.prevInUse, k.prevSize, k.place, k.ends)
  {
    var k := Loosen(m, a);
    forall x | (x in k.place || x in k.ends) && !k.prevInUse(x)
      ensures PrevFree(k.size, k.prevSize, k.place, x)
    {
      assert PrevFree(m.size, m.prevSize, m.place, x);
    }
  }

  lemma LoosenTopKeeps(base: Addr, m: Headers)
    requires HeadersOk(base, m) && m.top != NULL
    ensures HeadersOk(base, LoosenTop(m))
  {
    var k := LoosenTop(m);
    SameTiling(base, m, k);
    LoosenPrev(m, m.top);
    assert ClassOk(k.size, k.place);
    assert TopOk(k.size, k.place, k.top, k.ends);
    assert UseOk(k.size, k.inUse, k.place, k.ends);
  }

  lemma MakeTopKeeps(base: Addr, m: Headers, a: Addr)
    requires HeadersOk(base, m) && m.top == NULL && IsLoose(m, a)
    requires Next(m.size, a) in m.ends && m.prevInUse(Next(m.size, a))
    ensures HeadersOk(base, MakeTop(m, a))
  {
    var k := MakeTop(m, a);
    SameTiling(base, m, k);
    assert ClassOk(k.size, k.place);
    assert TopOk(k.size, k.place, k.top, k.ends);
    assert UseOk(k.size, k.inUse, k.place, k.ends);
    SettlePrev(m, a, Top);
  }

  /** A loose chunk whose successor takes it for used may settle. */
  lemma SettlePrev(m: Headers, a: Addr, p: Place)
    requires PrevOk(m.size, m.prevInUse, m.prevSize, m.place, m.ends)
    requires a in m.place && m.prevInUse(Next(m.size, a)) && !p.Bin?
    ensures PrevOk(m.size, m.prevInUse, m.prevSize, m.place[a := p], m.ends)
  {
    forall x | (x in m.place || x in m.ends) && !m.prevInUse(x)
      ensures PrevFree(m.size, m.prevSize, m.place[a := p], x)
    {
      assert PrevFree(m.size, m.prevSize, m.place, x);
    }
  }

  lemma OtherNext(m: Headers, a: Addr)
    requires Sized(m.size, m.place) && NoOverlap(m.size, m.place) && a in m.place
    ensures forall p {:trigger Next(m.size, p)} :: p in m.place && p != a ==> Next(m.size, p) != Next(m.size, a)
  {
  }

  lemma ShelvePrev(m: Headers, a: Addr, b: int)
    requires Sized(m.size, m.place) && NoOverlap(m.size, m.place)
    requires PrevOk(m.size, m.prevInUse, m.prevSize, m.place, m.ends)
    requires a in m.place
    ensures var k := Shelve(m, a, b); PrevOk(k.size, k.prevInUse, k.prevSize, k.place, k.ends)
  {
    var k := Shelve(m, a, b);
    OtherNext(m, a);
    forall x | (x in k.place || x in k.ends) && !k.prevInUse(x)
      ensures PrevFree(k.size, k.prevSize, k.place, x)
    {
      assert x == Next(m.size, a) || PrevFree(m.size, m.prevSize, m.place, x);
    }
  }

  /** A size class: small bins hold one size, large bins a range of sizes. */
  ghost predicate FitsBin(z: int, b: int)
  {
    && 0 <= b < BINS
    && (b < LARGE0 ==> z == 16 * (b + 1))
    && (LARGE0 <= b < UNSORTED ==> LargeBinIndex(z) == b - LARGE0)
  }

  lemma ShelveKeeps(base: Addr, m: Headers, a: Addr, b: int)
    requires HeadersOk(base, m) && IsLoose(m, a) && FitsBin(m.size(a), b)
    ensures HeadersOk(base, Shelve(m, a, b))
  {
    var k := Shelve(m, a, b);
    SameTiling(base, m, k);
    ShelvePrev(m, a, b);
    assert ClassOk(k.size, k.place);
    assert TopOk(k.size, k.place, k.top, k.ends);
    ShelveUse(base, m, a, b);
  }

  lemma ShelveUse(base: Addr, m: Headers, a: Addr, b: int)
    requires TiledHeaps(base, m) && UseOk(m.size, m.inUse, m.place, m.ends) && a in m.place
    ensures var k := Shelve(m, a, b); UseOk(k.size, k.inUse, k.place, k.ends)
  {
    assert forall x :: x in m.ends ==> x != a by {
      forall x | x in m.ends ensures x != a { EndsAreOutside(base, m, a, x); }
    }
  }

  lemma ReshelveKeeps(base: Addr, m: Headers, a: Addr, b: int)
    requires HeadersOk(base, m) && IsLoose(m, a) && FitsBin(m.size(a), b)
    requires !m.inUse(a) && !m.prevInUse(Next(m.size, a)) && m.prevSize(Next(m.size, a)) == m.size(a)
    ensures HeadersOk(base, Reshelve(m, a, b))
  {
    var k := Reshelve(m, a, b);
    SameTiling(base, m, k);
    assert ClassOk(k.size, k.place);
    assert TopOk(k.size, k.place, k.top, k.ends);
    assert UseOk(k.size, k.inUse, k.place, k.ends);
    ReshelvePrev(m, a, b);
  }

  lemma ReshelvePrev(m: Headers, a: Addr, b: int)
    requires PrevOk(m.size, m.prevInUse, m.prevSize, m.place, m.ends) && a in m.place
    requires !m.prevInUse(Next(m.size, a)) && m.prevSize(Next(m.size, a)) == m.size(a)
    ensures var k := Reshelve(m, a, b); PrevOk(k.size, k.prevInUse, k.prevSize, k.place, k.ends)
  {
    var k := Reshelve(m, a, b);
    forall x | (x in k.place || x in k.ends) && !k.prevInUse(x)
      ensures PrevFree(k.size, k.prevSize, k.place, x)
    {
      assert PrevFree(m.size, m.prevSize, m.place, x);
    }
  }

  lemma TellInUseKeeps(base: Addr, m: Headers, a: Addr)
    requires HeadersOk(base, m) && IsLoose(m, a)
    ensures HeadersOk(base, TellInUse(m, a))
  {
    TellInUsePrev(m, a);
  }

  lemma TellInUsePrev(m: Headers, a: Addr)
    requires Sized(m.size, m.place) && NoOverlap(m.size, m.place)
    requires PrevOk(m.size, m.prevInUse, m.prevSize, m.place, m.ends) && IsLoose(m, a)
    ensures var k := TellInUse(m, a); PrevOk(k.size, k.prevInUse, k.prevSize, k.place, k.ends)
  {
    var k := TellInUse(m, a);
    OtherNext(m, a);
    forall x | (x in k.place || x in k.ends) && !k.prevInUse(x)
      ensures PrevFree(k.size, k.prevSize, k.place, x)
    {
      assert PrevFree(m.size, m.prevSize, m.place, x);
    }
  }

  lemma HandKeeps(base: Addr, m: Headers, a: Addr)
    requires HeadersOk(base, m) && IsLoose(m, a) && m.prevInUse(Next(m.size, a))
    ensures HeadersOk(base, Hand(m, a))
  {
    var k := Hand(m, a);
    SameTiling(base, m, k);
    SettlePrev(m, a, InUse);
    assert ClassOk(k.size, k.place);
    assert TopOk(k.size, k.place, k.top, k.ends);
    assert UseOk(k.size, k.inUse, k.place, k.ends);
  }

  lemma ToFastKeeps(base: Addr, m: Headers, a: Addr, i: int)
    requires HeadersOk(base, m) && a in m.place && m.place[a].InUse?
    requires 0 <= i < FASTBINS && m.size(a) == 16 * (i + 1)
    ensures HeadersOk(base, ToFast(m, a, i))
  {
    var k := ToFast(m, a, i);
    SameTiling(base, m, k);
    SettlePrev(m, a, Fast(i));
    ShelveUse(base, m, a, UNSORTED);
    assert ClassOk(k.size, k.place);
    assert TopOk(k.size, k.place, k.top, k.ends);
    assert UseOk(k.size, k.inUse, k.place, k.ends);
  }

  lemma EndsAreOutside(base: Addr, m: Headers, a: Addr, x: Addr)
    requires TiledHeaps(base, m) && a in m.place && x in m.ends
    ensures a + HEADER + m.size(a) <= x || x + 32 <= a
  {
    assert InHeap(m.heaps, m.size, a);
    assert IsEnd(m.heaps, x);
  }

  /** A chunk and its successor lie in the same heap, and the successor is not the start of a heap. */
  lemma NeighbourInHeap(base: Addr, m: Headers, a: Addr, n: Addr)
    requires TiledHeaps(base, m) && a in m.place && n in m.place && n == Next(m.size, a)
    ensures exists i :: 0 <= i < |m.heaps| && m.heaps[i].start <= a && Next(m.size, n) <= m.heaps[i].end
    ensures forall i :: 0 <= i < |m.heaps| ==> m.heaps[i].start != n
  {
    assert InHeap(m.heaps, m.size, a);
    assert InHeap(m.heaps, m.size, n);
  }

  lemma JoinSized(m: Headers, a: Addr, n: Addr)
    requires Sized(m.size, m.place) && a in m.place && n in m.place && n == Next(m.size, a)
    ensures var k := Join(m, a, n); Sized(k.size, k.place)
  {
    assert Aligned(m.size(a)) && Aligned(m.size(n));
  }

  lemma JoinNoOverlap(m: Headers, a: Addr, n: Addr)
    requires Sized(m.size, m.place) && NoOverlap(m.size, m.place)
    requires a in m.place && n in m.place && n == Next(m.size, a)
    ensures var k := Join(m, a, n); NoOverlap(k.size, k.place)
  {
  }

  lemma JoinHoused(base: Addr, m: Headers, a: Addr, n: Addr)
    requires TiledHeaps(base, m) && a in m.place && n in m.place && n == Next(m.size, a)
    ensures var k := Join(m, a, n); Housed(k.size, k.place, k.heaps)
  {
    var k := Join(m, a, n);
    NeighbourInHeap(base, m, a, n);
    forall x | x in k.place
      ensures InHeap(k.heaps, k.size, x)
    {
      assert InHeap(m.heaps, m.size, x);
    }
  }

  lemma JoinGapless(m: Headers, a: Addr, n: Addr)
    requires Sized(m.size, m.place) && NoOverlap(m.size, m.place) && Gapless(m.size, m.place, m.heaps, m.ends)
    requires a in m.place && n in m.place && n == Next(m.size, a)
    requires forall i :: 0 <= i < |m.heaps| ==> m.heaps[i].start != n
    ensures var k := Join(m, a, n); Gapless(k.size, k.place, k.heaps, k.ends)
  {
    var k := Join(m, a, n);
    OtherNext(m, a);
    forall x | x in k.place
      ensures Next(k.size, x) in k.place || Next(k.size, x) in k.ends
    {
      assert Next(k.size, x) == if x == a then Next(m.size, n) else Next(m.size, x);
    }
  }

  lemma JoinTold(m: Headers, a: Addr, n: Addr)
    requires Sized(m.size, m.place) && NoOverlap(m.size, m.place)
    requires Told(m.size, m.prevInUse, m.prevSize, m.place)
    requires IsLoose(m, a) && IsLoose(m, n) && n == Next(m.size, a)
    ensures var k := Join(m, a, n); Told(k.size, k.prevInUse, k.prevSize, k.place)
  {
    var k := Join(m, a, n);
    OtherNext(m, n);
    forall p | p in k.place && p != a
      ensures Next(k.size, p) == Next(m.size, p) != Next(m.size, n)
    {
    }
  }

  lemma JoinPrevKnown(m: Headers, a: Addr, n: Addr)
    requires Sized(m.size, m.place)
    requires PrevKnown(m.size, m.prevInUse, m.prevSize, m.place, m.ends)
    requires IsLoose(m, a) && IsLoose(m, n) && n == Next(m.size, a) && n !in m.ends
    ensures var k := Join(m, a, n); PrevKnown(k.size, k.prevInUse, k.prevSize, k.place, k.ends)
  {
    var k := Join(m, a, n);
    forall x | (x in k.place || x in k.ends) && !k.prevInUse(x)
      ensures PrevFree(k.size, k.prevSize, k.place, x)
    {
      assert PrevFree(m.size, m.prevSize, m.place, x);
    }
  }

  lemma JoinKeeps(base: Addr, m: Headers, a: Addr, n: Addr)
    requires HeadersOk(base, m) && IsLoose(m, a) && IsLoose(m, n) && n == Next(m.size, a)
    ensures HeadersOk(base, Join(m, a, n))
  {
    var k := Join(m, a, n);
    NeighbourInHeap(base, m, a, n);
    JoinSized(m, a, n);
    JoinNoOverlap(m, a, n);
    JoinHoused(base, m, a, n);
    JoinGapless(m, a, n);
    JoinTold(m, a, n);
    if n in m.ends {
      EndsAreOutside(base, m, n, n);
    }
    JoinPrevKnown(m, a, n);
    JoinFlags(base, m, a, n);
  }

  lemma JoinFlags(base: Addr, m: Headers, a: Addr, n: Addr)
    requires HeadersOk(base, m) && IsLoose(m, a) && IsLoose(m, n) && n == Next(m.size, a)
    ensures var k := Join(m, a, n);
            && ClassOk(k.size, k.place)
            && TopOk(k.size, k.place, k.top, k.ends)
            && UseOk(k.size, k.inUse, k.place, k.ends)
  {
    assert a !in m.ends by {
      if a in m.ends {
        EndsAreOutside(base, m, a, a);
      }
    }
    var k := Join(m, a, n);
    assert ClassOk(k.size, k.place);
    assert TopOk(k.size, k.place, k.top, k.ends) by {
      if m.top != NULL {
        assert Next(k.size, m.top) == Next(m.size, m.top);
      }
    }
  }

  ghost predicate CanCut(m: Headers, a: Addr, z: int)
  {
    a in m.place && Aligned(z) && z >= MIN_PAYLOAD && m.size(a) - z >= MIN_PAYLOAD + HEADER
  }

  lemma CutSized(m: Headers, a: Addr, z: int)
    requires Sized(m.size, m.place) && CanCut(m, a, z)
    ensures var k := Cut(m, a, z); Sized(k.size, k.place)
  {
    hide Aligned;
    assert Aligned(m.size(a)) && Aligned(a);
    AlignedParts(a, m.size(a), z);
  }

  lemma AlignedParts(a: Addr, size: int, z: int)
    requires Aligned(a) && Aligned(size) && Aligned(z)
    ensures Aligned(a + HEADER + z) && Aligned(size - z - HEADER)
  {
  }

  lemma CutNoOverlap(m: Headers, a: Addr, z: int)
    requires Sized(m.size, m.place) && NoOverlap(m.size, m.place) && CanCut(m, a, z)
    ensures var k := Cut(m, a, z); NoOverlap(k.size, k.place)
    ensures a + HEADER + z !in m.place
  {
  }

  lemma CutHoused(m: Headers, a: Addr, z: int)
    requires Housed(m.size, m.place, m.heaps) && CanCut(m, a, z) && a + HEADER + z !in m.place
    ensures var k := Cut(m, a, z); Housed(k.size, k.place, k.heaps)
  {
    var k := Cut(m, a, z);
    assert InHeap(m.heaps, m.size, a);
    forall x | x in k.place
      ensures InHeap(k.heaps, k.size, x)
    {
      assert x in m.place ==> InHeap(m.heaps, m.size, x);
    }
  }

  lemma CutGapless(m: Headers, a: Addr, z: int)
    requires Gapless(m.size, m.place, m.heaps, m.ends) && CanCut(m, a, z) && a + HEADER + z !in m.place
    ensures var k := Cut(m, a, z); Gapless(k.size, k.place, k.heaps, k.ends)
  {
    var k := Cut(m, a, z);
    var r := a + HEADER + z;
    assert Next(k.size, a) == r && Next(k.size, r) == Next(m.size, a);
    forall x | x in k.place
      ensures Next(k.size, x) in k.place || Next(k.size, x) in k.ends
    {
      assert x != a && x != r ==> Next(k.size, x) == Next(m.size, x);
    }
  }

  lemma CutTold(m: Headers, a: Addr, z: int)
    requires Sized(m.size, m.place) && NoOverlap(m.size, m.place)
    requires Told(m.size, m.prevInUse, m.prevSize, m.place) && CanCut(m, a, z) && m.place[a].Loose?
    ensures var k := Cut(m, a, z); Told(k.size, k.prevInUse, k.prevSize, k.place)
  {
    var k := Cut(m, a, z);
    var r := a + HEADER + z;
    OtherNext(m, a);
    forall p | p in m.place && p != a
      ensures Next(k.size, p) == Next(m.size, p) != Next(m.size, a) && Next(k.size, p) != r
    {
    }
  }

  lemma CutPrevKnown(m: Headers, a: Addr, z: int)
    requires Sized(m.size, m.place) && NoOverlap(m.size, m.place) && a + HEADER + z !in m.place
    requires PrevKnown(m.size, m.prevInUse, m.prevSize, m.place, m.ends) && CanCut(m, a, z) && m.place[a].Loose?
    ensures var k := Cut(m, a, z); PrevKnown(k.size, k.prevInUse, k.prevSize, k.place, k.ends)
  {
    var k := Cut(m, a, z);
    forall x | (x in k.place || x in k.ends) && !k.prevInUse(x)
      ensures PrevFree(k.size, k.prevSize, k.place, x)
    {
      assert PrevFree(m.size, m.prevSize, m.place, x);
    }
  }

  lemma CutClass(m: Headers, a: Addr, z: int)
    requires ClassOk(m.size, m.place) && TopOk(m.size, m.place, m.top, m.ends)
    requires CanCut(m, a, z) && m.place[a].Loose? && a + HEADER + z !in m.place && a + HEADER + z != NULL
    ensures var k := Cut(m, a, z); ClassOk(k.size, k.place) && TopOk(k.size, k.place, k.top, k.ends)
  {
    hide LargeBinIndex, Aligned, ClassOk;
    var k := Cut(m, a, z);
    CutClasses(m, a, z);
    if m.top != NULL {
      assert Next(k.size, m.top) == Next(m.size, m.top);
    }
  }

  lemma CutClasses(m: Headers, a: Addr, z: int)
    requires ClassOk(m.size, m.place) && CanCut(m, a, z) && m.place[a].Loose? && a + HEADER + z !in m.place
    ensures var k := Cut(m, a, z); ClassOk(k.size, k.place)
  {
    hide LargeBinIndex, Aligned;
  }

  lemma CutUse(base: Addr, m: Headers, a: Addr, z: int)
    requires TiledHeaps(base, m) && UseOk(m.size, m.inUse, m.place, m.ends)
    requires CanCut(m, a, z) && m.place[a].Loose? && a + HEADER + z !in m.place
    ensures var k := Cut(m, a, z); UseOk(k.size, k.inUse, k.place, k.ends)
  {
    forall x | x in m.ends
      ensures x != a && x != a + HEADER + z
    {
      EndsAreOutside(base, m, a, x);
    }
  }

  lemma CutKeeps(base: Addr, m: Headers, a: Addr, z: int)
    requires HeadersOk(base, m) && IsLoose(m, a) && CanCut(m, a, z)
    ensures HeadersOk(base, Cut(m, a, z))
    ensures a + HEADER + z !in m.place
  {
    CutSized(m, a, z);
    CutNoOverlap(m, a, z);
    CutHoused(m, a, z);
    CutGapless(m, a, z);
    CutTold(m, a, z);
    CutPrevKnown(m, a, z);
    CutClass(m, a, z);
    CutUse(base, m, a, z);
  }

  // ---- A new heap ----

  /** A fresh region of z payload bytes at `start`, with its boundary header, is registered as a heap. */
  ghost function Grow(m: Headers, start: Addr, z: int): Headers
  {
    var end := start + HEADER + z;
    m.(heaps := m.heaps + [Span(start, end)],
       ends := m.ends + {end},
       size := Put(Put(m.size, start, z), end, 0),
       prevInUse := Flag(Flag(m.prevInUse, start, true), end, true),
       inUse := Flag(Flag(m.inUse, start, false), end, true),
       top := start,
       place := m.place[start := Top])
  }

  /** What the operating system promises of a new mapping: it is away from everything mapped before. */
  ghost predicate FreshRegion(base: Addr, heaps: seq<Span>, start: Addr, z: int)
  {
    && 0 < start && Aligned(start)
    && (start + HEADER + z + 32 <= base || base + 48 * BINS <= start)
    && forall i :: 0 <= i < |heaps| ==> Apart(heaps[i], Span(start, start + HEADER + z))
  }

  lemma FreshIsNoEnd(base: Addr, m: Headers, start: Addr, z: int)
    requires TiledHeaps(base, m) && FreshRegion(base, m.heaps, start, z) && z >= MIN_PAYLOAD
    ensures start !in m.ends && start + HEADER + z !in m.ends
  {
    assert start in m.ends ==> IsEnd(m.heaps, start);
    assert start + HEADER + z in m.ends ==> IsEnd(m.heaps, start + HEADER + z);
  }

  lemma GrowHeaps(base: Addr, m: Headers, start: Addr, z: int)
    requires HeapsOk(base, m.heaps, m.ends) && FreshRegion(base, m.heaps, start, z) && z >= MIN_PAYLOAD
    ensures var k := Grow(m, start, z); HeapsOk(base, k.heaps, k.ends)
  {
    var k := Grow(m, start, z);
    forall x | x in k.ends
      ensures IsEnd(k.heaps, x)
    {
      if x in m.ends {
        assert IsEnd(m.heaps, x);
        var i :| 0 <= i < |m.heaps| && m.heaps[i].end == x;
        assert k.heaps[i].end == x;
      } else {
        assert k.heaps[|m.heaps|].end == x;
      }
    }
  }

  /** The chunks of a new heap are away from all others. */
  ghost predicate FarFrom(m: Headers, start: Addr, z: int)
  {
    forall a :: a in m.place ==> a + HEADER + m.size(a) + 32 <= start || start + HEADER + z + 32 <= a
  }

  lemma FreshIsFar(base: Addr, m: Headers, start: Addr, z: int)
    requires TiledHeaps(base, m) && FreshRegion(base, m.heaps, start, z)
    ensures FarFrom(m, start, z)
  {
    forall a | a in m.place
      ensures a + HEADER + m.size(a) + 32 <= start || start + HEADER + z + 32 <= a
    {
      assert InHeap(m.heaps, m.size, a);
    }
  }

  lemma GrowSized(m: Headers, start: Addr, z: int)
    requires Sized(m.size, m.place) && FarFrom(m, start, z) && 0 < start && Aligned(start)
    requires z >= MIN_PAYLOAD && Aligned(z)
    ensures var k := Grow(m, start, z); Sized(k.size, k.place)
  {
  }

  lemma GrowNoOverlap(m: Headers, start: Addr, z: int)
    requires Sized(m.size, m.place) && NoOverlap(m.size, m.place) && FarFrom(m, start, z) && z >= MIN_PAYLOAD
    ensures var k := Grow(m, start, z); NoOverlap(k.size, k.place)
  {
  }

  lemma GrowGapless(m: Headers, start: Addr, z: int)
    requires Sized(m.size, m.place) && FarFrom(m, start, z) && z >= MIN_PAYLOAD
    requires Gapless(m.size, m.place, m.heaps, m.ends)
    ensures var k := Grow(m, start, z); Gapless(k.size, k.place, k.heaps, k.ends)
  {
    var k := Grow(m, start, z);
    forall a | a in k.place
      ensures Next(k.size, a) in k.place || Next(k.size, a) in k.ends
    {
      assert a != start ==> Next(k.size, a) == Next(m.size, a);
    }
  }

  lemma GrowHoused(m: Headers, start: Addr, z: int)
    requires Housed(m.size, m.place, m.heaps) && z >= MIN_PAYLOAD && Sized(m.size, m.place) && FarFrom(m, start, z)
    ensures var k := Grow(m, start, z); Housed(k.size, k.place, k.heaps)
  {
    var k := Grow(m, start, z);
    forall a | a in k.place
      ensures InHeap(k.heaps, k.size, a)
    {
      if a == start {
        assert k.heaps[|m.heaps|].start <= a;
      } else {
        assert InHeap(m.heaps, m.size, a);
        var i :| 0 <= i < |m.heaps| && m.heaps[i].start <= a && Next(m.size, a) <= m.heaps[i].end;
        assert k.heaps[i].start <= a;
      }
    }
  }

  lemma GrowTold(m: Headers, start: Addr, z: int)
    requires Sized(m.size, m.place) && FarFrom(m, start, z) && z >= MIN_PAYLOAD
    requires Told(m.size, m.prevInUse, m.prevSize, m.place)
    ensures var k := Grow(m, start, z); Told(k.size, k.prevInUse, k.prevSize, k.place)
  {
    var k := Grow(m, start, z);
    forall a | a in m.place
      ensures Next(k.size, a) == Next(m.size, a) && Next(k.size, a) != start && Next(k.size, a) != start + HEADER + z
    {
    }
  }

  lemma GrowPrevKnown(m: Headers, start: Addr, z: int)
    requires Sized(m.size, m.place) && FarFrom(m, start, z) && z >= MIN_PAYLOAD
    requires PrevKnown(m.size, m.prevInUse, m.prevSize, m.place, m.ends)
    ensures var k := Grow(m, start, z); PrevKnown(k.size, k.prevInUse, k.prevSize, k.place, k.ends)
  {
    var k := Grow(m, start, z);
    forall x | (x in k.place || x in k.ends) && !k.prevInUse(x)
      ensures PrevFree(k.size, k.prevSize, k.place, x)
    {
      assert PrevFree(m.size, m.prevSize, m.place, x);
    }
  }

  lemma GrowUse(m: Headers, start: Addr, z: int)
    requires FarFrom(m, start, z) && Sized(m.size, m.place) && z >= MIN_PAYLOAD
    requires start !in m.ends && start + HEADER + z !in m.ends
    requires UseOk(m.size, m.inUse, m.place, m.ends)
    ensures var k := Grow(m, start, z); UseOk(k.size, k.inUse, k.place, k.ends)
  {
  }

  lemma GrowClass(m: Headers, start: Addr, z: int)
    requires FarFrom(m, start, z) && Sized(m.size, m.place) && z >= MIN_PAYLOAD && m.top == NULL && start != NULL
    requires ClassOk(m.size, m.place) && TopOk(m.size, m.place, m.top, m.ends)
    ensures var k := Grow(m, start, z); ClassOk(k.size, k.place) && TopOk(k.size, k.place, k.top, k.ends)
  {
    var k := Grow(m, start, z);
    assert Next(k.size, start) == start + HEADER + z;
  }

  lemma GrowKeeps(base: Addr, m: Headers, start: Addr, z: int)
    requires HeadersOk(base, m) && m.top == NULL
    requires FreshRegion(base, m.heaps, start, z) && z >= MIN_PAYLOAD && Aligned(z)
    ensures HeadersOk(base, Grow(m, start, z))
    ensures start !in m.place
  {
    FreshIsFar(base, m, start, z);
    FreshIsNoEnd(base, m, start, z);
    GrowHeaps(base, m, start, z);
    GrowSized(m, start, z);
    GrowNoOverlap(m, start, z);
    GrowHoused(m, start, z);
    GrowGapless(m, start, z);
    GrowTold(m, start, z);
    GrowPrevKnown(m, start, z);
    GrowUse(m, start, z);
    GrowClass(m, start, z);
  }
}
