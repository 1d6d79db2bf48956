/** What the searches of `_allocate` do to a well-formed arena. */
module AllocSpec {
  import opened ChunkLayout
  import opened Rings
  import opened Blocks
  import opened BinLists
  import opened ArenaSteps
  import opened Payloads
  import opened ArenaSpec

  /** Exactly the chunk v was handed out. */
  ghost predicate HandedOut(m: Headers, k: Headers, v: Addr)
  {
    && !Live(m, v)
    && forall x {:trigger Live(k, x)} {:trigger Live(m, x)} :: Live(k, x) <==> Live(m, x) || x == v
  }

  /** The outcome of a successful search: v is handed out, well formed, with at most `slack` bytes more than asked. */
  ghost predicate Served(base: Addr, m: Headers, l: Lists, k: Headers, l': Lists, v: Addr, z: int, slack: int)
  {
    && Keeps(base, m, l, k, l') && Extends(m, k) && NoneLoose(k) && HandedOut(m, k, v)
    && v != NULL && Aligned(v) && z <= k.size(v) <= z + slack && Aligned(k.size(v))
  }

  // ---- Fastbins ----

  lemma FastServes(base: Addr, m: Headers, l: Lists, i: int)
    requires Good(base, m, l) && NoneLoose(m) && 0 <= i < FASTBINS
    ensures |l.fast| == |l.fastbins| == FASTBINS
    ensures l.fastbins[i] == NULL <==> l.fast[i] == []
    ensures l.fast[i] != [] ==>
              var v := l.fastbins[i];
              v == l.fast[i][0] && v != NULL && Served(base, m, l, Hand(m, v), FastPopL(l, i), v, 16 * (i + 1), 0)
  {
    assert Chain(l.fd, l.fastbins[i], l.fast[i]);
    if l.fast[i] != [] {
      var v := l.fastbins[i];
      assert l.fast[i][0] in l.fast[i];
      FastPopGood(base, m, l, i);
      FastPopFrame(base, m, l, i);
      assert Aligned(v);
      assert Extends(m, Hand(m, v));
    }
  }

  // ---- Small bins ----

  ghost function WholeH(m: Headers, v: Addr): Headers
  {
    Hand(TellInUse(m, v), v)
  }

  lemma SmallServes(base: Addr, m: Headers, l: Lists, i: int)
    requires Good(base, m, l) && NoneLoose(m) && 0 <= i < SMALLBINS
    ensures |l.bins| == BINS
    ensures l.fd(Head(base, i)) == Head(base, i) <==> l.bins[i] == []
    ensures l.bins[i] != [] ==>
              var v := l.fd(Head(base, i));
              && v == l.bins[i][0] && v != NULL && l.fd(v) != NULL && l.bk(v) != NULL && l.fd(v) != v
              && Served(base, m, l, WholeH(m, v), UnbinL(l, v, i, 0), v, 16 * (i + 1), 0)
  {
    var h := Head(base, i);
    assert Ring(l.fd, l.bk, h, l.bins[i]);
    if l.bins[i] != [] {
      var v := l.bins[i][0];
      assert v in l.bins[i];
      SmallTaken(base, m, l, v, i);
    }
  }

  lemma SmallTaken(base: Addr, m: Headers, l: Lists, v: Addr, i: int)
    requires Good(base, m, l) && NoneLoose(m) && 0 <= i < SMALLBINS && At(0, l.bins, m.place, v, i, 0)
    ensures l.fd(v) != NULL && l.bk(v) != NULL && l.fd(v) != v
    ensures Served(base, m, l, WholeH(m, v), UnbinL(l, v, i, 0), v, 16 * (i + 1), 0)
  {
    hide Good, Frame, UnbinL, FamilyOk;
    var j, lj := Loosen(m, v), UnbinL(l, v, i, 0);
    ChunkFacts(base, m, l, v);
    SmallSize(base, m, l, v, i);
    UnbinGood(base, m, l, v, i, 0);
    UnbinFrame(base, m, l, v, i, 0);
    WholeKeeps(base, m, l, j, lj, v);
    assert m.place[v := Loose][v := InUse] == m.place[v := InUse];
  }

  lemma SmallSize(base: Addr, m: Headers, l: Lists, v: Addr, i: int)
    requires Good(base, m, l) && 0 <= i < SMALLBINS && At(0, l.bins, m.place, v, i, 0)
    ensures m.size(v) == 16 * (i + 1)
    ensures l.fd(v) != NULL && l.bk(v) != NULL && l.fd(v) != v
    ensures FamilyOk(base, 0, l.fd, l.bk, l.bins, m.place)
  {
    RingsUnlink(base, 0, l.fd, l.bk, l.bins, m.place, v, i, 0);
  }

  /** Handing out a detached chunk as it is. */
  lemma WholeKeeps(base: Addr, m: Headers, l: Lists, j: Headers, lj: Lists, v: Addr)
    requires Keeps(base, m, l, j, lj) && IsLoose(j, v) && !Live(m, v) && Extends(m, j)
    requires forall x :: x in j.place ==> x in m.place
    ensures Keeps(base, m, l, Hand(TellInUse(j, v), v), lj)
  {
    hide Good, Frame;
    var t := TellInUse(j, v);
    TellInUseGood(base, j, lj, v);
    TellStep(base, j, lj, v);
    FrameTrans(base, m, l, j, lj, t, lj);
    HandGood(base, t, lj, v);
    HandStep(base, t, lj, v);
    FrameTrans(base, m, l, t, lj, Hand(t, v), lj);
  }

  // ---- Taking a chunk that has just been detached ----

  lemma TakeServes(base: Addr, m: Headers, l: Lists, j: Headers, lj: Lists, v: Addr, z: int)
    requires Filing(base, m, l, j, lj) && OnlyLoose(j, v) && CanTake(j, v, z)
    requires |lj.bins| == BINS
    ensures Served(base, m, l, TakeH(j, v, z), TakeL(base, j, lj, v, z), v, z, 32)
  {
    hide Good, Frame, PushL, TakeL;
    TakeKeeps(base, j, lj, v, z);
    TakeFacts(base, j, lj, v, z);
    ExtendsTrans(base, m, l, j, lj, TakeH(j, v, z), TakeL(base, j, lj, v, z));
    assert Live(j, v) <==> Live(m, v);
  }

  lemma TakeFacts(base: Addr, m: Headers, l: Lists, v: Addr, z: int)
    requires Good(base, m, l) && OnlyLoose(m, v) && CanTake(m, v, z)
    ensures var k := TakeH(m, v, z);
            && Extends(m, k) && NoneLoose(k) && HandedOut(m, k, v)
            && v != NULL && Aligned(v) && z <= k.size(v) <= z + 32 && Aligned(k.size(v))
  {
    hide Good, Loosen;
    ChunkFacts(base, m, l, v);
    var k := TakeH(m, v, z);
    if Splits(m, v, z) {
      CutGood(base, m, l, v, z);
      assert k.size(v) == z;
    } else {
      assert k.size(v) == m.size(v);
      SlackIsSmall(m.size(v), z);
    }
  }

  lemma SlackIsSmall(s: int, z: int)
    requires Aligned(s) && Aligned(z) && z <= s && s - z < MIN_PAYLOAD + HEADER
    ensures s <= z + 32
  {
  }

  // ---- Filing the unsorted bin ----

  /** The bin that `unsortedbin_search` files a chunk in. */
  function BinFor(z: int): int
  {
    if z < 16 * SMALLBINS then SmallBinIndex(z) else LARGE0 + LargeBinIndex(z)
  }

  /** The first n of the unsorted chunks s are filed, one after another. */
  ghost function FileAll(m: Headers, s: seq<Addr>, n: nat): Headers
    requires n <= |s|
  {
    if n == 0 then m else Reshelve(FileAll(m, s, n - 1), s[n - 1], BinFor(m.size(s[n - 1])))
  }

  /** Filing changes nothing but the bins of the filed chunks. */
  lemma {:induction false} FileAllPlaces(m: Headers, s: seq<Addr>, n: nat)
    requires n <= |s| && forall x :: x in s ==> x in m.place
    ensures var k := FileAll(m, s, n);
            && k == m.(place := k.place) && k.place.Keys == m.place.Keys
            && forall x :: x in m.place ==> k.place[x] == if x in s[..n] then Bin(BinFor(m.size(x))) else m.place[x]
  {
    if n > 0 {
      FileAllPlaces(m, s, n - 1);
      assert s[n - 1] in s && s[..n] == s[..n - 1] + [s[n - 1]];
    }
  }

  lemma UnsortedFirst(base: Addr, m: Headers, l: Lists)
    requires Good(base, m, l)
    ensures |l.bins| == BINS && |l.sorted| == LARGEBINS
    ensures var h, s := Head(base, UNSORTED), l.bins[UNSORTED];
            && (l.fd(h) == h <==> s == [])
            && (s != [] ==> l.fd(h) == s[0] && l.fd(s[0]) == After(h, s, 0))
  {
    var h, s := Head(base, UNSORTED), l.bins[UNSORTED];
    assert Ring(l.fd, l.bk, h, s);
    if s != [] {
      assert s[0] in s;
      assert l.fd(s[0]) == After(h, s, 0);
    }
  }

  /** Taking the first chunk off the unsorted bin. */
  lemma UnsortedDetach(base: Addr, m: Headers, l: Lists)
    requires Good(base, m, l) && NoneLoose(m) && |l.bins| == BINS && l.bins[UNSORTED] != []
    ensures var v := l.bins[UNSORTED][0];
            var j, lj := Loosen(m, v), UnbinL(l, v, UNSORTED, 0);
            && v in m.place && m.place[v] == Bin(UNSORTED)
            && l.fd(v) != NULL && l.bk(v) != NULL && l.fd(v) != v
            && Filing(base, m, l, j, lj) && OnlyLoose(j, v)
            && StillTold(j, v) && lj.nextSize(v) == NULL && |lj.bins| == BINS
            && m.size(v) >= MIN_PAYLOAD && Aligned(m.size(v)) && v != NULL
  {
    var v := l.bins[UNSORTED][0];
    assert v in l.bins[UNSORTED];
    assert At(0, l.bins, m.place, v, UNSORTED, 0);
    RingsUnlink(base, 0, l.fd, l.bk, l.bins, m.place, v, UNSORTED, 0);
    UnbinGood(base, m, l, v, UNSORTED, 0);
    UnbinFrame(base, m, l, v, UNSORTED, 0);
    ChunkFacts(base, m, l, v);
    UnsortedTold(base, m, l, v);
  }

  lemma UnsortedTold(base: Addr, m: Headers, l: Lists, v: Addr)
    requires Good(base, m, l) && v in m.place && m.place[v] == Bin(UNSORTED)
    ensures StillTold(Loosen(m, v), v) && l.nextSize(v) == NULL
  {
    assert !m.prevInUse(Next(m.size, v));
  }

  /** So far nothing was handed out, and everything is well formed. */
  ghost predicate Filing(base: Addr, m: Headers, l: Lists, k: Headers, l': Lists)
  {
    Keeps(base, m, l, k, l') && Extends(m, k) && SameLive(m, k)
  }

  lemma FilingTrans(base: Addr, m: Headers, l: Lists, j: Headers, lj: Lists, k: Headers, lk: Lists)
    requires Filing(base, m, l, j, lj) && Filing(base, j, lj, k, lk)
    ensures Filing(base, m, l, k, lk)
  {
    ExtendsTrans(base, m, l, j, lj, k, lk);
    assert SameLive(m, k) by {
      forall c ensures Live(k, c) <==> Live(m, c) { assert Live(j, c) <==> Live(m, c); }
    }
  }

  lemma FilingStart(base: Addr, m: Headers, l: Lists)
    requires Good(base, m, l)
    ensures Filing(base, m, l, m, l)
  {
    SelfKeeps(base, m, l);
  }

  ghost predicate SameUnsorted(l: Lists, l': Lists)
  {
    |l.bins| == |l'.bins| == BINS && l'.bins[UNSORTED] == l.bins[UNSORTED]
  }

  /** Filing a detached chunk in a small bin. */
  lemma FileSmall(base: Addr, m: Headers, l: Lists, j: Headers, lj: Lists, p: Addr)
    requires Filing(base, m, l, j, lj) && OnlyLoose(j, p)
    requires StillTold(j, p) && lj.nextSize(p) == NULL && j.size(p) < 16 * SMALLBINS && |lj.bins| == BINS
    requires j.size(p) >= MIN_PAYLOAD
    ensures var b := SmallBinIndex(j.size(p));
            && 0 <= b < SMALLBINS && p != Head(base, b)
            && Filing(base, m, l, Reshelve(j, p, b), PushL(base, lj, p, b)) && NoneLoose(Reshelve(j, p, b))
            && SameUnsorted(lj, PushL(base, lj, p, b))
  {
    hide Good, Frame, StillTold;
    var b := SmallBinIndex(j.size(p));
    SmallGood(base, j, lj, p);
    SmallFrame(base, j, lj, p, b);
    ChunkFacts(base, j, lj, p);
    FilingTrans(base, m, l, j, lj, Reshelve(j, p, b), PushL(base, lj, p, b));
  }

  /** Filing a detached chunk in a large bin, at the right place in the size ring. */
  lemma FileLarge(base: Addr, m: Headers, l: Lists, j: Headers, lj: Lists, p: Addr, i: int, k: int)
    requires Filing(base, m, l, j, lj) && OnlyLoose(j, p) && StillTold(j, p)
    requires |lj.bins| == BINS && |lj.sorted| == LARGEBINS
    requires 0 <= i == LargeBinIndex(j.size(p)) && CeilAt(j.size, lj.sorted[i], k, j.size(p))
    ensures var j', l' := Reshelve(j, p, LARGE0 + i), PushL(base, SortL(base, lj, p, i, k), p, LARGE0 + i);
            && p != Head(base, LARGE0 + i)
            && Filing(base, m, l, j', l') && NoneLoose(j') && SameUnsorted(lj, l')
  {
    hide Good, Frame, StillTold;
    var j', l' := Reshelve(j, p, LARGE0 + i), PushL(base, SortL(base, lj, p, i, k), p, LARGE0 + i);
    LargeGood(base, j, lj, p, i, k);
    LargeFrame(base, j, lj, p, i, k);
    ChunkFacts(base, j, lj, p);
    FilingTrans(base, m, l, j, lj, j', l');
  }

  // ---- Best fit in the large bins ----

  /** A large-bin chunk of at least z bytes. */
  ghost predicate Fits(m: Headers, x: Addr, z: int)
  {
    x in m.place && IsLarge(m.place[x]) && m.size(x) >= z
  }

  /** Among all large bins, v is a smallest chunk of at least z bytes. */
  ghost predicate BestFit(m: Headers, v: Addr, z: int)
  {
    Fits(m, v, z) && forall x :: Fits(m, x, z) ==> m.size(v) <= m.size(x)
  }

  /** Chunks of at least z bytes are not in bins before z's own. */
  lemma FitsNotBefore(base: Addr, m: Headers, l: Lists, x: Addr, z: int)
    requires Good(base, m, l)
    ensures |l.sorted| == LARGEBINS
    ensures Fits(m, x, z) ==>
              var i := LargeBinIndex(m.size(x));
              m.place[x].b - LARGE0 == i && LargeBinIndex(z) <= i && 0 <= i && x in l.sorted[i]
  {
    if Fits(m, x, z) {
      LargeBinIndexMonotone(z, m.size(x));
    }
  }

  ghost predicate NoFitIn(size: Addr -> int, s: seq<Addr>, n: int, z: int)
  {
    forall k :: 0 <= k < n && k < |s| ==> size(s[k]) < z
  }

  /** No chunk fits in the large bins from `from` up to `to`. */
  ghost predicate NoFitUpTo(size: Addr -> int, sorted: seq<seq<Addr>>, from: int, to: int, z: int)
  {
    forall i :: 0 <= i < |sorted| && from <= i < to ==> NoFitIn(size, sorted[i], |sorted[i]|, z)
  }

  lemma LargeFacts(base: Addr, m: Headers, l: Lists, i: int, k: int)
    requires Good(base, m, l) && |l.sorted| == LARGEBINS && 0 <= i < LARGEBINS && 0 <= k < |l.sorted[i]|
    ensures var v := l.sorted[i][k];
            && v in m.place && m.place[v] == Bin(LARGE0 + i) && LargeBinIndex(m.size(v)) == i
            && BySize(m.size, l.sorted[i])
  {
    assert l.sorted[i][k] in l.sorted[i];
  }

  /** The first fitting chunk in the first bin that has one is a best fit. */
  lemma FirstFitIsBest(base: Addr, m: Headers, l: Lists, z: int, i: int, k: int)
    requires Good(base, m, l) && |l.sorted| == LARGEBINS && 0 <= i < LARGEBINS && 0 <= k < |l.sorted[i]|
    requires LargeBinIndex(z) >= 0 && NoFitUpTo(m.size, l.sorted, LargeBinIndex(z), i, z)
    requires NoFitIn(m.size, l.sorted[i], k, z) && m.size(l.sorted[i][k]) >= z
    ensures BestFit(m, l.sorted[i][k], z)
  {
    hide Good;
    var v := l.sorted[i][k];
    LargeFacts(base, m, l, i, k);
    forall x | Fits(m, x, z)
      ensures m.size(v) <= m.size(x)
    {
      FitsNotBefore(base, m, l, x, z);
      var i' := LargeBinIndex(m.size(x));
      var k' :| 0 <= k' < |l.sorted[i']| && l.sorted[i'][k'] == x;
      if m.size(x) <= m.size(v) {
        LargeBinIndexMonotone(m.size(x), m.size(v));
      }
    }
  }

  lemma NoFitAnywhere(base: Addr, m: Headers, l: Lists, z: int)
    requires Good(base, m, l) && |l.sorted| == LARGEBINS
    requires LargeBinIndex(z) >= 0 && NoFitUpTo(m.size, l.sorted, LargeBinIndex(z), LARGEBINS, z)
    ensures forall x :: !Fits(m, x, z)
  {
    forall x
      ensures !Fits(m, x, z)
    {
      if Fits(m, x, z) {
        FitsNotBefore(base, m, l, x, z);
        assert false;
      }
    }
  }

  lemma FileFacts(base: Addr, m: Headers, l: Lists, p: Addr)
    requires Good(base, m, l) && OnlyLoose(m, p)
    ensures |l.bins| == BINS && |l.sorted| == LARGEBINS
    ensures forall b :: 0 <= b < BINS ==> Head(base, b) != p
    ensures var i := LargeBinIndex(m.size(p));
            i >= 0 ==> Ring(l.nextSize, l.prevSizePtr, Head(base, LARGE0 + i), l.sorted[i])
  {
    ChunkFacts(base, m, l, p);
  }

  /** The sentinel or chunk at position k points back to the one before it. */
  lemma RingLink(next: Links, prev: Links, h: Addr, s: seq<Addr>, k: int, size: Addr -> int, z: int)
    requires Ring(next, prev, h, s) && CeilAt(size, s, k, z)
    ensures 0 <= k <= |s| && prev(After(h, s, k - 1)) == Before(h, s, k)
  {
    if k < |s| {
      assert prev(s[k]) == Before(h, s, k);
    }
  }

  /** One more unsorted chunk is detached. */
  lemma UnsortedNext(base: Addr, m: Headers, l: Lists, j: Headers, lj: Lists)
    requires Filing(base, m, l, j, lj) && NoneLoose(j) && |lj.bins| == BINS && lj.bins[UNSORTED] != []
    ensures var v := lj.bins[UNSORTED][0];
            var k, lk := Loosen(j, v), UnbinL(lj, v, UNSORTED, 0);
            && v == lj.fd(Head(base, UNSORTED)) && lj.fd(v) == After(Head(base, UNSORTED), lj.bins[UNSORTED], 0)
            && v in j.place && v != NULL && lj.fd(v) != NULL && lj.bk(v) != NULL && lj.fd(v) != v
            && Filing(base, m, l, k, lk) && OnlyLoose(k, v) && StillTold(k, v) && lk.nextSize(v) == NULL
            && lk.bins[UNSORTED] == lj.bins[UNSORTED][1..]
            && j.size(v) >= MIN_PAYLOAD && Aligned(j.size(v))
  {
    hide Good, Frame, StillTold;
    UnsortedFirst(base, j, lj);
    UnsortedDetach(base, j, lj);
    var v := lj.bins[UNSORTED][0];
    FilingTrans(base, m, l, j, lj, Loosen(j, v), UnbinL(lj, v, UNSORTED, 0));
  }

  /** Filing the chunk after the first n. */
  lemma FileNext(m: Headers, s: seq<Addr>, n: nat, j: Headers)
    requires n < |s| && j == FileAll(m, s, n) && (forall x :: x in s ==> x in m.place)
    ensures j.size == m.size
    ensures FileAll(m, s, n + 1) == Reshelve(Loosen(j, s[n]), s[n], BinFor(m.size(s[n])))
  {
    FileAllPlaces(m, s, n);
    var b := Bin(BinFor(m.size(s[n])));
    assert j.place[s[n] := Loose][s[n] := b] == j.place[s[n] := b];
  }

  /** The search has filed the first n of the unsorted chunks s, all smaller than z. */
  ghost predicate Walk(base: Addr, m: Headers, l: Lists, k: Headers, lk: Lists, s: seq<Addr>, n: nat, z: int)
  {
    && n <= |s| && |lk.bins| == BINS && lk.bins[UNSORTED] == s[n..]
    && (forall x :: x in s ==> x in m.place && x != NULL)
    && (forall i :: 0 <= i < n ==> m.size(s[i]) < z)
    && Filing(base, m, l, k, lk) && NoneLoose(k) && k == FileAll(m, s, n)
  }

  lemma WalkStart(base: Addr, m: Headers, l: Lists, z: int)
    requires Good(base, m, l) && NoneLoose(m)
    ensures |l.bins| == BINS && Walk(base, m, l, m, l, l.bins[UNSORTED], 0, z)
    ensures l.fd(Head(base, UNSORTED)) == After(Head(base, UNSORTED), l.bins[UNSORTED], -1)
    ensures Head(base, UNSORTED) !in l.bins[UNSORTED]
  {
    assert Ring(l.fd, l.bk, Head(base, UNSORTED), l.bins[UNSORTED]);
    FilingStart(base, m, l);
  }

  lemma LooseCanTake(m: Headers, v: Addr, z: int)
    requires OnlyLoose(m, v) && Aligned(z) && z >= MIN_PAYLOAD && m.size(v) >= z
    ensures CanTake(m, v, z)
  {
  }

  lemma FilingGood(base: Addr, m: Headers, l: Lists, k: Headers, lk: Lists)
    requires Filing(base, m, l, k, lk)
    ensures Good(base, k, lk)
  {
  }

  lemma LargeRings(base: Addr, m: Headers, l: Lists, z: int, i: int)
    requires Good(base, m, l)
    ensures |l.sorted| == LARGEBINS && NoFitUpTo(m.size, l.sorted, i, i, z)
  {
  }

  lemma LargeRing(base: Addr, m: Headers, l: Lists, i: int)
    requires Good(base, m, l) && 0 <= i < LARGEBINS
    ensures |l.sorted| == LARGEBINS && Ring(l.nextSize, l.prevSizePtr, Head(base, LARGE0 + i), l.sorted[i])
    ensures forall k :: 0 <= k < |l.sorted[i]| ==> l.sorted[i][k] != NULL
  {
    forall k | 0 <= k < |l.sorted[i]|
      ensures l.sorted[i][k] != NULL
    {
      LargeFacts(base, m, l, i, k);
    }
  }

  lemma NoFitOneMore(size: Addr -> int, sorted: seq<seq<Addr>>, from: int, to: int, z: int)
    requires 0 <= to < |sorted| && NoFitUpTo(size, sorted, from, to, z) && NoFitIn(size, sorted[to], |sorted[to]|, z)
    ensures NoFitUpTo(size, sorted, from, to + 1, z)
  {
  }

  lemma BestIsBinned(m: Headers, v: Addr, z: int)
    requires BestFit(m, v, z)
    ensures v in m.place && m.place[v].Bin?
  {
  }

  /** A fitting chunk that has just been detached can be taken. */
  lemma DetachedCanTake(base: Addr, m: Headers, l: Lists, lk: Lists, v: Addr, z: int)
    requires Keeps(base, m, l, Loosen(m, v), lk) && NoneLoose(m) && BestFit(m, v, z) && Aligned(z) && z >= MIN_PAYLOAD
    ensures Good(base, Loosen(m, v), lk)
    ensures Filing(base, m, l, Loosen(m, v), lk) && OnlyLoose(Loosen(m, v), v) && CanTake(Loosen(m, v), v, z)
    ensures |lk.bins| == BINS
  {
  }

  /** Cutting does not look at the top chunk. */
  lemma CutTop(m: Headers, v: Addr, z: int)
    ensures forall t :: Cut(m.(top := t), v, z) == Cut(m, v, z).(top := t)
  {
  }

  // ---- Growing, carving and giving up the top chunk ----

  lemma GrowFiling(base: Addr, m: Headers, l: Lists, j: Headers, lj: Lists, block: Addr, z: int)
    requires Filing(base, m, l, j, lj) && NoneLoose(j) && j.top == NULL
    requires FreshRegion(base, j.heaps, block, z) && z >= MIN_PAYLOAD && Aligned(z)
    ensures var k, lk := Grow(j, block, z), GrowL(lj, block, block + HEADER + z);
            Filing(base, m, l, k, lk) && NoneLoose(k) && k.top == block && k.size(block) == z && block != NULL
  {
    hide Good, Frame;
    var k, lk := Grow(j, block, z), GrowL(lj, block, block + HEADER + z);
    GrowGood(base, j, lj, block, z);
    GrowStep(base, j, lj, block, z);
    FilingTrans(base, m, l, j, lj, k, lk);
  }

  lemma GrowStep(base: Addr, m: Headers, l: Lists, block: Addr, z: int)
    requires Good(base, m, l) && FreshRegion(base, m.heaps, block, z) && z >= MIN_PAYLOAD
    ensures Frame(base, m, l, Grow(m, block, z), GrowL(l, block, block + HEADER + z))
    ensures block !in m.place
  {
    FreshIsFar(base, m, block, z);
    GrowFrame(base, m, l, block, z);
  }

  lemma CarveServes(base: Addr, m: Headers, l: Lists, j: Headers, lj: Lists, z: int)
    requires Filing(base, m, l, j, lj) && NoneLoose(j) && j.top != NULL
    requires Aligned(z) && z >= MIN_PAYLOAD && j.size(j.top) >= z
    ensures Served(base, m, l, CarveH(j, z), lj, j.top, z, 32)
  {
    hide Good, Frame;
    TopFacts(base, j, lj);
    ChunkFacts(base, j, lj, j.top);
    CarveKeeps(base, j, lj, z);
    CarveFacts(base, j, lj, z);
    ExtendsTrans(base, m, l, j, lj, CarveH(j, z), lj);
    assert Live(j, j.top) <==> Live(m, j.top);
  }

  lemma CarveFacts(base: Addr, m: Headers, l: Lists, z: int)
    requires Good(base, m, l) && NoneLoose(m) && m.top in m.place && m.place[m.top].Top?
    requires Aligned(z) && z >= MIN_PAYLOAD && m.size(m.top) >= z && Aligned(m.size(m.top)) && m.top != NULL
    ensures var k := CarveH(m, z);
            && Extends(m, k) && NoneLoose(k) && HandedOut(m, k, m.top)
            && z <= k.size(m.top) <= z + 32 && Aligned(k.size(m.top))
  {
    hide Good;
    var t, k := m.top, CarveH(m, z);
    if Splits(m, t, z) {
      LoosenTopGood(base, m, l);
      CutGood(base, LoosenTop(m), l, t, z);
      assert k.size(t) == z;
    } else {
      SlackIsSmall(m.size(t), z);
    }
  }

  lemma ServedTrans(base: Addr, m: Headers, l: Lists, j: Headers, lj: Lists, k: Headers, lk: Lists, v: Addr, z: int)
    requires Filing(base, m, l, j, lj) && Served(base, j, lj, k, lk, v, z, 32)
    ensures Served(base, m, l, k, lk, v, z, 32)
  {
    hide Good, Frame;
    ExtendsTrans(base, m, l, j, lj, k, lk);
    assert HandedOut(m, k, v) by {
      assert Live(j, v) <==> Live(m, v);
      forall x ensures Live(k, x) <==> Live(m, x) || x == v { assert Live(j, x) <==> Live(m, x); }
    }
  }

  /** A top chunk that is too small goes to the unsorted bin. */
  lemma RetireFiling(base: Addr, m: Headers, l: Lists, j: Headers, lj: Lists)
    requires Filing(base, m, l, j, lj) && NoneLoose(j) && j.top != NULL
    ensures Good(base, LoosenTop(j), lj) && OnlyLoose(LoosenTop(j), j.top)
    ensures Filing(base, m, l, LoosenTop(j), lj)
  {
    hide Good, Frame;
    TopFacts(base, j, lj);
    LoosenTopGood(base, j, lj);
    FilingTrans(base, m, l, j, lj, LoosenTop(j), lj);
  }

  lemma ShelvedFiling(base: Addr, m: Headers, l: Lists, j: Headers, lj: Lists, p: Addr, lk: Lists)
    requires Filing(base, m, l, j, lj) && IsLoose(j, p) && Keeps(base, j, lj, Shelve(j, p, UNSORTED), lk)
    ensures Filing(base, m, l, Shelve(j, p, UNSORTED), lk)
  {
    hide Good, Frame;
    FilingTrans(base, m, l, j, lj, Shelve(j, p, UNSORTED), lk);
  }

  /** What is in a ring bin stays in it. */
  ghost predicate StillBinned(m: Headers, k: Headers)
  {
    forall x :: x in m.place && m.place[x].Bin? ==> x in k.place && k.place[x] == m.place[x]
  }

  lemma BinnedSelf(m: Headers)
    ensures StillBinned(m, m)
  {
  }

  lemma BinnedTrans(m: Headers, j: Headers, k: Headers)
    requires StillBinned(m, j) && StillBinned(j, k)
    ensures StillBinned(m, k)
  {
  }

  lemma BinnedStays(m: Headers, k: Headers, x: Addr)
    requires StillBinned(m, k) && x in m.place && m.place[x].Bin?
    ensures x in k.place && k.place[x] == m.place[x]
  {
  }

  lemma ShelvePlaces(m: Headers, a: Addr)
    ensures Shelve(m, a, UNSORTED).place == m.place[a := Bin(UNSORTED)] && Shelve(m, a, UNSORTED).size == m.size
    ensures m.place[a := Loose][a := Bin(UNSORTED)] == m.place[a := Bin(UNSORTED)]
  {
  }

  lemma CarveHeaps(base: Addr, m: Headers, l: Lists, z: int)
    requires Good(base, m, l) && m.top != NULL && z >= MIN_PAYLOAD
    ensures CarveH(m, z).heaps == m.heaps && StillBinned(m, CarveH(m, z))
  {
    hide Good;
    TopFacts(base, m, l);
    if Splits(m, m.top, z) {
      RestIsNew(base, m, l, m.top, z);
    }
  }

  lemma NewBlock(base: Addr, m: Headers, l: Lists, j: Headers, lj: Lists, block: Addr, z: int)
    requires Filing(base, m, l, j, lj) && FreshRegion(base, j.heaps, block, z) && z >= MIN_PAYLOAD
    ensures block !in j.place
  {
    hide Frame, ListsOk;
    FreshIsFar(base, j, block, z);
  }

  lemma GrowPlaces(m: Headers, block: Addr, z: int)
    requires block !in m.place
    ensures StillBinned(m, Grow(m, block, z))
  {
  }

  lemma BeforeCeil(size: Addr -> int, s: seq<Addr>, k: int, p: Addr)
    requires CeilAt(size, s, k, size(p))
    ensures 0 <= k <= |s| && Insert(s, k, p)[k] == p && |Insert(s, k, p)| == |s| + 1
    ensures forall n :: 0 <= n < k ==> size(Insert(s, k, p)[n]) < size(p)
  {
  }

  lemma ServedLoosely(base: Addr, m: Headers, l: Lists, k: Headers, lk: Lists, v: Addr, z: int)
    requires Served(base, m, l, k, lk, v, z, 0)
    ensures Served(base, m, l, k, lk, v, z, 32) && k.size(v) == z
  {
    hide Good, Frame;
  }

  /** The fastbin or small bin of exactly z bytes has a chunk to give. */
  ghost predicate HasExact(l: Lists, z: int)
    requires |l.fast| == FASTBINS && |l.bins| == BINS && z >= MIN_PAYLOAD
  {
    (z <= 16 * FASTBINS && l.fast[z / 16 - 1] != []) || (z < 16 * SMALLBINS && l.bins[SmallBinIndex(z)] != [])
  }

  ghost function ExactChunk(l: Lists, z: int): Addr
    requires |l.fast| == FASTBINS && |l.bins| == BINS && z >= MIN_PAYLOAD && HasExact(l, z)
  {
    if z <= 16 * FASTBINS && l.fast[z / 16 - 1] != [] then l.fast[z / 16 - 1][0] else l.bins[SmallBinIndex(z)][0]
  }

  lemma ListLengths(base: Addr, m: Headers, l: Lists)
    requires Good(base, m, l)
    ensures |l.fast| == FASTBINS && |l.bins| == BINS
  {
  }

  /** No unsorted chunk, and for a large request no chunk of a large bin, has z bytes. */
  ghost predicate NothingFits(m: Headers, z: int)
  {
    && (forall x :: x in m.place && m.place[x] == Bin(UNSORTED) ==> m.size(x) < z)
    && (z >= 512 ==> forall x :: !Fits(m, x, z))
  }

  lemma UnsortedExactly(base: Addr, m: Headers, l: Lists)
    requires Good(base, m, l) && |l.bins| == BINS
    ensures forall x :: x in l.bins[UNSORTED] <==> x in m.place && m.place[x] == Bin(UNSORTED)
  {
  }

  lemma SearchedAll(base: Addr, m: Headers, l: Lists, j: Headers, z: int)
    requires Good(base, m, l) && |l.bins| == BINS && j == FileAll(m, l.bins[UNSORTED], |l.bins[UNSORTED]|)
    requires forall i :: 0 <= i < |l.bins[UNSORTED]| ==> m.size(l.bins[UNSORTED][i]) < z
    requires z >= 512 ==> forall x :: !Fits(j, x, z)
    ensures NothingFits(m, z) && j.size == m.size
  {
    hide Good, FileAll;
    var s := l.bins[UNSORTED];
    UnsortedExactly(base, m, l);
    FileAllPlaces(m, s, |s|);
    assert s[..|s|] == s;
    forall x
      ensures z >= 512 ==> !Fits(m, x, z)
    {
      assert Fits(m, x, z) ==> Fits(j, x, z);
    }
  }

  /** A chunk found in a large bin after filing was binned before, and one that fits was there. */
  lemma FoundWasBinned(base: Addr, m: Headers, l: Lists, j: Headers, v: Addr, z: int)
    requires Good(base, m, l) && |l.bins| == BINS && j == FileAll(m, l.bins[UNSORTED], |l.bins[UNSORTED]|)
    requires BestFit(j, v, z) && z >= 512
    requires forall i :: 0 <= i < |l.bins[UNSORTED]| ==> m.size(l.bins[UNSORTED][i]) < z
    ensures WasBinned(m, v) && !NothingFits(m, z) && Larger(m, l, v, z)
  {
    hide Good, FileAll;
    UnsortedExactly(base, m, l);
    FileAllPlaces(m, l.bins[UNSORTED], |l.bins[UNSORTED]|);
    assert NoneUnsorted(m, z);
    forall x
      ensures Fits(m, x, z) <==> Fits(j, x, z)
    {
    }
  }

  ghost predicate WasBinned(m: Headers, v: Addr)
  {
    v in m.place && (m.place[v].Bin? || m.place[v].Fast?)
  }

  lemma ExactWasBinned(base: Addr, m: Headers, l: Lists, z: int)
    requires Good(base, m, l) && |l.fast| == FASTBINS && |l.bins| == BINS && z >= MIN_PAYLOAD && HasExact(l, z)
    ensures WasBinned(m, ExactChunk(l, z))
    ensures var p := m.place[ExactChunk(l, z)]; p.Bin? ==> p.b < LARGE0
  {
    if z <= 16 * FASTBINS && l.fast[z / 16 - 1] != [] {
      assert l.fast[z / 16 - 1][0] in l.fast[z / 16 - 1];
    } else {
      assert l.bins[SmallBinIndex(z)][0] in l.bins[SmallBinIndex(z)];
    }
  }

  lemma UnsortedWasBinned(base: Addr, m: Headers, l: Lists, n: nat, z: int)
    requires Good(base, m, l) && |l.bins| == BINS && n < |l.bins[UNSORTED]| && m.size(l.bins[UNSORTED][n]) >= z
    requires forall i :: 0 <= i < n ==> m.size(l.bins[UNSORTED][i]) < z
    ensures var v := l.bins[UNSORTED][n]; WasBinned(m, v) && !NothingFits(m, z) && Larger(m, l, v, z)
  {
    assert l.bins[UNSORTED][n] in l.bins[UNSORTED];
  }

  /** Nothing binned serves z bytes. */
  ghost predicate NoneBinned(m: Headers, l: Lists, z: int)
  {
    |l.fast| == FASTBINS && |l.bins| == BINS && z >= MIN_PAYLOAD && !HasExact(l, z) && NothingFits(m, z)
  }

  /** Nothing binned serves z bytes, but the top chunk does. */
  ghost predicate FromTop(m: Headers, l: Lists, z: int)
  {
    NoneBinned(m, l, z) && m.top != NULL && m.size(m.top) >= z
  }

  /** Neither a binned chunk nor the top chunk serves z bytes. */
  ghost predicate NeedsHeap(m: Headers, l: Lists, z: int)
  {
    NoneBinned(m, l, z) && (m.top == NULL || m.size(m.top) < z)
  }

  /** All unsorted chunks are filed. */
  ghost function Filed(m: Headers, l: Lists): Headers
    requires |l.bins| == BINS
  {
    FileAll(m, l.bins[UNSORTED], |l.bins[UNSORTED]|)
  }

  /** The first chunk of the unsorted bin that has z bytes. */
  ghost predicate FirstUnsorted(m: Headers, l: Lists, v: Addr, z: int)
    requires |l.bins| == BINS
  {
    exists n :: 0 <= n < |l.bins[UNSORTED]| && l.bins[UNSORTED][n] == v && m.size(v) >= z
             && forall i :: 0 <= i < n ==> m.size(l.bins[UNSORTED][i]) < z
  }

  ghost predicate NoneUnsorted(m: Headers, z: int)
  {
    forall x :: x in m.place && m.place[x] == Bin(UNSORTED) ==> m.size(x) < z
  }

  /** Chunk v is used: cut after z bytes if 48 or more are left over, and then the rest is unsorted; whole otherwise.
       No other chunk changes its size, and none but unsorted ones change their place. */
  ghost predicate TakenFrom(m: Headers, k: Headers, v: Addr, z: int)
  {
    && k.top == m.top && v in k.place
    && (forall x :: x in m.place && x != v ==> x in k.place && k.size(x) == m.size(x) && k.inUse(x) == m.inUse(x))
    && (forall x :: x in m.place && x != v && m.place[x] != Bin(UNSORTED) ==> x in k.place && k.place[x] == m.place[x])
    && if m.size(v) - z >= 48
       then
         var r := v + HEADER + z;
         && k.size(v) == z && r in k.place && k.place[r] == Bin(UNSORTED) && k.size(r) == m.size(v) - z - HEADER
         && forall x :: x in k.place ==> x in m.place || x == r
       else k.size(v) == m.size(v) && forall x :: x in k.place ==> x in m.place
  }

  /** Chunks that were filed have other places, and that is all. */
  ghost predicate FiledOnly(m: Headers, j: Headers)
  {
    && j == m.(place := j.place) && j.place.Keys == m.place.Keys
    && forall x :: x in m.place && m.place[x] != Bin(UNSORTED) ==> j.place[x] == m.place[x]
  }

  lemma TakeIs(base: Addr, m: Headers, l: Lists, j: Headers, v: Addr, z: int)
    requires Good(base, m, l) && FiledOnly(m, j) && v in m.place && Aligned(z) && z >= MIN_PAYLOAD && m.size(v) >= z
    ensures TakenFrom(m, TakeH(Loosen(j, v), v, z), v, z)
  {
    hide Good, Aligned;
    if Splits(m, v, z) {
      assert v + HEADER + z !in m.place by { RestIsNew(base, m, l, v, z); }
    }
    assert forall x :: x in m.place <==> x in j.place.Keys;
  }

  lemma RestIsNew(base: Addr, m: Headers, l: Lists, v: Addr, z: int)
    requires Good(base, m, l) && v in m.place && z >= MIN_PAYLOAD && Splits(m, v, z)
    ensures v + HEADER + z !in m.place
  {
  }

  lemma FileAllOnly(base: Addr, m: Headers, l: Lists, n: nat)
    requires Good(base, m, l) && |l.bins| == BINS && n <= |l.bins[UNSORTED]|
    ensures FiledOnly(m, FileAll(m, l.bins[UNSORTED], n))
  {
    hide Good, FileAll;
    var s := l.bins[UNSORTED];
    UnsortedExactly(base, m, l);
    FileAllPlaces(m, s, n);
    assert forall x :: x in s[..n] ==> x in s;
  }

  /** Which chunk is chosen when none has exactly the right size but something binned will do: the first unsorted one
      that fits, or else a best fit of all large bins. */
  ghost predicate Larger(m: Headers, l: Lists, v: Addr, z: int)
    requires |l.bins| == BINS
  {
    FirstUnsorted(m, l, v, z) || (NoneUnsorted(m, z) && z >= 512 && BestFit(m, v, z))
  }

  /** Which chunk is chosen: one of exactly the right size if there is any, the first unsorted one that fits, a best
      fit, the top chunk only when nothing binned will do, and a new heap exactly when the top chunk will not do
      either: then the chunk is its first, and the old top chunk is unsorted. */
  ghost predicate Chosen(m: Headers, l: Lists, k: Headers, v: Addr, z: int)
  {
    && |l.fast| == FASTBINS && |l.bins| == BINS && z >= MIN_PAYLOAD
    && (HasExact(l, z) ==> v == ExactChunk(l, z) && k.size(v) == z)
    && (!HasExact(l, z) && !NothingFits(m, z) ==> Larger(m, l, v, z) && TakenFrom(m, k, v, z))
    && (!WasBinned(m, v) ==> NoneBinned(m, l, z))
    && (FromTop(m, l, z) ==> v == m.top && k == CarveH(Filed(m, l), z))
    && |k.heaps| == |m.heaps| + (if NeedsHeap(m, l, z) then 1 else 0)
    && (NeedsHeap(m, l, z) ==> v == k.heaps[|m.heaps|].start)
    && (NeedsHeap(m, l, z) && m.top != NULL ==> m.top in k.place && k.place[m.top] == Bin(UNSORTED))
  }

  lemma UnsortedTaken(base: Addr, m: Headers, l: Lists, n: nat, z: int)
    requires Good(base, m, l) && |l.bins| == BINS && n < |l.bins[UNSORTED]| && Aligned(z) && z >= MIN_PAYLOAD
    requires m.size(l.bins[UNSORTED][n]) >= z
    ensures var v := l.bins[UNSORTED][n];
            TakenFrom(m, TakeH(Loosen(FileAll(m, l.bins[UNSORTED], n), v), v, z), v, z)
  {
    hide Good, FileAll, TakeH, Loosen, TakenFrom, FiledOnly;
    var v := l.bins[UNSORTED][n];
    UnsortedExactly(base, m, l);
    FileAllOnly(base, m, l, n);
    TakeIs(base, m, l, FileAll(m, l.bins[UNSORTED], n), v, z);
  }

  lemma LargeTaken(base: Addr, m: Headers, l: Lists, v: Addr, z: int)
    requires Good(base, m, l) && |l.bins| == BINS && Aligned(z) && z >= MIN_PAYLOAD && BestFit(Filed(m, l), v, z)
    ensures TakenFrom(m, TakeH(Loosen(Filed(m, l), v), v, z), v, z)
  {
    hide Good, FileAll, TakeH, Loosen, TakenFrom;
    FileAllOnly(base, m, l, |l.bins[UNSORTED]|);
    assert v in Filed(m, l).place.Keys;
    TakeIs(base, m, l, Filed(m, l), v, z);
  }

  /** Where the unsorted chunks are filed: below 512 bytes in the small bin of exactly their size, otherwise in a large
      bin. */
  lemma FiledBySize(base: Addr, m: Headers, l: Lists, x: Addr)
    requires Good(base, m, l) && |l.bins| == BINS && x in m.place && m.place[x] == Bin(UNSORTED)
    ensures x in Filed(m, l).place && Filed(m, l).place[x].Bin?
    ensures var b := Filed(m, l).place[x].b;
            if m.size(x) < 512 then 0 <= b < 32 && m.size(x) == 16 * (b + 1)
            else 32 <= b < 96 && b - 32 == LargeBinIndex(m.size(x))
  {
    hide FileAll, LargeBinIndex;
    var s := l.bins[UNSORTED];
    UnsortedExactly(base, m, l);
    FileAllPlaces(m, s, |s|);
    assert s[..|s|] == s;
    ChunkFacts(base, m, l, x);
    LargeBinOf(m.size(x));
  }

  lemma LargeBinOf(z: int)
    ensures z >= 512 ==> 0 <= LargeBinIndex(z) < LARGEBINS
  {
  }

  lemma ExactChosen(m: Headers, l: Lists, k: Headers, v: Addr, z: int)
    requires |l.fast| == FASTBINS && |l.bins| == BINS && z >= MIN_PAYLOAD && HasExact(l, z)
    requires v == ExactChunk(l, z) && k.size(v) == z && WasBinned(m, v) && |k.heaps| == |m.heaps|
    ensures Chosen(m, l, k, v, z)
  {
    hide HasExact, ExactChunk, WasBinned, NothingFits, CarveH, Filed, Larger, TakenFrom;
  }

  lemma LargerChosen(m: Headers, l: Lists, k: Headers, v: Addr, z: int)
    requires |l.fast| == FASTBINS && |l.bins| == BINS && z >= MIN_PAYLOAD && !HasExact(l, z)
    requires Larger(m, l, v, z) && WasBinned(m, v) && !NothingFits(m, z) && |k.heaps| == |m.heaps|
    requires TakenFrom(m, k, v, z)
    ensures Chosen(m, l, k, v, z)
  {
    hide HasExact, ExactChunk, WasBinned, NothingFits, CarveH, Filed, Larger, TakenFrom;
  }

  lemma TopChosen(m: Headers, l: Lists, k: Headers, v: Addr, z: int)
    requires |l.fast| == FASTBINS && |l.bins| == BINS && z >= MIN_PAYLOAD && !HasExact(l, z) && NothingFits(m, z)
    requires m.top != NULL && m.size(m.top) >= z ==> v == m.top && k == CarveH(Filed(m, l), z)
    requires |k.heaps| == |m.heaps| + if m.top == NULL || m.size(m.top) < z then 1 else 0
    requires m.top == NULL || m.size(m.top) < z ==> v == k.heaps[|m.heaps|].start
    requires m.top != NULL && m.size(m.top) < z ==> m.top in k.place && k.place[m.top] == Bin(UNSORTED)
    ensures Chosen(m, l, k, v, z)
  {
    hide HasExact, ExactChunk, WasBinned, NothingFits, CarveH, Filed, Larger, TakenFrom;
  }

  /** Heaps have the sizes of their positions, and the counters are those of their number. */
  ghost predicate Grown(heaps: seq<Span>, expo: nat, lin: nat)
  {
    && expo == (if |heaps| < 7 then |heaps| else 7) && lin == (if |heaps| < 7 then 0 else |heaps| - 7)
    && forall k :: 0 <= k < |heaps| ==> heaps[k].end == heaps[k].start + HEADER + HeapBytes(k)
  }

  lemma GrownMore(heaps: seq<Span>, expo: nat, lin: nat, block: Addr)
    requires Grown(heaps, expo, lin)
    ensures var z := NextHeapSize(expo, lin);
            Grown(heaps + [Span(block, block + HEADER + z)], if |heaps| < 7 then expo + 1 else expo,
                  if |heaps| < 7 then lin else lin + 1)
    ensures 1024 * 1024 * Pow2(expo) <= 64 * 1024 * 1024 <==> |heaps| < 7
  {
    hide NextHeapSize;
    NextHeapIs(|heaps|);
    CounterSide(expo);
  }

  lemma CounterSide(expo: nat)
    requires expo <= 7
    ensures 1024 * 1024 * Pow2(expo) <= 64 * 1024 * 1024 <==> expo < 7
  {
    assert Pow2(4) == 16;
    assert Pow2(6) == 64;
    assert Pow2(7) == 128;
    if expo < 7 {
      Pow2Monotone(expo, 6);
    }
  }

  // ---- A new arena ----

  ghost predicate NoChunks(m: Headers)
  {
    m.heaps == [] && m.ends == {} && m.top == NULL && m.place == map[]
  }

  ghost predicate NoLists(l: Lists)
  {
    && |l.bins| == BINS && (forall i :: 0 <= i < BINS ==> l.bins[i] == [])
    && |l.sorted| == LARGEBINS && (forall i :: 0 <= i < LARGEBINS ==> l.sorted[i] == [])
    && |l.fast| == FASTBINS && (forall i :: 0 <= i < FASTBINS ==> l.fast[i] == [])
    && |l.fastbins| == FASTBINS && (forall i :: 0 <= i < FASTBINS ==> l.fastbins[i] == NULL)
  }

  /** Sentinels point at themselves. */
  ghost predicate Sentinels(base: Addr, l: Lists)
  {
    && (forall b :: 0 <= b < BINS ==> l.fd(Head(base, b)) == Head(base, b) && l.bk(Head(base, b)) == Head(base, b))
    && (forall b :: LARGE0 <= b < UNSORTED ==>
          l.nextSize(Head(base, b)) == Head(base, b) && l.prevSizePtr(Head(base, b)) == Head(base, b))
  }

  lemma EmptyIsGood(base: Addr, m: Headers, l: Lists)
    requires 0 < base && NoChunks(m) && NoLists(l) && Sentinels(base, l)
    ensures Good(base, m, l) && NoneLoose(m)
  {
    forall b | 0 <= b < BINS
      ensures Ring(l.fd, l.bk, Head(base, b), l.bins[b])
    {
    }
    forall i | 0 <= i < LARGEBINS
      ensures Ring(l.nextSize, l.prevSizePtr, Head(base, LARGE0 + i), l.sorted[i])
    {
    }
    assert HeadersOk(base, m);
  }

  /** One heap of z bytes, all of it top chunk; nothing is handed out and nothing is marked. */
  ghost predicate NewArena(m: Headers, block: Addr, z: int)
  {
    && m.heaps == [Span(block, block + HEADER + z)] && m.top == block && m.place == map[block := Top]
    && m.size(block) == z && !m.inUse(block) && m.prevInUse(block) && forall x :: !m.marked(x)
  }

  lemma FirstHeap(base: Addr, m: Headers, l: Lists, block: Addr, z: int)
    requires 0 < base && NoChunks(m) && NoLists(l) && Sentinels(base, l)
    requires FreshRegion(base, [], block, z) && z >= MIN_PAYLOAD && Aligned(z)
    ensures var k := Grow(m, block, z);
            && Good(base, k, GrowL(l, block, block + HEADER + z)) && NoneLoose(k)
            && ((forall x :: !m.marked(x)) ==> NewArena(k, block, z))
  {
    hide Good, Sentinels, NoLists;
    EmptyIsGood(base, m, l);
    FilingStart(base, m, l);
    GrowFiling(base, m, l, m, l, block, z);
    FilingGood(base, m, l, Grow(m, block, z), GrowL(l, block, block + HEADER + z));
  }

  // ---- What all this means for live payloads ----

  /** Live payloads are aligned and pairwise disjoint. */
  lemma LivePayloads(base: Addr, m: Headers, l: Lists, c: Addr, d: Addr)
    requires Good(base, m, l) && Live(m, c) && Live(m, d) && c != d
    ensures Aligned(c + HEADER) && Aligned(m.size(c))
    ensures Next(m.size, c) <= d || Next(m.size, d) <= c
  {
    assert Aligned(c) && Aligned(m.size(c));
  }

  ghost predicate Bounded(m: Headers)
  {
    forall c {:trigger Live(m, c)} :: Live(m, c) ==> m.size(c) < MMAP_THRESHOLD
  }

  /** Requests of at most MMAP_THRESHOLD - 48 bytes keep every live chunk below the threshold of `_release`. */
  lemma ServedStaysBounded(base: Addr, m: Headers, l: Lists, k: Headers, lk: Lists, v: Addr, z: int)
    requires Served(base, m, l, k, lk, v, z, 32) && Bounded(m) && z <= MMAP_THRESHOLD - 48
    ensures Bounded(k)
  {
    hide Good;
    forall c | Live(k, c)
      ensures k.size(c) < MMAP_THRESHOLD
    {
      assert c != v ==> Live(m, c);
    }
  }

  /** A carved chunk reaches the threshold exactly when the top chunk does and cannot be split. */
  lemma CarveReachesThreshold(base: Addr, m: Headers, l: Lists, z: int)
    requires Good(base, m, l) && NoneLoose(m) && m.top != NULL
    requires Aligned(z) && MIN_PAYLOAD <= z < MMAP_THRESHOLD && z <= m.size(m.top)
    ensures var k := CarveH(m, z);
            && Good(base, k, l) && Live(k, m.top) && InHeap(k.heaps, k.size, m.top)
            && (k.size(m.top) >= MMAP_THRESHOLD <==> MMAP_THRESHOLD <= m.size(m.top) < z + MIN_PAYLOAD + HEADER)
  {
    hide Good;
    var k := CarveH(m, z);
    FilingStart(base, m, l);
    CarveServes(base, m, l, m, l, z);
    FilingGood(base, m, l, m, l);
    LiveInHeap(base, k, l, m.top);
    CarveSize(base, m, l, z);
  }

  lemma CarveSize(base: Addr, m: Headers, l: Lists, z: int)
    requires Good(base, m, l) && m.top != NULL
    ensures CarveH(m, z).size(m.top) == if Splits(m, m.top, z) then z else m.size(m.top)
  {
    hide Good;
  }

  lemma LiveInHeap(base: Addr, m: Headers, l: Lists, c: Addr)
    requires Good(base, m, l) && Live(m, c)
    ensures InHeap(m.heaps, m.size, c)
  {
  }

  /** What `Arena.Allocate` promises of a request of z bytes that the arena serves. */
  ghost predicate Allocates(base: Addr, m: Headers, l: Lists, k: Headers, lk: Lists, v: Addr, z: int)
  {
    && Good(base, m, l) && NoneLoose(m) && Bounded(m)
    && Served(base, m, l, k, lk, v, z, 32) && Chosen(m, l, k, v, z)
  }

  /** There is an arena in which a request of z bytes gets a chunk that `_release` would unmap exactly if z is larger
      than MMAP_THRESHOLD - 48. */
  lemma ThresholdIff(base: Addr, z: int)
    requires 0 < base && Aligned(z) && MIN_PAYLOAD <= z < MMAP_THRESHOLD
    ensures (exists m, l, k, lk, v :: Allocates(base, m, l, k, lk, v, z) && k.size(v) >= MMAP_THRESHOLD)
            <==> z > MMAP_THRESHOLD - 48
  {
    hide Allocates;
    if z > MMAP_THRESHOLD - 48 {
      var m, l := ArenaOf(base, MMAP_THRESHOLD);
      WholeTopServes(base, m, l, z);
      assert Allocates(base, m, l, CarveH(m, z), l, m.top, z);
    } else {
      forall m, l, k, lk, v | Allocates(base, m, l, k, lk, v, z)
        ensures k.size(v) < MMAP_THRESHOLD
      {
        AllocatesSize(base, m, l, k, lk, v, z);
      }
    }
  }

  lemma AllocatesSize(base: Addr, m: Headers, l: Lists, k: Headers, lk: Lists, v: Addr, z: int)
    requires Allocates(base, m, l, k, lk, v, z)
    ensures k.size(v) <= z + 32
  {
    hide Good, Chosen;
  }

  /** An arena with one heap of n bytes, all of it top chunk. */
  lemma ArenaOf(base: Addr, n: int) returns (m: Headers, l: Lists)
    requires 0 < base && Aligned(n) && n >= MIN_PAYLOAD
    ensures Good(base, m, l) && NoneLoose(m) && Unbinned(m) && m.top != NULL && m.size(m.top) == n
    ensures forall c :: !Live(m, c)
  {
    hide Good, FreshRegion;
    var block := (base + 48 * BINS) / 16 * 16 + 16;
    var self := (x: Addr) => x;
    var e := Headers([], {}, x => 0, x => false, x => false, x => 0, x => false, NULL, map[]);
    var n0 := Lists(self, self, self, self, seq(FASTBINS, i => NULL), seq(BINS, i => []), seq(LARGEBINS, i => []),
                    seq(FASTBINS, i => []));
    assert FreshRegion(base, [], block, n) by { AboveIsFresh(base, block, n); }
    FirstHeap(base, e, n0, block, n);
    m, l := Grow(e, block, n), GrowL(n0, block, block + HEADER + n);
  }

  lemma AboveIsFresh(base: Addr, block: Addr, n: int)
    requires 0 < base && base + 48 * BINS <= block && Aligned(block)
    ensures FreshRegion(base, [], block, n)
  {
  }

  /** Every chunk is handed out or the top chunk. */
  ghost predicate Unbinned(m: Headers)
  {
    forall x :: x in m.place ==> m.place[x].InUse? || m.place[x].Top?
  }

  lemma UnbinnedSearch(base: Addr, m: Headers, l: Lists, z: int)
    requires Good(base, m, l) && Unbinned(m) && z >= MIN_PAYLOAD
    ensures NoneBinned(m, l, z) && Filed(m, l) == m
  {
    UnsortedExactly(base, m, l);
    if HasExact(l, z) {
      ExactWasBinned(base, m, l, z);
    }
  }

  lemma WholeTopServes(base: Addr, m: Headers, l: Lists, z: int)
    requires Good(base, m, l) && NoneLoose(m) && Bounded(m) && Unbinned(m)
    requires m.top != NULL && m.size(m.top) == MMAP_THRESHOLD
    requires Aligned(z) && MMAP_THRESHOLD - 48 < z < MMAP_THRESHOLD
    ensures Allocates(base, m, l, CarveH(m, z), l, m.top, z) && CarveH(m, z).size(m.top) == MMAP_THRESHOLD
  {
    hide Good, Filed, HasExact, NothingFits, ExactChunk;
    UnbinnedSearch(base, m, l, z);
    FilingStart(base, m, l);
    CarveServes(base, m, l, m, l, z);
    CarveSize(base, m, l, z);
  }

  /** An allocation leaves the payload of every chunk that was live before as it was. */
  lemma ServedKeepsPayloads(base: Addr, m: Headers, l: Lists, k: Headers, lk: Lists, v: Addr, z: int, c: Addr)
    requires Good(base, m, l) && Served(base, m, l, k, lk, v, z, 32) && Live(m, c)
    ensures Live(k, c) && k.size(c) == m.size(c) && WordsSame(m, l, k, lk, c + HEADER, Next(m.size, c))
  {
    hide ListsOk, WordsSame;
    PayloadKept(base, m, l, k, lk, c);
  }
}
