/** What the allocator's operations do to a well-formed arena. */
module ArenaSpec {
  import opened ChunkLayout
  import opened Rings
  import opened Blocks
  import opened BinLists
  import opened ArenaSteps
  import opened Payloads

  /** From (m, l) to (k, l'): well formed again, and only what may be written was written. */
  ghost predicate Keeps(base: Addr, m: Headers, l: Lists, k: Headers, l': Lists)
  {
    Good(base, k, l') && Frame(base, m, l, k, l')
  }

  ghost predicate SameLive(m: Headers, k: Headers)
  {
    forall c {:trigger Live(m, c)} {:trigger Live(k, c)} :: Live(k, c) <==> Live(m, c)
  }

  /** Chunks may have been merged, but nothing was handed out or given back. */
  ghost predicate Merges(m: Headers, k: Headers)
  {
    SameLive(m, k) && forall x :: x in k.place ==> x in m.place
  }

  /** Chunks may have been split off and handed out, but nothing was merged or given back. */
  ghost predicate Extends(m: Headers, k: Headers)
  {
    && (forall c {:trigger Live(k, c)} :: Live(m, c) ==> Live(k, c))
    && forall x :: x in m.place ==> x in k.place
  }

  lemma MergesTrans(base: Addr, m: Headers, l: Lists, j: Headers, lj: Lists, k: Headers, lk: Lists)
    requires Keeps(base, m, l, j, lj) && Merges(m, j) && Keeps(base, j, lj, k, lk) && Merges(j, k)
    ensures Keeps(base, m, l, k, lk) && Merges(m, k)
  {
    hide Good, Frame;
    assert SameLive(m, k) by {
      forall c ensures Live(k, c) <==> Live(m, c) { assert Live(j, c) <==> Live(m, c); }
    }
    FrameTrans(base, m, l, j, lj, k, lk);
  }

  lemma ExtendsTrans(base: Addr, m: Headers, l: Lists, j: Headers, lj: Lists, k: Headers, lk: Lists)
    requires Keeps(base, m, l, j, lj) && Extends(m, j) && Keeps(base, j, lj, k, lk) && Extends(j, k)
    ensures Keeps(base, m, l, k, lk) && Extends(m, k)
  {
    hide Good, Frame;
    forall c | Live(m, c) ensures Live(j, c) && Live(k, c) { }
    FrameTrans(base, m, l, j, lj, k, lk);
  }

  // ---- Taking z bytes from a detached chunk ----

  ghost predicate Splits(m: Headers, v: Addr, z: int)
  {
    m.size(v) - z >= MIN_PAYLOAD + HEADER
  }

  ghost function TakeH(m: Headers, v: Addr, z: int): Headers
  {
    if Splits(m, v, z) then Hand(Shelve(Cut(m, v, z), v + HEADER + z, UNSORTED), v) else Hand(TellInUse(m, v), v)
  }

  ghost function TakeL(base: Addr, m: Headers, l: Lists, v: Addr, z: int): Lists
    requires |l.bins| == BINS
  {
    if Splits(m, v, z)
    then PushL(base, ClearSizeL(l, v + HEADER + z), v + HEADER + z, UNSORTED)
    else l
  }

  ghost predicate CanTake(m: Headers, v: Addr, z: int)
  {
    IsLoose(m, v) && Aligned(z) && z >= MIN_PAYLOAD && m.size(v) >= z
  }

  lemma TakeKeeps(base: Addr, m: Headers, l: Lists, v: Addr, z: int)
    requires Good(base, m, l) && CanTake(m, v, z)
    ensures Keeps(base, m, l, TakeH(m, v, z), TakeL(base, m, l, v, z))
  {
    if Splits(m, v, z) {
      TakeSplit(base, m, l, v, z);
    } else {
      TellInUseGood(base, m, l, v);
      HandGood(base, TellInUse(m, v), l, v);
      FlagFrame(base, m, l, v);
      FlagFrame(base, TellInUse(m, v), l, v);
      FrameTrans(base, m, l, TellInUse(m, v), l, Hand(TellInUse(m, v), v), l);
    }
  }

  lemma TakeSplit(base: Addr, m: Headers, l: Lists, v: Addr, z: int)
    requires Good(base, m, l) && |l.bins| == BINS && CanTake(m, v, z) && Splits(m, v, z)
    ensures Keeps(base, m, l, TakeH(m, v, z), TakeL(base, m, l, v, z))
  {
    hide Good, Frame, HeadersOk;
    var r := v + HEADER + z;
    var c, lc := Cut(m, v, z), TakeL(base, m, l, v, z);
    CutGood(base, m, l, v, z);
    CutStep(base, m, l, v, z);
    var s := Shelve(c, r, UNSORTED);
    ShelveGood(base, c, l, r);
    ShelveFrame(base, c, l, r);
    FrameTrans(base, m, l, c, l, s, lc);
    HandGood(base, s, lc, v);
    HandStep(base, s, lc, v);
    FrameTrans(base, m, l, s, lc, Hand(s, v), lc);
  }

  lemma CutLoose(base: Addr, m: Headers, l: Lists, v: Addr, z: int)
    requires Good(base, m, l) && CanTake(m, v, z) && Splits(m, v, z)
    ensures Good(base, Cut(m, v, z), l) && IsLoose(Cut(m, v, z), v + HEADER + z)
  {
    hide Good;
    CutGood(base, m, l, v, z);
  }

  lemma CutStep(base: Addr, m: Headers, l: Lists, v: Addr, z: int)
    requires Good(base, m, l) && IsLoose(m, v) && CanCut(m, v, z) && v + HEADER + z !in m.place
    ensures Frame(base, m, l, Cut(m, v, z), l)
    ensures m.size(v) >= MIN_PAYLOAD
  {
    CutFrame(base, m, l, v, z);
  }

  lemma HandStep(base: Addr, m: Headers, l: Lists, v: Addr)
    requires Good(base, m, l) && v in m.place
    ensures Frame(base, m, l, Hand(m, v), l)
  {
    FlagFrame(base, m, l, v);
  }

  // ---- Carving from the top chunk ----

  ghost function CarveH(m: Headers, z: int): Headers
  {
    var t, j := m.top, LoosenTop(m);
    if Splits(m, t, z) then Hand(MakeTop(Cut(j, t, z), t + HEADER + z), t) else Hand(TellInUse(j, t), t)
  }

  lemma CarveKeeps(base: Addr, m: Headers, l: Lists, z: int)
    requires Good(base, m, l) && m.top != NULL && m.top in m.place
    requires Aligned(z) && z >= MIN_PAYLOAD && m.size(m.top) >= z
    ensures Keeps(base, m, l, CarveH(m, z), l)
  {
    hide Good, Frame, HeadersOk;
    var t, j := m.top, LoosenTop(m);
    LoosenTopGood(base, m, l);
    TopFacts(base, m, l);
    if Splits(m, t, z) {
      var r := t + HEADER + z;
      var c := Cut(j, t, z);
      CutGood(base, j, l, t, z);
      CutStep(base, j, l, t, z);
      FrameTrans(base, m, l, j, l, c, l);
      MakeTopGood(base, c, l, r);
      TopStep(base, c, l, r);
      FrameTrans(base, m, l, c, l, MakeTop(c, r), l);
      HandGood(base, MakeTop(c, r), l, t);
      HandStep(base, MakeTop(c, r), l, t);
      FrameTrans(base, m, l, MakeTop(c, r), l, CarveH(m, z), l);
    } else {
      TellInUseGood(base, j, l, t);
      TellStep(base, j, l, t);
      FrameTrans(base, m, l, j, l, TellInUse(j, t), l);
      HandGood(base, TellInUse(j, t), l, t);
      HandStep(base, TellInUse(j, t), l, t);
      FrameTrans(base, m, l, TellInUse(j, t), l, CarveH(m, z), l);
    }
  }

  lemma TopFacts(base: Addr, m: Headers, l: Lists)
    requires Good(base, m, l) && m.top != NULL
    ensures m.top in m.place && m.place[m.top].Top? && Next(m.size, m.top) in m.ends
    ensures m.prevInUse(Next(m.size, m.top))
    ensures 0 < m.top && m.size(m.top) >= MIN_PAYLOAD && Aligned(m.size(m.top))
    ensures Frame(base, m, l, LoosenTop(m), l)
  {
  }

  lemma TopStep(base: Addr, m: Headers, l: Lists, r: Addr)
    requires Good(base, m, l) && r in m.place && !Live(m, r)
    ensures Frame(base, m, l, MakeTop(m, r), l)
  {
    FlagFrame(base, m, l, r);
  }

  lemma TellStep(base: Addr, m: Headers, l: Lists, v: Addr)
    requires Good(base, m, l) && v in m.place
    ensures Frame(base, m, l, TellInUse(m, v), l)
  {
    FlagFrame(base, m, l, v);
  }

  // ---- Coalescing ----

  /** The successor is free, too large for a fastbin, and so will be absorbed. */
  ghost predicate Absorbs(m: Headers, a: Addr)
  {
    var n := Next(m.size, a);
    !m.inUse(n) && m.size(n) > 16 * FASTBINS
  }

  /** Chunk a absorbs the top chunk and becomes the top; the boundary loses its mark bit. */
  ghost function AbsorbTopH(m: Headers, a: Addr): Headers
  {
    var n := m.top;
    var j := MakeTop(Join(LoosenTop(m), a, n), a);
    j.(marked := Flag(j.marked, Next(j.size, a), false))
  }

  /** The chunk to be binned after looking forward, or NULL if it became the top chunk. */
  ghost function ForwardAt(m: Headers, a: Addr): Addr
  {
    if Absorbs(m, a) && Next(m.size, a) == m.top then NULL else a
  }

  ghost function ForwardH(m: Headers, a: Addr): Headers
  {
    var n := Next(m.size, a);
    if !Absorbs(m, a) then m
    else if n == m.top then AbsorbTopH(m, a)
    else Join(Loosen(m, n), a, n)
  }

  /** The chunk that a released chunk ends up in after looking backward. */
  ghost function BackAt(m: Headers, a: Addr): Addr
  {
    if m.prevInUse(a) then a else a - HEADER - m.prevSize(a)
  }

  ghost function BackwardH(m: Headers, a: Addr): Headers
  {
    if m.prevInUse(a) then m
    else
      var p := a - HEADER - m.prevSize(a);
      Join(Loosen(m, p), p, a)
  }

  lemma AbsorbTopKeeps(base: Addr, m: Headers, l: Lists, a: Addr)
    requires Good(base, m, l) && IsLoose(m, a) && m.top != NULL && Next(m.size, a) == m.top
    ensures Keeps(base, m, l, AbsorbTopH(m, a), l)
    ensures OnlyLoose(m, a) ==> NoneLoose(AbsorbTopH(m, a))
    ensures Merges(m, AbsorbTopH(m, a))
  {
    hide Good, Frame, HeadersOk;
    var n, j := m.top, LoosenTop(m);
    TopFacts(base, m, l);
    LoosenTopGood(base, m, l);
    JoinGood(base, j, l, a, n);
    JoinStep(base, j, l, a, n);
    var k := Join(j, a, n);
    FrameTrans(base, m, l, j, l, k, l);
    MakeTopGood(base, k, l, a);
    TopStep(base, k, l, a);
    FrameTrans(base, m, l, k, l, MakeTop(k, a), l);
    ClearMark(base, MakeTop(k, a), l, Next(k.size, a));
    FrameTrans(base, m, l, MakeTop(k, a), l, AbsorbTopH(m, a), l);
  }

  lemma JoinStep(base: Addr, m: Headers, l: Lists, a: Addr, n: Addr)
    requires Good(base, m, l) && IsLoose(m, a) && IsLoose(m, n) && n == Next(m.size, a)
    ensures Frame(base, m, l, Join(m, a, n), l)
    ensures m.size(a) >= MIN_PAYLOAD
    ensures Next(Join(m, a, n).size, a) == Next(m.size, n)
  {
    JoinFrame(base, m, l, a, n);
  }

  lemma ClearMark(base: Addr, m: Headers, l: Lists, x: Addr)
    requires Good(base, m, l) && x in m.ends
    ensures Keeps(base, m, l, m.(marked := Flag(m.marked, x, false)), l)
  {
  }

  /** What the header of the successor tells about it. */
  lemma NextFacts(base: Addr, m: Headers, l: Lists, a: Addr)
    requires Good(base, m, l) && OnlyLoose(m, a)
    ensures Keeps(base, m, l, m, l)
    ensures var n := Next(m.size, a);
            && 0 < a < n
            && (Absorbs(m, a) && n != m.top ==> n in m.place && m.place[n].Bin?)
            && (Absorbs(m, a) && n == m.top ==>
                  Keeps(base, m, l, AbsorbTopH(m, a), l) && NoneLoose(AbsorbTopH(m, a)) && Merges(m, AbsorbTopH(m, a)))
  {
    var n := Next(m.size, a);
    assert n in m.place || n in m.ends;
    if Absorbs(m, a) && n == m.top {
      AbsorbTopKeeps(base, m, l, a);
    }
  }

  lemma PrevFacts(base: Addr, m: Headers, l: Lists, a: Addr)
    requires Good(base, m, l) && OnlyLoose(m, a)
    ensures Keeps(base, m, l, m, l)
    ensures !m.prevInUse(a) ==>
              var p := a - HEADER - m.prevSize(a);
              p in m.place && m.place[p].Bin? && Next(m.size, p) == a && m.size(p) >= MIN_PAYLOAD && 0 < p < a
  {
    assert !m.prevInUse(a) ==> PrevFree(m.size, m.prevSize, m.place, a);
  }

  lemma ChunkFacts(base: Addr, m: Headers, l: Lists, a: Addr)
    requires Good(base, m, l) && a in m.place
    ensures 0 < a && Aligned(a) && Aligned(m.size(a)) && m.size(a) >= MIN_PAYLOAD
    ensures |l.bins| == BINS && |l.sorted| == LARGEBINS && |l.fast| == |l.fastbins| == FASTBINS
    ensures forall b :: 0 <= b < BINS ==> Head(base, b) != a
  {
  }

  lemma GoodIs(base: Addr, m: Headers, l: Lists)
    requires Good(base, m, l)
    ensures HeadersOk(base, m)
  {
  }

  lemma SelfKeeps(base: Addr, m: Headers, l: Lists)
    requires Good(base, m, l)
    ensures Keeps(base, m, l, m, l)
  {
  }

  lemma ShelveStep(base: Addr, m: Headers, l: Lists, p: Addr)
    requires Good(base, m, l) && IsLoose(m, p)
    ensures |l.bins| == BINS && m.size(p) > 16 && p != Head(base, UNSORTED)
    ensures Keeps(base, m, l, Shelve(m, p, UNSORTED), PushL(base, ClearSizeL(l, p), p, UNSORTED))
    ensures Merges(m, Shelve(m, p, UNSORTED)) && (OnlyLoose(m, p) ==> NoneLoose(Shelve(m, p, UNSORTED)))
  {
    ShelveGood(base, m, l, p);
    ShelveFrame(base, m, l, p);
  }

  /** A binned chunk has a position in its ring, and in its size ring if the bin is large. */
  lemma BinnedAt(base: Addr, m: Headers, l: Lists, p: Addr) returns (i: int, k: int, j: int)
    requires Good(base, m, l) && p in m.place && m.place[p].Bin?
    ensures At(0, l.bins, m.place, p, i, k)
    ensures IsLarge(m.place[p]) ==> LARGE0 <= i < UNSORTED && At(LARGE0, l.sorted, m.place, p, i - LARGE0, j)
    ensures FamilyOk(base, 0, l.fd, l.bk, l.bins, m.place)
    ensures FamilyOk(base, LARGE0, l.nextSize, l.prevSizePtr, l.sorted, m.place)
    ensures !IsLarge(m.place[p]) ==> l.nextSize(p) == NULL
  {
    i := m.place[p].b;
    assert p in l.bins[i];
    k :| 0 <= k < |l.bins[i]| && l.bins[i][k] == p;
    j := 0;
    if IsLarge(m.place[p]) {
      assert p in l.sorted[i - LARGE0];
      j :| 0 <= j < |l.sorted[i - LARGE0]| && l.sorted[i - LARGE0][j] == p;
    }
  }

  /** Both ways of taking a chunk out of its bin. */
  lemma DetachStep(base: Addr, m: Headers, l: Lists, p: Addr) returns (i: int, k: int, j: int, large: bool)
    requires Good(base, m, l) && p in m.place && m.place[p].Bin?
    ensures 0 <= i < |l.bins| && 0 <= k < |l.bins[i]| && l.fd(p) != NULL && l.bk(p) != NULL && l.fd(p) != p
    ensures large ==>
              && 0 <= i - LARGE0 < |l.sorted| && 0 <= j < |l.sorted[i - LARGE0]|
              && l.nextSize(p) != NULL && l.prevSizePtr(p) != NULL && l.prevSizePtr(p) != p
              && Keeps(base, m, l, Loosen(m, p), UnsortL(UnbinL(l, p, i, k), p, i - LARGE0, j))
    ensures !large ==> l.nextSize(p) == NULL && Keeps(base, m, l, Loosen(m, p), UnbinL(l, p, i, k))
  {
    hide Good, FamilyOk, Frame, RingsOk;
    i, k, j := BinnedAt(base, m, l, p);
    large := IsLarge(m.place[p]);
    RingsUnlink(base, 0, l.fd, l.bk, l.bins, m.place, p, i, k);
    if large {
      RingsUnlink(base, LARGE0, l.nextSize, l.prevSizePtr, l.sorted, m.place, p, i - LARGE0, j);
      DetachGood(base, m, l, p, i, k, j);
      DetachFrame(base, m, l, p, i, k, j);
    } else {
      UnbinGood(base, m, l, p, i, k);
      UnbinFrame(base, m, l, p, i, k);
    }
  }

  /** Absorbing a successor that has just been detached. */
  lemma AbsorbKeeps(base: Addr, m: Headers, l: Lists, a: Addr, n: Addr, l': Lists)
    requires OnlyLoose(m, a) && n in m.place && m.place[n].Bin? && n == Next(m.size, a) && a != n
    requires Keeps(base, m, l, Loosen(m, n), l')
    ensures Keeps(base, m, l, Join(Loosen(m, n), a, n), l')
    ensures OnlyLoose(Join(Loosen(m, n), a, n), a) && Merges(m, Join(Loosen(m, n), a, n))
  {
    hide Good, Frame;
    var j := Loosen(m, n);
    JoinGood(base, j, l', a, n);
    JoinStep(base, j, l', a, n);
    FrameTrans(base, m, l, j, l', Join(j, a, n), l');
  }

  /** A predecessor that has just been detached absorbs the chunk. */
  lemma AbsorbedKeeps(base: Addr, m: Headers, l: Lists, p: Addr, a: Addr, l': Lists)
    requires OnlyLoose(m, a) && p in m.place && m.place[p].Bin? && a == Next(m.size, p) && a != p
    requires Keeps(base, m, l, Loosen(m, p), l')
    ensures Keeps(base, m, l, Join(Loosen(m, p), p, a), l')
    ensures OnlyLoose(Join(Loosen(m, p), p, a), p) && Merges(m, Join(Loosen(m, p), p, a))
  {
    hide Good, Frame;
    var j := Loosen(m, p);
    JoinGood(base, j, l', p, a);
    JoinStep(base, j, l', p, a);
    FrameTrans(base, m, l, j, l', Join(j, p, a), l');
  }

  // ---- Release ----

  /** Release of a chunk too large for a fastbin: merge backward, merge forward, then bin what is left. */
  ghost function ReleaseH(m: Headers, c: Addr): Headers
  {
    if m.size(c) <= 16 * FASTBINS then ToFast(m, c, m.size(c) / 16 - 1)
    else
      var j := Loosen(m, c);
      var b, k := BackAt(j, c), BackwardH(j, c);
      if ForwardAt(k, b) == NULL then ForwardH(k, b) else Shelve(ForwardH(k, b), b, UNSORTED)
  }

  /** Exactly the chunk c was given back. */
  ghost predicate GivenBack(m: Headers, k: Headers, c: Addr)
  {
    forall x {:trigger Live(k, x)} {:trigger Live(m, x)} :: Live(k, x) <==> Live(m, x) && x != c
  }

  lemma LooseStart(base: Addr, m: Headers, l: Lists, c: Addr)
    requires Good(base, m, l) && NoneLoose(m) && Live(m, c)
    ensures Keeps(base, m, l, Loosen(m, c), l) && OnlyLoose(Loosen(m, c), c) && GivenBack(m, Loosen(m, c), c)
    ensures Loosen(m, c).place.Keys == m.place.Keys
  {
    hide Good, Frame;
    GiveBackGood(base, m, l, c);
    LoosenFrame(base, m, l, c);
  }

  /** A chunk small enough for a fastbin goes there. */
  lemma FastStart(base: Addr, m: Headers, l: Lists, c: Addr)
    requires Good(base, m, l) && NoneLoose(m) && Live(m, c) && m.size(c) <= 16 * FASTBINS
    ensures var i := m.size(c) / 16 - 1;
            && 0 <= i < |l.fast| == |l.fastbins|
            && Keeps(base, m, l, ToFast(m, c, i), FastPushL(l, c, i))
            && NoneLoose(ToFast(m, c, i)) && GivenBack(m, ToFast(m, c, i), c)
  {
    hide Good, Frame;
    var i := m.size(c) / 16 - 1;
    FastSize(base, m, l, c);
    FastPushGood(base, m, l, c, i);
    FastPushFrame(base, m, l, c, i);
  }

  lemma FastSize(base: Addr, m: Headers, l: Lists, c: Addr)
    requires Good(base, m, l) && c in m.place && m.size(c) <= 16 * FASTBINS
    ensures m.size(c) == 16 * (m.size(c) / 16) && 1 < m.size(c) / 16 <= FASTBINS == |l.fast| == |l.fastbins|
  {
    assert m.size(c) >= MIN_PAYLOAD && Aligned(m.size(c));
  }

  lemma ReleaseTrans(base: Addr, m: Headers, l: Lists, j: Headers, lj: Lists, k: Headers, lk: Lists, c: Addr)
    requires Keeps(base, m, l, j, lj) && GivenBack(m, j, c) && j.place.Keys == m.place.Keys
    requires Keeps(base, j, lj, k, lk) && Merges(j, k)
    ensures Keeps(base, m, l, k, lk) && GivenBack(m, k, c)
  {
    hide Good, Frame;
    assert forall x :: x in k.place ==> x in j.place.Keys;
    forall x ensures Live(k, x) <==> Live(m, x) && x != c { assert Live(j, x) <==> Live(m, x) && x != c; }
    FrameTrans(base, m, l, j, lj, k, lk);
  }

  /** A release leaves the payload of every other live chunk as it was. */
  lemma ReleaseKeepsPayloads(base: Addr, m: Headers, l: Lists, k: Headers, lk: Lists, c: Addr, d: Addr)
    requires Good(base, m, l) && Keeps(base, m, l, k, lk) && GivenBack(m, k, c) && Live(m, d) && d != c
    ensures Live(k, d) && k.size(d) == m.size(d) && WordsSame(m, l, k, lk, d + HEADER, Next(m.size, d))
  {
    hide ListsOk, WordsSame;
    PayloadKept(base, m, l, k, lk, d);
  }
}
