/** What coalescing does, in terms of which chunks there are, how large they are and where: without looking at how. */
module Merging {
  import opened ChunkLayout
  import opened Rings
  import opened Blocks
  import opened BinLists
  import opened ArenaSteps
  import opened Payloads
  import opened ArenaSpec

  ghost predicate InFront(m: Headers, p: Addr, c: Addr)
  {
    p in m.place && Next(m.size, p) == c
  }

  ghost predicate Ringed(m: Headers, x: Addr)
  {
    x in m.place && m.place[x].Bin?
  }

  /** The chunk just in front of c is in a ring bin. */
  ghost predicate RingedInFront(m: Headers, c: Addr)
  {
    exists p :: InFront(m, p, c) && Ringed(m, p)
  }

  /** Chunk n, of more than 112 bytes, is in a ring bin, or it is the top chunk and does not look in use. */
  ghost predicate Joins(m: Headers, n: Addr)
  {
    n in m.place && m.size(n) > 112 && (Ringed(m, n) || (n == m.top && !m.inUse(n)))
  }

  /** A chunk that is given back starts where the ring-binned chunk in front of it starts, if there is one. */
  ghost predicate StartsAt(m: Headers, c: Addr, b: Addr)
  {
    if RingedInFront(m, c) then InFront(m, b, c) && Ringed(m, b) else b == c
  }

  /** It ends where the chunk behind it ends, if that one joins. */
  ghost function EndsAt(m: Headers, c: Addr): Addr
  {
    var n := Next(m.size, c);
    if Joins(m, n) then Next(m.size, n) else n
  }

  ghost predicate SameElsewhere(m: Headers, k: Headers, b: Addr)
  {
    forall x :: x in k.place && x != b ==>
      x in m.place && k.place[x] == m.place[x] && k.size(x) == m.size(x) && k.inUse(x) == m.inUse(x)
  }

  /** Looking backward: a and the ring-binned chunk in front of it, if any, are the one chunk b. */
  ghost predicate BackMerged(m: Headers, k: Headers, a: Addr, b: Addr)
  {
    && StartsAt(m, a, b) && b in k.place && Next(k.size, b) == Next(m.size, a)
    && (forall x :: x in k.place <==> x in m.place && (x != a || b == a))
    && SameElsewhere(m, k, b) && k.place[b].Loose? && k.top == m.top && k.inUse == m.inUse
  }

  /** Looking forward: a and the chunk behind it, if that one joins, are one chunk.  It is the top chunk if that one
      was; otherwise it is r. */
  ghost predicate ForwardMerged(m: Headers, k: Headers, a: Addr, r: Addr)
  {
    var n := Next(m.size, a);
    && a in k.place && Next(k.size, a) == EndsAt(m, a)
    && (forall x :: x in k.place <==> x in m.place && !(x == n && Joins(m, n)))
    && SameElsewhere(m, k, a) && k.inUse == m.inUse
    && if Joins(m, n) && n == m.top then r == NULL && k.place[a].Top? && k.top == a
       else r == a && k.place[a].Loose? && k.top == m.top
  }

  /** A release: c, the ring-binned chunk in front of it and the chunk behind it that joins are the one chunk b, from
      the start of the first to the end of the last.  It is the top chunk if that was among them, and unsorted
      otherwise. */
  ghost predicate Merged(m: Headers, k: Headers, c: Addr, b: Addr)
  {
    var n := Next(m.size, c);
    && StartsAt(m, c, b) && b in k.place && Next(k.size, b) == EndsAt(m, c)
    && (forall x :: x in k.place <==> x in m.place && (x != c || b == c) && !(x == n && Joins(m, n)))
    && SameElsewhere(m, k, b)
    && if Joins(m, n) && n == m.top then k.place[b].Top? && k.top == b
       else k.place[b] == Bin(UNSORTED) && k.top == m.top
  }

  /** A chunk that fits a fastbin is moved there, and nothing else changes its place or size. */
  ghost predicate Stacked(m: Headers, k: Headers, c: Addr)
  {
    k.place == m.place[c := Fast(m.size(c) / 16 - 1)] && k.size == m.size && k.top == m.top
  }

  ghost predicate GivenBackAs(m: Headers, k: Headers, c: Addr)
  {
    if m.size(c) <= 112 then Stacked(m, k, c) else exists b :: Merged(m, k, c, b)
  }

  // ---- The code does that ----

  /** The bit in the header of c tells whether the chunk in front is in a ring bin, and prevSize where it starts. */
  lemma PrevBitTells(base: Addr, m: Headers, c: Addr)
    requires HeadersOk(base, m) && (NoneLoose(m) || OnlyLoose(m, c)) && c in m.place
    ensures m.prevInUse(c) <==> !RingedInFront(m, c)
    ensures StartsAt(m, c, BackAt(m, c)) && (!m.prevInUse(c) ==> BackAt(m, c) != c)
  {
    if !m.prevInUse(c) {
      assert PrevFree(m.size, m.prevSize, m.place, c);
      assert InFront(m, BackAt(m, c), c);
    }
  }

  lemma BackwardMerges(base: Addr, m: Headers, a: Addr)
    requires HeadersOk(base, m) && OnlyLoose(m, a)
    ensures BackMerged(m, BackwardH(m, a), a, BackAt(m, a))
  {
    hide HeadersOk;
    PrevBitTells(base, m, a);
  }

  /** What is seen behind a chunk tells whether it joins. */
  lemma AbsorbsIffJoins(base: Addr, m: Headers, a: Addr)
    requires HeadersOk(base, m) && OnlyLoose(m, a)
    ensures var n := Next(m.size, a);
            && (Absorbs(m, a) <==> Joins(m, n)) && n != a && a != NULL
            && (n == m.top ==> n in m.place && n != NULL) && (n in m.place ==> !m.place[n].Loose?)
  {
    var n := Next(m.size, a);
    assert n in m.place || n in m.ends;
    assert n in m.place && m.place[n].Fast? ==> m.size(n) <= 16 * FASTBINS;
  }

  lemma ForwardMerges(base: Addr, m: Headers, a: Addr)
    requires HeadersOk(base, m) && OnlyLoose(m, a)
    ensures ForwardMerged(m, ForwardH(m, a), a, ForwardAt(m, a))
  {
    hide HeadersOk;
    AbsorbsIffJoins(base, m, a);
  }

  lemma GivenBackHeaders(base: Addr, m: Headers, c: Addr)
    requires HeadersOk(base, m) && NoneLoose(m) && Live(m, c)
    ensures HeadersOk(base, Loosen(m, c)) && OnlyLoose(Loosen(m, c), c)
    ensures HeadersOk(base, BackwardH(Loosen(m, c), c))
    ensures OnlyLoose(BackwardH(Loosen(m, c), c), BackAt(Loosen(m, c), c))
  {
    hide HeadersOk;
    var j := Loosen(m, c);
    LoosenKeeps(base, m, c);
    PrevBitTells(base, j, c);
    if !j.prevInUse(c) {
      var p := BackAt(j, c);
      LoosenKeeps(base, j, p);
      JoinKeeps(base, Loosen(j, p), p, c);
    }
  }

  /** The start, the chunk and what is behind it lie in this order. */
  lemma InOrder(base: Addr, m: Headers, c: Addr, b: Addr)
    requires HeadersOk(base, m) && c in m.place && StartsAt(m, c, b)
    ensures 0 < b <= c < Next(m.size, c) && b in m.place
  {
    assert c in m.place && m.size(c) >= MIN_PAYLOAD;
  }

  lemma SameStart(m: Headers, c: Addr, b: Addr)
    requires c in m.place && Next(m.size, c) > c && !m.place[c].Bin?
    ensures StartsAt(Loosen(m, c), c, b) <==> StartsAt(m, c, b)
  {
    var j := Loosen(m, c);
    assert forall p :: InFront(j, p, c) && Ringed(j, p) <==> InFront(m, p, c) && Ringed(m, p);
  }

  /** Giving a chunk back merges it as stated. */
  lemma ReleaseMerges(base: Addr, m: Headers, c: Addr)
    requires HeadersOk(base, m) && NoneLoose(m) && Live(m, c) && m.size(c) > 112
    ensures Merged(m, ReleaseH(m, c), c, BackAt(Loosen(m, c), c))
  {
    hide HeadersOk, BackwardH, ForwardH, ForwardAt, BackAt, StartsAt, NoneLoose, OnlyLoose;
    var j := Loosen(m, c);
    var b, k := BackAt(j, c), BackwardH(j, c);
    GivenBackHeaders(base, m, c);
    BackwardMerges(base, j, c);
    ForwardMerges(base, k, b);
    InOrder(base, j, c, b);
    SameStart(m, c, b);
    SameJoins(m, j, k, c, b);
  }

  /** Whether the chunk behind joins does not depend on what happens in front of it. */
  lemma SameJoins(m: Headers, j: Headers, k: Headers, c: Addr, b: Addr)
    requires j == Loosen(m, c) && c in m.place && BackMerged(j, k, c, b) && b <= c < Next(m.size, c)
    ensures var n := Next(m.size, c);
            && Next(k.size, b) == n && (Joins(k, n) <==> Joins(m, n)) && EndsAt(k, b) == EndsAt(m, c)
  {
    hide StartsAt;
  }

  lemma ReleaseGivesBack(base: Addr, m: Headers, c: Addr)
    requires HeadersOk(base, m) && NoneLoose(m) && Live(m, c)
    ensures GivenBackAs(m, ReleaseH(m, c), c)
  {
    hide HeadersOk, BackwardH, ForwardH, Merged;
    if m.size(c) > 112 {
      ReleaseMerges(base, m, c);
    }
  }

  // ---- What is left unmerged ----

  /** After a release the chunk in front of the merged one is in a ring bin exactly if there were two such chunks in a
      row before. */
  lemma FreeInFront(base: Addr, m: Headers, k: Headers, c: Addr, b: Addr)
    requires HeadersOk(base, m) && Live(m, c) && Merged(m, k, c, b)
    ensures RingedInFront(k, b) <==> RingedInFront(m, c) && RingedInFront(m, b)
  {
    InOrder(base, m, c, b);
    forall p
      ensures InFront(k, p, b) && Ringed(k, p) <==> InFront(m, p, b) && Ringed(m, p)
    {
      if p in m.place && Next(m.size, p) == b {
        assert p < b;
      }
      if p == b {
        assert EndsAt(m, c) > b by { EndsLater(base, m, c); }
      }
    }
  }

  lemma EndsLater(base: Addr, m: Headers, c: Addr)
    requires HeadersOk(base, m) && c in m.place
    ensures c < Next(m.size, c) <= EndsAt(m, c)
  {
  }

  /** After a release the chunk behind the merged one would still join exactly if there were two such chunks in a row
      before, the first of them not the top chunk. */
  lemma FreeBehind(base: Addr, m: Headers, k: Headers, c: Addr, b: Addr)
    requires HeadersOk(base, m) && Live(m, c) && Merged(m, k, c, b)
    ensures var n := Next(m.size, c);
            Joins(k, Next(k.size, b)) <==> Joins(m, n) && n != m.top && Joins(m, Next(m.size, n))
  {
    InOrder(base, m, c, b);
    EndsLater(base, m, c);
    var n := Next(m.size, c);
    if Joins(m, n) && n == m.top {
      TopIsLast(base, m);
    }
  }

  lemma TopIsLast(base: Addr, m: Headers)
    requires HeadersOk(base, m) && m.top in m.place
    ensures Next(m.size, m.top) !in m.place
  {
    var e := Next(m.size, m.top);
    if e in m.place {
      EndsAreOutside(base, m, e, e);
    }
  }
}
