/** The free lists of an arena: ring bins, size-ordered rings of the large bins, and fastbins. */
module BinLists {
  import opened ChunkLayout
  import opened Rings
  import opened Blocks

  /** Sentinels and NULL are not chunks. */
  ghost predicate Separate(base: Addr, place: map<Addr, Place>)
  {
    && 0 < base
    && NULL !in place
    && forall b :: 0 <= b < BINS ==> Head(base, b) !in place
  }

  // A family of rings belongs to the bins first, first + 1, ...

  ghost predicate RingsOk(base: Addr, first: int, fd: Links, bk: Links, rings: seq<seq<Addr>>)
  {
    forall i :: 0 <= i < |rings| ==> Ring(fd, bk, Head(base, first + i), rings[i])
  }

  ghost predicate InFamily(p: Place, first: int, n: int)
  {
    p.Bin? && first <= p.b < first + n
  }

  /** The rings of a family hold exactly the chunks placed in their bins. */
  ghost predicate Members(first: int, rings: seq<seq<Addr>>, place: map<Addr, Place>)
  {
    && (forall i, x {:trigger x in rings[i]} :: 0 <= i < |rings| && x in rings[i] ==>
          x in place && place[x] == Bin(first + i))
    && (forall x :: x in place && InFamily(place[x], first, |rings|) ==> x in rings[place[x].b - first])
  }

  ghost predicate IsLarge(p: Place)
  {
    InFamily(p, LARGE0, LARGEBINS)
  }

  /** Only chunks in large bins have size links. */
  ghost predicate NoSizeLinks(nextSize: Links, place: map<Addr, Place>)
  {
    forall x :: x in place && place[x].Bin? && !IsLarge(place[x]) ==> nextSize(x) == NULL
  }

  ghost predicate BySize(size: Addr -> int, s: seq<Addr>)
  {
    forall i, j :: 0 <= i < j < |s| ==> size(s[i]) <= size(s[j])
  }

  ghost predicate AllBySize(size: Addr -> int, sorted: seq<seq<Addr>>)
  {
    forall i :: 0 <= i < |sorted| ==> BySize(size, sorted[i])
  }

  /** The singly linked list that starts at `first` and follows fd holds exactly s. */
  ghost predicate Chain(fd: Links, first: Addr, s: seq<Addr>)
  {
    && Distinct(s)
    && first == (if s == [] then NULL else s[0])
    && forall i {:trigger fd(s[i])} :: 0 <= i < |s| ==> fd(s[i]) == if i + 1 < |s| then s[i + 1] else NULL
  }

  ghost predicate FastMembers(fast: seq<seq<Addr>>, place: map<Addr, Place>)
  {
    && |fast| == FASTBINS
    && (forall i, x {:trigger x in fast[i]} :: 0 <= i < FASTBINS && x in fast[i] ==> x in place && place[x] == Fast(i))
    && (forall x :: x in place && place[x].Fast? ==> 0 <= place[x].i < FASTBINS && x in fast[place[x].i])
  }

  ghost predicate ChainsOk(fastbins: seq<Addr>, fd: Links, fast: seq<seq<Addr>>)
  {
    && |fastbins| == FASTBINS && |fast| == FASTBINS
    && forall i :: 0 <= i < FASTBINS ==> Chain(fd, fastbins[i], fast[i])
  }

  /** The link fields of all chunks and sentinels, and the contents of every list. */
  datatype Lists = Lists(
    fd: Links, bk: Links, nextSize: Links, prevSizePtr: Links, fastbins: seq<Addr>,
    bins: seq<seq<Addr>>, sorted: seq<seq<Addr>>, fast: seq<seq<Addr>>)

  ghost predicate ListsOk(base: Addr, l: Lists, size: Addr -> int, place: map<Addr, Place>)
  {
    && Separate(base, place)
    && |l.bins| == BINS && |l.sorted| == LARGEBINS
    && Members(0, l.bins, place)
    && RingsOk(base, 0, l.fd, l.bk, l.bins)
    && Members(LARGE0, l.sorted, place)
    && RingsOk(base, LARGE0, l.nextSize, l.prevSizePtr, l.sorted)
    && AllBySize(size, l.sorted)
    && NoSizeLinks(l.nextSize, place)
    && FastMembers(l.fast, place)
    && ChainsOk(l.fastbins, l.fd, l.fast)
  }

  // ---- Sequences without repetitions ----

  lemma WithoutMembers(s: seq<Addr>, k: int)
    requires Distinct(s) && 0 <= k < |s|
    ensures forall x :: x in Without(s, k) <==> x in s && x != s[k]
  {
    var t := Without(s, k);
    forall x | x in s && x != s[k]
      ensures x in t
    {
      var i :| 0 <= i < |s| && s[i] == x;
      assert t[if i < k then i else i - 1] == x;
    }
    forall x | x in t
      ensures x in s && x != s[k]
    {
      var i :| 0 <= i < |t| && t[i] == x;
      assert x == s[if i < k then i else i + 1];
    }
  }

  lemma InsertMembers(s: seq<Addr>, k: int, p: Addr)
    requires 0 <= k <= |s|
    ensures forall x :: x in Insert(s, k, p) <==> x in s || x == p
  {
    var t := Insert(s, k, p);
    forall x | x in s || x == p
      ensures x in t
    {
      if x in s {
        var i :| 0 <= i < |s| && s[i] == x;
        assert t[if i < k then i else i + 1] == x;
      } else {
        assert t[k] == x;
      }
    }
  }

  // ---- Taking a chunk out of a ring ----

  function Bypassed(fd: Links, bk: Links, p: Addr): Links
  {
    Put(Put(fd, bk(p), fd(p)), p, NULL)
  }

  /** A chunk or sentinel of one of the rings of a family of n bins. */
  ghost predicate OnRings(base: Addr, first: int, n: int, place: map<Addr, Place>, a: Addr)
  {
    (a in place && InFamily(place[a], first, n)) || exists b :: first <= b < first + n && a == Head(base, b)
  }

  ghost predicate FamilyOk(base: Addr, first: int, fd: Links, bk: Links, rings: seq<seq<Addr>>, place: map<Addr, Place>)
  {
    && 0 <= first && first + |rings| <= BINS
    && Separate(base, place)
    && Members(first, rings, place)
    && RingsOk(base, first, fd, bk, rings)
  }

  ghost predicate At(first: int, rings: seq<seq<Addr>>, place: map<Addr, Place>, p: Addr, i: int, k: int)
  {
    && p in place && place[p] == Bin(first + i)
    && 0 <= i < |rings| && 0 <= k < |rings[i]| && rings[i][k] == p
  }

  lemma RingsUnlink(base: Addr, first: int, fd: Links, bk: Links, rings: seq<seq<Addr>>, place: map<Addr, Place>,
                    p: Addr, i: int, k: int)
    requires FamilyOk(base, first, fd, bk, rings, place) && At(first, rings, place, p, i, k)
    ensures fd(p) != NULL && bk(p) != NULL && fd(p) != p && bk(p) != p
    ensures OnRings(base, first, |rings|, place, fd(p)) && OnRings(base, first, |rings|, place, bk(p))
    ensures RingsOk(base, first, Bypassed(fd, bk, p), Bypassed(bk, fd, p), rings[i := Without(rings[i], k)])
  {
    var fd', bk' := Bypassed(fd, bk, p), Bypassed(bk, fd, p);
    var h := Head(base, first + i);
    RingNeighbours(fd, bk, h, rings[i], k);
    RingUnlink(fd, bk, h, rings[i], k, fd', bk');
    forall c | 0 <= c < |rings| && c != i
      ensures Ring(fd', bk', Head(base, first + c), rings[c])
    {
      RingFrame(fd, bk, Head(base, first + c), rings[c], fd', bk');
    }
  }

  lemma UnlinkMembers(first: int, rings: seq<seq<Addr>>, place: map<Addr, Place>, p: Addr, i: int, k: int)
    requires Members(first, rings, place) && At(first, rings, place, p, i, k) && Distinct(rings[i])
    ensures Members(first, rings[i := Without(rings[i], k)], place[p := Loose])
  {
    WithoutMembers(rings[i], k);
  }

  lemma WithoutBySize(size: Addr -> int, s: seq<Addr>, k: int)
    requires BySize(size, s) && 0 <= k < |s|
    ensures BySize(size, Without(s, k))
  {
    var t := Without(s, k);
    forall i, j | 0 <= i < j < |t|
      ensures size(t[i]) <= size(t[j])
    {
      assert t[i] == s[if i < k then i else i + 1];
      assert t[j] == s[if j < k then j else j + 1];
    }
  }

  // ---- Entering a chunk in a ring ----

  lemma RingsInsert(base: Addr, first: int, fd: Links, bk: Links, rings: seq<seq<Addr>>, place: map<Addr, Place>,
                    p: Addr, i: int, k: int)
    requires FamilyOk(base, first, fd, bk, rings, place)
    requires p in place && !InFamily(place[p], first, |rings|) && 0 <= i < |rings| && 0 <= k <= |rings[i]|
    ensures var h := Head(base, first + i);
            var n, m := After(h, rings[i], k - 1), Before(h, rings[i], k);
            && n != p && m != p
            && fd(m) == n && bk(n) == m
            && OnRings(base, first, |rings|, place, n) && OnRings(base, first, |rings|, place, m)
            && RingsOk(base, first, Put(Put(fd, p, n), m, p), Put(Put(bk, p, m), n, p),
                       rings[i := Insert(rings[i], k, p)])
  {
    var h := Head(base, first + i);
    var n, m := After(h, rings[i], k - 1), Before(h, rings[i], k);
    var fd', bk' := Put(Put(fd, p, n), m, p), Put(Put(bk, p, m), n, p);
    assert n == h || n in rings[i];
    assert m == h || m in rings[i];
    RingInsert(fd, bk, h, rings[i], k, p, fd', bk');
    forall c | 0 <= c < |rings| && c != i
      ensures Ring(fd', bk', Head(base, first + c), rings[c])
    {
      RingFrame(fd, bk, Head(base, first + c), rings[c], fd', bk');
    }
  }

  lemma InsertedMembers(first: int, rings: seq<seq<Addr>>, place: map<Addr, Place>, p: Addr, i: int, k: int)
    requires Members(first, rings, place) && p in place && !InFamily(place[p], first, |rings|)
    requires 0 <= i < |rings| && 0 <= k <= |rings[i]|
    ensures Members(first, rings[i := Insert(rings[i], k, p)], place[p := Bin(first + i)])
  {
    InsertMembers(rings[i], k, p);
  }

  /** A chunk entered before the first one that is not smaller keeps the ring in order of size. */
  lemma InsertBySize(size: Addr -> int, s: seq<Addr>, k: int, p: Addr)
    requires BySize(size, s) && 0 <= k <= |s|
    requires forall i :: 0 <= i < k ==> size(s[i]) < size(p)
    requires k < |s| ==> size(s[k]) >= size(p)
    ensures BySize(size, Insert(s, k, p))
  {
    var t := Insert(s, k, p);
    forall i, j | 0 <= i < j < |t|
      ensures size(t[i]) <= size(t[j])
    {
      assert t[i] == if i < k then s[i] else if i == k then p else s[i - 1];
      assert t[j] == if j < k then s[j] else if j == k then p else s[j - 1];
    }
  }

  // ---- What changes of places do to lists they do not concern ----

  /** Two assignments of places that agree on everything in bins and fastbins. */
  ghost predicate SameBinned(place: map<Addr, Place>, place': map<Addr, Place>)
  {
    forall x :: (x in place && (place[x].Bin? || place[x].Fast?))
        || (x in place' && (place'[x].Bin? || place'[x].Fast?))
      ==> x in place && x in place' && place[x] == place'[x]
  }

  lemma ListsFrame(base: Addr, l: Lists, size: Addr -> int, place: map<Addr, Place>,
                   size': Addr -> int, place': map<Addr, Place>)
    requires ListsOk(base, l, size, place) && Separate(base, place') && SameBinned(place, place')
    requires forall x :: x in place && IsLarge(place[x]) ==> size'(x) == size(x)
    ensures ListsOk(base, l, size', place')
  {
    assert Members(0, l.bins, place');
    assert Members(LARGE0, l.sorted, place');
    assert FastMembers(l.fast, place');
    assert NoSizeLinks(l.nextSize, place');
    forall i | 0 <= i < LARGEBINS
      ensures BySize(size', l.sorted[i])
    {
      assert BySize(size, l.sorted[i]);
      assert forall j :: 0 <= j < |l.sorted[i]| ==> l.sorted[i][j] in l.sorted[i];
    }
  }

  // ---- Fastbins ----

  lemma ChainFrame(fd: Links, first: Addr, s: seq<Addr>, fd': Links)
    requires Chain(fd, first, s) && forall x :: x in s ==> fd'(x) == fd(x)
    ensures Chain(fd', first, s)
  {
    forall i | 0 <= i < |s|
      ensures fd'(s[i]) == if i + 1 < |s| then s[i + 1] else NULL
    {
      assert s[i] in s;
    }
  }

  lemma ChainsFrame(fastbins: seq<Addr>, fd: Links, fast: seq<seq<Addr>>, place: map<Addr, Place>, fd': Links)
    requires ChainsOk(fastbins, fd, fast) && FastMembers(fast, place)
    requires forall x {:trigger fd'(x)} :: x in place && place[x].Fast? ==> fd'(x) == fd(x)
    ensures ChainsOk(fastbins, fd', fast)
  {
    forall i | 0 <= i < FASTBINS
      ensures Chain(fd', fastbins[i], fast[i])
    {
      ChainFrame(fd, fastbins[i], fast[i], fd');
    }
  }

  lemma ChainPush(fd: Links, first: Addr, s: seq<Addr>, p: Addr)
    requires Chain(fd, first, s) && p !in s
    ensures Chain(Put(fd, p, first), p, [p] + s)
  {
    var t, fd' := [p] + s, Put(fd, p, first);
    forall i | 0 <= i < |t|
      ensures fd'(t[i]) == if i + 1 < |t| then t[i + 1] else NULL
    {
      assert i > 0 ==> t[i] == s[i - 1];
    }
  }

  lemma ChainPop(fd: Links, first: Addr, s: seq<Addr>)
    requires Chain(fd, first, s) && s != []
    ensures Chain(Put(fd, first, NULL), fd(first), s[1..])
  {
    var t, fd' := s[1..], Put(fd, first, NULL);
    assert fd(s[0]) == fd(first);
    forall i | 0 <= i < |t|
      ensures fd'(t[i]) == if i + 1 < |t| then t[i + 1] else NULL
    {
      assert t[i] == s[i + 1];
    }
  }
}
