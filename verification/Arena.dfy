/** The arena allocator as it runs: header and link fields, bins and the top chunk, updated in place. */
module ArenaModel {
  import opened ChunkLayout
  import opened Rings
  import opened Blocks
  import opened BinLists
  import opened ArenaSteps
  import opened Payloads
  import opened ArenaSpec
  import opened AllocSpec
  import opened Merging

  /** What `_allocate` returns: nothing, a region of its own from mmap, or a payload in the arena. */
  datatype Outcome = Nothing | Mapped(payload: int) | Payload(ptr: Addr)

  class Arena {
    const base: Addr
    var size: Addr -> int
    var prevInUse: Addr -> bool
    var inUse: Addr -> bool
    var prevSize: Addr -> int
    var marked: Addr -> bool
    var fd: Links
    var bk: Links
    var nextSize: Links
    var prevSizePtr: Links
    var fastbins: seq<Addr>
    var top: Addr
    var heaps: seq<Span>
    var expoIters: nat
    var constIters: nat
    ghost var ends: set<Addr>
    ghost var place: map<Addr, Place>
    ghost var bins: seq<seq<Addr>>
    ghost var sorted: seq<seq<Addr>>
    ghost var fast: seq<seq<Addr>>

    ghost function Hdr(): Headers
      reads this
    {
      Headers(heaps, ends, size, prevInUse, inUse, prevSize, marked, top, place)
    }

    ghost function Lst(): Lists
      reads this
    {
      Lists(fd, bk, nextSize, prevSizePtr, fastbins, bins, sorted, fast)
    }

    /** The heaps have grown as they should. */
    ghost predicate Growth()
      reads this
    {
      Grown(heaps, expoIters, constIters)
    }

    /** `arena_create`: every sentinel is linked to itself, and the first heap becomes the top chunk. */
    constructor (base: Addr, block: Addr)
      requires 0 < base && FreshRegion(base, [], block, NextHeapSize(0, 0))
      ensures this.base == base && Good(base, Hdr(), Lst()) && NoneLoose(Hdr())
      ensures NewArena(Hdr(), block, NextHeapSize(0, 0)) && Growth()
    {
      hide Good, FreshRegion, NextHeapSize, NoneLoose, NewArena;
      this.base := base;
      size, prevSize := x => 0, x => 0;
      prevInUse, inUse, marked := x => false, x => false, x => false;
      fd, bk, nextSize, prevSizePtr := x => 0, x => 0, x => 0, x => 0;
      fastbins := seq(FASTBINS, i => NULL);
      top, heaps, expoIters, constIters := NULL, [], 0, 0;
      ends, place := {}, map[];
      bins, sorted, fast := seq(BINS, i => []), seq(LARGEBINS, i => []), seq(FASTBINS, i => []);
      new;
      SetUp(block);
    }

    method SetUp(block: Addr)
      requires 0 < base && FreshRegion(base, [], block, NextHeapSize(expoIters, constIters))
      requires NoChunks(Hdr()) && NoLists(Lst()) && Growth() && forall x :: !marked(x)
      modifies this
      ensures Good(base, Hdr(), Lst()) && NoneLoose(Hdr())
      ensures NewArena(Hdr(), block, NextHeapSize(old(expoIters), old(constIters))) && Growth()
    {
      hide Good, FreshRegion, NextHeapSize, NoneLoose, NoLists, Grow, GrowL, Sentinels, Live;
      InitSentinels();
      FirstHeap(base, Hdr(), Lst(), block, NextHeapSize(expoIters, constIters));
      GrowHeap(block);
    }

    method InitSentinels()
      modifies this`fd, this`bk, this`nextSize, this`prevSizePtr
      ensures Sentinels(base, Lst())
      ensures old(NoLists(Lst())) ==> NoLists(Lst())
    {
      for i := 0 to BINS
        invariant forall b :: 0 <= b < i ==> fd(Head(base, b)) == Head(base, b) && bk(Head(base, b)) == Head(base, b)
        invariant forall b :: LARGE0 <= b < i && b < UNSORTED ==>
                    nextSize(Head(base, b)) == Head(base, b) && prevSizePtr(Head(base, b)) == Head(base, b)
      {
        var head := Head(base, i);
        fd := Put(fd, head, head);
        bk := Put(bk, head, head);
        if LARGE0 <= i < UNSORTED {
          nextSize := Put(nextSize, head, head);
          prevSizePtr := Put(prevSizePtr, head, head);
        }
      }
    }

    // ---- Unlinking and linking ----

    method UnlinkFd(p: Addr, ghost i: int, ghost k: int)
      requires 0 <= i < |bins| && 0 <= k < |bins[i]|
      requires fd(p) != NULL && bk(p) != NULL && fd(p) != p
      modifies this`fd, this`bk, this`bins
      ensures Lst() == UnbinL(old(Lst()), p, i, k)
    {
      if fd(p) != NULL && bk(p) != NULL {
        bk := Put(bk, fd(p), bk(p));
        fd := Put(fd, bk(p), fd(p));
        fd := Put(fd, p, NULL);
        bk := Put(bk, p, NULL);
      }
      bins := bins[i := Without(bins[i], k)];
    }

    /** A chunk that is not in a large bin has no size links and is left alone. */
    method UnlinkSorted(p: Addr, ghost large: bool, ghost i: int, ghost j: int)
      requires large ==> 0 <= i < |sorted| && 0 <= j < |sorted[i]|
      requires large ==> nextSize(p) != NULL && prevSizePtr(p) != NULL && prevSizePtr(p) != p
      requires !large ==> nextSize(p) == NULL
      modifies this`nextSize, this`prevSizePtr, this`sorted
      ensures Lst() == if large then UnsortL(old(Lst()), p, i, j) else old(Lst())
    {
      if prevSizePtr(p) != NULL && nextSize(p) != NULL {
        nextSize := Put(nextSize, prevSizePtr(p), nextSize(p));
        prevSizePtr := Put(prevSizePtr, nextSize(p), prevSizePtr(p));
        nextSize := Put(nextSize, p, NULL);
        prevSizePtr := Put(prevSizePtr, p, NULL);
      }
      if large {
        sorted := sorted[i := Without(sorted[i], j)];
      }
    }

    method UnlinkBoth(p: Addr, ghost i: int, ghost k: int, ghost j: int, ghost large: bool)
      requires 0 <= i < |bins| && 0 <= k < |bins[i]| && fd(p) != NULL && bk(p) != NULL && fd(p) != p
      requires large ==> 0 <= i - LARGE0 < |sorted| && 0 <= j < |sorted[i - LARGE0]|
      requires large ==> nextSize(p) != NULL && prevSizePtr(p) != NULL && prevSizePtr(p) != p
      requires !large ==> nextSize(p) == NULL
      modifies this`fd, this`bk, this`bins, this`nextSize, this`prevSizePtr, this`sorted
      ensures var u := UnbinL(old(Lst()), p, i, k); Lst() == if large then UnsortL(u, p, i - LARGE0, j) else u
    {
      hide UnbinL, UnsortL, Without, Put;
      UnlinkFd(p, i, k);
      UnlinkSorted(p, large, i - LARGE0, j);
    }

    /** Both unlink calls: the chunk leaves its bin. */
    method Detach(p: Addr)
      requires Good(base, Hdr(), Lst()) && p in place && place[p].Bin?
      modifies this`fd, this`bk, this`bins, this`nextSize, this`prevSizePtr, this`sorted, this`place
      ensures Hdr() == Loosen(old(Hdr()), p)
      ensures Keeps(base, old(Hdr()), old(Lst()), Hdr(), Lst())
    {
      hide Good, Keeps, UnbinL, UnsortL, Without, Put;
      ghost var i, k, j, large := DetachStep(base, Hdr(), Lst(), p);
      UnlinkBoth(p, i, k, j, large);
      place := place[p := Loose];
    }

    method InsertFd(b: int, p: Addr)
      requires 0 <= b < |bins| && p != Head(base, b)
      modifies this`fd, this`bk, this`bins
      ensures Lst() == PushL(base, old(Lst()), p, b)
      ensures fd(Head(base, b)) == p && |bins| == |old(bins)| && bins[b] == [p] + old(bins)[b]
    {
      var head := Head(base, b);
      fd := Put(fd, p, fd(head));
      bk := Put(bk, p, head);
      bk := Put(bk, fd(head), p);
      fd := Put(fd, head, p);
      bins := bins[b := Insert(bins[b], 0, p)];
    }

    /** The chunk is marked free, and its successor is told. */
    method MarkFree(p: Addr)
      modifies this`inUse, this`prevInUse, this`prevSize, this`place
      ensures Hdr() == Shelve(old(Hdr()), p, UNSORTED)
    {
      inUse := Flag(inUse, p, false);
      prevInUse := Flag(prevInUse, Next(size, p), false);
      prevSize := Put(prevSize, Next(size, p), size(p));
      place := place[p := Bin(UNSORTED)];
    }

    method ClearSizeLinks(p: Addr)
      modifies this`nextSize, this`prevSizePtr
      ensures Lst() == if size(p) > 16 then ClearSizeL(old(Lst()), p) else old(Lst())
    {
      if size(p) > 16 {
        nextSize := Put(nextSize, p, NULL);
        prevSizePtr := Put(prevSizePtr, p, NULL);
      }
    }

    method LinkUnsorted(p: Addr)
      requires UNSORTED < |bins| && p != Head(base, UNSORTED) && size(p) > 16
      modifies this`nextSize, this`prevSizePtr, this`fd, this`bk, this`bins
      ensures Lst() == PushL(base, ClearSizeL(old(Lst()), p), p, UNSORTED)
    {
      hide PushL, Put;
      ClearSizeLinks(p);
      InsertFd(UNSORTED, p);
    }

    method InsertUnsorted(p: Addr)
      requires Good(base, Hdr(), Lst()) && IsLoose(Hdr(), p)
      modifies this`inUse, this`prevInUse, this`prevSize, this`nextSize, this`prevSizePtr
      modifies this`fd, this`bk, this`bins, this`place
      ensures |old(bins)| == BINS && Hdr() == Shelve(old(Hdr()), p, UNSORTED)
      ensures Lst() == PushL(base, ClearSizeL(old(Lst()), p), p, UNSORTED)
      ensures Keeps(base, old(Hdr()), old(Lst()), Hdr(), Lst()) && Merges(old(Hdr()), Hdr())
      ensures old(OnlyLoose(Hdr(), p)) ==> NoneLoose(Hdr())
    {
      hide Good, Keeps, Merges, Shelve, NoneLoose, OnlyLoose, PushL, ClearSizeL, Put;
      ShelveStep(base, Hdr(), Lst(), p);
      MarkFree(p);
      LinkUnsorted(p);
    }

    // ---- Coalescing and release ----

    /** Chunk a, just before the top chunk, becomes the top chunk; its in-use bit stays as it is. */
    method MergeIntoTop(a: Addr)
      requires Next(size, a) == top
      modifies this`size, this`prevSize, this`marked, this`top, this`place
      ensures Hdr() == AbsorbTopH(old(Hdr()), a)
    {
      ghost var n := top;
      var updated := size(a) + HEADER + size(top);
      size := Put(size, a, updated);
      prevSize := Put(prevSize, Next(size, a), updated);
      marked := Flag(marked, Next(size, a), false);
      top := a;
      place := (place[n := Loose] - {n})[a := Top];
    }

    /** Chunk a swallows the detached chunk n behind it, and the chunk after that is told the new size. */
    method Merge(a: Addr, n: Addr)
      modifies this`size, this`prevSize, this`place
      ensures Hdr() == Join(old(Hdr()), a, n)
    {
      var updated := size(a) + HEADER + size(n);
      size := Put(size, a, updated);
      prevSize := Put(prevSize, Next(size, a), updated);
      place := place - {n};
    }

    method ForwardCoalesce(a: Addr) returns (r: Addr)
      requires Good(base, Hdr(), Lst()) && OnlyLoose(Hdr(), a)
      modifies this`fd, this`bk, this`bins, this`nextSize, this`prevSizePtr, this`sorted, this`place
      modifies this`size, this`prevSize, this`marked, this`top
      ensures r == ForwardAt(old(Hdr()), a) && Hdr() == ForwardH(old(Hdr()), a)
      ensures if r == NULL then NoneLoose(Hdr()) else OnlyLoose(Hdr(), r)
      ensures Keeps(base, old(Hdr()), old(Lst()), Hdr(), Lst()) && Merges(old(Hdr()), Hdr())
      ensures ForwardMerged(old(Hdr()), Hdr(), a, r)
    {
      hide Keeps, Good, Join, Loosen, AbsorbTopH, OnlyLoose, NoneLoose, ForwardMerged;
      ghost var m, l := Hdr(), Lst();
      ForwardMerges(base, m, a) by { GoodIs(base, m, l); }
      NextFacts(base, m, l, a);
      r := a;
      var next := Next(size, a);
      if !inUse(next) && size(next) > 16 * FASTBINS {
        if next == top {
          MergeIntoTop(a);
          r := NULL;
        } else {
          Detach(next);
          AbsorbKeeps(base, m, l, a, next, Lst());
          Merge(a, next);
        }
      }
    }

    /** `backward_coalesce` itself. */
    method MergeBack(a: Addr) returns (r: Addr)
      requires Good(base, Hdr(), Lst()) && OnlyLoose(Hdr(), a)
      modifies this`fd, this`bk, this`bins, this`nextSize, this`prevSizePtr, this`sorted, this`place
      modifies this`size, this`prevSize
      ensures r == BackAt(old(Hdr()), a) && Hdr() == BackwardH(old(Hdr()), a) && OnlyLoose(Hdr(), r)
      ensures Keeps(base, old(Hdr()), old(Lst()), Hdr(), Lst()) && Merges(old(Hdr()), Hdr())
    {
      hide Keeps, Good, Join, Loosen, OnlyLoose;
      ghost var m, l := Hdr(), Lst();
      PrevFacts(base, m, l, a);
      r := a;
      if !prevInUse(a) {
        var prev := a - HEADER - prevSize(a);
        if size(prev) > 16 {
          Detach(prev);
          AbsorbedKeeps(base, m, l, prev, a, Lst());
          Merge(prev, a);
          r := prev;
        }
      }
    }

    /** Looking backward: what it means for the chunks. */
    method BackwardCoalesce(a: Addr) returns (r: Addr)
      requires Good(base, Hdr(), Lst()) && OnlyLoose(Hdr(), a)
      modifies this`fd, this`bk, this`bins, this`nextSize, this`prevSizePtr, this`sorted, this`place
      modifies this`size, this`prevSize
      ensures r == BackAt(old(Hdr()), a) && Hdr() == BackwardH(old(Hdr()), a) && OnlyLoose(Hdr(), r)
      ensures Keeps(base, old(Hdr()), old(Lst()), Hdr(), Lst()) && Merges(old(Hdr()), Hdr())
      ensures BackMerged(old(Hdr()), Hdr(), a, r)
    {
      hide Keeps, Good, OnlyLoose, BackMerged, Merges, BackwardH, BackAt;
      BackwardMerges(base, Hdr(), a) by { GoodIs(base, Hdr(), Lst()); }
      r := MergeBack(a);
    }

    method LinkFast(p: Addr, idx: int)
      requires 0 <= idx < |fastbins| == |fast|
      modifies this`fd, this`fastbins, this`fast
      ensures Lst() == FastPushL(old(Lst()), p, idx)
      ensures fastbins == old(fastbins)[idx := p] && fd(p) == old(fastbins)[idx]
    {
      fd := Put(fd, p, fastbins[idx]);
      fastbins := fastbins[idx := p];
      fast := fast[idx := [p] + fast[idx]];
    }

    method InsertFast(p: Addr, idx: int)
      requires 0 <= idx < |fastbins| == |fast|
      modifies this`fd, this`fastbins, this`fast, this`inUse, this`place
      ensures Hdr() == ToFast(old(Hdr()), p, idx)
      ensures Lst() == FastPushL(old(Lst()), p, idx)
      ensures fastbins == old(fastbins)[idx := p] && fd(p) == old(fastbins)[idx]
    {
      hide FastPushL;
      LinkFast(p, idx);
      inUse := Flag(inUse, p, false);
      place := place[p := Fast(idx)];
    }

    /** Release of a chunk that does not fit a fastbin. */
    method Coalesce(c: Addr)
      requires Good(base, Hdr(), Lst()) && NoneLoose(Hdr()) && Live(Hdr(), c) && size(c) > 16 * FASTBINS
      modifies this`fd, this`bk, this`bins, this`nextSize, this`prevSizePtr, this`sorted, this`place
      modifies this`size, this`prevSize, this`marked, this`top, this`inUse, this`prevInUse
      ensures Hdr() == ReleaseH(old(Hdr()), c)
      ensures Keeps(base, old(Hdr()), old(Lst()), Hdr(), Lst()) && GivenBack(old(Hdr()), Hdr(), c) && NoneLoose(Hdr())
      ensures GivenBackAs(old(Hdr()), Hdr(), c)
    {
      hide Good, Frame, Merges, GivenBack, ForwardH, BackwardH, BackAt, NoneLoose, Shelve, PushL, Live, GivenBackAs;
      hide ForwardMerged, BackMerged;
      ghost var m, l := Hdr(), Lst();
      ReleaseGivesBack(base, m, c) by { GoodIs(base, m, l); }
      LooseStart(base, m, l, c);
      place := place[c := Loose];
      ghost var j, lj := Hdr(), Lst();
      var b := BackwardCoalesce(c);
      ghost var k1, l1 := Hdr(), Lst();
      var r := ForwardCoalesce(b);
      ghost var k2, l2 := Hdr(), Lst();
      MergesTrans(base, j, lj, k1, l1, k2, l2);
      if r != NULL {
        InsertUnsorted(r);
        MergesTrans(base, j, lj, k2, l2, Hdr(), Lst());
      }
      ReleaseTrans(base, m, l, j, lj, Hdr(), Lst(), c);
    }
  
    /** `_release`; the result tells whether the chunk was unmapped as if it came from mmap. */
    method Release(ptr: Addr) returns (unmapped: bool)
      requires Good(base, Hdr(), Lst()) && NoneLoose(Hdr())
      requires ptr != NULL ==> Live(Hdr(), ptr - HEADER)
      modifies this`fd, this`bk, this`bins, this`nextSize, this`prevSizePtr, this`sorted, this`place
      modifies this`size, this`prevSize, this`marked, this`top, this`inUse, this`prevInUse, this`fastbins, this`fast
      ensures unmapped <==> ptr != NULL && old(size)(ptr - HEADER) >= MMAP_THRESHOLD
      ensures ptr == NULL || unmapped ==> Hdr() == old(Hdr()) && Lst() == old(Lst())
      ensures ptr != NULL && !unmapped ==>
                && Hdr() == ReleaseH(old(Hdr()), ptr - HEADER)
                && Keeps(base, old(Hdr()), old(Lst()), Hdr(), Lst())
                && GivenBack(old(Hdr()), Hdr(), ptr - HEADER) && NoneLoose(Hdr())
                && GivenBackAs(old(Hdr()), Hdr(), ptr - HEADER)
    {
      hide Good, Keeps, GivenBack, NoneLoose, Loosen, FastPushL, ToFast, OnlyLoose, BackwardH, ForwardH, Shelve;
      hide GivenBackAs;
      unmapped := false;
      if ptr != NULL {
        var c := ptr - HEADER;
        if size(c) >= MMAP_THRESHOLD {
          unmapped := true;
        } else if size(c) <= 16 * FASTBINS {
          FastStart(base, Hdr(), Lst(), c);
          ReleaseGivesBack(base, Hdr(), c) by { GoodIs(base, Hdr(), Lst()); }
          InsertFast(c, size(c) / 16 - 1);
        } else {
          Coalesce(c);
        }
      }
    }

    // ---- Searching ----

    method UseWhole(v: Addr)
      modifies this`inUse, this`prevInUse, this`place
      ensures Hdr() == Hand(TellInUse(old(Hdr()), v), v)
    {
      inUse := Flag(inUse, v, true);
      prevInUse := Flag(prevInUse, Next(size, v), true);
      place := place[v := InUse];
    }

    method UnlinkFast(idx: int)
      requires 0 <= idx < |fastbins| == |fast| && fast[idx] != []
      modifies this`fd, this`fastbins, this`fast
      ensures Lst() == FastPopL(old(Lst()), idx)
    {
      var victim := fastbins[idx];
      fastbins := fastbins[idx := fd(victim)];
      fd := Put(fd, victim, NULL);
      fast := fast[idx := fast[idx][1..]];
    }

    method PopFast(idx: int) returns (v: Addr)
      requires 0 <= idx < |fastbins| == |fast| && fast[idx] != []
      modifies this`fd, this`fastbins, this`fast, this`inUse, this`place
      ensures v == old(fastbins)[idx] && Hdr() == Hand(old(Hdr()), v) && Lst() == FastPopL(old(Lst()), idx)
    {
      hide FastPopL;
      v := fastbins[idx];
      UnlinkFast(idx);
      inUse := Flag(inUse, v, true);
      place := place[v := InUse];
    }

    method FastbinSearch(z: int) returns (v: Addr)
      requires Good(base, Hdr(), Lst()) && NoneLoose(Hdr()) && Aligned(z)
      modifies this`fd, this`fastbins, this`fast, this`inUse, this`place
      ensures |old(fast)| == FASTBINS
      ensures v == NULL <==> !(0 <= z / 16 - 1 < FASTBINS && old(fast)[z / 16 - 1] != [])
      ensures v == NULL ==> Hdr() == old(Hdr()) && Lst() == old(Lst())
      ensures v != NULL ==> v == old(fast)[z / 16 - 1][0]
      ensures v != NULL ==> Served(base, old(Hdr()), old(Lst()), Hdr(), Lst(), v, z, 0)
    {
      hide Good, Served, NoneLoose, FastPopL, Hand, Put;
      var idx := z / 16 - 1;
      v := NULL;
      FastServes(base, Hdr(), Lst(), if 0 <= idx < FASTBINS then idx else 0);
      if 0 <= idx < FASTBINS && fastbins[idx] != NULL {
        v := PopFast(idx);
      }
    }

    method PopSmall(v: Addr, idx: int)
      requires 0 <= idx < |bins| && bins[idx] != [] && fd(v) != NULL && bk(v) != NULL && fd(v) != v
      modifies this`fd, this`bk, this`bins, this`inUse, this`prevInUse, this`place
      ensures Hdr() == WholeH(old(Hdr()), v) && Lst() == UnbinL(old(Lst()), v, idx, 0)
    {
      hide UnbinL, Hand, TellInUse;
      UnlinkFd(v, idx, 0);
      UseWhole(v);
    }

    method SmallbinSearch(z: int) returns (v: Addr)
      requires Good(base, Hdr(), Lst()) && NoneLoose(Hdr()) && Aligned(z)
      modifies this`fd, this`bk, this`bins, this`inUse, this`prevInUse, this`place
      ensures |old(bins)| == BINS
      ensures v == NULL <==> !(0 <= SmallBinIndex(z) < SMALLBINS && old(bins)[SmallBinIndex(z)] != [])
      ensures v == NULL ==> Hdr() == old(Hdr()) && Lst() == old(Lst())
      ensures v != NULL ==> v == old(bins)[SmallBinIndex(z)][0]
      ensures v != NULL ==> Served(base, old(Hdr()), old(Lst()), Hdr(), Lst(), v, z, 0)
    {
      hide Good, Served, NoneLoose, UnbinL, WholeH;
      var idx := SmallBinIndex(z);
      v := NULL;
      SmallServes(base, Hdr(), Lst(), if 0 <= idx < SMALLBINS then idx else 0);
      if 0 <= idx < SMALLBINS {
        var head := Head(base, idx);
        if fd(head) != head {
          v := fd(head);
          PopSmall(v, idx);
        }
      }
    }

    /** The headers of the two parts of a chunk that is cut after z bytes. */
    method SplitOff(v: Addr, z: int)
      modifies this`size, this`prevInUse, this`inUse, this`prevSize, this`marked, this`place
      ensures Hdr() == Cut(old(Hdr()), v, z)
    {
      var remainder := v + HEADER + z;
      var remainderSize := size(v) - z - HEADER;
      var next := remainder + HEADER + remainderSize;
      size := Put(size, remainder, remainderSize);
      prevInUse := Flag(prevInUse, remainder, true);
      inUse := Flag(inUse, remainder, false);
      prevSize := Put(prevSize, next, remainderSize);
      marked := Flag(marked, next, false);
      size := Put(size, v, z);
      place := place[remainder := Loose];
    }

    method MarkUsed(v: Addr)
      modifies this`inUse, this`place
      ensures Hdr() == Hand(old(Hdr()), v)
    {
      inUse := Flag(inUse, v, true);
      place := place[v := InUse];
    }

    /** Serves z bytes from a detached chunk, splitting it if the remainder can be a chunk. */
    method Take(v: Addr, z: int)
      requires Good(base, Hdr(), Lst()) && |bins| == BINS && CanTake(Hdr(), v, z)
      modifies this`size, this`prevInUse, this`inUse, this`prevSize, this`marked, this`place
      modifies this`nextSize, this`prevSizePtr, this`fd, this`bk, this`bins
      ensures Hdr() == TakeH(old(Hdr()), v, z)
      ensures Lst() == TakeL(base, old(Hdr()), old(Lst()), v, z)
    {
      hide Good, Cut, Shelve, Hand, TellInUse, PushL, ClearSizeL, Merges, Keeps;
      if size(v) - z >= MIN_PAYLOAD + HEADER {
        CutLoose(base, Hdr(), Lst(), v, z);
        SplitOff(v, z);
        InsertUnsorted(v + HEADER + z);
        MarkUsed(v);
      } else {
        UseWhole(v);
      }
    }
  
    // ---- Filing chunks ----

    /** The first chunk in the size ring of large bin i that is not smaller than z, or the sentinel. */
    method FindCeil(i: int, z: int) returns (ceil: Addr, ghost k: int)
      requires 0 <= i < |sorted| && Ring(nextSize, prevSizePtr, Head(base, LARGE0 + i), sorted[i])
      ensures CeilAt(size, sorted[i], k, z) && ceil == After(Head(base, LARGE0 + i), sorted[i], k - 1)
    {
      var head := Head(base, LARGE0 + i);
      ghost var s := sorted[i];
      ceil := nextSize(head);
      k := 0;
      while ceil != head && size(ceil) < z
        invariant 0 <= k <= |s| && ceil == After(head, s, k - 1)
        invariant forall j :: 0 <= j < k ==> size(s[j]) < z
        decreases |s| - k
      {
        ceil := nextSize(ceil);
        k := k + 1;
      }
    }

    method LinkSorted(i: int, p: Addr, ceil: Addr, ghost k: int)
      requires 0 <= i < |sorted| && 0 <= k <= |sorted[i]| && ceil == After(Head(base, LARGE0 + i), sorted[i], k - 1)
      requires prevSizePtr(ceil) == Before(Head(base, LARGE0 + i), sorted[i], k)
      modifies this`nextSize, this`prevSizePtr, this`sorted
      ensures Lst() == SortL(base, old(Lst()), p, i, k)
    {
      var floor := prevSizePtr(ceil);
      nextSize := Put(nextSize, p, ceil);
      prevSizePtr := Put(prevSizePtr, p, floor);
      prevSizePtr := Put(prevSizePtr, ceil, p);
      nextSize := Put(nextSize, floor, p);
      sorted := sorted[i := Insert(sorted[i], k, p)];
    }

    method EnterBin(b: int, p: Addr)
      requires 0 <= b < |bins| && p != Head(base, b)
      modifies this`fd, this`bk, this`bins, this`place
      ensures Hdr() == Reshelve(old(Hdr()), p, b) && Lst() == PushL(base, old(Lst()), p, b)
    {
      hide PushL;
      InsertFd(b, p);
      place := place[p := Bin(b)];
    }

    method InsertSmall(p: Addr)
      requires 0 <= SmallBinIndex(size(p)) < |bins| && p != Head(base, SmallBinIndex(size(p)))
      modifies this`fd, this`bk, this`bins, this`place
      ensures Hdr() == Reshelve(old(Hdr()), p, SmallBinIndex(size(p)))
      ensures Lst() == PushL(base, old(Lst()), p, SmallBinIndex(size(p)))
    {
      hide PushL, Reshelve;
      EnterBin(SmallBinIndex(size(p)), p);
    }

    method InsertLarge(p: Addr, i: int) returns (ghost k: int)
      requires |bins| == BINS && |sorted| == LARGEBINS && 0 <= i < LARGEBINS && p != Head(base, LARGE0 + i)
      requires Ring(nextSize, prevSizePtr, Head(base, LARGE0 + i), sorted[i])
      modifies this`nextSize, this`prevSizePtr, this`sorted, this`fd, this`bk, this`bins, this`place
      ensures CeilAt(size, old(sorted)[i], k, size(p))
      ensures Hdr() == Reshelve(old(Hdr()), p, LARGE0 + i)
      ensures Lst() == PushL(base, SortL(base, old(Lst()), p, i, k), p, LARGE0 + i)
      ensures |sorted| == LARGEBINS && 0 <= k < |sorted[i]| && sorted[i][k] == p
      ensures forall n :: 0 <= n < k ==> size(sorted[i][n]) < size(p)
    {
      hide Ring, PushL, Reshelve, CeilAt;
      var ceil;
      ceil, k := FindCeil(i, size(p));
      RingLink(nextSize, prevSizePtr, Head(base, LARGE0 + i), sorted[i], k, size, size(p));
      BeforeCeil(size, sorted[i], k, p);
      LinkSorted(i, p, ceil, k);
      EnterBin(LARGE0 + i, p);
    }

    /** A detached chunk goes to the small or large bin of its size. */
    method File(p: Addr, ghost m: Headers, ghost l: Lists)
      requires Filing(base, m, l, Hdr(), Lst())
      requires OnlyLoose(Hdr(), p) && StillTold(Hdr(), p) && nextSize(p) == NULL && size(p) >= MIN_PAYLOAD
      modifies this`nextSize, this`prevSizePtr, this`sorted, this`fd, this`bk, this`bins, this`place
      ensures |old(bins)| == |bins| == BINS && bins[UNSORTED] == old(bins)[UNSORTED]
      ensures Hdr() == Reshelve(old(Hdr()), p, BinFor(size(p)))
      ensures Filing(base, m, l, Hdr(), Lst()) && NoneLoose(Hdr())
    {
      hide Good, Frame, Ring, StillTold, OnlyLoose, NoneLoose, Extends, SameLive, CeilAt, PushL, Reshelve,
           LargeBinIndex;
      FileFacts(base, Hdr(), Lst(), p);
      ghost var j, lj := Hdr(), Lst();
      if size(p) < 16 * SMALLBINS {
        FileSmall(base, m, l, j, lj, p);
        InsertSmall(p);
      } else {
        ghost var k := InsertLarge(p, LargeBinIndex(size(p)));
        FileLarge(base, m, l, j, lj, p, LargeBinIndex(size(p)), k);
      }
    }
  
    /** The first chunk of the unsorted bin is unlinked. */
    method UnlinkUnsorted(ghost m: Headers, ghost l: Lists) returns (v: Addr, next: Addr)
      requires Filing(base, m, l, Hdr(), Lst()) && NoneLoose(Hdr()) && |bins| == BINS && bins[UNSORTED] != []
      modifies this`fd, this`bk, this`bins, this`place
      ensures v == old(bins)[UNSORTED][0] && v != NULL && Hdr() == Loosen(old(Hdr()), v)
      ensures next == After(Head(base, UNSORTED), old(bins)[UNSORTED], 0)
      ensures |bins| == BINS && bins[UNSORTED] == old(bins)[UNSORTED][1..]
      ensures Filing(base, m, l, Hdr(), Lst()) && OnlyLoose(Hdr(), v) && StillTold(Hdr(), v)
      ensures nextSize(v) == NULL && size(v) >= MIN_PAYLOAD && Aligned(size(v))
    {
      hide Good, Filing, NoneLoose, OnlyLoose, StillTold;
      UnsortedNext(base, m, l, Hdr(), Lst());
      v := fd(Head(base, UNSORTED));
      next := fd(v);
      UnlinkFd(v, UNSORTED, 0);
      place := place[v := Loose];
    }
  
    /** The next unsorted chunk either serves the request or is filed. */
    method ServeOrFile(z: int, ghost m: Headers, ghost l: Lists, ghost s: seq<Addr>, ghost n: nat)
        returns (v: Addr, next: Addr)
      requires Walk(base, m, l, Hdr(), Lst(), s, n, z) && n < |s| && Aligned(z) && z >= MIN_PAYLOAD
      modifies this`nextSize, this`prevSizePtr, this`sorted, this`fd, this`bk, this`bins, this`place
      modifies this`size, this`prevInUse, this`inUse, this`prevSize, this`marked
      ensures next == After(Head(base, UNSORTED), s, n)
      ensures v == NULL ==> Walk(base, m, l, Hdr(), Lst(), s, n + 1, z)
      ensures v != NULL ==> v == s[n] && m.size(v) >= z && Hdr() == TakeH(Loosen(FileAll(m, s, n), v), v, z)
      ensures v != NULL ==> Served(base, m, l, Hdr(), Lst(), v, z, 32)
    {
      hide Good, Served, NoneLoose, OnlyLoose, StillTold, TakeH, Filing, Loosen, Reshelve, TakeL, FileAll, CanTake;
      FileNext(m, s, n, Hdr());
      v, next := UnlinkUnsorted(m, l);
      if size(v) >= z {
        LooseCanTake(Hdr(), v, z);
        TakeServes(base, m, l, Hdr(), Lst(), v, z);
        FilingGood(base, m, l, Hdr(), Lst());
        Take(v, z);
      } else {
        File(v, m, l);
        v := NULL;
      }
    }

    /** Walks the unsorted bin: files every chunk that is too small and serves the request from the first that fits. */
    method UnsortedbinSearch(z: int) returns (v: Addr, ghost n: nat)
      requires Good(base, Hdr(), Lst()) && NoneLoose(Hdr()) && Aligned(z) && z >= MIN_PAYLOAD
      modifies this`nextSize, this`prevSizePtr, this`sorted, this`fd, this`bk, this`bins, this`place
      modifies this`size, this`prevInUse, this`inUse, this`prevSize, this`marked
      ensures |old(bins)| == BINS && n <= |old(bins)[UNSORTED]|
      ensures forall i :: 0 <= i < n ==> old(size)(old(bins)[UNSORTED][i]) < z
      ensures v == NULL ==> n == |old(bins)[UNSORTED]| && Hdr() == FileAll(old(Hdr()), old(bins)[UNSORTED], n)
      ensures v == NULL ==> Filing(base, old(Hdr()), old(Lst()), Hdr(), Lst()) && NoneLoose(Hdr())
      ensures v != NULL ==> n < |old(bins)[UNSORTED]| && v == old(bins)[UNSORTED][n] && old(size)(v) >= z
      ensures v != NULL ==> Hdr() == TakeH(Loosen(FileAll(old(Hdr()), old(bins)[UNSORTED], n), v), v, z)
      ensures v != NULL ==> Served(base, old(Hdr()), old(Lst()), Hdr(), Lst(), v, z, 32)
    {
      hide Good, Served, NoneLoose, TakeH, Filing, Loosen, FileAll;
      ghost var m, l := Hdr(), Lst();
      WalkStart(base, m, l, z);
      ghost var s := bins[UNSORTED];
      n := 0;
      v := NULL;
      var head := Head(base, UNSORTED);
      var curr := fd(head);
      while curr != head
        invariant v == NULL && n <= |s| && curr == After(head, s, n - 1) && Walk(base, m, l, Hdr(), Lst(), s, n, z)
        decreases |s| - n
      {
        v, curr := ServeOrFile(z, m, l, s, n);
        if v != NULL {
          return;
        }
        n := n + 1;
      }
    }
  
    /** The walk of `largebin_search` over the size rings, bin by bin: a best fit, or NULL if nothing fits. */
    method FindLarge(z: int) returns (v: Addr)
      requires Good(base, Hdr(), Lst())
      ensures z < 512 ==> v == NULL
      ensures z >= 512 && v == NULL ==> forall x :: !Fits(Hdr(), x, z)
      ensures v != NULL ==> z >= 512 && BestFit(Hdr(), v, z)
    {
      hide Good, BestFit, Fits, NoFitUpTo, LargeBinIndex;
      var idx := LargeBinIndex(z);
      if idx < 0 || idx >= LARGEBINS {
        return NULL;
      }
      ghost var m, l := Hdr(), Lst();
      LargeRings(base, m, l, z, idx);
      var i := idx;
      while i < LARGEBINS
        invariant idx <= i <= LARGEBINS && NoFitUpTo(m.size, l.sorted, idx, i, z)
      {
        v := FirstFit(i, z, m, l);
        if v != NULL {
          return;
        }
        NoFitOneMore(m.size, l.sorted, idx, i, z);
        i := i + 1;
      }
      NoFitAnywhere(base, m, l, z);
      v := NULL;
    }

    /** The first chunk of at least z bytes in the size ring of large bin i. */
    method FirstFit(i: int, z: int, ghost m: Headers, ghost l: Lists) returns (v: Addr)
      requires Good(base, m, l) && m == Hdr() && l == Lst()
      requires |sorted| == LARGEBINS && 0 <= LargeBinIndex(z) <= i < LARGEBINS
      requires NoFitUpTo(size, sorted, LargeBinIndex(z), i, z)
      ensures v == NULL ==> NoFitIn(size, sorted[i], |sorted[i]|, z)
      ensures v != NULL ==> BestFit(m, v, z)
    {
      hide Good, BestFit, NoFitUpTo, LargeBinIndex;
      LargeRing(base, m, l, i);
      var head := Head(base, LARGE0 + i);
      ghost var s := sorted[i];
      ghost var k := 0;
      var curr := nextSize(head);
      while curr != head
        invariant 0 <= k <= |s| && curr == After(head, s, k - 1) && NoFitIn(size, s, k, z)
        decreases |s| - k
      {
        if size(curr) >= z {
          FirstFitIsBest(base, m, l, z, i, k);
          return curr;
        }
        curr := nextSize(curr);
        k := k + 1;
      }
      v := NULL;
    }
  
    method LargebinSearch(z: int) returns (v: Addr)
      requires Good(base, Hdr(), Lst()) && NoneLoose(Hdr()) && Aligned(z) && z >= MIN_PAYLOAD
      modifies this`nextSize, this`prevSizePtr, this`sorted, this`fd, this`bk, this`bins, this`place
      modifies this`size, this`prevInUse, this`inUse, this`prevSize, this`marked
      ensures z < 512 ==> v == NULL
      ensures v == NULL ==> Hdr() == old(Hdr()) && Lst() == old(Lst())
      ensures z >= 512 && v == NULL ==> forall x :: !Fits(old(Hdr()), x, z)
      ensures v != NULL ==> BestFit(old(Hdr()), v, z) && Hdr() == TakeH(Loosen(old(Hdr()), v), v, z)
      ensures v != NULL ==> Served(base, old(Hdr()), old(Lst()), Hdr(), Lst(), v, z, 32)
    {
      hide Good, Served, NoneLoose, OnlyLoose, TakeH, Filing, Loosen, TakeL, CanTake, Keeps, BestFit, Fits;
      ghost var m, l := Hdr(), Lst();
      v := FindLarge(z);
      if v != NULL {
        BestIsBinned(m, v, z);
        Detach(v);
        DetachedCanTake(base, m, l, Lst(), v, z);
        TakeServes(base, m, l, Hdr(), Lst(), v, z);
        Take(v, z);
      }
    }

    // ---- The top chunk ----

    method GrowHeap(block: Addr)
      requires |heaps| < MAX_HEAPS
      modifies this`size, this`prevInUse, this`inUse, this`fd, this`bk, this`top, this`heaps
      modifies this`expoIters, this`constIters, this`ends, this`place
      ensures Hdr() == Grow(old(Hdr()), block, NextHeapSize(old(expoIters), old(constIters)))
      ensures Lst() == GrowL(old(Lst()), block, block + HEADER + NextHeapSize(old(expoIters), old(constIters)))
      ensures |heaps| == |old(heaps)| + 1 && (old(Growth()) ==> Growth())
    {
      hide NextHeapSize, GrowL, Grown;
      var z := NextHeapSize(expoIters, constIters);
      if Growth() {
        GrownMore(heaps, expoIters, constIters, block);
      }
      if 1024 * 1024 * Pow2(expoIters) <= 64 * 1024 * 1024 {
        expoIters := expoIters + 1;
      } else {
        constIters := constIters + 1;
      }
      RegisterHeap(block, z);
    }

    method InitHeaders(block: Addr, boundary: Addr, z: int)
      modifies this`size, this`prevInUse, this`inUse
      ensures size == Put(Put(old(size), block, z), boundary, 0)
      ensures prevInUse == Flag(Flag(old(prevInUse), block, true), boundary, true)
      ensures inUse == Flag(Flag(old(inUse), block, false), boundary, true)
    {
      size := Put(size, block, z);
      prevInUse := Flag(prevInUse, block, true);
      inUse := Flag(inUse, block, false);
      size := Put(size, boundary, 0);
      prevInUse := Flag(prevInUse, boundary, true);
      inUse := Flag(inUse, boundary, true);
    }

    method InitLinks(block: Addr, boundary: Addr)
      modifies this`fd, this`bk
      ensures Lst() == GrowL(old(Lst()), block, boundary)
    {
      fd := Put(fd, block, NULL);
      bk := Put(bk, block, NULL);
      fd := Put(fd, boundary, NULL);
      bk := Put(bk, boundary, NULL);
    }

    /** The new top chunk and the boundary behind it get headers; nothing is linked to them. */
    method RegisterHeap(block: Addr, z: int)
      modifies this`size, this`prevInUse, this`inUse, this`fd, this`bk, this`top, this`heaps, this`ends, this`place
      ensures Hdr() == Grow(old(Hdr()), block, z) && Lst() == GrowL(old(Lst()), block, block + HEADER + z)
    {
      hide Put, Flag, GrowL;
      var boundary := block + HEADER + z;
      InitHeaders(block, boundary, z);
      InitLinks(block, boundary);
      top := block;
      heaps := heaps + [Span(block, boundary)];
      ends := ends + {boundary};
      place := place[block := Top];
    }

    method CarveTop(z: int)
      modifies this`size, this`prevInUse, this`inUse, this`prevSize, this`marked, this`place, this`top
      ensures Hdr() == CarveH(old(Hdr()), z)
    {
      hide Cut, Put, Flag;
      var curr := top;
      place := place[curr := Loose];
      if size(curr) - z >= MIN_PAYLOAD + HEADER {
        ghost var j := LoosenTop(old(Hdr()));
        CutTop(Hdr(), curr, z);
        SplitOff(curr, z);
        top := curr + HEADER + z;
        place := place[curr + HEADER + z := Top];
        MarkUsed(curr);
      } else {
        UseWhole(curr);
        top := NULL;
      }
    }
  
    /** A new heap becomes the top chunk. */
    method NewTop(block: Addr, ghost m: Headers, ghost l: Lists)
      requires Filing(base, m, l, Hdr(), Lst()) && NoneLoose(Hdr()) && top == NULL
      requires |heaps| < MAX_HEAPS && FreshRegion(base, heaps, block, NextHeapSize(expoIters, constIters))
      modifies this`size, this`prevInUse, this`inUse, this`place, this`top
      modifies this`fd, this`bk, this`heaps, this`expoIters, this`constIters, this`ends
      ensures Filing(base, m, l, Hdr(), Lst()) && NoneLoose(Hdr()) && top == block != NULL && size(top) >= 1048576
      ensures |heaps| == |old(heaps)| + 1 && heaps[|heaps| - 1].start == block && (old(Growth()) ==> Growth())
      ensures StillBinned(old(Hdr()), Hdr())
    {
      hide Good, Filing, NoneLoose, GrowL, NextHeapSize, FreshRegion, Grown, StillBinned;
      GrowFiling(base, m, l, Hdr(), Lst(), block, NextHeapSize(expoIters, constIters));
      NewBlock(base, m, l, Hdr(), Lst(), block, NextHeapSize(expoIters, constIters));
      GrowPlaces(Hdr(), block, NextHeapSize(expoIters, constIters));
      GrowHeap(block);
    }

    /** The front of the top chunk, which is large enough. */
    method CarveReady(z: int, ghost m: Headers, ghost l: Lists) returns (v: Addr)
      requires Filing(base, m, l, Hdr(), Lst()) && NoneLoose(Hdr()) && top != NULL
      requires Aligned(z) && MIN_PAYLOAD <= z <= size(top)
      modifies this`size, this`prevInUse, this`inUse, this`prevSize, this`marked, this`place, this`top
      ensures v == old(top) && Hdr() == CarveH(old(Hdr()), z) && heaps == old(heaps)
      ensures Served(base, m, l, Hdr(), Lst(), v, z, 32) && StillBinned(old(Hdr()), Hdr())
    {
      hide Good, Filing, Served, NoneLoose, CarveH, StillBinned;
      CarveServes(base, m, l, Hdr(), Lst(), z);
      CarveHeaps(base, Hdr(), Lst(), z) by { FilingGood(base, m, l, Hdr(), Lst()); }
      v := top;
      CarveTop(z);
    }

    method CarveFromTop(z: int, block: Addr, ghost m: Headers, ghost l: Lists) returns (v: Addr)
      requires Filing(base, m, l, Hdr(), Lst()) && NoneLoose(Hdr())
      requires Aligned(z) && MIN_PAYLOAD <= z < MMAP_THRESHOLD
      requires top == NULL ==>
                 |heaps| < MAX_HEAPS && FreshRegion(base, heaps, block, NextHeapSize(expoIters, constIters))
      modifies this`size, this`prevInUse, this`inUse, this`prevSize, this`marked, this`place, this`top
      modifies this`fd, this`bk, this`heaps, this`expoIters, this`constIters, this`ends
      ensures v == NULL <==> old(top) != NULL && old(size)(old(top)) < z
      ensures v == NULL ==> Hdr() == old(Hdr()) && Lst() == old(Lst())
      ensures |heaps| == |old(heaps)| + (if old(top) == NULL then 1 else 0) && (old(Growth()) ==> Growth())
      ensures v == NULL ==> expoIters == old(expoIters) && constIters == old(constIters)
      ensures v != NULL && old(top) != NULL ==> v == old(top) && Hdr() == CarveH(old(Hdr()), z)
      ensures old(top) == NULL ==> v == block && |heaps| > 0 && heaps[|heaps| - 1].start == block
      ensures StillBinned(old(Hdr()), Hdr())
      ensures v != NULL ==> Served(base, m, l, Hdr(), Lst(), v, z, 32)
    {
      hide Good, Filing, Served, NoneLoose, CarveH, NextHeapSize, FreshRegion, Grown, StillBinned;
      ghost var j := Hdr();
      BinnedSelf(j);
      if top == NULL {
        NewTop(block, m, l);
      }
      ghost var k := Hdr();
      v := NULL;
      if size(top) >= z {
        v := CarveReady(z, m, l);
        BinnedTrans(j, k, Hdr());
      }
    }

    /** The top chunk, too small for the request, is put in the unsorted bin. */
    method RetireTop(ghost m: Headers, ghost l: Lists)
      requires Filing(base, m, l, Hdr(), Lst()) && NoneLoose(Hdr()) && top != NULL
      modifies this`inUse, this`prevInUse, this`prevSize, this`nextSize, this`prevSizePtr
      modifies this`fd, this`bk, this`bins, this`place, this`top
      ensures Filing(base, m, l, Hdr(), Lst()) && NoneLoose(Hdr()) && top == NULL
      ensures place == old(place)[old(top) := Bin(UNSORTED)] && size == old(size)
    {
      hide Good, Filing, NoneLoose, Shelve, Keeps, Merges, PushL, ClearSizeL;
      RetireFiling(base, m, l, Hdr(), Lst());
      ShelvePlaces(LoosenTop(Hdr()), top);
      var t := top;
      place := place[t := Loose];
      top := NULL;
      ghost var j, lj := Hdr(), Lst();
      InsertUnsorted(t);
      ShelvedFiling(base, m, l, j, lj, t, Lst());
    }
  
    // ---- Allocation ----

    /** Chunks of exactly the right size: fastbins first, then small bins. */
    method SearchExact(z: int) returns (v: Addr)
      requires Good(base, Hdr(), Lst()) && NoneLoose(Hdr()) && Aligned(z) && z >= MIN_PAYLOAD
      modifies this`fd, this`bk, this`bins, this`fastbins, this`fast, this`inUse, this`prevInUse, this`place
      ensures |old(fast)| == FASTBINS && |old(bins)| == BINS
      ensures v == NULL <==> !HasExact(old(Lst()), z)
      ensures v == NULL ==> Hdr() == old(Hdr()) && Lst() == old(Lst())
      ensures v != NULL ==> v == ExactChunk(old(Lst()), z) && size(v) == z && WasBinned(old(Hdr()), v)
      ensures v != NULL ==> Served(base, old(Hdr()), old(Lst()), Hdr(), Lst(), v, z, 32)
    {
      hide Good, Served, NoneLoose, WasBinned;
      ghost var m, l := Hdr(), Lst();
      ListLengths(base, m, l);
      if HasExact(l, z) {
        ExactWasBinned(base, m, l, z);
      }
      v := NULL;
      if z <= 16 * FASTBINS {
        v := FastbinSearch(z);
      }
      if v == NULL && z < 16 * SMALLBINS {
        v := SmallbinSearch(z);
      }
      if v != NULL {
        ServedLoosely(base, m, l, Hdr(), Lst(), v, z);
      }
    }

    /** Larger chunks: the unsorted bin, then the large bins. */
    method SearchLarger(z: int) returns (v: Addr)
      requires Good(base, Hdr(), Lst()) && NoneLoose(Hdr()) && Aligned(z) && z >= MIN_PAYLOAD
      modifies this`nextSize, this`prevSizePtr, this`sorted, this`fd, this`bk, this`bins, this`place
      modifies this`size, this`prevInUse, this`inUse, this`prevSize, this`marked
      ensures v == NULL ==> Filing(base, old(Hdr()), old(Lst()), Hdr(), Lst()) && NoneLoose(Hdr())
      ensures |old(bins)| == BINS && (v == NULL <==> NothingFits(old(Hdr()), z))
      ensures v == NULL ==> size == old(size) && Hdr() == Filed(old(Hdr()), old(Lst()))
      ensures v != NULL ==> WasBinned(old(Hdr()), v) && Larger(old(Hdr()), old(Lst()), v, z)
      ensures v != NULL ==> TakenFrom(old(Hdr()), Hdr(), v, z)
      ensures v != NULL ==> Served(base, old(Hdr()), old(Lst()), Hdr(), Lst(), v, z, 32)
    {
      hide Good, Served, NoneLoose, Filing, TakeH, Loosen, FileAll, WasBinned, BestFit, Fits, NothingFits, Larger;
      hide TakenFrom;
      ghost var m, l := Hdr(), Lst();
      ghost var n;
      v, n := UnsortedbinSearch(z);
      if v != NULL {
        UnsortedWasBinned(base, m, l, n, z);
        UnsortedTaken(base, m, l, n, z);
      } else {
        ghost var j, lj := Hdr(), Lst();
        FilingGood(base, m, l, j, lj);
        v := LargebinSearch(z);
        if v != NULL {
          FoundWasBinned(base, m, l, j, v, z);
          LargeTaken(base, m, l, v, z);
          ServedTrans(base, m, l, j, lj, Hdr(), Lst(), v, z);
        } else {
          SearchedAll(base, m, l, j, z);
        }
      }
    }

    /** The top chunk, or a new heap; the caller sees to it that a heap can be added. */
    method TakeFromTop(z: int, block: Addr, ghost m: Headers, ghost l: Lists) returns (v: Addr)
      requires Filing(base, m, l, Hdr(), Lst()) && NoneLoose(Hdr())
      requires Aligned(z) && MIN_PAYLOAD <= z < MMAP_THRESHOLD
      requires top == NULL || size(top) < z ==>
                 |heaps| < MAX_HEAPS && FreshRegion(base, heaps, block, NextHeapSize(expoIters, constIters))
      modifies this`size, this`prevInUse, this`inUse, this`prevSize, this`marked, this`place, this`top
      modifies this`fd, this`bk, this`heaps, this`expoIters, this`constIters, this`ends
      modifies this`nextSize, this`prevSizePtr, this`bins
      ensures |heaps| == |old(heaps)| + if old(top) == NULL || old(size)(old(top)) < z then 1 else 0
      ensures old(Growth()) ==> Growth()
      ensures old(top) != NULL && old(size)(old(top)) >= z ==> v == old(top) && Hdr() == CarveH(old(Hdr()), z)
      ensures old(top) == NULL || old(size)(old(top)) < z ==> heaps[|heaps| - 1].start == v
      ensures old(top) != NULL && old(size)(old(top)) < z ==> old(top) in place && place[old(top)] == Bin(UNSORTED)
      ensures Served(base, m, l, Hdr(), Lst(), v, z, 32)
    {
      hide Good, Served, NoneLoose, Filing, NextHeapSize, FreshRegion, CarveH, Grown, StillBinned;
      ghost var t := top;
      v := CarveFromTop(z, block, m, l);
      if v == NULL {
        RetireTop(m, l);
        ghost var k := Hdr();
        v := CarveFromTop(z, block, m, l);
        BinnedStays(k, Hdr(), t);
      }
    }

    /** The search for a payload of z bytes, in the order of `_allocate`. */
    method AllocateChunk(z: int, block: Addr) returns (v: Addr)
      requires Good(base, Hdr(), Lst()) && NoneLoose(Hdr()) && Aligned(z) && MIN_PAYLOAD <= z < MMAP_THRESHOLD
      requires NeedsHeap(Hdr(), Lst(), z) ==>
                 |heaps| < MAX_HEAPS && FreshRegion(base, heaps, block, NextHeapSize(expoIters, constIters))
      modifies this
      ensures Served(base, old(Hdr()), old(Lst()), Hdr(), Lst(), v, z, 32)
      ensures Chosen(old(Hdr()), old(Lst()), Hdr(), v, z)
      ensures old(Growth()) ==> Growth()
    {
      hide Good, Served, NoneLoose, Filing, NextHeapSize, FreshRegion, HasExact, ExactChunk, WasBinned, NothingFits;
      hide CarveH, Filed, Larger, Grown, Chosen, TakenFrom;
      ghost var m, l := Hdr(), Lst();
      v := SearchExact(z);
      if v != NULL {
        ExactChosen(m, l, Hdr(), v, z);
      } else {
        v := SearchLarger(z);
        if v != NULL {
          LargerChosen(m, l, Hdr(), v, z);
        } else {
          v := TakeFromTop(z, block, m, l);
          TopChosen(m, l, Hdr(), v, z);
        }
      }
    }

    /** `_allocate`. `block` is where the operating system would map the next heap. */
    method Allocate(requested: int, block: Addr) returns (r: Outcome)
      requires 0 <= requested < SIZE_T
      requires Good(base, Hdr(), Lst()) && NoneLoose(Hdr())
      requires 0 < requested && PayloadFor(requested) < MMAP_THRESHOLD
               && NeedsHeap(Hdr(), Lst(), PayloadFor(requested)) ==>
                 |heaps| < MAX_HEAPS && FreshRegion(base, heaps, block, NextHeapSize(expoIters, constIters))
      modifies this
      ensures requested == 0 ==> r == Nothing
      ensures requested > 0 && PayloadFor(requested) >= MMAP_THRESHOLD ==> r == Mapped(PayloadFor(requested))
      ensures !r.Payload? ==> Hdr() == old(Hdr()) && Lst() == old(Lst())
      ensures old(Growth()) ==> Growth()
      ensures requested > 0 && PayloadFor(requested) < MMAP_THRESHOLD ==>
                && r.Payload?
                && Served(base, old(Hdr()), old(Lst()), Hdr(), Lst(), r.ptr - HEADER, PayloadFor(requested), 32)
                && Chosen(old(Hdr()), old(Lst()), Hdr(), r.ptr - HEADER, PayloadFor(requested))
    {
      hide Good, Served, NoneLoose, NextHeapSize, FreshRegion, HasExact, ExactChunk, WasBinned, NothingFits;
      hide CarveH, Filed, NoneBinned, Larger, Grown;
      if requested == 0 {
        return Nothing;
      }
      var z := PayloadFor(requested);
      if z >= MMAP_THRESHOLD {
        return Mapped(z);
      }
      var v := AllocateChunk(z, block);
      return Payload(v + HEADER);
    }
  }
}
