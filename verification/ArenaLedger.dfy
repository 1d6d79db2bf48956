// Whole runs of an arena: a ledger of the payloads that are out, kept through any sequence of requests, returns,
// collections and writes of the owners.
module ArenaLedger {
  import opened ChunkLayout
  import opened Rings
  import opened Blocks
  import opened BinLists
  import opened ArenaSteps
  import opened Payloads
  import opened ArenaSpec
  import opened AllocSpec
  import opened ArenaModel
  import opened GcWalk
  import opened GcTop
  import opened GcSweep
  import opened OwnerWrites

  /** What each payload that is out was asked for. */
  type Ledger = map<Addr, int>

  /** The arena is well formed, and its live chunks are exactly the payloads that are out, each at least as large as
      what was asked for and small enough to be returned to the arena. */
  ghost predicate Balanced(base: Addr, m: Headers, l: Lists, out: Ledger)
  {
    && Good(base, m, l) && NoneLoose(m) && Bounded(m)
    && (forall p :: p in out ==> Live(m, p - HEADER) && out[p] <= m.size(p - HEADER))
    && (forall c {:trigger Live(m, c)} :: Live(m, c) ==> c + HEADER in out)
  }

  /** Payloads that are out are aligned and do not overlap. */
  lemma Disjoint(base: Addr, m: Headers, l: Lists, out: Ledger, p: Addr, q: Addr)
    requires Balanced(base, m, l, out) && p in out && q in out && p != q
    ensures Aligned(p) && Aligned(q) && (p + out[p] <= q || q + out[q] <= p)
  {
    hide Good;
    LivePayloads(base, m, l, p - HEADER, q - HEADER);
    LivePayloads(base, m, l, q - HEADER, p - HEADER);
  }

  lemma BalancedGood(base: Addr, m: Headers, l: Lists, out: Ledger)
    requires Balanced(base, m, l, out)
    ensures Good(base, m, l) && NoneLoose(m) && Bounded(m)
    ensures forall p :: p in out ==> p != NULL && Live(m, p - HEADER) && m.size(p - HEADER) < MMAP_THRESHOLD
  {
  }

  /** Requests of this size are served from the arena, and what serves them can be returned to it. */
  predicate Ordinary(requested: int)
  {
    0 < requested <= MMAP_THRESHOLD - 48
  }

  lemma OrdinaryPayload(requested: int)
    requires Ordinary(requested)
    ensures requested <= PayloadFor(requested) <= MMAP_THRESHOLD - 48
  {
  }

  /** The bytes of the payloads on the ledger are as they were. */
  ghost predicate BytesStay(m: Headers, l: Lists, k: Headers, lk: Lists, out: Ledger)
  {
    forall q :: q in out ==> WordsSame(m, l, k, lk, q, q + m.size(q - HEADER))
  }

  /** A request puts one new payload on the ledger, and leaves the bytes of all others alone. */
  method Request(a: Arena, out: Ledger, requested: int, block: Addr) returns (p: Addr, out': Ledger)
    requires Balanced(a.base, a.Hdr(), a.Lst(), out) && Ordinary(requested)
    requires NeedsHeap(a.Hdr(), a.Lst(), PayloadFor(requested)) ==>
               |a.heaps| < MAX_HEAPS && FreshRegion(a.base, a.heaps, block, NextHeapSize(a.expoIters, a.constIters))
    modifies a
    ensures p !in out && out' == out[p := requested] && Balanced(a.base, a.Hdr(), a.Lst(), out')
    ensures BytesStay(old(a.Hdr()), old(a.Lst()), a.Hdr(), a.Lst(), out) && (old(a.Growth()) ==> a.Growth())
  {
    hide Good, BytesStay, Balanced, Served, NoneLoose, NextHeapSize, FreshRegion, Chosen, Live, PayloadFor, NeedsHeap;
    ghost var m, l := a.Hdr(), a.Lst();
    BalancedGood(a.base, m, l, out);
    OrdinaryPayload(requested);
    var r := a.Allocate(requested, block);
    p := r.ptr;
    out' := out[p := requested];
    Entered(a.base, m, l, a.Hdr(), a.Lst(), p, requested, out);
  }

  lemma Entered(base: Addr, m: Headers, l: Lists, k: Headers, lk: Lists, p: Addr, requested: int, out: Ledger)
    requires Balanced(base, m, l, out) && Ordinary(requested)
    requires Served(base, m, l, k, lk, p - HEADER, PayloadFor(requested), 32)
    ensures p !in out && Balanced(base, k, lk, out[p := requested]) && BytesStay(m, l, k, lk, out)
  {
    hide Good, NoneLoose, Frame, PayloadFor, WordsSame;
    OrdinaryPayload(requested);
    ServedStaysBounded(base, m, l, k, lk, p - HEADER, PayloadFor(requested));
    forall q | q in out
      ensures Live(k, q - HEADER) && out[q] <= k.size(q - HEADER) && WordsSame(m, l, k, lk, q, q + m.size(q - HEADER))
    {
      ServedKeepsPayloads(base, m, l, k, lk, p - HEADER, PayloadFor(requested), q - HEADER);
    }
  }

  /** A returned payload leaves the ledger, and the bytes of all others stay. */
  method Return(a: Arena, out: Ledger, p: Addr) returns (out': Ledger)
    requires Balanced(a.base, a.Hdr(), a.Lst(), out) && p in out
    modifies a
    ensures out' == out - {p} && Balanced(a.base, a.Hdr(), a.Lst(), out')
    ensures BytesStay(old(a.Hdr()), old(a.Lst()), a.Hdr(), a.Lst(), out') && (old(a.Growth()) ==> a.Growth())
  {
    hide Good, BytesStay, Balanced, NoneLoose, Keeps, GivenBack, ReleaseH, Live;
    ghost var m, l := a.Hdr(), a.Lst();
    BalancedGood(a.base, m, l, out);
    var unmapped := a.Release(p);
    out' := out - {p};
    Left(a.base, m, l, a.Hdr(), a.Lst(), p, out);
  }

  lemma Left(base: Addr, m: Headers, l: Lists, k: Headers, lk: Lists, p: Addr, out: Ledger)
    requires Balanced(base, m, l, out) && p in out && NoneLoose(k)
    requires Keeps(base, m, l, k, lk) && GivenBack(m, k, p - HEADER)
    ensures Balanced(base, k, lk, out - {p}) && BytesStay(m, l, k, lk, out - {p})
  {
    hide Good, NoneLoose, WordsSame, Frame;
    forall c | Live(k, c)
      ensures k.size(c) == m.size(c) && c + HEADER in out - {p}
    {
      ReleaseKeepsPayloads(base, m, l, k, lk, p - HEADER, c);
    }
    forall q | q in out - {p}
      ensures Live(k, q - HEADER) && out[q] <= k.size(q - HEADER) && WordsSame(m, l, k, lk, q, q + m.size(q - HEADER))
    {
      ReleaseKeepsPayloads(base, m, l, k, lk, p - HEADER, q - HEADER);
    }
  }

  // ---- Collections ----

  /** A collection takes exactly the unmarked payloads off the ledger, and the bytes of all others stay.  The next one
      is safe too exactly if StaysClear holds before. */
  method Collect(a: Arena, out: Ledger) returns (out': Ledger)
    requires Balanced(a.base, a.Hdr(), a.Lst(), out) && TopClear(a.Hdr())
    modifies a
    ensures out' == map p | p in out && old(a.marked)(p - HEADER) :: out[p]
    ensures Balanced(a.base, a.Hdr(), a.Lst(), out')
    ensures BytesStay(old(a.Hdr()), old(a.Lst()), a.Hdr(), a.Lst(), out') && (old(a.Growth()) ==> a.Growth())
    ensures TopClear(a.Hdr()) <==> StaysClear(old(a.Hdr()))
  {
    hide Good, BytesStay, Balanced, NoneLoose, Keeps, Live, SweptAll, TopClear, StaysClear, ScanAfter, Bounded, Strayed;
    ghost var m, l := a.Hdr(), a.Lst();
    BalancedGood(a.base, m, l, out);
    var marked := a.marked;
    var visited, released, stray, n := Sweep(a);
    out' := map p | p in out && marked(p - HEADER) :: out[p];
    Collected(a.base, m, l, a.Hdr(), a.Lst(), visited, released, out);
    GoodHeaders(a.base, m, l);
    ClearAfterSweep(a.base, m, n);
  }

  lemma GoodHeaders(base: Addr, m: Headers, l: Lists)
    requires Good(base, m, l)
    ensures HeadersOk(base, m)
  {
  }

  /** What stays on the ledger when the unmarked payloads leave it. */
  function Marked(m: Headers, out: Ledger): Ledger
  {
    map p | p in out && m.marked(p - HEADER) :: out[p]
  }

  lemma Collected(base: Addr, m: Headers, l: Lists, k: Headers, lk: Lists,
                  visited: seq<Addr>, released: seq<Addr>, out: Ledger)
    requires Balanced(base, m, l, out) && NoneLoose(k) && Keeps(base, m, l, k, lk)
    requires SweptAll(m, k, visited, released)
    ensures Balanced(base, k, lk, Marked(m, out)) && BytesStay(m, l, k, lk, Marked(m, out))
  {
    hide Good, Frame, WordsSame, NoneLoose, Distinct, Marked, Live;
    forall c | Live(k, c)
      ensures k.size(c) == m.size(c) && c + HEADER in Marked(m, out)
    {
      KeptPayload(base, m, l, k, lk, c);
      OnLedger(m, out, c + HEADER);
    }
    forall q | q in Marked(m, out)
      ensures Live(k, q - HEADER) && Marked(m, out)[q] <= k.size(q - HEADER)
      ensures WordsSame(m, l, k, lk, q, q + m.size(q - HEADER))
    {
      OnLedger(m, out, q);
      KeptPayload(base, m, l, k, lk, q - HEADER);
    }
  }

  lemma OnLedger(m: Headers, out: Ledger, q: Addr)
    ensures q in Marked(m, out) <==> q in out && m.marked(q - HEADER)
    ensures q in Marked(m, out) ==> Marked(m, out)[q] == out[q]
  {
  }

  lemma KeptPayload(base: Addr, m: Headers, l: Lists, k: Headers, lk: Lists, c: Addr)
    requires Good(base, m, l) && Keeps(base, m, l, k, lk) && Live(m, c) && Live(k, c)
    ensures k.size(c) == m.size(c) && WordsSame(m, l, k, lk, c + HEADER, Next(m.size, c))
  {
    hide ListsOk, WordsSame;
    PayloadKept(base, m, l, k, lk, c);
  }

  // ---- Writes of the owners ----

  /** Whatever an owner writes into its payload, the ledger stays balanced and the bytes of all others stay. */
  lemma OwnersWrite(base: Addr, m: Headers, l: Lists, k: Headers, lk: Lists, out: Ledger, p: Addr)
    requires Balanced(base, m, l, out) && p in out && OnlyInside(m, l, k, lk, p, p + m.size(p - HEADER))
    ensures Balanced(base, k, lk, out) && BytesStay(m, l, k, lk, out - {p})
  {
    hide Good, OnlyInside, WordsSame;
    WritesKeepGood(base, m, l, k, lk, p - HEADER);
    forall c
      ensures Live(k, c) <==> Live(m, c)
      ensures Live(m, c) ==> k.size(c) == m.size(c)
    {
    }
    forall q | q in out - {p}
      ensures WordsSame(m, l, k, lk, q, q + m.size(q - HEADER))
    {
      LivePayloads(base, m, l, p - HEADER, q - HEADER);
      ApartSame(m, l, k, lk, p, p + m.size(p - HEADER), q, q + m.size(q - HEADER));
    }
  }
}
