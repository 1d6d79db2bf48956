/** Sizes, alignment and bin indexing of the arena allocator. */
module ChunkLayout {
  type Addr = int

  const NULL: Addr := 0
  const HEADER: int := 16
  const MIN_PAYLOAD: int := 32
  const FASTBINS: int := 7
  const SMALLBINS: int := 32
  const LARGEBINS: int := 64
  const MMAP_THRESHOLD: int := 131072
  const MAX_HEAPS: int := 159
  const SIZE_T: int := 0x1_0000_0000_0000_0000

  /** Rounds up to 16 in 64-bit arithmetic: the addition wraps around. */
  function Align16(n: int): (r: int)
    requires 0 <= n < SIZE_T
    ensures r % 16 == 0 && 0 <= r < SIZE_T
    ensures n <= SIZE_T - 16 ==> n <= r < n + 16
    ensures n > SIZE_T - 16 ==> r == 0
  {
    (n + 15) % SIZE_T / 16 * 16
  }

  /** The payload size that `_allocate` looks for. */
  function PayloadFor(n: int): (r: int)
    requires 0 <= n < SIZE_T
    ensures r % 16 == 0 && r >= MIN_PAYLOAD
    ensures n <= SIZE_T - 16 ==> r == MIN_PAYLOAD || r < n + 16
  {
    var p := Align16(n);
    if p < MIN_PAYLOAD then MIN_PAYLOAD else p
  }

  /** A payload covers its request exactly when the alignment does not wrap around. */
  lemma PayloadCoversRequest(n: int)
    requires 0 <= n < SIZE_T
    ensures n <= PayloadFor(n) <==> n <= SIZE_T - 16
  {
  }

  /** The wrap-around in numbers: the largest request is served with 32 bytes. */
  lemma LargestRequestIsTruncated()
    ensures PayloadFor(SIZE_T - 1) == 32
  {
    assert Align16(SIZE_T - 1) == 0;
  }

  function SmallBinIndex(size: int): int
  {
    size / 16 - 1
  }

  function Pow2(n: nat): (r: int)
    ensures r >= 1
  {
    if n == 0 then 1 else 2 * Pow2(n - 1)
  }

  function FloorLog2(x: int): (r: nat)
    requires x >= 1
    ensures x >= 2 ==> r >= 1
  {
    if x < 2 then 0 else 1 + FloorLog2(x / 2)
  }

  function LargeBinIndex(size: int): (r: int)
    ensures size < 512 <==> r < 0
    ensures r < LARGEBINS
  {
    if size < 512 then -1
    else if size <= 64 * 1024 then
      var idx := (size - 512) / 64;
      if idx > 31 then 31 else idx
    else
      var idx := 32 + (FloorLog2(size) - 16);
      if idx < 32 then 32 else if idx > 63 then 63 else idx
  }

  /** The logarithm is exact: x lies between two powers of two. */
  lemma {:induction false} FloorLog2Exact(x: int)
    requires x >= 1
    ensures Pow2(FloorLog2(x)) <= x < 2 * Pow2(FloorLog2(x))
  {
    if x >= 2 {
      FloorLog2Exact(x / 2);
    }
  }

  lemma {:induction false} Log2AtLeast(x: int, n: nat)
    requires x >= Pow2(n)
    ensures FloorLog2(x) >= n
  {
    if n > 0 {
      Log2AtLeast(x / 2, n - 1);
    }
  }

  /** Which sizes share a large bin: steps of 64 bytes, then one bin up to 64 KB, then one bin for each power of two. */
  lemma LargeBinRange(size: int)
    requires size >= 512
    ensures var i := LargeBinIndex(size);
            && (i < 31 ==> 512 + 64 * i <= size < 576 + 64 * i)
            && (i == 31 ==> 2496 <= size <= 65536)
            && (32 <= i < 63 ==> Pow2(i - 16) <= size < 2 * Pow2(i - 16))
            && (i == 63 ==> Pow2(47) <= size)
  {
    if size > 65536 {
      assert Pow2(4) == 16;
      assert Pow2(8) == 256;
      assert Pow2(12) == 4096;
      assert Pow2(16) == 65536;
      Log2AtLeast(size, 16);
      FloorLog2Exact(size);
      Pow2Monotone(47, FloorLog2(size));
    }
  }

  lemma {:induction false} Pow2Monotone(a: nat, b: nat)
    ensures a <= b ==> Pow2(a) <= Pow2(b)
  {
    if a < b {
      Pow2Monotone(a, b - 1);
    }
  }

  lemma {:induction false} FloorLog2Monotone(x: int, y: int)
    requires 1 <= x <= y
    ensures FloorLog2(x) <= FloorLog2(y)
  {
    if x >= 2 {
      FloorLog2Monotone(x / 2, y / 2);
    }
  }

  /** Larger chunks never go to a lower large bin, so a lower bin holds only smaller chunks. */
  lemma LargeBinIndexMonotone(x: int, y: int)
    requires x <= y
    ensures LargeBinIndex(x) <= LargeBinIndex(y)
  {
    if 64 * 1024 < x {
      FloorLog2Monotone(x, y);
    }
  }

  /** Size of the next heap: doubling from 1 MB to 64 MB, then growing by 64 MB a step. */
  function NextHeapSize(expo: nat, lin: nat): (r: int)
    ensures r % 16 == 0 && r >= 1024 * 1024
  {
    if 1024 * 1024 * Pow2(expo) <= 64 * 1024 * 1024
    then 1024 * 1024 * Pow2(expo)
    else 64 * 1024 * 1024 + 64 * 1024 * 1024 * lin
  }

  /** Size of the k-th heap of an arena. */
  function HeapBytes(k: nat): int
  {
    if k == 0 then 1048576
    else if k < 7 then 2 * HeapBytes(k - 1)
    else if k == 7 then 67108864
    else HeapBytes(k - 1) + 67108864
  }

  /** The same without recursion: 1 MB doubled k times, and 64 MB more with every heap from the seventh on. */
  lemma {:induction false} HeapBytesAre(k: nat)
    ensures HeapBytes(k) == if k < 7 then 1048576 * Pow2(k) else 67108864 * (k - 6)
  {
    if k > 0 && k != 7 {
      HeapBytesAre(k - 1);
    }
  }

  /** With the counters that belong to n heaps the next heap has the n-th size. */
  lemma NextHeapIs(n: nat)
    ensures NextHeapSize(if n < 7 then n else 7, if n < 7 then 0 else n - 7) == HeapBytes(n)
  {
    HeapBytesAre(n);
    assert Pow2(4) == 16;
    assert Pow2(6) == 64;
    assert Pow2(7) == 128;
    if n < 7 {
      Pow2Monotone(n, 6);
    }
  }
}
