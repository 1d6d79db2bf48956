/** Circular doubly linked lists with a sentinel, over two address-indexed link fields. */
module Rings {
  import opened ChunkLayout

  type Links = Addr -> Addr

  /** A number field after storing v at a. */
  function Put(f: Addr -> int, a: Addr, v: int): Addr -> int
  {
    x => if x == a then v else f(x)
  }

  /** A flag after storing v at a. */
  function Flag(f: Addr -> bool, a: Addr, v: bool): Addr -> bool
  {
    x => if x == a then v else f(x)
  }

  ghost predicate Distinct(s: seq<Addr>)
  {
    forall i, j :: 0 <= i < j < |s| ==> s[i] != s[j]
  }

  /** The successor of position i in the ring h, s[0], s[1], ..., back to h. */
  ghost function After(h: Addr, s: seq<Addr>, i: int): Addr
    requires -1 <= i < |s|
  {
    if i + 1 < |s| then s[i + 1] else h
  }

  ghost function Before(h: Addr, s: seq<Addr>, i: int): Addr
    requires 0 <= i <= |s|
  {
    if i > 0 then s[i - 1] else h
  }

  /** The ring of sentinel h holds exactly the nodes s, in that order, in both directions. */
  ghost predicate Ring(fd: Links, bk: Links, h: Addr, s: seq<Addr>)
  {
    && h !in s
    && Distinct(s)
    && fd(h) == After(h, s, -1)
    && bk(h) == Before(h, s, |s|)
    && forall i {:trigger fd(s[i])} {:trigger bk(s[i])} :: 0 <= i < |s| ==>
       fd(s[i]) == After(h, s, i) && bk(s[i]) == Before(h, s, i)
  }

  ghost function Without(s: seq<Addr>, k: int): seq<Addr>
    requires 0 <= k < |s|
  {
    s[..k] + s[k + 1..]
  }

  ghost function Insert(s: seq<Addr>, k: int, x: Addr): seq<Addr>
    requires 0 <= k <= |s|
  {
    s[..k] + [x] + s[k..]
  }

  lemma RingUnlink(fd: Links, bk: Links, h: Addr, s: seq<Addr>, k: int, fd': Links, bk': Links)
    requires Ring(fd, bk, h, s) && 0 <= k < |s|
    requires fd' == Put(Put(fd, bk(s[k]), fd(s[k])), s[k], NULL)
    requires bk' == Put(Put(bk, fd(s[k]), bk(s[k])), s[k], NULL)
    ensures Ring(fd', bk', h, Without(s, k))
  {
    var t := Without(s, k);
    forall i | 0 <= i < |t|
      ensures fd'(t[i]) == After(h, t, i) && bk'(t[i]) == Before(h, t, i)
    {
      assert t[i] == if i < k then s[i] else s[i + 1];
    }
  }

  lemma RingInsert(fd: Links, bk: Links, h: Addr, s: seq<Addr>, k: int, x: Addr, fd': Links, bk': Links)
    requires Ring(fd, bk, h, s) && 0 <= k <= |s| && x !in s && x != h
    requires fd' == Put(Put(fd, x, After(h, s, k - 1)), Before(h, s, k), x)
    requires bk' == Put(Put(bk, x, Before(h, s, k)), After(h, s, k - 1), x)
    ensures Ring(fd', bk', h, Insert(s, k, x))
  {
    var t := Insert(s, k, x);
    forall i | 0 <= i < |t|
      ensures fd'(t[i]) == After(h, t, i) && bk'(t[i]) == Before(h, t, i)
    {
      assert t[i] == if i < k then s[i] else if i == k then x else s[i - 1];
    }
  }

  /** Every neighbour of a ring node is a node of the same ring or its sentinel. */
  lemma RingNeighbours(fd: Links, bk: Links, h: Addr, s: seq<Addr>, k: int)
    requires Ring(fd, bk, h, s) && 0 <= k < |s|
    ensures fd(s[k]) == h || fd(s[k]) in s
    ensures bk(s[k]) == h || bk(s[k]) in s
    ensures fd(h) == h || fd(h) in s
  {
  }

  lemma RingFrame(fd: Links, bk: Links, h: Addr, s: seq<Addr>, fd': Links, bk': Links)
    requires Ring(fd, bk, h, s)
    requires forall x :: x == h || x in s ==> fd'(x) == fd(x) && bk'(x) == bk(x)
    ensures Ring(fd', bk', h, s)
  {
    forall i | 0 <= i < |s|
      ensures fd'(s[i]) == After(h, s, i) && bk'(s[i]) == Before(h, s, i)
    {
      assert s[i] in s;
    }
  }
}
