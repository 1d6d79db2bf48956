// The queues of the runtime: the ring in which a scheduler keeps tasks that wait for I/O, whose nodes the tasks point
// at, and the first-in first-out queue of ready and waiting tasks.
module WaitRing {
  class Task {
    var wq: WaitNode?

    constructor ()
      ensures wq == null
    {
      wq := null;
    }
  }

  class WaitNode {
    const t: Task
    var fd: WaitNode?
    var bk: WaitNode?

    constructor (t: Task)
      ensures this.t == t
    {
      this.t := t;
    }
  }

  function Succ(i: int, n: nat): int
  {
    if i + 1 == n then 0 else i + 1
  }

  function Pred(i: int, n: nat): int
  {
    if i == 0 then n - 1 else i - 1
  }

  ghost predicate Distinct<T>(s: seq<T>)
  {
    forall i, j :: 0 <= i < j < |s| ==> s[i] != s[j]
  }

  /** The nodes form a ring in this order. */
  ghost predicate Ring(s: seq<WaitNode>)
    reads s
  {
    && (forall i {:trigger s[i].fd} :: 0 <= i < |s| ==> s[i].fd == s[Succ(i, |s|)])
    && (forall i {:trigger s[i].bk} :: 0 <= i < |s| ==> s[i].bk == s[Pred(i, |s|)])
  }

  /** Each node belongs to the task that points at it. */
  ghost predicate Owned(s: seq<WaitNode>, tasks: seq<Task>)
    reads tasks
  {
    |s| == |tasks| && forall i {:trigger s[i]} {:trigger tasks[i]} :: 0 <= i < |s| ==>
        s[i].t == tasks[i] && tasks[i].wq == s[i]
  }

  /** The sequence without its k-th element. */
  function Without<T>(s: seq<T>, k: nat): seq<T>
    requires k < |s|
  {
    s[..k] + s[k + 1..]
  }

  /** The node n comes before the first node of a ring. */
  method Splice(n: WaitNode, ghost s: seq<WaitNode>, head: WaitNode, ghost last: WaitNode)
    requires s != [] && s[0] == head && s[|s| - 1] == last && Ring(s) && Distinct(s) && n !in s
    modifies n`fd, n`bk, head`bk, last`fd
    ensures Ring([n] + s)
  {
    ghost var z := |s| - 1;
    assert head.bk == s[z];
    n.fd := head;
    n.bk := head.bk;
    head.bk.fd := n;
    head.bk := n;
    ghost var r := [n] + s;
    forall i | 0 <= i < |r|
      ensures r[i].fd == r[Succ(i, |r|)] && r[i].bk == r[Pred(i, |r|)]
    {
      if i > 0 {
        assert r[i] == s[i - 1];
        assert i - 1 < z ==> s[i - 1].fd == old(s[i - 1].fd) == s[i];
        assert i - 1 > 0 ==> s[i - 1].bk == old(s[i - 1].bk) == s[i - 2];
      }
    }
  }

  /** The place that the i-th of the others has in the whole sequence. */
  function Place(i: int, k: nat): int
  {
    if i < k then i else i + 1
  }

  /** Without its k-th element a sequence has the same neighbours, except where that element stood between them. */
  lemma WithoutAt<T>(s: seq<T>, k: nat, i: int)
    requires k < |s| && 0 <= i < |s| - 1
    ensures |Without(s, k)| == |s| - 1 && Without(s, k)[i] == s[Place(i, k)]
    ensures var n, j := |s|, Place(i, k);
            && Without(s, k)[Succ(i, n - 1)] == s[if Succ(j, n) == k then Succ(k, n) else Succ(j, n)]
            && Without(s, k)[Pred(i, n - 1)] == s[if Pred(j, n) == k then Pred(k, n) else Pred(j, n)]
  {
    var r := Without(s, k);
    assert forall x :: 0 <= x < |r| ==> r[x] == s[Place(x, k)];
  }

  /** The k-th node leaves a ring of more than one. */
  method Unlink(wq: WaitNode, ghost s: seq<WaitNode>, ghost k: nat, ghost next: WaitNode, ghost prev: WaitNode)
    requires k < |s| && |s| > 1 && s[k] == wq && s[Succ(k, |s|)] == next && s[Pred(k, |s|)] == prev && Ring(s)
             && Distinct(s)
    modifies next`bk, prev`fd
    ensures Ring(Without(s, k))
  {
    hide Without;
    ghost var n := |s|;
    assert wq.fd == next && wq.bk == prev;
    wq.fd.bk := wq.bk;
    wq.bk.fd := wq.fd;
    ghost var r := Without(s, k);
    WithoutAt(s, k, 0);
    forall i | 0 <= i < |r|
      ensures r[i].fd == r[Succ(i, |r|)] && r[i].bk == r[Pred(i, |r|)]
    {
      WithoutAt(s, k, i);
      var j := Place(i, k);
      assert s[j] != prev ==> s[j].fd == old(s[j].fd);
      assert s[j] != next ==> s[j].bk == old(s[j].bk);
    }
  }

  class WaitQueue {
    var head: WaitNode?
    ghost var nodes: seq<WaitNode>
    ghost var tasks: seq<Task>

    ghost predicate Valid()
      reads this, nodes, tasks
    {
      && head == (if nodes == [] then null else nodes[0])
      && Distinct(nodes) && Ring(nodes) && Owned(nodes, tasks)
    }

    constructor ()
      ensures Valid() && tasks == []
    {
      head, nodes, tasks := null, [], [];
    }

    /** `unsafe_ioq_push`: a task that is in no ring comes to the head. */
    method Push(t: Task)
      requires Valid() && t.wq == null
      modifies this, nodes, t
      ensures Valid() && tasks == [t] + old(tasks) && fresh(nodes[0]) && nodes[1..] == old(nodes)
    {
      ghost var s := nodes;
      assert t !in tasks && Distinct(s);
      var n := new WaitNode(t);
      if head == null {
        n.fd, n.bk := n, n;
      } else {
        Splice(n, s, head, s[|s| - 1]);
      }
      t.wq := n;
      head := n;
      nodes, tasks := [n] + s, [t] + tasks;
    }

    /** The k-th node leaves the ring, and the head moves on if it has to. */
    method TakeOut(wq: WaitNode, ghost s: seq<WaitNode>, ghost k: nat, ghost next: WaitNode, ghost prev: WaitNode)
      requires k < |s| && s[k] == wq && s[Succ(k, |s|)] == next && s[Pred(k, |s|)] == prev && Ring(s) && Distinct(s)
      requires head == s[0]
      modifies this`head, next`bk, prev`fd
      ensures Ring(Without(s, k)) && head == (if |s| == 1 then null else Without(s, k)[0])
    {
      hide Ring;
      RingAt(s, k);
      if wq.fd == wq {
        head := null;
        assert Without(s, k) == [];
        NoRing();
      } else {
        Unlink(wq, s, k, next, prev);
        if head == wq {
          head := wq.fd;
        }
      }
    }

    /** `unsafe_ioq_remove`: a task of this ring is taken out; any other task is left alone. */
    method Remove(t: Task) returns (removed: bool)
      requires Valid() && (t.wq != null ==> t in tasks)
      modifies this, nodes, t
      ensures Valid() && t.wq == null && (removed <==> t in old(tasks))
      ensures removed ==> exists k :: 0 <= k < |old(tasks)| && old(tasks)[k] == t && tasks == Without(old(tasks), k)
      ensures !removed ==> tasks == old(tasks) && nodes == old(nodes)
    {
      hide Ring, Distinct, Without;
      ghost var s, ts := nodes, tasks;
      var wq := t.wq;
      removed := wq != null && head != null;
      if t in ts {
        OwnerAt(s, ts, t);
      }
      if removed {
        ghost var k :| 0 <= k < |ts| && ts[k] == t;
        Shorter(s, ts, k);
        ghost var ns, rest := Without(s, k), Without(ts, k);
        assert Owned(ns, rest) && t !in rest && |ns| == |rest|;
        TakeOut(wq, s, k, s[Succ(k, |s|)], s[Pred(k, |s|)]);
        assert Owned(ns, rest);
        wq.fd, wq.bk := null, null;
        assert Owned(ns, rest);
        t.wq := null;
        assert Owned(ns, rest);
        nodes, tasks := ns, rest;
      }
    }
  }

  /** The neighbours of a node, and when it is alone. */
  lemma RingAt(s: seq<WaitNode>, k: nat)
    requires Ring(s) && Distinct(s) && k < |s|
    ensures s[k].fd == s[Succ(k, |s|)] && s[k].bk == s[Pred(k, |s|)] && (s[k].fd == s[k] <==> |s| == 1)
  {
  }

  lemma NoRing()
    ensures Ring([])
  {
  }

  /** A task of the ring points at its node. */
  lemma OwnerAt(s: seq<WaitNode>, ts: seq<Task>, t: Task)
    requires Owned(s, ts) && t in ts
    ensures t.wq != null && s != []
  {
  }

  /** The others, without the k-th node and its task. */
  lemma Shorter(s: seq<WaitNode>, ts: seq<Task>, k: nat)
    requires Distinct(s) && Owned(s, ts) && k < |ts|
    ensures |s| == |ts| && s[k] == ts[k].wq && Owned(Without(s, k), Without(ts, k)) && Distinct(Without(s, k))
    ensures s[k] !in Without(s, k) && ts[k] !in Without(ts, k) && (|Without(s, k)| == |s| - 1)
    ensures forall x :: x in Without(s, k) ==> x in s
  {
    assert forall i :: 0 <= i < |s| ==> ts[i].wq == s[i];
  }

  // ---- First in, first out ----

  class QueueNode {
    const t: Task?
    var next: QueueNode?

    constructor (t: Task?)
      ensures this.t == t && next == null
    {
      this.t := t;
      next := null;
    }
  }

  ghost predicate Chain(s: seq<QueueNode>)
    reads s
  {
    forall i {:trigger s[i].next} :: 0 <= i < |s| ==> s[i].next == if i + 1 < |s| then s[i + 1] else null
  }

  class SafeQueue {
    var head: QueueNode?
    var tail: QueueNode?
    ghost var nodes: seq<QueueNode>
    ghost var contents: seq<Task?>

    ghost predicate Valid()
      reads this, nodes
    {
      && (if nodes == [] then head == null && tail == null else head == nodes[0] && tail == nodes[|nodes| - 1])
      && Distinct(nodes) && Chain(nodes)
      && |contents| == |nodes| && forall i {:trigger contents[i]} :: 0 <= i < |nodes| ==> contents[i] == nodes[i].t
    }

    constructor ()
      ensures Valid() && contents == []
    {
      head, tail, nodes, contents := null, null, [], [];
    }

    /** `safe_q_push`; null is a request to stop. */
    method Push(t: Task?)
      requires Valid()
      modifies this, nodes
      ensures Valid() && contents == old(contents) + [t]
    {
      ghost var s := nodes;
      var n := new QueueNode(t);
      if tail == null {
        head, tail := n, n;
      } else {
        tail.next := n;
        tail := n;
      }
      nodes, contents := s + [n], contents + [t];
      assert forall i :: 0 <= i < |s| - 1 ==> s[i].next == old(s[i].next);
    }

    /** `safe_q_pop`: the oldest entry, or null if there is none. */
    method Pop() returns (t: Task?)
      requires Valid()
      modifies this
      ensures Valid()
      ensures if old(contents) == [] then t == null && contents == []
              else t == old(contents)[0] && contents == old(contents)[1..]
    {
      var n := head;
      if n == null {
        return null;
      }
      assert nodes[0].next == if |nodes| > 1 then nodes[1] else null;
      head := n.next;
      if head == null {
        tail := null;
      }
      nodes, contents := nodes[1..], contents[1..];
      t := n.t;
    }
  }
}
