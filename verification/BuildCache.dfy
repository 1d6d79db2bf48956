// Which packages have to be built again: the import graph below the start package, and the spread of modifications
// from packages to those that import them.
module BuildCache {
  import opened ImportGraph

  /** Package x has been visited completely: all its imports are recorded, and visited. */
  ghost predicate Recorded(g: Graph, graph: Graph, x: Pkg)
  {
    x in graph && graph[x] == At(g, x) && forall q :: q in graph[x] ==> q in graph
  }

  /** From graph g0 the walk from p has come to g1: what is new can be reached from p and has been recorded. */
  ghost predicate Walked(g: Graph, p: Pkg, g0: Graph, g1: Graph)
  {
    && p in g1 && g0.Keys <= g1.Keys
    && (forall x :: x in g0 ==> g1[x] == g0[x])
    && (forall x :: x in g1 && x !in g0 ==> Reaches(g, p, x) && Recorded(g, g1, x))
  }

  /** In the middle of p: some of its imports have been walked. */
  ghost predicate Walking(g: Graph, p: Pkg, done: seq<Pkg>, g0: Graph, g1: Graph)
  {
    && p in g1 && p !in g0 && g0.Keys <= g1.Keys && g1[p] == done
    && (forall x :: x in g0 ==> g1[x] == g0[x])
    && (forall x :: x in g1 && x !in g0 && x != p ==> Reaches(g, p, x) && Recorded(g, g1, x))
    && (forall q :: q in done ==> q in g1)
  }

  lemma WalkOn(g: Graph, p: Pkg, q: Pkg, done: seq<Pkg>, g0: Graph, g1: Graph,
               g2: Graph)
    requires Walking(g, p, done, g0, g1) && Walked(g, q, g1[p := done + [q]], g2) && Edge(g, p, q)
    ensures Walking(g, p, done + [q], g0, g2) && g1.Keys <= g2.Keys
  {
    ReachesEdge(g, p, q);
    forall x | x in g2 && x !in g0 && x != p
      ensures Reaches(g, p, x) && Recorded(g, g2, x)
    {
      if x in g1 {
        assert Recorded(g, g1, x);
      } else {
        ReachesTrans(g, p, q, x);
      }
    }
  }

  lemma WalkStarts(g: Graph, p: Pkg, g0: Graph)
    requires p !in g0
    ensures Walking(g, p, [], g0, g0[p := []])
  {
  }

  lemma WalkingAt(g: Graph, p: Pkg, done: seq<Pkg>, g0: Graph, g1: Graph)
    requires Walking(g, p, done, g0, g1)
    ensures p in g1 && g1[p] == done
  {
  }

  lemma WalkEnds(g: Graph, p: Pkg, g0: Graph, g1: Graph)
    requires Walking(g, p, At(g, p), g0, g1)
    ensures Walked(g, p, g0, g1)
  {
    ReachesSelf(g, p);
  }

  lemma NoWalk(g: Graph, p: Pkg, g0: Graph)
    requires p in g0
    ensures Walked(g, p, g0, g0)
  {
  }

  lemma NoImports()
    ensures UserImports([]) == []
  {
  }

  /** Imports of a longer body. */
  lemma MoreImports(body: seq<Import>, i: nat)
    requires i < |body|
    ensures UserImports(body[..i + 1])
         == if body[i].kind == User then UserImports(body[..i]) + [body[i].name] else UserImports(body[..i])
  {
    assert body[..i + 1][..i] == body[..i];
  }

  lemma {:induction false} ImportIn(body: seq<Import>, i: nat)
    requires i < |body| && body[i].kind == User
    ensures body[i].name in UserImports(body)
  {
    var n := |body| - 1;
    if i < n {
      ImportIn(body[..n], i);
    }
  }

  class ImportTree {
    const pkgs: Packages
    ghost const all: set<Pkg>
    var graph: Graph
    var visited: set<Pkg>

    constructor (pkgs: Packages, ghost start: Pkg)
      ensures this.pkgs == pkgs && graph == map[] && start in all && Valid()
    {
      this.pkgs, all := pkgs, Names(Imports(pkgs)) + {start};
      graph, visited := map[], {};
    }

    ghost predicate Valid()
      reads this
    {
      visited == graph.Keys && visited <= all && Names(Imports(pkgs)) <= all
    }

    /** `buildTree`: a package that was visited before is an error, which callers below the first ignore. */
    method BuildTree(p: Pkg) returns (cyclic: bool)
      requires Valid() && p in all
      modifies this
      ensures Valid() && Walked(Imports(pkgs), p, old(graph), graph) && (cyclic <==> p in old(graph))
      decreases all - visited
    {
      hide Walking, Walked, Names, UserImports, Edge;
      ghost var g := Imports(pkgs);
      cyclic := p in visited;
      if cyclic {
        NoWalk(g, p, graph);
      } else {
        ghost var g0 := graph;
        var body := if p in pkgs then pkgs[p] else [];
        graph := graph[p := []];
        visited := visited + {p};
        WalkStarts(g, p, g0);
        var i := 0;
        NoImports();
        while i < |body|
          invariant 0 <= i <= |body| && Valid() && old(visited) + {p} <= visited
          invariant Walking(g, p, UserImports(body[..i]), g0, graph)
        {
          if body[i].kind == User {
            var q := body[i].name;
            ImportIn(body, i);
            EdgeIs(pkgs, p, q);
            EdgeNames(g, p, q);
            WalkingAt(g, p, UserImports(body[..i]), g0, graph);
            ghost var g1 := graph;
            graph := graph[p := graph[p] + [q]];
            var ignored := BuildTree(q);
            WalkOn(g, p, q, UserImports(body[..i]), g0, g1, graph);
          }
          MoreImports(body, i);
          i := i + 1;
        }
        assert body[..|body|] == body;
        WalkEnds(g, p, g0, graph);
      }
    }
  }

  lemma EdgeIs(pkgs: Packages, p: Pkg, q: Pkg)
    requires p in pkgs && q in UserImports(pkgs[p])
    ensures Edge(Imports(pkgs), p, q)
  {
  }

  /** The walk from start finds exactly what start reaches. */
  lemma WalkFinds(g: Graph, start: Pkg, graph: Graph, p: Pkg)
    requires Walked(g, start, map[], graph)
    ensures p in graph <==> Reaches(g, start, p)
    ensures p in graph ==> graph[p] == At(g, p)
  {
    if Reaches(g, start, p) {
      forall x, q | x in graph.Keys && Edge(g, x, q)
        ensures q in graph.Keys
      {
        assert Recorded(g, graph, x);
      }
      ClosedReaches(g, graph.Keys, start, p);
    }
  }

  // ---- Who imports a package ----

  /** `reverseImportTree`. */
  method ReverseImportTree(graph: Graph) returns (rev: Graph)
    ensures forall p, q :: p in At(rev, q) <==> Edge(graph, p, q)
  {
    rev := map[];
    var todo := graph.Keys;
    while todo != {}
      invariant todo <= graph.Keys
      invariant forall p, q :: p in At(rev, q) <==> p !in todo && Edge(graph, p, q)
      decreases todo
    {
      var p :| p in todo;
      var imports := graph[p];
      todo := todo - {p};
      var j := 0;
      while j < |imports|
        invariant 0 <= j <= |imports|
        invariant forall x, q :: x in At(rev, q) <==> if x == p then q in imports[..j]
                  else x !in todo && Edge(graph, x, q)
      {
        ghost var before := rev;
        rev := rev[imports[j] := At(rev, imports[j]) + [p]];
        forall x, q
          ensures x in At(rev, q) <==> if x == p then q in imports[..j + 1] else x !in todo && Edge(graph, x, q)
        {
          assert imports[..j + 1] == imports[..j] + [imports[j]];
          assert At(rev, q) == if q == imports[j] then At(before, q) + [p] else At(before, q);
        }
        j := j + 1;
      }
      assert imports[..|imports|] == imports;
    }
  }

  // ---- The spread of modifications ----

  /** Everything in `dirty` was modified or leads, by the import graph, to something that was. */
  ghost predicate Justified(graph: Graph, initial: set<Pkg>, dirty: set<Pkg>)
  {
    forall x :: x in dirty ==> Stale(graph, initial, x)
  }

  /** x was modified or imports, directly or not, a package that was. */
  ghost predicate Stale(graph: Graph, initial: set<Pkg>, x: Pkg)
  {
    exists m :: m in initial && Reaches(graph, x, m)
  }

  lemma StaleOn(graph: Graph, initial: set<Pkg>, p: Pkg, x: Pkg)
    requires Stale(graph, initial, p) && Edge(graph, x, p)
    ensures Stale(graph, initial, x)
  {
    var m :| m in initial && Reaches(graph, p, m);
    ReachesEdge(graph, x, p);
    ReachesTrans(graph, x, p, m);
  }

  /** Whoever imports a dirty package is dirty, apart from importers of packages that still wait in the queue. */
  ghost predicate Spread(rev: Graph, dirty: set<Pkg>, queue: seq<Pkg>)
  {
    forall p, x :: p in dirty && p !in queue && x in At(rev, p) ==> x in dirty
  }

  lemma StaleSelf(graph: Graph, initial: set<Pkg>)
    ensures Justified(graph, initial, initial)
  {
    forall x | x in initial
      ensures Stale(graph, initial, x)
    {
      ReachesSelf(graph, x);
    }
  }

  /** Nothing waits any more: whatever imports something dirty is dirty. */
  lemma SpreadDone(graph: Graph, rev: Graph, initial: set<Pkg>, dirty: set<Pkg>)
    requires forall p, q :: p in At(rev, q) <==> Edge(graph, p, q)
    requires initial <= dirty && Spread(rev, dirty, []) && Justified(graph, initial, dirty)
    ensures forall x :: x in dirty <==> Stale(graph, initial, x)
  {
    forall x | Stale(graph, initial, x)
      ensures x in dirty
    {
      var m :| m in initial && Reaches(graph, x, m);
      var s :| From(graph, s, x, m);
      Backwards(graph, rev, dirty, s, 0);
    }
  }

  lemma {:induction false} Backwards(graph: Graph, rev: Graph, dirty: set<Pkg>, s: seq<Pkg>, i: nat)
    requires forall p, q :: p in At(rev, q) <==> Edge(graph, p, q)
    requires Spread(rev, dirty, []) && Path(graph, s) && s[|s| - 1] in dirty && i < |s|
    ensures s[i] in dirty
    decreases |s| - i
  {
    if i < |s| - 1 {
      Backwards(graph, rev, dirty, s, i + 1);
      assert s[i] in At(rev, s[i + 1]);
    }
  }

  /** The packages that import p become dirty, and those that were not wait to be visited. */
  method Visit(ghost initial: set<Pkg>, ghost graph: Graph, rev: Graph, p: Pkg, dirty0: set<Pkg>, queue0: seq<Pkg>)
    returns (dirty: set<Pkg>, queue: seq<Pkg>)
    requires forall p, q :: p in At(rev, q) <==> Edge(graph, p, q)
    requires p in dirty0 && Justified(graph, initial, dirty0) && Spread(rev, dirty0, [p] + queue0)
    requires Members(queue0) <= dirty0 <= initial + Names(graph)
    ensures dirty0 <= dirty && Justified(graph, initial, dirty) && Spread(rev, dirty, queue)
    ensures Members(queue) <= dirty <= initial + Names(graph) && (dirty == dirty0 ==> queue == queue0)
  {
    hide Stale, Names;
    dirty, queue := dirty0, queue0;
    var parents := At(rev, p);
    var j := 0;
    while j < |parents|
      invariant 0 <= j <= |parents| && dirty0 <= dirty && Justified(graph, initial, dirty)
      invariant forall x :: x in parents[..j] ==> x in dirty
      invariant forall y, x :: y in dirty && y != p && y !in queue && x in At(rev, y) ==> x in dirty
      invariant Members(queue) <= dirty <= initial + Names(graph) && (dirty == dirty0 ==> queue == queue0)
    {
      var parent := parents[j];
      assert Edge(graph, parent, p);
      EdgeNames(graph, parent, p);
      InNames(graph, parent);
      if parent !in dirty {
        StaleOn(graph, initial, p, parent);
        dirty := dirty + {parent};
        queue := queue + [parent];
      }
      j := j + 1;
    }
    assert parents[..|parents|] == parents;
  }

  lemma InNames(graph: Graph, p: Pkg)
    requires p in graph
    ensures p in Names(graph)
  {
  }

  lemma MembersEnds(q: seq<Pkg>, p: Pkg)
    ensures Members(q + [p]) == Members(q) + {p}
    ensures q != [] ==> q[0] in Members(q) && Members(q[1..]) <= Members(q) && q == [q[0]] + q[1..]
  {
    forall x | x in Members(q)
      ensures x in Members(q + [p])
    {
      var i :| 0 <= i < |q| && q[i] == x;
      assert (q + [p])[i] == x;
    }
    assert (q + [p])[|q|] == p;
  }

  /** The modified packages, in any order. */
  method Seeds(initial: set<Pkg>) returns (queue: seq<Pkg>)
    ensures Members(queue) == initial
  {
    hide Members;
    queue := [];
    var todo := initial;
    assert Members(queue) == {} by {
      MembersNone();
    }
    while todo != {}
      invariant todo <= initial && Members(queue) == initial - todo
      decreases todo
    {
      var p :| p in todo;
      todo := todo - {p};
      MembersEnds(queue, p);
      queue := queue + [p];
    }
  }

  lemma MembersNone()
    ensures Members([]) == {}
  {
  }

  /** `propagateModified`: breadth first, from the modified packages to those that import them. */
  method PropagateModified(initial: set<Pkg>, ghost graph: Graph, rev: Graph) returns (dirty: set<Pkg>)
    requires forall p, q :: p in At(rev, q) <==> Edge(graph, p, q)
    ensures forall x :: x in dirty <==> Stale(graph, initial, x)
  {
    hide Stale, Justified, Names, Members, Edge;
    dirty := initial;
    var queue := Seeds(initial);
    StaleSelf(graph, initial);
    SpreadAll(rev, initial, queue);
    while queue != []
      invariant initial <= dirty && Justified(graph, initial, dirty) && Spread(rev, dirty, queue)
      invariant Members(queue) <= dirty <= initial + Names(graph)
      decreases initial + Names(graph) - dirty, |queue|
    {
      MembersEnds(queue, queue[0]);
      dirty, queue := Visit(initial, graph, rev, queue[0], dirty, queue[1..]);
    }
    SpreadDone(graph, rev, initial, dirty);
  }

  lemma SpreadAll(rev: Graph, dirty: set<Pkg>, queue: seq<Pkg>)
    requires dirty <= Members(queue)
    ensures Spread(rev, dirty, queue)
  {
  }

  // ---- The whole check ----

  /** `CheckBuildCache`: it never fails, whatever the import graph looks like, and among the packages that start reaches
      it marks exactly those that were modified or import, directly or not, one that was. */
  method CheckBuildCache(pkgs: Packages, modified: set<Pkg>, start: Pkg) returns (failed: bool, dirty: set<Pkg>)
    ensures !failed
    ensures forall p :: Reaches(Imports(pkgs), start, p) ==> (p in dirty <==> Stale(Imports(pkgs), modified, p))
  {
    hide Walked, Stale, Reaches, Imports;
    var tree := new ImportTree(pkgs, start);
    failed := tree.BuildTree(start);
    var rev := ReverseImportTree(tree.graph);
    dirty := PropagateModified(modified, tree.graph, rev);
    forall p | Reaches(Imports(pkgs), start, p)
      ensures p in dirty <==> Stale(Imports(pkgs), modified, p)
    {
      StaleWithin(Imports(pkgs), start, tree.graph, modified, p);
    }
  }

  /** Below start the recorded graph has the same paths as all imports. */
  lemma StaleWithin(g: Graph, start: Pkg, graph: Graph, modified: set<Pkg>, p: Pkg)
    requires Walked(g, start, map[], graph) && Reaches(g, start, p)
    ensures Stale(graph, modified, p) <==> Stale(g, modified, p)
  {
    hide Walked;
    if Stale(graph, modified, p) {
      var m :| m in modified && Reaches(graph, p, m);
      var s :| From(graph, s, p, m);
      Widened(g, start, graph, s);
      assert From(g, s, p, m);
    }
    if Stale(g, modified, p) {
      var m :| m in modified && Reaches(g, p, m);
      var s :| From(g, s, p, m);
      Narrowed(g, start, graph, s);
      assert From(graph, s, p, m);
    }
  }

  lemma Widened(g: Graph, start: Pkg, graph: Graph, s: seq<Pkg>)
    requires Walked(g, start, map[], graph) && Path(graph, s)
    ensures Path(g, s)
  {
    hide Walked, Reaches;
    forall i {:trigger s[i]} | 0 <= i < |s| - 1
      ensures Edge(g, s[i], s[i + 1])
    {
      WalkFinds(g, start, graph, s[i]);
    }
  }

  lemma Narrowed(g: Graph, start: Pkg, graph: Graph, s: seq<Pkg>)
    requires Walked(g, start, map[], graph) && Path(g, s) && Reaches(g, start, s[0])
    ensures Path(graph, s)
  {
    hide Walked, Reaches;
    forall i {:trigger s[i]} | 0 <= i < |s| - 1
      ensures Edge(graph, s[i], s[i + 1])
    {
      PrefixReaches(g, s, i);
      ReachesTrans(g, start, s[0], s[i]);
      WalkFinds(g, start, graph, s[i]);
    }
  }

  lemma PrefixReaches(g: Graph, s: seq<Pkg>, i: nat)
    requires Path(g, s) && i < |s|
    ensures Reaches(g, s[0], s[i])
  {
    var t := s[..i + 1];
    forall j {:trigger t[j]} | 0 <= j < |t| - 1
      ensures Edge(g, t[j], t[j + 1])
    {
      assert t[j] == s[j] && t[j + 1] == s[j + 1];
    }
    assert From(g, t, s[0], s[i]);
  }
}
