// Building packages bottom-up: a package is compiled after the packages it imports.  Packages that did not change are
// not looked into.
module PackageBuilder {
  import opened ImportGraph
  import opened BuildCache

  datatype Verdict = Ok | Cycle | UnknownModule

  ghost predicate Distinct(s: seq<Pkg>)
  {
    forall i, j :: 0 <= i < j < |s| ==> s[i] != s[j]
  }

  /** Nothing is compiled twice, and everything is compiled after what it imports of the packages to build. */
  ghost predicate Ordered(packages: Packages, log: seq<Pkg>)
  {
    && Distinct(log)
    && forall i, q {:trigger Edge(Imports(packages), log[i], q)} ::
         0 <= i < |log| && Edge(Imports(packages), log[i], q) && q in packages ==> q in log[..i]
  }

  /** What is built is complete: with every package all that it imports, and what had to be compiled is. */
  ghost predicate Complete(packages: Packages, built: set<Pkg>, log: seq<Pkg>)
  {
    && Closed(Imports(packages), built) && Ordered(packages, log)
    && forall x :: x in log <==> x in built && x in packages
  }

  /** One more package is compiled when all it imports has been built. */
  lemma CompiledNext(packages: Packages, built: set<Pkg>, log: seq<Pkg>, p: Pkg)
    requires Complete(packages, built, log) && p in packages && p !in built
    requires forall q :: Edge(Imports(packages), p, q) ==> q in built
    ensures Complete(packages, built + {p}, log + [p])
  {
    var l := log + [p];
    forall i, q | 0 <= i < |l| && Edge(Imports(packages), l[i], q) && q in packages
      ensures q in l[..i]
    {
      if i < |log| {
        assert Edge(Imports(packages), log[i], q) && l[..i] == log[..i];
      } else {
        assert l[..i] == log;
      }
    }
  }

  lemma SkippedNext(packages: Packages, built: set<Pkg>, log: seq<Pkg>, p: Pkg)
    requires Complete(packages, built, log) && p !in packages
    ensures Complete(packages, built + {p}, log)
  {
  }

  /** The packages in progress lead to p. */
  ghost predicate Below(g: Graph, stack: seq<Pkg>, p: Pkg)
  {
    Path(g, stack + [p])
  }

  lemma BelowOn(g: Graph, stack: seq<Pkg>, p: Pkg, q: Pkg)
    requires Below(g, stack, p) && Edge(g, p, q)
    ensures Below(g, stack + [p], q)
  {
    var s := stack + [p] + [q];
    forall i {:trigger s[i]} | 0 <= i < |s| - 1
      ensures Edge(g, s[i], s[i + 1])
    {
      assert i < |stack| ==> s[i] == (stack + [p])[i] && s[i + 1] == (stack + [p])[i + 1];
    }
  }

  /** A package that is met again while it is in progress is on a cycle. */
  lemma BelowRound(g: Graph, stack: seq<Pkg>, p: Pkg)
    requires Below(g, stack, p) && p in stack
    ensures OnCycle(g, p)
  {
    var k :| 0 <= k < |stack| && stack[k] == p;
    var s := stack + [p];
    var t := s[k..];
    forall i {:trigger t[i]} | 0 <= i < |t| - 1
      ensures Edge(g, t[i], t[i + 1])
    {
      assert t[i] == s[k + i] && t[i + 1] == s[k + i + 1];
    }
    assert From(g, t, p, p);
  }

  /** The packages being built lead from the first one to p. */
  ghost predicate Leads(packages: Packages, root: Pkg, stack: seq<Pkg>, p: Pkg)
  {
    Below(Imports(packages), stack, p) && (stack + [p])[0] == root
  }

  lemma LeadsOn(packages: Packages, root: Pkg, stack: seq<Pkg>, p: Pkg, q: Pkg)
    requires Leads(packages, root, stack, p) && Edge(Imports(packages), p, q)
    ensures Leads(packages, root, stack + [p], q)
  {
    BelowOn(Imports(packages), stack, p, q);
  }

  lemma LeadsReach(packages: Packages, root: Pkg, stack: seq<Pkg>, p: Pkg)
    requires Leads(packages, root, stack, p)
    ensures Reaches(Imports(packages), root, p)
  {
    assert From(Imports(packages), stack + [p], root, p);
  }

  /** Root reaches a package that imports itself. */
  ghost predicate CycleBelow(packages: Packages, root: Pkg)
  {
    exists c :: Reaches(Imports(packages), root, c) && OnCycle(Imports(packages), c)
  }

  /** Root reaches a package that does not exist. */
  ghost predicate MissingBelow(packages: Packages, all: set<Pkg>, root: Pkg)
  {
    exists c :: Reaches(Imports(packages), root, c) && c !in all
  }

  /** What is new in b1 can be reached from p. */
  ghost predicate Gained(packages: Packages, p: Pkg, b0: set<Pkg>, b1: set<Pkg>)
  {
    b0 <= b1 && forall x :: x in b1 && x !in b0 ==> Reaches(Imports(packages), p, x)
  }

  lemma GainedOn(packages: Packages, p: Pkg, q: Pkg, b0: set<Pkg>, b1: set<Pkg>, b2: set<Pkg>)
    requires Gained(packages, p, b0, b1) && Edge(Imports(packages), p, q) && Gained(packages, q, b1, b2)
    ensures Gained(packages, p, b0, b2)
  {
    ReachesEdge(Imports(packages), p, q);
    forall x | x in b2 && x !in b0
      ensures Reaches(Imports(packages), p, x)
    {
      if x !in b1 {
        ReachesTrans(Imports(packages), p, q, x);
      }
    }
  }

  lemma GainedSelf(packages: Packages, p: Pkg, b0: set<Pkg>, b1: set<Pkg>)
    requires Gained(packages, p, b0, b1)
    ensures Gained(packages, p, b0, b1 + {p})
  {
    ReachesSelf(Imports(packages), p);
  }

  class Generator {
    const packages: Packages
    const allPkgs: set<Pkg>
    ghost const root: Pkg
    ghost const names: set<Pkg>
    var built: set<Pkg>
    var visiting: set<Pkg>
    var compiled: seq<Pkg>

    constructor (packages: Packages, allPkgs: set<Pkg>, ghost start: Pkg)
      ensures this.packages == packages && this.allPkgs == allPkgs && root == start
              && names == Names(Imports(packages)) + {start}
      ensures built == {} && visiting == {} && compiled == []
    {
      this.packages, this.allPkgs, root, names := packages, allPkgs, start, Names(Imports(packages)) + {start};
      built, visiting, compiled := {}, {}, [];
    }

    /** `buildPackage`: post-order.  A package that is met again while it is being built is on a cycle. */
    method BuildPackage(p: Pkg, ghost stack: seq<Pkg>) returns (v: Verdict)
      requires Complete(packages, built, compiled) && Leads(packages, root, stack, p)
      requires visiting == Members(stack) && built !! visiting && built <= allPkgs && p in names
               && Names(Imports(packages)) <= names
      modifies this
      ensures v.Ok? ==>
                && Complete(packages, built, compiled) && visiting == old(visiting) && built !! visiting
                   && built <= allPkgs
                && p in built && Gained(packages, p, old(built), built)
      ensures v.Cycle? ==> CycleBelow(packages, root)
      ensures v.UnknownModule? ==> MissingBelow(packages, allPkgs, root)
      decreases names - visiting - built, 0
    {
      hide Complete, Leads, Gained, CycleBelow, MissingBelow, Names, Imports, Edge, UserImports;
      if p in built {
        GainedNothing(packages, p, built);
        return Ok;
      }
      if p in visiting {
        OnStack(packages, root, stack, p);
        return Cycle;
      }
      visiting := visiting + {p};
      if p !in allPkgs {
        Missing(packages, allPkgs, root, stack, p);
        return UnknownModule;
      }
      GainedNothing(packages, p, built);
      if p in packages {
        assert p in names - old(visiting) - old(built) && p !in names - visiting - built;
        v := BuildImports(p, stack);
        if !v.Ok? {
          return;
        }
        CompiledNext(packages, built, compiled, p);
        compiled := compiled + [p];
      } else {
        SkippedNext(packages, built, compiled, p);
      }
      GainedSelf(packages, p, old(built), built);
      visiting := visiting - {p};
      built := built + {p};
      v := Ok;
    }

    /** The packages that p imports are built, one after the other. */
    method BuildImports(p: Pkg, ghost stack: seq<Pkg>) returns (v: Verdict)
      requires Complete(packages, built, compiled) && Leads(packages, root, stack, p) && p in packages
      requires visiting == Members(stack) + {p} && built !! visiting && built <= allPkgs && p !in Members(stack)
      requires Names(Imports(packages)) <= names
      modifies this
      ensures v.Ok? ==>
                && Complete(packages, built, compiled) && visiting == old(visiting) && built !! visiting
                   && built <= allPkgs
                && Gained(packages, p, old(built), built)
                && forall q :: Edge(Imports(packages), p, q) ==> q in built
      ensures v.Cycle? ==> CycleBelow(packages, root)
      ensures v.UnknownModule? ==> MissingBelow(packages, allPkgs, root)
      decreases names - visiting - built, 1
    {
      hide Complete, Leads, Gained, CycleBelow, MissingBelow, Names, Imports, Edge, UserImports, Members;
      var imports := UserImports(packages[p]);
      GainedNothing(packages, p, built);
      MembersEnds(stack, p);
      var i := 0;
      while i < |imports|
        invariant 0 <= i <= |imports| && Complete(packages, built, compiled) && visiting == old(visiting)
                  && built !! visiting
        invariant built <= allPkgs && Gained(packages, p, old(built), built) && old(built) <= built
        invariant forall j :: 0 <= j < i ==> imports[j] in built
      {
        var q := imports[i];
        EdgeIs(packages, p, q);
        EdgeNames(Imports(packages), p, q);
        LeadsOn(packages, root, stack, p, q);
        ghost var b := built;
        v := BuildPackage(q, stack + [p]);
        if !v.Ok? {
          return;
        }
        GainedOn(packages, p, q, old(built), b, built);
        GainedMore(packages, p, old(built), built);
        GainedMore(packages, q, b, built);
        i := i + 1;
      }
      AllImports(packages, p, built);
      v := Ok;
    }
  }

  lemma GainedNothing(packages: Packages, p: Pkg, b: set<Pkg>)
    ensures Gained(packages, p, b, b)
  {
  }

  lemma GainedMore(packages: Packages, p: Pkg, b0: set<Pkg>, b1: set<Pkg>)
    requires Gained(packages, p, b0, b1)
    ensures b0 <= b1
  {
  }

  lemma AllImports(packages: Packages, p: Pkg, built: set<Pkg>)
    requires p in packages && forall j :: 0 <= j < |UserImports(packages[p])| ==> UserImports(packages[p])[j] in built
    ensures forall q :: Edge(Imports(packages), p, q) ==> q in built
  {
  }

  lemma OnStack(packages: Packages, root: Pkg, stack: seq<Pkg>, p: Pkg)
    requires Leads(packages, root, stack, p) && p in Members(stack)
    ensures CycleBelow(packages, root)
  {
    LeadsReach(packages, root, stack, p);
    BelowRound(Imports(packages), stack, p);
  }

  lemma Missing(packages: Packages, all: set<Pkg>, root: Pkg, stack: seq<Pkg>, p: Pkg)
    requires Leads(packages, root, stack, p) && p !in all
    ensures MissingBelow(packages, all, root)
  {
    LeadsReach(packages, root, stack, p);
  }

  // ---- What the order means ----

  /** Every path from a compiled package to another package to compile goes back in the order. */
  lemma {:induction false} BackInOrder(packages: Packages, log: seq<Pkg>, s: seq<Pkg>, i: nat, k: nat) returns (j: nat)
    requires Ordered(packages, log) && Path(Imports(packages), s) && s[|s| - 1] in packages
    requires k < |log| && log[k] == s[0] && 0 < i < |s|
    ensures j < k && log[j] == s[i]
  {
    var from := k;
    if i > 1 {
      from := BackInOrder(packages, log, s, i - 1, k);
    }
    assert s[i - 1] == log[from] && Edge(Imports(packages), s[i - 1], s[i]);
    if i < |s| - 1 {
      EdgeNames(Imports(packages), s[i], s[i + 1]);
    }
    assert s[i] in log[..from];
    j :| 0 <= j < from && log[j] == s[i];
  }

  /** What is complete has no cycles. */
  lemma NoCycle(packages: Packages, built: set<Pkg>, log: seq<Pkg>, c: Pkg)
    requires Complete(packages, built, log) && c in built
    ensures !OnCycle(Imports(packages), c)
  {
    hide Ordered;
    forall s
      ensures !(From(Imports(packages), s, c, c) && |s| > 1)
    {
      if Path(Imports(packages), s) && |s| > 1 && s[0] == c {
        NoReturn(packages, built, log, s);
      }
    }
  }

  lemma NoReturn(packages: Packages, built: set<Pkg>, log: seq<Pkg>, s: seq<Pkg>)
    requires Complete(packages, built, log) && Path(Imports(packages), s) && |s| > 1 && s[0] in built
    ensures s[|s| - 1] != s[0]
  {
    assert Edge(Imports(packages), s[0], s[1]);
    EdgeNames(Imports(packages), s[0], s[1]);
    var k :| 0 <= k < |log| && log[k] == s[0];
    if s[|s| - 1] in packages {
      var j := BackInOrder(packages, log, s, |s| - 1, k);
    }
  }

  lemma NothingBuilt(packages: Packages, start: Pkg)
    ensures Complete(packages, {}, []) && Leads(packages, start, [], start) && Members([]) == {}
  {
  }

  /** `BuildAll`: it succeeds exactly when below start there is no cycle and no package is missing; then every package
      below start that has to be compiled is, once and after its imports. */
  method BuildAll(packages: Packages, allPkgs: set<Pkg>, start: Pkg) returns (v: Verdict, compiled: seq<Pkg>)
    ensures v.Cycle? ==> CycleBelow(packages, start)
    ensures v.UnknownModule? ==> MissingBelow(packages, allPkgs, start)
    ensures v.Ok? ==> !CycleBelow(packages, start) && !MissingBelow(packages, allPkgs, start)
    ensures v.Ok? ==>
              Ordered(packages, compiled) && forall x :: x in compiled <==>
                      x in packages && Reaches(Imports(packages), start, x)
  {
    hide Names, Leads, Ordered, OnCycle, Reaches;
    var g := new Generator(packages, allPkgs, start);
    NothingBuilt(packages, start);
    v := g.BuildPackage(start, []);
    compiled := g.compiled;
    if v.Ok? {
      forall x
        ensures x in g.built <==> Reaches(Imports(packages), start, x)
        ensures x in g.built ==> !OnCycle(Imports(packages), x)
      {
        if Reaches(Imports(packages), start, x) {
          ClosedReaches(Imports(packages), g.built, start, x);
        }
        if x in g.built {
          NoCycle(packages, g.built, g.compiled, x);
        }
      }
    }
  }

  // ---- Changed packages only ----

  /** The packages that have changed since the last build. */
  function Changed(pkgs: Packages, dirty: set<Pkg>): Packages
  {
    map p | p in pkgs && p in dirty :: pkgs[p]
  }

  /** A path to a stale package leads through stale packages only. */
  lemma StalePath(pkgs: Packages, modified: set<Pkg>, s: seq<Pkg>, i: nat)
    requires Path(Imports(pkgs), s) && Stale(Imports(pkgs), modified, s[|s| - 1]) && i < |s|
    ensures Stale(Imports(pkgs), modified, s[i])
    decreases |s| - i
  {
    if i < |s| - 1 {
      StalePath(pkgs, modified, s, i + 1);
      StaleOn(Imports(pkgs), modified, s[i + 1], s[i]);
    }
  }

  lemma EdgeStays(pkgs: Packages, dirty: set<Pkg>, p: Pkg, q: Pkg)
    requires p in dirty && Edge(Imports(pkgs), p, q)
    ensures p in Changed(pkgs, dirty) && Edge(Imports(Changed(pkgs, dirty)), p, q)
  {
  }

  lemma ChangedIsDirty(pkgs: Packages, dirty: set<Pkg>, p: Pkg)
    requires p in Changed(pkgs, dirty)
    ensures p in dirty
  {
  }

  /** Skipping packages that did not change misses nothing. */
  lemma ChangedPath(pkgs: Packages, modified: set<Pkg>, dirty: set<Pkg>, start: Pkg, s: seq<Pkg>)
    requires forall p :: Reaches(Imports(pkgs), start, p) ==> (p in dirty <==> Stale(Imports(pkgs), modified, p))
    requires Path(Imports(pkgs), s) && Reaches(Imports(pkgs), start, s[0]) && Stale(Imports(pkgs), modified, s[|s| - 1])
    ensures Path(Imports(Changed(pkgs, dirty)), s)
  {
    hide Stale, Reaches, Edge, Imports, Changed;
    forall i {:trigger s[i]} | 0 <= i < |s| - 1
      ensures Edge(Imports(Changed(pkgs, dirty)), s[i], s[i + 1])
    {
      StalePath(pkgs, modified, s, i);
      PrefixReaches(Imports(pkgs), s, i);
      ReachesTrans(Imports(pkgs), start, s[0], s[i]);
      EdgeStays(pkgs, dirty, s[i], s[i + 1]);
    }
  }

  lemma ChangedIsPath(pkgs: Packages, dirty: set<Pkg>, s: seq<Pkg>)
    requires Path(Imports(Changed(pkgs, dirty)), s)
    ensures Path(Imports(pkgs), s)
  {
    forall i {:trigger s[i]} | 0 <= i < |s| - 1
      ensures Edge(Imports(pkgs), s[i], s[i + 1])
    {
      assert Edge(Imports(Changed(pkgs, dirty)), s[i], s[i + 1]);
    }
  }

  /** Start reaches x, and x was modified or imports, directly or not, something that was. */
  ghost predicate MustBuild(pkgs: Packages, modified: set<Pkg>, start: Pkg, x: Pkg)
  {
    Reaches(Imports(pkgs), start, x) && Stale(Imports(pkgs), modified, x)
  }

  ghost predicate Judged(pkgs: Packages, modified: set<Pkg>, dirty: set<Pkg>, start: Pkg)
  {
    forall p :: Reaches(Imports(pkgs), start, p) ==> p in pkgs && (p in dirty <==> Stale(Imports(pkgs), modified, p))
  }

  lemma ReachesWider(pkgs: Packages, dirty: set<Pkg>, p: Pkg, x: Pkg)
    requires Reaches(Imports(Changed(pkgs, dirty)), p, x)
    ensures Reaches(Imports(pkgs), p, x)
  {
    var s :| From(Imports(Changed(pkgs, dirty)), s, p, x);
    ChangedIsPath(pkgs, dirty, s);
    assert From(Imports(pkgs), s, p, x);
  }

  lemma ReachesChanged(pkgs: Packages, modified: set<Pkg>, dirty: set<Pkg>, start: Pkg, x: Pkg)
    requires Judged(pkgs, modified, dirty, start)
    ensures MustBuild(pkgs, modified, start, x) <==>
            x in Changed(pkgs, dirty) && Reaches(Imports(Changed(pkgs, dirty)), start, x)
  {
    hide Stale, Edge;
    if Reaches(Imports(Changed(pkgs, dirty)), start, x) {
      ReachesWider(pkgs, dirty, start, x);
    }
    if MustBuild(pkgs, modified, start, x) {
      var s :| From(Imports(pkgs), s, start, x);
      ReachesSelf(Imports(pkgs), start);
      ChangedPath(pkgs, modified, dirty, start, s);
      assert From(Imports(Changed(pkgs, dirty)), s, start, x);
    }
  }

  lemma CycleChanged(pkgs: Packages, modified: set<Pkg>, dirty: set<Pkg>, start: Pkg, c: Pkg)
    requires Judged(pkgs, modified, dirty, start)
    ensures MustBuild(pkgs, modified, start, c) && OnCycle(Imports(pkgs), c) <==>
            Reaches(Imports(Changed(pkgs, dirty)), start, c) && OnCycle(Imports(Changed(pkgs, dirty)), c)
  {
    hide Stale, Edge, Reaches;
    ReachesChanged(pkgs, modified, dirty, start, c);
    if OnCycle(Imports(Changed(pkgs, dirty)), c) {
      var s :| From(Imports(Changed(pkgs, dirty)), s, c, c) && |s| > 1;
      EdgeNames(Imports(Changed(pkgs, dirty)), s[0], s[1]);
      ChangedIsPath(pkgs, dirty, s);
      assert From(Imports(pkgs), s, c, c);
    }
    if MustBuild(pkgs, modified, start, c) && OnCycle(Imports(pkgs), c) {
      var s :| From(Imports(pkgs), s, c, c) && |s| > 1;
      ChangedPath(pkgs, modified, dirty, start, s);
      assert From(Imports(Changed(pkgs, dirty)), s, c, c);
    }
  }

  /** A build from the cache: it reports a cycle exactly when the packages that must be built contain one; otherwise it
      compiles exactly those, each once and after every package it imports that must be built too. */
  method IncrementalBuild(pkgs: Packages, modified: set<Pkg>, start: Pkg) returns (v: Verdict, compiled: seq<Pkg>)
    requires forall p :: Reaches(Imports(pkgs), start, p) ==> p in pkgs
    ensures !v.UnknownModule?
    ensures v.Cycle? <==> exists c :: MustBuild(pkgs, modified, start, c) && OnCycle(Imports(pkgs), c)
    ensures v.Ok? ==> Distinct(compiled) && forall x :: x in compiled <==> MustBuild(pkgs, modified, start, x)
    ensures v.Ok? ==> forall i, q {:trigger Edge(Imports(pkgs), compiled[i], q)} ::
              0 <= i < |compiled| && Edge(Imports(pkgs), compiled[i], q) && MustBuild(pkgs, modified, start, q) ==>
                  q in compiled[..i]
  {
    hide Stale, Edge, Reaches, OnCycle, MustBuild, Changed, Imports;
    var failed, dirty := CheckBuildCache(pkgs, modified, start);
    assert Judged(pkgs, modified, dirty, start);
    var packages := Changed(pkgs, dirty);
    forall x
      ensures MustBuild(pkgs, modified, start, x) <==> x in packages && Reaches(Imports(packages), start, x)
      ensures MustBuild(pkgs, modified, start, x) && OnCycle(Imports(pkgs), x) <==>
              Reaches(Imports(packages), start, x) && OnCycle(Imports(packages), x)
      ensures Reaches(Imports(packages), start, x) ==> x in pkgs
    {
      ReachesChanged(pkgs, modified, dirty, start, x);
      CycleChanged(pkgs, modified, dirty, start, x);
      if Reaches(Imports(packages), start, x) {
        ReachesWider(pkgs, dirty, start, x);
      }
    }
    v, compiled := BuildAll(packages, pkgs.Keys, start);
    if v.Ok? {
      forall i, q | 0 <= i < |compiled| && Edge(Imports(pkgs), compiled[i], q) && MustBuild(pkgs, modified, start, q)
        ensures q in compiled[..i]
      {
        ChangedIsDirty(pkgs, dirty, compiled[i]);
        EdgeStays(pkgs, dirty, compiled[i], q);
      }
    }
  }

  // ---- Declarations of imported packages ----

  /** Every package in the order comes once and after everything it imports. */
  ghost predicate Arranged(g: Graph, order: seq<Pkg>)
  {
    && Distinct(order)
    && forall i, q {:trigger Edge(g, order[i], q)} :: 0 <= i < |order| && Edge(g, order[i], q) ==> q in order[..i]
  }

  ghost predicate Acyclic(g: Graph)
  {
    forall p :: !OnCycle(g, p)
  }

  lemma ArrangedNext(g: Graph, order: seq<Pkg>, p: Pkg)
    requires Arranged(g, order) && p !in order && forall q :: Edge(g, p, q) ==> q in order
    ensures Arranged(g, order + [p])
  {
    var l := order + [p];
    forall i, q | 0 <= i < |l| && Edge(g, l[i], q)
      ensures q in l[..i]
    {
      if i < |order| {
        assert Edge(g, order[i], q) && l[..i] == order[..i];
      } else {
        assert l[..i] == order;
      }
    }
  }

  /** Without cycles a package is never met while it is in progress. */
  lemma NotInProgress(g: Graph, stack: seq<Pkg>, p: Pkg)
    requires Acyclic(g) && Below(g, stack, p)
    ensures p !in Members(stack)
  {
    if p in stack {
      BelowRound(g, stack, p);
    }
  }

  /** What is new in the order can be reached from p. */
  ghost predicate Added(g: Graph, p: Pkg, o0: seq<Pkg>, o1: seq<Pkg>)
  {
    o0 <= o1 && forall x :: x in o1 && x !in o0 ==> Reaches(g, p, x)
  }

  lemma AddedOn(g: Graph, p: Pkg, q: Pkg, o0: seq<Pkg>, o1: seq<Pkg>, o2: seq<Pkg>)
    requires Added(g, p, o0, o1) && Edge(g, p, q) && Added(g, q, o1, o2)
    ensures Added(g, p, o0, o2)
  {
    ReachesEdge(g, p, q);
    forall x | x in o2 && x !in o0
      ensures Reaches(g, p, x)
    {
      if x !in o1 {
        ReachesTrans(g, p, q, x);
      }
    }
  }

  lemma AddedSelf(g: Graph, p: Pkg, o0: seq<Pkg>, o1: seq<Pkg>)
    requires Added(g, p, o0, o1)
    ensures Added(g, p, o0, o1 + [p])
  {
    ReachesSelf(g, p);
  }

  class Declarations {
    const g: Graph
    ghost const names: set<Pkg>
    var declared: set<Pkg>
    var order: seq<Pkg>

    constructor (g: Graph, ghost names: set<Pkg>)
      ensures this.g == g && this.names == names && declared == {} && order == []
    {
      this.g, this.names := g, names;
      declared, order := {}, [];
    }

    /** `recursiveTransitiveDeclaration`: marked before its imports are declared, declared after them. */
    method Declare(p: Pkg, ghost stack: seq<Pkg>)
      requires Acyclic(g) && Below(g, stack, p) && Arranged(g, order) && p in names && Names(g) <= names
      requires declared == Members(order) + Members(stack) && Members(order) !! Members(stack)
      modifies this
      ensures Arranged(g, order) && p in order && Added(g, p, old(order), order)
      ensures declared == Members(order) + Members(stack) && Members(order) !! Members(stack)
      decreases names - declared, 0
    {
      hide Below, Arranged, Added, Acyclic, Names, Edge;
      NotInProgress(g, stack, p);
      AddedNothing(g, p, order);
      if p in declared {
        return;
      }
      declared := declared + {p};
      assert p in names - old(declared) && p !in names - declared;
      DeclareImports(p, stack);
      ArrangedNext(g, order, p);
      AddedSelf(g, p, old(order), order);
      MembersEnds(order, p);
      order := order + [p];
    }

    method DeclareImports(p: Pkg, ghost stack: seq<Pkg>)
      requires Acyclic(g) && Below(g, stack, p) && Arranged(g, order) && p !in Members(stack) && p !in Members(order)
      requires declared == Members(order) + Members(stack) + {p} && Members(order) !! Members(stack)
               && Names(g) <= names
      modifies this
      ensures Arranged(g, order) && Added(g, p, old(order), order) && p !in Members(order)
      ensures declared == Members(order) + Members(stack) + {p} && Members(order) !! Members(stack)
      ensures forall q :: Edge(g, p, q) ==> q in order
      decreases names - declared, 1
    {
      hide Below, Arranged, Added, Acyclic, Names, Edge, Members;
      var subs := At(g, p);
      AddedNothing(g, p, order);
      MembersEnds(stack, p);
      var i := 0;
      while i < |subs|
        invariant 0 <= i <= |subs| && Arranged(g, order) && Added(g, p, old(order), order) && p !in Members(order)
        invariant declared == Members(order) + Members(stack) + {p} && Members(order) !! Members(stack)
                  && old(declared) <= declared
        invariant forall j :: 0 <= j < i ==> subs[j] in order
      {
        var q := subs[i];
        AtIsEdge(g, p, q);
        EdgeNames(g, p, q);
        BelowOn(g, stack, p, q);
        ghost var o := order;
        Declare(q, stack + [p]);
        AddedOn(g, p, q, old(order), o, order);
        AddedMore(g, q, o, order);
        i := i + 1;
      }
      AllSubs(g, p, order);
    }
  }

  lemma AddedNothing(g: Graph, p: Pkg, o: seq<Pkg>)
    ensures Added(g, p, o, o)
  {
  }

  lemma AddedMore(g: Graph, p: Pkg, o0: seq<Pkg>, o1: seq<Pkg>)
    requires Added(g, p, o0, o1)
    ensures o0 <= o1 && Members(o0) <= Members(o1) && forall x :: x in o0 ==> x in o1
  {
    forall i | 0 <= i < |o0|
      ensures o0[i] in Members(o1) && o0[i] in o1
    {
      assert o1[i] == o0[i];
    }
  }

  lemma AtIsEdge(g: Graph, p: Pkg, q: Pkg)
    ensures q in At(g, p) <==> Edge(g, p, q)
  {
  }

  lemma AllSubs(g: Graph, p: Pkg, order: seq<Pkg>)
    requires forall j :: 0 <= j < |At(g, p)| ==> At(g, p)[j] in order
    ensures forall q :: Edge(g, p, q) ==> q in order
  {
  }

  /** The declarations that a package gets: all packages that its imports reach, each once and after everything it
      imports itself. */
  method ResolveUserImports(g: Graph, direct: seq<Pkg>) returns (order: seq<Pkg>)
    requires Acyclic(g)
    ensures Arranged(g, order) && forall x :: x in order <==> exists p :: p in direct && Reaches(g, p, x)
  {
    hide Arranged, Acyclic, Names, Edge, Members;
    var d := new Declarations(g, Names(g) + Members(direct));
    NothingDeclared(g);
    var i := 0;
    while i < |direct|
      invariant 0 <= i <= |direct| && Arranged(g, d.order) && d.declared == Members(d.order) + Members([])
      invariant Members(d.order) !! Members([])
      invariant forall j :: 0 <= j < i ==> direct[j] in d.order
      invariant forall x :: x in d.order ==> exists p :: p in direct && Reaches(g, p, x)
    {
      DirectIs(g, direct, i);
      ghost var o := d.order;
      d.Declare(direct[i], []);
      AddedMore(g, direct[i], o, d.order);
      i := i + 1;
    }
    order := d.order;
    forall x, p | p in direct && Reaches(g, p, x)
      ensures x in order
    {
      ArrangedReaches(g, order, p, x);
    }
  }

  lemma NothingDeclared(g: Graph)
    ensures Arranged(g, []) && Members([]) == {}
  {
  }

  lemma DirectIs(g: Graph, direct: seq<Pkg>, i: nat)
    requires i < |direct|
    ensures Below(g, [], direct[i]) && direct[i] in Members(direct)
  {
  }

  lemma ArrangedReaches(g: Graph, order: seq<Pkg>, p: Pkg, x: Pkg)
    requires Arranged(g, order) && p in order && Reaches(g, p, x)
    ensures x in order
  {
    forall y, q | y in Members(order) && Edge(g, y, q)
      ensures q in Members(order)
    {
      var i :| 0 <= i < |order| && order[i] == y;
      assert Edge(g, order[i], q);
      var j :| 0 <= j < i && order[..i][j] == q;
      assert order[j] == q;
    }
    var k :| 0 <= k < |order| && order[k] == p;
    ClosedReaches(g, Members(order), p, x);
  }
}
