// Packages and the packages they import.
module ImportGraph {
  type Pkg = string

  datatype Kind = User | BuiltIn | Ffi

  datatype Import = Import(name: Pkg, kind: Kind)

  /** The import statements of every package. */
  type Packages = map<Pkg, seq<Import>>

  function UserImports(body: seq<Import>): seq<Pkg>
  {
    if body == [] then []
    else if body[|body| - 1].kind == User then UserImports(body[..|body| - 1]) + [body[|body| - 1].name]
    else UserImports(body[..|body| - 1])
  }

  type Graph = map<Pkg, seq<Pkg>>

  function At(g: Graph, p: Pkg): seq<Pkg>
  {
    if p in g then g[p] else []
  }

  /** Who imports whom. */
  function Imports(pkgs: Packages): Graph
  {
    map p | p in pkgs :: UserImports(pkgs[p])
  }

  predicate Edge(g: Graph, p: Pkg, q: Pkg)
  {
    q in At(g, p)
  }

  // ---- Paths ----

  ghost predicate Path(g: Graph, s: seq<Pkg>)
  {
    s != [] && forall i {:trigger s[i]} :: 0 <= i < |s| - 1 ==> Edge(g, s[i], s[i + 1])
  }

  ghost predicate From(g: Graph, s: seq<Pkg>, p: Pkg, q: Pkg)
  {
    Path(g, s) && s[0] == p && s[|s| - 1] == q
  }

  /** p is q or imports it, directly or not. */
  ghost predicate Reaches(g: Graph, p: Pkg, q: Pkg)
  {
    exists s :: From(g, s, p, q)
  }

  /** p imports itself, directly or not. */
  ghost predicate OnCycle(g: Graph, p: Pkg)
  {
    exists s :: From(g, s, p, p) && |s| > 1
  }

  lemma ReachesSelf(g: Graph, p: Pkg)
    ensures Reaches(g, p, p)
  {
    assert From(g, [p], p, p);
  }

  lemma PathJoin(g: Graph, s: seq<Pkg>, t: seq<Pkg>)
    requires Path(g, s) && Path(g, t) && s[|s| - 1] == t[0]
    ensures var r := s + t[1..]; From(g, r, s[0], t[|t| - 1]) && |r| == |s| + |t| - 1
  {
    var r := s + t[1..];
    forall i {:trigger r[i]} | 0 <= i < |r| - 1
      ensures Edge(g, r[i], r[i + 1])
    {
      if i < |s| - 1 {
        assert r[i] == s[i] && r[i + 1] == s[i + 1];
      } else {
        assert r[i] == t[i - (|s| - 1)] && r[i + 1] == t[i - (|s| - 1) + 1];
      }
    }
  }

  lemma ReachesTrans(g: Graph, p: Pkg, q: Pkg, r: Pkg)
    requires Reaches(g, p, q) && Reaches(g, q, r)
    ensures Reaches(g, p, r)
  {
    var s :| From(g, s, p, q);
    var t :| From(g, t, q, r);
    PathJoin(g, s, t);
  }

  lemma ReachesEdge(g: Graph, p: Pkg, q: Pkg)
    requires Edge(g, p, q)
    ensures Reaches(g, p, q)
  {
    assert From(g, [p, q], p, q);
  }

  ghost predicate Closed(g: Graph, a: set<Pkg>)
  {
    forall p, q {:trigger Edge(g, p, q)} :: p in a && Edge(g, p, q) ==> q in a
  }

  /** A set that imports nothing from outside has everything its members reach. */
  lemma ClosedReaches(g: Graph, a: set<Pkg>, p: Pkg, q: Pkg)
    requires Closed(g, a) && p in a && Reaches(g, p, q)
    ensures q in a
  {
    var s :| From(g, s, p, q);
    ClosedPath(g, a, s, |s| - 1);
  }

  lemma {:induction false} ClosedPath(g: Graph, a: set<Pkg>, s: seq<Pkg>, i: nat)
    requires Closed(g, a) && Path(g, s) && s[0] in a && i < |s|
    ensures s[i] in a
  {
    if i > 0 {
      ClosedPath(g, a, s, i - 1);
      assert Edge(g, s[i - 1], s[i]);
    }
  }

  // ---- All names ----

  function Members(s: seq<Pkg>): set<Pkg>
  {
    set i | 0 <= i < |s| :: s[i]
  }

  /** Every name that occurs. */
  function Names(g: Graph): set<Pkg>
  {
    g.Keys + set p, q | p in g && q in Members(g[p]) :: q
  }

  lemma EdgeNames(g: Graph, p: Pkg, q: Pkg)
    requires Edge(g, p, q)
    ensures p in g && q in Names(g)
  {
    assert q in Members(g[p]);
  }
}
