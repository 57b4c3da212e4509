/**
 Validation of cycles: a pipeline may contain a cycle only if no Reduce vertex lies on it or downstream of
 it. Both searches walk the graph depth first with a shared set of the vertices on the current path,
 pushing on entry and popping on exit.
 */
module Cycles {
  import opened Wrappers
  import opened PipelineGraph

  /** No vertex before the last repeats, or was on the path already. */
  ghost predicate Simple(w: seq<string>, visited: set<string>) {
    forall i | 0 <= i < |w| - 1 :: w[i] !in visited && w[i] !in w[..i]
  }

  // ----- closing a cycle -----

  /** A walk that closes for the first time with its last vertex. */
  ghost predicate Lasso(es: Adjacency, u: string, visited: set<string>, w: seq<string>) {
    && IsWalk(es, w) && w[0] == u
    && Simple(w, visited)
    && (Last(w) in visited || Last(w) in w[..|w| - 1])
  }

  ghost predicate ClosesAt(es: Adjacency, u: string, visited: set<string>, c: string) {
    exists w :: Lasso(es, u, visited, w) && Last(w) == c
  }

  lemma SimpleTail(w: seq<string>, visited: set<string>)
    requires |w| >= 2
    ensures Simple(w, visited) <==> w[0] !in visited && Simple(w[1..], visited + {w[0]})
  {}

  lemma WalkTail(es: Adjacency, w: seq<string>)
    requires |w| >= 2
    ensures IsWalk(es, w) <==> Adjacent(es, w[0], w[1]) && IsWalk(es, w[1..])
  {}

  lemma LassoTail(es: Adjacency, visited: set<string>, w: seq<string>)
    requires |w| >= 2
    ensures Lasso(es, w[0], visited, w) <==>
            w[0] !in visited && Adjacent(es, w[0], w[1]) && Lasso(es, w[1], visited + {w[0]}, w[1..])
  {}

  /** What exploring one more edge finds. */
  lemma ClosesAtStep(es: Adjacency, u: string, visited: set<string>, c: string)
    requires u in es && u !in visited
    ensures ClosesAt(es, u, visited, c) <==> exists v | v in es[u] :: ClosesAt(es, v, visited + {u}, c)
  {
    if ClosesAt(es, u, visited, c) {
      var w :| Lasso(es, u, visited, w) && Last(w) == c;
      LassoTail(es, visited, w);
      assert Last(w[1..]) == c;
      assert w[1] in es[u] && ClosesAt(es, w[1], visited + {u}, c);
    }
    if v :| v in es[u] && ClosesAt(es, v, visited + {u}, c) {
      var t :| Lasso(es, v, visited + {u}, t) && Last(t) == c;
      var w := [u] + t;
      assert w[1..] == t;
      LassoTail(es, visited, w);
      assert Lasso(es, u, visited, w) && Last(w) == c;
    }
  }

  lemma ClosesAtEnd(es: Adjacency, u: string, visited: set<string>, c: string)
    requires visited <= es.Keys && (u !in es || u in visited)
    ensures ClosesAt(es, u, visited, c) <==> u in visited && c == u
  {
    if ClosesAt(es, u, visited, c) {
      var w :| Lasso(es, u, visited, w) && Last(w) == c;
      if |w| >= 2 {
        LassoTail(es, visited, w);
      }
    }
    if u in visited {
      assert Lasso(es, u, visited, [u]);
    }
  }

  /** `getCyclesFromVertex`: exactly the vertices at which some walk from `start` first closes; the path is
      restored. */
  method GetCyclesFromVertex(es: Adjacency, start: string, visited: Visited) returns (cycles: set<string>)
    requires visited.names <= es.Keys
    modifies visited
    ensures visited.names == old(visited.names)
    ensures forall c :: c in cycles <==> ClosesAt(es, start, old(visited.names), c)
    decreases es.Keys - visited.names
  {
    ghost var path := visited.names;
    if start !in es || start in visited.names {
      forall c ensures ClosesAt(es, start, path, c) <==> start in path && c == start {
        ClosesAtEnd(es, start, path, c);
      }
      return if start in visited.names then {start} else {};
    }
    visited.names := visited.names + {start};
    cycles := {};
    for i := 0 to |es[start]|
      invariant visited.names == path + {start}
      invariant forall c :: c in cycles <==> exists j | 0 <= j < i :: ClosesAt(es, es[start][j], path + {start}, c)
    {
      var more := GetCyclesFromVertex(es, es[start][i], visited);
      cycles := cycles + more;
    }
    visited.names := visited.names - {start};
    forall c ensures c in cycles <==> ClosesAt(es, start, path, c) { ClosesAtStep(es, start, path, c); }
  }

  // ----- finding a vertex -----

  ghost predicate Finds(es: Adjacency, u: string, visited: set<string>, f: string -> bool, w: seq<string>) {
    IsWalk(es, w) && w[0] == u && Simple(w, visited) && f(Last(w))
  }

  ghost predicate CanFind(es: Adjacency, u: string, visited: set<string>, f: string -> bool) {
    exists w :: Finds(es, u, visited, f, w)
  }

  lemma CanFindStep(es: Adjacency, u: string, visited: set<string>, f: string -> bool)
    requires u in es && u !in visited && !f(u)
    ensures CanFind(es, u, visited, f) <==> exists v | v in es[u] :: CanFind(es, v, visited + {u}, f)
  {
    if CanFind(es, u, visited, f) {
      var w :| Finds(es, u, visited, f, w);
      SimpleTail(w, visited);
      WalkTail(es, w);
      assert Finds(es, w[1], visited + {u}, f, w[1..]);
    }
    if v :| v in es[u] && CanFind(es, v, visited + {u}, f) {
      var t :| Finds(es, v, visited + {u}, f, t);
      var w := [u] + t;
      assert w[1..] == t;
      SimpleTail(w, visited);
      WalkTail(es, w);
      assert Finds(es, u, visited, f, w);
    }
  }

  lemma CanFindEnd(es: Adjacency, u: string, visited: set<string>, f: string -> bool)
    requires f(u) || u !in es || u in visited
    ensures CanFind(es, u, visited, f) <==> f(u)
  {
    if f(u) {
      assert Finds(es, u, visited, f, [u]);
    }
    if CanFind(es, u, visited, f) {
      var w :| Finds(es, u, visited, f, w);
      assert |w| >= 2 ==> Adjacent(es, w[0], w[1]);
    }
  }

  /** `findVertex`: whether a simple walk from `start` meets the condition. The path is restored unless the
      search succeeded. */
  method FindVertex(es: Adjacency, start: string, visited: Visited, f: string -> bool) returns (found: bool)
    modifies visited
    ensures found <==> CanFind(es, start, old(visited.names), f)
    ensures !found ==> visited.names == old(visited.names)
    decreases es.Keys - visited.names
  {
    ghost var path := visited.names;
    if f(start) || start !in es || start in visited.names {
      CanFindEnd(es, start, path, f);
      return f(start);
    }
    CanFindStep(es, start, path, f);
    visited.names := visited.names + {start};
    for i := 0 to |es[start]|
      invariant visited.names == path + {start}
      invariant forall j | 0 <= j < i :: !CanFind(es, es[start][j], path + {start}, f)
    {
      var hit := FindVertex(es, es[start][i], visited, f);
      if hit {
        assert es[start][i] in es[start];
        return true;
      }
    }
    visited.names := visited.names - {start};
    found := false;
  }

  /** Cutting out detours: whatever can be reached can be reached by a simple walk. */
  lemma {:induction false} Straighten(es: Adjacency, w: seq<string>, f: string -> bool)
    requires IsWalk(es, w) && f(Last(w))
    ensures CanFind(es, w[0], {}, f)
    decreases |w|
  {
    if Simple(w, {}) {
      assert Finds(es, w[0], {}, f, w);
    } else {
      var i :| 0 <= i < |w| - 1 && w[i] in w[..i];
      var j :| 0 <= j < i && w[..i][j] == w[i];
      WalkSlice(es, w, 0, j + 1);
      WalkSlice(es, w, i, |w|);
      assert w[i..|w|] == w[i..] && w[0..j + 1] == w[..j + 1];
      WalkJoin(es, w[..j + 1], w[i..]);
      Straighten(es, w[..j + 1] + w[i..][1..], f);
    }
  }

  lemma FindIsReach(es: Adjacency, u: string, f: string -> bool)
    ensures CanFind(es, u, {}, f) <==> exists r :: f(r) && Reaches(es, u, r)
  {
    if CanFind(es, u, {}, f) {
      var w :| Finds(es, u, {}, f, w);
      assert WalkFromTo(es, w, u, Last(w));
      assert f(Last(w)) && Reaches(es, u, Last(w));
    }
    if r :| f(r) && Reaches(es, u, r) {
      var w :| WalkFromTo(es, w, u, r);
      Straighten(es, w, f);
    }
  }

  // ----- what closing points say about cycles -----

  lemma ClosingIsOnCycle(es: Adjacency, s: string, c: string)
    requires ClosesAt(es, s, {}, c)
    ensures Reaches(es, s, c) && OnCycle(es, c)
  {
    var w :| Lasso(es, s, {}, w) && Last(w) == c;
    var n := |w| - 1;
    assert WalkFromTo(es, w, s, c);
    var i :| 0 <= i < n && w[..n][i] == c;
    WalkSlice(es, w, i, |w|);
    assert w[i..|w|][0] == c && Last(w[i..|w|]) == c;
    assert WalkFromTo(es, w[i..|w|], c, c);
  }

  predicate Repeats(w: seq<string>, i: nat) {
    i < |w| && w[i] in w[..i]
  }

  /** A walk that repeats a vertex closes for the first time somewhere. */
  lemma {:induction false} FirstClosing(es: Adjacency, w: seq<string>, n: nat) returns (k: nat)
    requires IsWalk(es, w) && n < |w| && Repeats(w, n)
    ensures k <= n && Lasso(es, w[0], {}, w[..k + 1])
    decreases n
  {
    if exists i: nat | i < n :: Repeats(w, i) {
      var i: nat :| i < n && Repeats(w, i);
      k := FirstClosing(es, w, i);
    } else {
      k := n;
      var p := w[..n + 1];
      WalkSlice(es, w, 0, n + 1);
      assert w[0..n + 1] == p;
      assert p[..n] == w[..n];
      forall i | 0 <= i < |p| - 1 ensures p[i] !in p[..i] {
        assert p[..i] == w[..i] && !Repeats(w, i);
      }
    }
  }

  lemma SuffixReaches(es: Adjacency, w: seq<string>, k: nat)
    requires IsWalk(es, w) && k < |w|
    ensures Reaches(es, w[k], Last(w))
  {
    WalkSlice(es, w, k, |w|);
    assert WalkFromTo(es, w[k..|w|], w[k], Last(w));
  }

  lemma CycleHasClosing(es: Adjacency, s: string, x: string) returns (c: string)
    requires Reaches(es, s, x) && OnCycle(es, x)
    ensures ClosesAt(es, s, {}, c) && Reaches(es, c, x)
  {
    var v :| WalkFromTo(es, v, s, x);
    var z :| |z| >= 2 && WalkFromTo(es, z, x, x);
    WalkJoin(es, v, z);
    var w := v + z[1..];
    var n := |w| - 1;
    assert Repeats(w, n) by { assert w[..n][|v| - 1] == x; }
    var k := FirstClosing(es, w, n);
    c := w[k];
    SuffixReaches(es, w, k);
    hide Lasso, Reaches, IsWalk;
    assert Last(w[..k + 1]) == c;
  }

  // ----- validateCycles -----

  /** The graph the specification's edges describe. */
  ghost predicate Describes(spec: Spec, es: Adjacency) {
    forall a, b :: Adjacent(es, a, b) <==> Edge(a, b) in spec.edges
  }

  predicate Known(spec: Spec, name: string) {
    exists v | v in spec.vertices :: v.name == name
  }

  /** An edge leads to a name that no vertex has. */
  ghost predicate DanglingEdge(spec: Spec) {
    exists e | e in spec.edges :: forall v | v in spec.vertices :: v.name != e.to
  }

  /** The first edge that leads to an unknown vertex leads to `name`. */
  ghost predicate FirstDangling(spec: Spec, name: string) {
    exists i | 0 <= i < |spec.edges| ::
      spec.edges[i].to == name && !Known(spec, name) && forall j | 0 <= j < i :: Known(spec, spec.edges[j].to)
  }

  /** The vertex a name stands for: the last one declared. */
  function ByName(vertices: seq<Vertex>): map<string, Vertex> {
    if vertices == [] then map[]
    else var v := vertices[|vertices| - 1]; ByName(vertices[..|vertices| - 1])[v.name := v]
  }

  /** The last declaration of a name. */
  ghost predicate LastDeclared(vertices: seq<Vertex>, name: string, i: nat) {
    i < |vertices| && vertices[i].name == name && forall j | i < j < |vertices| :: vertices[j].name != name
  }

  /** If a name is declared more than once the last declaration counts. */
  lemma {:induction false} ByNameMeans(vertices: seq<Vertex>, name: string)
    ensures name in ByName(vertices) <==> exists i: nat :: LastDeclared(vertices, name, i)
    ensures forall i: nat | LastDeclared(vertices, name, i) ::
              name in ByName(vertices) && ByName(vertices)[name] == vertices[i]
  {
    if vertices != [] {
      var n := |vertices| - 1;
      var t := vertices[..n];
      ByNameMeans(t, name);
      forall i: nat
        ensures LastDeclared(vertices, name, i) <==>
                if vertices[n].name == name then i == n else LastDeclared(t, name, i)
      {
        assert i < n ==> t[i] == vertices[i];
      }
      assert vertices[n].name == name ==> LastDeclared(vertices, name, n);
    }
  }

  predicate IsReduce(spec: Spec, name: string) {
    name in ByName(spec.vertices) && ByName(spec.vertices)[name].kind.ReduceUdf?
  }

  /** Where names are unique, the vertex a name stands for is the one that has it. */
  lemma ReduceMeans(spec: Spec, name: string)
    requires forall i, j | 0 <= i < j < |spec.vertices| :: spec.vertices[i].name != spec.vertices[j].name
    ensures IsReduce(spec, name) <==> exists v | v in spec.vertices :: v.name == name && v.kind.ReduceUdf?
  {
    ReduceByName(spec.vertices, name);
  }

  lemma {:induction false} ReduceByName(vertices: seq<Vertex>, name: string)
    requires forall i, j | 0 <= i < j < |vertices| :: vertices[i].name != vertices[j].name
    ensures name in ByName(vertices) && ByName(vertices)[name].kind.ReduceUdf? <==>
            exists v | v in vertices :: v.name == name && v.kind.ReduceUdf?
    ensures name in ByName(vertices) ==> ByName(vertices)[name] in vertices && ByName(vertices)[name].name == name
  {
    if vertices != [] {
      var n := |vertices| - 1;
      ReduceByName(vertices[..n], name);
      assert vertices == vertices[..n] + [vertices[n]];
    }
  }

  predicate IsSource(spec: Spec, name: string) {
    exists v | v in spec.vertices :: v.name == name && v.kind.Source?
  }

  /** `toVerticesMappedByFrom`: fails exactly if an edge leads to an unknown vertex. */
  method ToVerticesMappedByFrom(spec: Spec) returns (r: Result<Adjacency, string>)
    ensures r.Err? <==> DanglingEdge(spec)
    ensures r.Err? ==> FirstDangling(spec, r.error)
    ensures r.Ok? ==> Describes(spec, r.value)
  {
    var es: Adjacency := map[];
    for i := 0 to |spec.edges|
      invariant forall a, b :: Adjacent(es, a, b) <==> Edge(a, b) in spec.edges[..i]
      invariant forall j | 0 <= j < i :: Known(spec, spec.edges[j].to)
    {
      var e := spec.edges[i];
      if !Known(spec, e.to) {
        return Err(e.to);
      }
      var before := es;
      es := es[e.from := (if e.from in es then es[e.from] else []) + [e.to]];
      assert spec.edges[..i + 1] == spec.edges[..i] + [e];
      assert forall a, b :: Adjacent(es, a, b) <==> Adjacent(before, a, b) || Edge(a, b) == e;
    }
    assert spec.edges[..|spec.edges|] == spec.edges;
    r := Ok(es);
  }

  /** `getCycles`, from every source. */
  method GetCycles(spec: Spec, es: Adjacency) returns (cycles: set<string>)
    ensures forall c :: c in cycles <==> exists s | IsSource(spec, s) :: ClosesAt(es, s, {}, c)
  {
    var sources := set v | v in spec.vertices && v.kind.Source? :: v.name;
    assert forall s :: s in sources <==> IsSource(spec, s);
    var todo := sources;
    cycles := {};
    while todo != {}
      invariant todo <= sources
      invariant forall c :: c in cycles <==> exists s | s in sources && s !in todo :: ClosesAt(es, s, {}, c)
    {
      var s :| s in todo;
      var visited := new Visited();
      var more := GetCyclesFromVertex(es, s, visited);
      cycles := cycles + more;
      todo := todo - {s};
    }
  }

  datatype CycleError = NoVertex(name: string) | ReduceAfterCycle(name: string)

  ghost predicate Follows(spec: Spec, w: seq<string>, a: string, b: string) {
    && |w| >= 1 && w[0] == a && Last(w) == b
    && forall i | 0 <= i < |w| - 1 :: Edge(w[i], w[i + 1]) in spec.edges
  }

  /** A Reduce vertex lies on, or downstream of, a cycle that data can enter: edges lead from a source `s` to some
      `x`, one or more edges lead from `x` back to itself, and edges lead from `x` to a Reduce vertex `r`. */
  ghost predicate LateDataReachesReduce(spec: Spec) {
    exists s, x, r | s in spec.vertices && s.kind.Source? ::
      IsReduce(spec, r) && Leads(spec, s.name, x) && Leads(spec, x, r) && Loops(spec, x)
  }

  ghost predicate Leads(spec: Spec, a: string, b: string) { exists w :: Follows(spec, w, a, b) }

  ghost predicate Loops(spec: Spec, a: string) { exists w | |w| >= 2 :: Follows(spec, w, a, a) }

  /** The adjacency has the walks of the specification's edges. */
  lemma SameWalks(spec: Spec, es: Adjacency)
    requires Describes(spec, es)
    ensures forall a, b :: Leads(spec, a, b) <==> Reaches(es, a, b)
    ensures forall a :: Loops(spec, a) <==> OnCycle(es, a)
  {
    assert forall w, a, b :: Follows(spec, w, a, b) <==> WalkFromTo(es, w, a, b) by {
      forall w: seq<string>, i | 0 <= i < |w| - 1
        ensures Edge(w[i], w[i + 1]) in spec.edges <==> Adjacent(es, w[i], w[i + 1]) {}
    }
  }

  /** `x` is on a cycle that data can enter, and a Reduce vertex lies on that cycle or downstream of `x`. */
  ghost predicate BadCycleAt(spec: Spec, x: string) {
    && Loops(spec, x)
    && (exists s | s in spec.vertices && s.kind.Source? :: Leads(spec, s.name, x))
    && (exists r :: IsReduce(spec, r) && Leads(spec, x, r))
  }

  /** A closing vertex from which a Reduce vertex is found is such a place. */
  lemma ReportedCycle(spec: Spec, es: Adjacency, c: string)
    requires Describes(spec, es) && CanFind(es, c, {}, n => IsReduce(spec, n))
    requires exists s | IsSource(spec, s) :: ClosesAt(es, s, {}, c)
    ensures BadCycleAt(spec, c)
  {
    hide Describes, ClosesAt, CanFind, Reaches, Leads, Loops, OnCycle;
    SameWalks(spec, es);
    var s :| IsSource(spec, s) && ClosesAt(es, s, {}, c);
    ClosingIsOnCycle(es, s, c);
    FindIsReach(es, c, n => IsReduce(spec, n));
    var v :| v in spec.vertices && v.name == s && v.kind.Source?;
    assert Leads(spec, v.name, c);
  }

  lemma ClosingsSuffice(spec: Spec, es: Adjacency)
    requires Describes(spec, es)
    ensures LateDataReachesReduce(spec) <==>
            exists s, c :: IsSource(spec, s) && ClosesAt(es, s, {}, c) && CanFind(es, c, {}, n => IsReduce(spec, n))
  {
    SameWalks(spec, es);
    var f := n => IsReduce(spec, n);
    if s, x, r :| s in spec.vertices && s.kind.Source?
                  && IsReduce(spec, r) && Leads(spec, s.name, x) && Leads(spec, x, r) && Loops(spec, x) {
      var c := CycleHasClosing(es, s.name, x);
      assert IsSource(spec, s.name);
      ReachesTransitive(es, c, x, r);
      FindIsReach(es, c, f);
      assert f(r);
    }
    if s, c :| IsSource(spec, s) && ClosesAt(es, s, {}, c) && CanFind(es, c, {}, f) {
      var v :| v in spec.vertices && v.name == s && v.kind.Source?;
      ClosingIsOnCycle(es, s, c);
      FindIsReach(es, c, f);
      var r :| f(r) && Reaches(es, c, r);
    }
  }

  /** `validateCycles` rejects a pipeline exactly if an edge leads to an unknown vertex, or a Reduce vertex
      can be reached from a vertex on a cycle that some source reaches. */
  method ValidateCycles(spec: Spec) returns (r: Result<(), CycleError>)
    ensures (r.Err? && r.error.NoVertex?) <==> DanglingEdge(spec)
    ensures !DanglingEdge(spec) ==> (r.Err? <==> LateDataReachesReduce(spec))
    ensures r.Err? ==> if r.error.NoVertex? then FirstDangling(spec, r.error.name) else BadCycleAt(spec, r.error.name)
  {
    hide LateDataReachesReduce, BadCycleAt, FirstDangling, DanglingEdge, Describes, IsSource, ClosesAt, CanFind;
    var edges := ToVerticesMappedByFrom(spec);
    if edges.Err? {
      return Err(NoVertex(edges.error));
    }
    var es := edges.value;
    ClosingsSuffice(spec, es);
    var cycles := GetCycles(spec, es);
    var todo := cycles;
    var f := n => IsReduce(spec, n);
    while todo != {}
      invariant todo <= cycles
      invariant forall c | c in cycles && c !in todo :: !CanFind(es, c, {}, f)
    {
      var c :| c in todo;
      var visited := new Visited();
      var hit := FindVertex(es, c, visited, f);
      if hit {
        ReportedCycle(spec, es, c);
        return Err(ReduceAfterCycle(c));
      }
      todo := todo - {c};
    }
    r := Ok(());
  }
}
