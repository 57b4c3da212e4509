/** The check that a pipeline is one graph and not several: a depth-first search along edges in both
    directions, with one set of visited vertices shared by the whole search. */
module Connectivity {
  import opened PipelineGraph
  import opened Sets

  predicate Linked(spec: Spec, a: string, b: string) {
    Edge(a, b) in spec.edges || Edge(b, a) in spec.edges
  }

  ghost predicate IsPath(spec: Spec, p: seq<string>) {
    |p| >= 1 && forall i | 0 <= i < |p| - 1 :: Linked(spec, p[i], p[i + 1])
  }

  ghost predicate Connected(spec: Spec, a: string, b: string) {
    exists p :: IsPath(spec, p) && p[0] == a && Last(p) == b
  }

  lemma ConnectedExtend(spec: Spec, a: string, b: string, c: string)
    requires Connected(spec, a, b) && Linked(spec, b, c)
    ensures Connected(spec, a, c)
  {
    var p :| IsPath(spec, p) && p[0] == a && Last(p) == b;
    var q := p + [c];
    forall i | 0 <= i < |q| - 1 ensures Linked(spec, q[i], q[i + 1]) {
      assert i < |p| - 1 ==> Linked(spec, p[i], p[i + 1]);
    }
    assert IsPath(spec, q) && q[0] == a && Last(q) == c;
  }

  lemma ConnectedSelf(spec: Spec, a: string)
    ensures Connected(spec, a, a)
  {
    assert IsPath(spec, [a]) && [a][0] == a && Last([a]) == a;
  }

  /** Following a path keeps whatever the source is connected to. */
  lemma {:induction false} ConnectedAlong(spec: Spec, a: string, p: seq<string>, n: nat)
    requires IsPath(spec, p) && n < |p| && Connected(spec, a, p[0])
    ensures Connected(spec, a, p[n])
  {
    if n > 0 {
      ConnectedAlong(spec, a, p, n - 1);
      assert Linked(spec, p[n - 1], p[n - 1 + 1]);
      ConnectedExtend(spec, a, p[n - 1], p[n]);
    }
  }

  lemma {:induction false} ConnectedBack(spec: Spec, p: seq<string>, n: nat)
    requires IsPath(spec, p) && n < |p|
    ensures Connected(spec, p[n], p[0])
    decreases n
  {
    ConnectedSelf(spec, p[n]);
    if n > 0 {
      ConnectedBack(spec, p, n - 1);
      assert Linked(spec, p[n - 1], p[n - 1 + 1]);
      ConnectedExtend(spec, p[n], p[n], p[n - 1]);
      var q :| IsPath(spec, q) && q[0] == p[n - 1] && Last(q) == p[0];
      ConnectedAlong(spec, p[n], q, |q| - 1);
    }
  }

  lemma ConnectedSymmetric(spec: Spec, a: string, b: string)
    requires Connected(spec, a, b)
    ensures Connected(spec, b, a)
  {
    var p :| IsPath(spec, p) && p[0] == a && Last(p) == b;
    ConnectedBack(spec, p, |p| - 1);
  }

  lemma ConnectedTransitive(spec: Spec, a: string, b: string, c: string)
    requires Connected(spec, a, b) && Connected(spec, b, c)
    ensures Connected(spec, a, c)
  {
    var q :| IsPath(spec, q) && q[0] == b && Last(q) == c;
    ConnectedAlong(spec, a, q, |q| - 1);
  }

  ghost predicate Closed(spec: Spec, s: set<string>) {
    forall a, b | a in s && Linked(spec, a, b) :: b in s
  }

  lemma {:induction false} ClosedContains(spec: Spec, s: set<string>, p: seq<string>, n: nat)
    requires Closed(spec, s) && IsPath(spec, p) && p[0] in s && n < |p|
    ensures p[n] in s
  {
    if n > 0 {
      ClosedContains(spec, s, p, n - 1);
      assert Linked(spec, p[n - 1], p[n - 1 + 1]);
    }
  }

  /** The neighbours in both directions. */
  method Neighbors(spec: Spec, v: string) returns (ns: set<string>)
    ensures forall n :: n in ns <==> Linked(spec, v, n)
  {
    ns := {};
    for i := 0 to |spec.edges|
      invariant forall n :: n in ns <==> Edge(v, n) in spec.edges[..i] || Edge(n, v) in spec.edges[..i]
    {
      var e := spec.edges[i];
      assert spec.edges[..i + 1] == spec.edges[..i] + [e];
      if e.from == v { ns := ns + {e.to}; }
      if e.to == v { ns := ns + {e.from}; }
    }
    assert spec.edges[..|spec.edges|] == spec.edges;
  }

  /** The newly visited vertices lead back to `v`, and all their neighbours are visited. */
  ghost predicate Explored(spec: Spec, v: string, before: set<string>, after: set<string>) {
    && before <= after
    && (forall x | x in after && x !in before :: Connected(spec, v, x))
    && (forall x, y | x in after && x !in before && Linked(spec, x, y) :: y in after)
  }

  /** `buildVisitedMap`, called only on vertices not visited yet. */
  method BuildVisitedMap(spec: Spec, v: string, visited: Visited, ghost universe: set<string>)
    requires v !in visited.names && v in universe && visited.names <= universe && Closed(spec, universe)
    modifies visited
    ensures v in visited.names && visited.names <= universe
    ensures Explored(spec, v, old(visited.names), visited.names)
    decreases universe - visited.names
  {
    ghost var before := visited.names;
    visited.names := visited.names + {v};
    ConnectedSelf(spec, v);
    var todo := Neighbors(spec, v);
    while todo != {}
      invariant before + {v} <= visited.names <= universe
      invariant forall n | n in todo :: Linked(spec, v, n)
      invariant forall y | Linked(spec, v, y) && y !in todo :: y in visited.names
      invariant forall x | x in visited.names && x !in before :: Connected(spec, v, x)
      invariant forall x, y | x in visited.names && x !in before && x != v && Linked(spec, x, y) :: y in visited.names
      decreases todo
    {
      var n :| n in todo;
      todo := todo - {n};
      if n !in visited.names {
        ghost var mid := visited.names;
        BuildVisitedMap(spec, n, visited, universe);
        forall x | x in visited.names && x !in mid ensures Connected(spec, v, x) {
          ConnectedExtend(spec, v, v, n);
          ConnectedTransitive(spec, v, n, x);
        }
      }
    }
  }

  function Names(spec: Spec): set<string> { set v | v in spec.vertices :: v.name }

  ghost predicate WellFormed(spec: Spec) {
    && spec.vertices != []
    && (forall i, j | 0 <= i < j < |spec.vertices| :: spec.vertices[i].name != spec.vertices[j].name)
    && (forall e | e in spec.edges :: e.from in Names(spec) && e.to in Names(spec))
  }

  ghost predicate OneGraph(spec: Spec) {
    forall a, b | a in Names(spec) && b in Names(spec) :: Connected(spec, a, b)
  }

  lemma {:induction false} NamesCount(vs: seq<Vertex>)
    requires forall i, j | 0 <= i < j < |vs| :: vs[i].name != vs[j].name
    ensures |set v | v in vs :: v.name| == |vs|
  {
    if vs != [] {
      var n := |vs| - 1;
      NamesCount(vs[..n]);
      var before := set v | v in vs[..n] :: v.name;
      assert vs == vs[..n] + [vs[n]];
      assert (set v | v in vs :: v.name) == before + {vs[n].name};
      assert vs[n].name !in before;
    }
  }

  /** `isAForest` answers false exactly if every vertex is connected to every other. */
  method IsAForest(spec: Spec) returns (forest: bool)
    requires WellFormed(spec)
    ensures forest <==> !OneGraph(spec)
  {
    var root := spec.vertices[0].name;
    assert spec.vertices[0] in spec.vertices;
    var visited := new Visited();
    BuildVisitedMap(spec, root, visited, Names(spec));
    forest := |visited.names| != |spec.vertices|;
    NamesCount(spec.vertices);
    if visited.names == Names(spec) {
      AllConnected(spec, root);
    } else {
      var x :| x in Names(spec) && x !in visited.names;
      if Connected(spec, root, x) {
        var p :| IsPath(spec, p) && p[0] == root && Last(p) == x;
        ClosedContains(spec, visited.names, p, |p| - 1);
      }
      if |visited.names| == |Names(spec)| {
        SubsetSize(visited.names, Names(spec));
      }
    }
  }

  lemma AllConnected(spec: Spec, root: string)
    requires forall x | x in Names(spec) :: Connected(spec, root, x)
    ensures OneGraph(spec)
  {
    forall a, b | a in Names(spec) && b in Names(spec) ensures Connected(spec, a, b) {
      ConnectedSymmetric(spec, root, a);
      ConnectedTransitive(spec, a, root, b);
    }
  }
}
