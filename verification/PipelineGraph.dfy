/** A pipeline's vertices and edges, walks along the edges, and the set of vertices a search has visited. Vertices
    are identified by name. */
module PipelineGraph {

  datatype Kind = Source | Sink | MapUdf | ReduceUdf

  datatype Vertex = Vertex(name: string, kind: Kind)
  datatype Edge = Edge(from: string, to: string)
  datatype Spec = Spec(vertices: seq<Vertex>, edges: seq<Edge>)

  /** The successors of each vertex that has any. */
  type Adjacency = map<string, seq<string>>

  predicate Adjacent(es: Adjacency, a: string, b: string) { a in es && b in es[a] }

  ghost predicate IsWalk(es: Adjacency, w: seq<string>) {
    |w| >= 1 && forall i | 0 <= i < |w| - 1 :: Adjacent(es, w[i], w[i + 1])
  }

  function Last(w: seq<string>): string
    requires w != []
  {
    w[|w| - 1]
  }

  ghost predicate WalkFromTo(es: Adjacency, w: seq<string>, a: string, b: string) {
    IsWalk(es, w) && w[0] == a && Last(w) == b
  }

  /** Zero or more edges lead from `a` to `b`. */
  ghost predicate Reaches(es: Adjacency, a: string, b: string) {
    exists w :: WalkFromTo(es, w, a, b)
  }

  /** One or more edges lead from `a` back to itself. */
  ghost predicate OnCycle(es: Adjacency, a: string) {
    exists w | |w| >= 2 :: WalkFromTo(es, w, a, a)
  }

  lemma WalkJoin(es: Adjacency, v: seq<string>, w: seq<string>)
    requires IsWalk(es, v) && IsWalk(es, w) && Last(v) == w[0]
    ensures IsWalk(es, v + w[1..]) && (v + w[1..])[0] == v[0] && Last(v + w[1..]) == Last(w)
  {}

  lemma ReachesTransitive(es: Adjacency, a: string, b: string, c: string)
    requires Reaches(es, a, b) && Reaches(es, b, c)
    ensures Reaches(es, a, c)
  {
    var v :| WalkFromTo(es, v, a, b);
    var w :| WalkFromTo(es, w, b, c);
    WalkJoin(es, v, w);
    assert WalkFromTo(es, v + w[1..], a, c);
  }

  lemma WalkSlice(es: Adjacency, w: seq<string>, i: nat, j: nat)
    requires IsWalk(es, w) && i < j <= |w|
    ensures IsWalk(es, w[i..j])
  {}

  /** The set of vertices a depth-first search shares between its calls. */
  class Visited {
    var names: set<string>

    constructor ()
      ensures names == {}
    {
      names := {};
    }
  }
}
