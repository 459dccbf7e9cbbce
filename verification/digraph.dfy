/**
 * The directed-graph store the builder fills: nodes with attribute
 * dictionaries and edges keyed by (source, target), both in insertion order,
 * with the merge-on-re-add behaviour of a NetworkX `DiGraph`.
 */
module DiGraphs {
  import opened Wrappers
  import opened OMaps
  import opened Seqs
  import opened Models

  type EdgeKey = (string, string)

  datatype DiGraph = DiGraph(
    nodes: OMap<string, OMap<string, Value>>,
    edges: OMap<EdgeKey, OMap<string, string>>)

  const EmptyGraph: DiGraph := DiGraph([], [])

  /** Keys are unique and every edge joins two nodes of the graph. */
  predicate WellFormed(g: DiGraph) {
    && Distinct(Keys(g.nodes))
    && Distinct(Keys(g.edges))
    && forall k :: k in Keys(g.edges) ==> k.0 in Keys(g.nodes) && k.1 in Keys(g.nodes)
  }

  /** An assignment keeps the keys unique. */
  lemma PutDistinct<K(!new), V>(m: OMap<K, V>, k: K, v: V)
    requires Distinct(Keys(m))
    ensures Distinct(Keys(Put(m, k, v)))
  {
    var ks := Keys(m);
    if k !in ks {
      forall i, j | 0 <= i < j < |ks + [k]| ensures (ks + [k])[i] != (ks + [k])[j] {
        if j == |ks| {
          assert ks[i] in ks;
        }
      }
    }
  }

  /** `add_node(id, **attrs)`: a new node, or the attributes merged into the existing node's. */
  function AddNode(g: DiGraph, id: string, attrs: OMap<string, Value>): (h: DiGraph)
    ensures WellFormed(g) ==> WellFormed(h)
    ensures Keys(h.nodes) == if id in Keys(g.nodes) then Keys(g.nodes) else Keys(g.nodes) + [id]
    ensures Get(h.nodes, id) == Some(Update(Get(g.nodes, id).GetOr([]), attrs))
    ensures forall n :: n != id ==> Get(h.nodes, n) == Get(g.nodes, n)
    ensures h.edges == g.edges
  {
    var merged := Update(Get(g.nodes, id).GetOr([]), attrs);
    assert WellFormed(g) ==> Distinct(Keys(Put(g.nodes, id, merged))) by {
      if WellFormed(g) {
        PutDistinct(g.nodes, id, merged);
      }
    }
    DiGraph(Put(g.nodes, id, merged), g.edges)
  }

  /** A node is added with no attributes unless it is already present. */
  function EnsureNode(g: DiGraph, id: string): (h: DiGraph)
    ensures WellFormed(g) ==> WellFormed(h)
    ensures Keys(h.nodes) == if id in Keys(g.nodes) then Keys(g.nodes) else Keys(g.nodes) + [id]
    ensures forall n :: n != id ==> Get(h.nodes, n) == Get(g.nodes, n)
    ensures id in Keys(g.nodes) ==> h == g
    ensures id !in Keys(g.nodes) ==> Get(h.nodes, id) == Some([])
    ensures h.edges == g.edges
  {
    if id in Keys(g.nodes) then g else AddNode(g, id, [])
  }

  /** The end nodes an edge needs, created with no attributes when missing, `u` first. */
  function AddEndNodes(g: DiGraph, u: string, v: string): (h: DiGraph)
    ensures forall n :: n in Keys(g.nodes) ==> Get(h.nodes, n) == Get(g.nodes, n)
    ensures forall n :: n in Keys(h.nodes) <==> n in Keys(g.nodes) || n == u || n == v
    ensures WellFormed(g) ==> WellFormed(h)
    ensures h.edges == g.edges
  {
    var g1 := EnsureNode(g, u);
    assert forall n :: n in Keys(g1.nodes) <==> n in Keys(g.nodes) || n == u;
    var g2 := EnsureNode(g1, v);
    assert forall n :: n in Keys(g2.nodes) <==> n in Keys(g1.nodes) || n == v;
    g2
  }

  /**
   * `add_edge(u, v, **attrs)`: missing end nodes are created, `u` first, with
   * no attributes, and the attributes are merged into the edge's.
   */
  function AddEdge(g: DiGraph, u: string, v: string, attrs: OMap<string, string>): (h: DiGraph)
    ensures h.nodes == AddEndNodes(g, u, v).nodes
    ensures Get(h.edges, (u, v)) == Some(Update(Get(g.edges, (u, v)).GetOr([]), attrs))
    ensures forall k :: k != (u, v) ==> Get(h.edges, k) == Get(g.edges, k)
    ensures Keys(h.edges) == if (u, v) in Keys(g.edges) then Keys(g.edges) else Keys(g.edges) + [(u, v)]
  {
    var merged := Update(Get(g.edges, (u, v)).GetOr([]), attrs);
    DiGraph(AddEndNodes(g, u, v).nodes, Put(g.edges, (u, v), merged))
  }

  /** Adding an edge keeps a graph well formed. */
  lemma AddEdgeWellFormed(g: DiGraph, u: string, v: string, attrs: OMap<string, string>)
    requires WellFormed(g)
    ensures WellFormed(AddEdge(g, u, v, attrs))
  {
    PutDistinct(g.edges, (u, v), Update(Get(g.edges, (u, v)).GetOr([]), attrs));
  }

  /** `number_of_edges()`. */
  function EdgeCount(g: DiGraph): nat {
    |g.edges|
  }

  predicate FromNode(n: string, e: (EdgeKey, OMap<string, string>)) {
    e.0.0 == n
  }

  function FromNodeFn(n: string): ((EdgeKey, OMap<string, string>)) -> bool {
    e => FromNode(n, e)
  }

  /** The edges leaving `n`, in the order they were first added. */
  function OutEdges(g: DiGraph, n: string): seq<(EdgeKey, OMap<string, string>)> {
    Filter(g.edges, FromNodeFn(n))
  }

  /** The out-edges of the listed nodes, node by node. */
  function EdgesFrom(g: DiGraph, ns: seq<string>): seq<(EdgeKey, OMap<string, string>)> {
    if ns == [] then [] else OutEdges(g, ns[0]) + EdgesFrom(g, ns[1..])
  }

  lemma OutEdgesMembers(g: DiGraph, n: string)
    ensures forall e :: e in OutEdges(g, n) <==> e in g.edges && e.0.0 == n
  {
    FilterMembers(g.edges, FromNodeFn(n));
    forall e ensures e in OutEdges(g, n) <==> e in g.edges && e.0.0 == n {
      assert FromNodeFn(n)(e) == FromNode(n, e);
    }
  }

  lemma {:induction false} EdgesFromMembers(g: DiGraph, ns: seq<string>)
    ensures forall e :: e in EdgesFrom(g, ns) <==> e in g.edges && e.0.0 in ns
  {
    if ns != [] {
      EdgesFromMembers(g, ns[1..]);
      OutEdgesMembers(g, ns[0]);
      assert forall n :: n in ns <==> n == ns[0] || n in ns[1..];
    }
  }

  /** `edges(data=True)`: by source node in node order, then in the order each edge was first added. */
  function EdgeList(g: DiGraph): seq<(EdgeKey, OMap<string, string>)> {
    EdgesFrom(g, Keys(g.nodes))
  }

  /** Edge iteration visits exactly the stored edges. */
  lemma EdgeListMembers(g: DiGraph)
    requires WellFormed(g)
    ensures forall e :: e in EdgeList(g) <==> e in g.edges
  {
    EdgesFromMembers(g, Keys(g.nodes));
    forall e | e in g.edges ensures e.0.0 in Keys(g.nodes) {
      var i :| 0 <= i < |g.edges| && g.edges[i] == e;
      assert Keys(g.edges)[i] == e.0;
    }
  }
}
