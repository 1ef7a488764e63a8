/** The social graph the engine runs on: nodes in insertion order, the
    neighbour list of each node, the undirected edge list, and the `trust`
    attribute on edges. The graph's construction (small-world communities
    composed with a scale-free overlay) is not part of this model; a graph
    is an input. */
module SocialNetwork {
  import opened Common

  class Network {
    /** `G.nodes()`, in insertion order. */
    const nodes: seq<int>
    /** `G.neighbors(u)` for every node `u`. */
    const adj: map<int, seq<int>>
    /** `G.edges()`: every undirected edge once. */
    const edges: seq<(int, int)>
    /** The `trust` edge attribute, keyed by ordered pair. An undirected
        edge shares one attribute dictionary between its two orientations, so
        every write to it here sets `(u, v)` and `(v, u)` together; this map
        itself does not require the two to agree. */
    var trust: map<(int, int), real>

    /** Node ids are distinct, every node has a neighbour list, and every
        neighbour and every edge end is a node. The graph is undirected and
        simple: no node is its own neighbour, a neighbour list names each
        neighbour once, `v` is a neighbour of `u` exactly when `u` is one of
        `v`, and the edge list holds every
        pair of neighbours in one orientation or the other and nothing else,
        each edge once and in one orientation only. */
    ghost predicate Valid() {
      && NoDup(nodes)
      && adj.Keys == (set n | n in nodes)
      && (forall u, v :: u in adj && v in adj[u] ==> v in adj)
      && (forall e :: e in edges ==> e.0 in adj && e.1 in adj)
      && (forall u :: u in adj ==> u !in adj[u] && NoDup(adj[u]))
      && (forall u, v :: u in adj && v in adj[u] ==> u in adj[v])
      && (forall e :: e in edges ==> e.1 in adj[e.0])
      && (forall u, v :: u in adj && v in adj[u] ==> (u, v) in edges || (v, u) in edges)
      && NoDup(edges)
      && (forall e :: e in edges && e.0 != e.1 ==> (e.1, e.0) !in edges)
    }

    /** The number of neighbours of `u`. */
    function Degree(u: int): nat
      requires u in adj
    {
      |adj[u]|
    }

    /** `G[u][v].get('trust', 0.5)`: the edge's trust, 0.5 when it has none. */
    function EdgeTrust(u: int, v: int): real
      reads this
    {
      if (u, v) in trust then trust[(u, v)] else 0.5
    }
  }
}
