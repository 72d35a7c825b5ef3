/**
 * The shape of a graph as the tutorial scripts declare it: registered node
 * names, plain edges between endpoints, and for each node with a
 * conditional edge the set of endpoints its router can return.
 */
module Wiring {

  /** START, a registered node, or END. A router returns `Node(..)` or `End`. */
  datatype Endpoint = Start | Node(name: string) | End

  datatype Graph = Graph(
    nodes: set<string>,
    edges: set<(Endpoint, Endpoint)>,
    routes: map<string, set<Endpoint>>)

  /** A target is END or a node that was registered with add_node. */
  predicate IsTarget(g: Graph, e: Endpoint) {
    e == End || (e.Node? && e.name in g.nodes)
  }

  /** A source is START or a registered node. */
  predicate IsSource(g: Graph, e: Endpoint) {
    e == Start || (e.Node? && e.name in g.nodes)
  }

  /**
   * No dangling edge, START has an outgoing edge, and every router hangs
   * off a registered node and can only name registered nodes or END.
   */
  predicate WellFormed(g: Graph) {
    && (forall e :: e in g.edges ==> IsSource(g, e.0) && IsTarget(g, e.1))
    && (exists e :: e in g.edges && e.0 == Start)
    && (forall n :: n in g.routes ==> n in g.nodes)
    && (forall n, t :: n in g.routes && t in g.routes[n] ==> IsTarget(g, t))
  }

  /** The endpoints reachable in one step from `n`: plain edges and router results. */
  function Successors(g: Graph, n: Endpoint): (r: set<Endpoint>)
    ensures forall t :: t in r <==>
      (n, t) in g.edges || (n.Node? && n.name in g.routes && t in g.routes[n.name])
  {
    var plain := set e | e in g.edges && e.0 == n :: e.1;
    var routed := if n.Node? && n.name in g.routes then g.routes[n.name] else {};
    plain + routed
  }
}
