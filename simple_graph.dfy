/**
 * The first graph of the tutorial (mod1/simple_graph.py). One string
 * channel, `graph_state`; every node returns a new value for it, which
 * overrides the old one. node1 appends "I am", then `decide_mood` sends the
 * run to node2 (" happy!") or node3 (" sad!"), and both end the run.
 */
module SimpleGraph {
  import Channels
  import Wiring

  /** `node1`: writes only `graph_state`, extended by "I am". */
  function Node1(state: map<string, string>): (r: map<string, string>)
    requires "graph_state" in state
    ensures r.Keys == {"graph_state"}
    ensures state["graph_state"] <= r["graph_state"]
    ensures r["graph_state"][|state["graph_state"]|..] == "I am"
  {
    map["graph_state" := state["graph_state"] + "I am"]
  }

  /** `node_2`: writes only `graph_state`, extended by " happy!". */
  function Node2(state: map<string, string>): (r: map<string, string>)
    requires "graph_state" in state
    ensures r.Keys == {"graph_state"}
    ensures state["graph_state"] <= r["graph_state"]
    ensures r["graph_state"][|state["graph_state"]|..] == " happy!"
  {
    map["graph_state" := state["graph_state"] + " happy!"]
  }

  /** `node_3`: writes only `graph_state`, extended by " sad!". */
  function Node3(state: map<string, string>): (r: map<string, string>)
    requires "graph_state" in state
    ensures r.Keys == {"graph_state"}
    ensures state["graph_state"] <= r["graph_state"]
    ensures r["graph_state"][|state["graph_state"]|..] == " sad!"
  {
    map["graph_state" := state["graph_state"] + " sad!"]
  }

  /** Merging a node's update replaces `graph_state` and leaves every other channel as it was. */
  lemma NodeUpdateOverrides(state: map<string, string>, update: map<string, string>)
    requires "graph_state" in state
    requires update == Node1(state) || update == Node2(state) || update == Node3(state)
    ensures var next := Channels.Overwrite(state, update);
      && next.Keys == state.Keys
      && next["graph_state"] == update["graph_state"]
      && (forall k :: k in state && k != "graph_state" ==> next[k] == state[k])
  {
  }

  /** `decide_mood`, with `coin` standing for `random.random() < 0.5`. */
  function DecideMood(state: map<string, string>, coin: bool): (r: Wiring.Endpoint)
    requires "graph_state" in state
    ensures r in {Wiring.Node("node2"), Wiring.Node("node3")}
    ensures r == Wiring.Node("node2") <==> coin
  {
    if coin then Wiring.Node("node2") else Wiring.Node("node3")
  }

  const Graph: Wiring.Graph := Wiring.Graph(
    {"node1", "node2", "node3"},
    {(Wiring.Start, Wiring.Node("node1")),
     (Wiring.Node("node2"), Wiring.End),
     (Wiring.Node("node3"), Wiring.End)},
    map["node1" := {Wiring.Node("node2"), Wiring.Node("node3")}])

  /** The graph has no dangling edge and `decide_mood` only names registered nodes. */
  lemma DecideMoodTargetsRegistered(state: map<string, string>, coin: bool)
    requires "graph_state" in state
    ensures Wiring.WellFormed(Graph)
    ensures DecideMood(state, coin) in Graph.routes["node1"]
    ensures DecideMood(state, coin).name in Graph.nodes
  {
  }

  /** `graph.invoke({"graph_state": input})`. */
  function Run(input: string, coin: bool): map<string, string>
  {
    var s0 := map["graph_state" := input];
    var s1 := Channels.Overwrite(s0, Node1(s0));
    if DecideMood(s1, coin) == Wiring.Node("node2")
    then Channels.Overwrite(s1, Node2(s1))
    else Channels.Overwrite(s1, Node3(s1))
  }

  /**
   * A full run yields the input, then "I am", then " happy!" or " sad!"
   * according to the router; the input is always a prefix of the result.
   */
  lemma RunComposesNodes(input: string, coin: bool)
    ensures Run(input, coin).Keys == {"graph_state"}
    ensures Run(input, coin)["graph_state"] ==
      input + "I am" + (if coin then " happy!" else " sad!")
    ensures input <= Run(input, coin)["graph_state"]
  {
  }
}
