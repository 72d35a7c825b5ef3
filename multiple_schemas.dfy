/**
 * Multiple schemas (mod2/multiple_schemas.py). The first graph passes a
 * private channel `baz` between two nodes; the second declares an input
 * schema {question}, an output schema {answer} and an internal schema
 * {question, answer, notes}. Both are single-path graphs, so a run is the
 * nodes' updates merged in order with the overwrite reducer.
 */
module MultipleSchemas {
  import Channels
  import Wiring

  /** `node_1`: reads `foo` and writes only the private channel `baz`. */
  function PrivateNode1(state: map<string, int>): (r: map<string, int>)
    requires "foo" in state
    ensures r.Keys == {"baz"} && r["baz"] == state["foo"] + 1
  {
    map["baz" := state["foo"] + 1]
  }

  /** `node_2`: reads the private `baz` and writes only `foo`. */
  function PrivateNode2(state: map<string, int>): (r: map<string, int>)
    requires "baz" in state
    ensures r.Keys == {"foo"} && r["foo"] == state["baz"] + 1
  {
    map["foo" := state["baz"] + 1]
  }

  /** The channels of OverallState, the graph's default output schema. */
  const OverallKeys: set<string> := {"foo"}

  /** `graph.invoke({"foo": foo})` along START -> node_1 -> node_2 -> END. */
  function PrivateRun(foo: int): map<string, int>
  {
    var s0 := map["foo" := foo];
    var s1 := Channels.Overwrite(s0, PrivateNode1(s0));
    var s2 := Channels.Overwrite(s1, PrivateNode2(s1));
    Channels.Project(s2, OverallKeys)
  }

  /** The run adds two to `foo` and never surfaces `baz`; input 1 gives 3. */
  lemma PrivateRunAddsTwo(foo: int)
    ensures PrivateRun(foo) == map["foo" := foo + 2]
    ensures PrivateRun(1) == map["foo" := 3]
  {
  }

  const InputKeys: set<string> := {"question"}
  const OutputKeys: set<string> := {"answer"}
  const InternalKeys: set<string> := {"question", "answer", "notes"}

  const Notes: string := "... his is name is Devesh"

  /** `thinking_node`: writes a draft answer and working notes, whatever the input. */
  function ThinkingNode(state: map<string, string>): (r: map<string, string>)
    ensures r.Keys == {"answer", "notes"} && r.Keys <= InternalKeys
    ensures r["answer"] == "bye" && r["notes"] == Notes
  {
    map["answer" := "bye", "notes" := Notes]
  }

  /** `answer_node`: overwrites `answer` and writes nothing else. */
  function AnswerNode(state: map<string, string>): (r: map<string, string>)
    ensures r.Keys == {"answer"} && r.Keys <= OutputKeys
    ensures r["answer"] == "bye Devesh"
  {
    map["answer" := "bye Devesh"]
  }

  /** `graph.invoke({"question": question})` along START -> thinking_node -> answer_node -> END. */
  function IoRun(question: string): map<string, string>
  {
    var s0 := Channels.Project(map["question" := question], InputKeys);
    var s1 := Channels.Overwrite(s0, ThinkingNode(s0));
    var s2 := Channels.Overwrite(s1, AnswerNode(s1));
    Channels.Project(s2, OutputKeys)
  }

  /**
   * Internally the run holds question, answer and notes, but the caller
   * receives only the final answer: neither `question` nor `notes` is surfaced.
   */
  lemma IoRunSurfacesOnlyAnswer(question: string)
    ensures IoRun(question) == map["answer" := "bye Devesh"]
    ensures "question" !in IoRun(question) && "notes" !in IoRun(question)
  {
  }

  const PrivateGraph: Wiring.Graph := Wiring.Graph(
    {"node_1", "node_2"},
    {(Wiring.Start, Wiring.Node("node_1")),
     (Wiring.Node("node_1"), Wiring.Node("node_2")),
     (Wiring.Node("node_2"), Wiring.End)},
    map[])

  const IoGraph: Wiring.Graph := Wiring.Graph(
    {"answer_node", "thinking_node"},
    {(Wiring.Start, Wiring.Node("thinking_node")),
     (Wiring.Node("thinking_node"), Wiring.Node("answer_node")),
     (Wiring.Node("answer_node"), Wiring.End)},
    map[])

  lemma GraphsWellFormed()
    ensures Wiring.WellFormed(PrivateGraph) && Wiring.WellFormed(IoGraph)
  {
  }
}
