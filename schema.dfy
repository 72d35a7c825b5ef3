/**
 * A Pydantic state schema (mod2/schema.py). Building the state validates
 * `mood` against {"happy", "sad"}; node_1 extends the name, node_2 and
 * node_3 set a mood, and `decide_mood` picks one of them at random.
 * The graph hands its nodes the PydanticState instance, so node_1's
 * `state["name"]` fails as written; `MoodNode1` reads the field instead,
 * and the run is modelled with that corrected node.
 */
module Schema {
  import opened Wrappers
  import Wiring

  /** PydanticState(name, mood), only ever built through `NewPydanticState`. */
  datatype PydanticState = PydanticState(name: string, mood: string)

  /** The ValueError raised by the validator, as Pydantic reports it. */
  datatype ValidationError = ValidationError(message: string)

  const MoodMessage: string := "Each mood must be either 'happy' or 'sad'"

  const Moods: set<string> := {"happy", "sad"}

  /** `validate_mood`: passes "happy" and "sad" through unchanged and rejects anything else. */
  function ValidateMood(value: string): (r: Result<string, ValidationError>)
    ensures r.Success? <==> value in Moods
    ensures r.Success? ==> r.value == value
    ensures r.Failure? ==> r.error == ValidationError(MoodMessage)
  {
    if value !in ["happy", "sad"] then Failure(ValidationError(MoodMessage)) else Success(value)
  }

  /** `PydanticState(name=..., mood=...)`: construction runs the mood validator. */
  function NewPydanticState(name: string, mood: string): (r: Result<PydanticState, ValidationError>)
    ensures r.Success? <==> mood in Moods
    ensures r.Success? ==> r.value == PydanticState(name, mood)
  {
    match ValidateMood(mood)
    case Success(m) => Success(PydanticState(name, m))
    case Failure(e) => Failure(e)
  }

  /** The script's `PydanticState(name="John Doe", mood="mad")` is rejected. */
  lemma MadIsRejected()
    ensures NewPydanticState("John Doe", "mad") == Failure(ValidationError(MoodMessage))
  {
  }

  /** Errors the nodes of this graph can raise. */
  datatype PyError = KeyError(key: string) | TypeError(message: string)

  const NotSubscriptable: string := "'PydanticState' object is not subscriptable"

  /**
   * What a node receives: a plain dict, or the PydanticState instance that
   * a graph built over `StateGraph(PydanticState)` hands to its nodes.
   */
  datatype NodeInput = Dict(entries: map<string, string>) | Model(instance: PydanticState)

  /** Python's `state[key]`: a dict looks the key up; a BaseModel defines no item access. */
  function Subscript(input: NodeInput, key: string): (r: Result<string, PyError>)
    ensures r.Success? <==> input.Dict? && key in input.entries
    ensures r.Success? ==> r.value == input.entries[key]
    ensures input.Model? ==> r == Failure(TypeError(NotSubscriptable))
  {
    match input
    case Model(_) => Failure(TypeError(NotSubscriptable))
    case Dict(entries) => if key in entries then Success(entries[key]) else Failure(KeyError(key))
  }

  /** `node_1` as written: `{"name": state["name"] + " is ... "}`. */
  function MoodNode1AsWritten(input: NodeInput): (r: Result<map<string, string>, PyError>)
    ensures r.Success? <==> input.Dict? && "name" in input.entries
    ensures r.Success? ==> r.value == MoodNode1Update(input.entries["name"])
  {
    match Subscript(input, "name")
    case Success(name) => Success(MoodNode1Update(name))
    case Failure(e) => Failure(e)
  }

  /** The update node_1 means to write for a given name. */
  function MoodNode1Update(name: string): (r: map<string, string>)
    ensures r.Keys == {"name"}
    ensures name <= r["name"]
    ensures r["name"][|name|..] == " is ... "
  {
    map["name" := name + " is ... "]
  }

  /** `node_1` reading the field, `state.name`: writes only `name`, extended by " is ... ". */
  function MoodNode1(state: PydanticState): (r: map<string, string>)
    ensures r.Keys == {"name"}
    ensures state.name <= r["name"]
    ensures r["name"][|state.name|..] == " is ... "
  {
    MoodNode1Update(state.name)
  }

  /** `node_2`: writes only `mood`, as "happy". */
  function MoodNode2(state: PydanticState): (r: map<string, string>)
    ensures r.Keys == {"mood"} && r["mood"] == "happy"
  {
    map["mood" := "happy"]
  }

  /** `node_3`: writes only `mood`, as "sad". */
  function MoodNode3(state: PydanticState): (r: map<string, string>)
    ensures r.Keys == {"mood"} && r["mood"] == "sad"
  {
    map["mood" := "sad"]
  }

  /** Both mood nodes write a mood the validator accepts. */
  lemma MoodNodesWriteValidMoods(state: PydanticState)
    ensures ValidateMood(MoodNode2(state)["mood"]).Success?
    ensures ValidateMood(MoodNode3(state)["mood"]).Success?
  {
  }

  /** `decide_mood`, with `coin` standing for `random.random() < 0.5`. */
  function DecideMood(state: PydanticState, coin: bool): (r: Wiring.Endpoint)
    ensures r in {Wiring.Node("node_2"), Wiring.Node("node_3")}
    ensures r == Wiring.Node("node_2") <==> coin
  {
    if coin then Wiring.Node("node_2") else Wiring.Node("node_3")
  }

  const MoodGraph: Wiring.Graph := Wiring.Graph(
    {"node_1", "node_2", "node_3"},
    {(Wiring.Start, Wiring.Node("node_1")),
     (Wiring.Node("node_2"), Wiring.End),
     (Wiring.Node("node_3"), Wiring.End)},
    map["node_1" := {Wiring.Node("node_2"), Wiring.Node("node_3")}])

  /** The graph has no dangling edge and `decide_mood` only names registered nodes. */
  lemma DecideMoodTargetsRegistered(state: PydanticState, coin: bool)
    ensures Wiring.WellFormed(MoodGraph)
    ensures DecideMood(state, coin) in MoodGraph.routes["node_1"]
    ensures DecideMood(state, coin).name in MoodGraph.nodes
  {
  }

  /** Merge a node's update into the state: a written field takes the new value. */
  function Apply(state: PydanticState, update: map<string, string>): PydanticState
  {
    PydanticState(
      if "name" in update then update["name"] else state.name,
      if "mood" in update then update["mood"] else state.mood)
  }

  /** The state as `invoke` returns it, a dict of its fields. */
  function AsDict(state: PydanticState): map<string, string>
  {
    map["name" := state.name, "mood" := state.mood]
  }

  /** `graph.invoke(input)` as written: node_1 receives the PydanticState instance. */
  function MoodRunAsWritten(input: PydanticState, coin: bool): Result<map<string, string>, PyError>
  {
    match MoodNode1AsWritten(Model(input))
    case Failure(e) => Failure(e)
    case Success(update) =>
      var s1 := Apply(input, update);
      var s2 := if DecideMood(s1, coin) == Wiring.Node("node_2")
        then Apply(s1, MoodNode2(s1)) else Apply(s1, MoodNode3(s1));
      Success(AsDict(s2))
  }

  /** As written, invoking the graph on the script's input raises TypeError in node_1. */
  lemma LanceRunAsWrittenRaises(coin: bool)
    ensures NewPydanticState("Lance", "sad").Success?
    ensures MoodRunAsWritten(NewPydanticState("Lance", "sad").value, coin)
      == Failure(TypeError(NotSubscriptable))
  {
  }

  /** `graph.invoke(input)` with node_1 reading `state.name`. */
  function MoodRun(input: PydanticState, coin: bool): map<string, string>
  {
    var s1 := Apply(input, MoodNode1(input));
    var s2 := if DecideMood(s1, coin) == Wiring.Node("node_2")
      then Apply(s1, MoodNode2(s1)) else Apply(s1, MoodNode3(s1));
    AsDict(s2)
  }

  /**
   * From "Lance" the run ends with name "Lance is ... " and a mood the
   * validator accepts, whichever branch is taken.
   */
  lemma LanceRun(mood: string, coin: bool)
    requires NewPydanticState("Lance", mood).Success?
    ensures var out := MoodRun(NewPydanticState("Lance", mood).value, coin);
      && out.Keys == {"name", "mood"}
      && out["name"] == "Lance is ... "
      && out["mood"] in Moods
      && ValidateMood(out["mood"]).Success?
      && (out["mood"] == "happy" <==> coin)
  {
  }
}
