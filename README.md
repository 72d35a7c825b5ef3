# LangGraph tutorial nodes, routers and reducers in Dafny

This project models the logic that the LangGraph tutorial scripts write for themselves. The graph engine they plug into is not modelled. The modelled pieces are:

- the context-window filter and the last-message node (`mod2/filtering_trim.py`);
- the running-summary controller: the `should_continue` threshold router, and the prompts and updates built by `call_model` and `conv_summary` (`mod2/message_summ.py`);
- the None-tolerant `reduce_list` reducer and the `[last + 1]` nodes of the `operator.add` example (`mod2/state_reducers.py`);
- the private-channel and input/output-schema graphs (`mod2/multiple_schemas.py`);
- the Pydantic mood validator, its nodes and its router (`mod2/schema.py`);
- the string-appending first graph (`mod1/simple_graph.py`).

Every piece is pure, so the model uses only datatypes, functions and lemmas. A node is a function from the state to its partial update. Both the state and the update are `map<string, V>`, the shape of the Python dicts. Two states are records instead. The summariser's state mixes a message list with an optional `summary` string. The schema.py state is the `PydanticState` model instance that the graph hands its nodes. A node over a dict `requires` the keys it subscripts, because each one is declared in the graph's state schema.

The language model is a function parameter `seq<Message> -> Message`. `random.random() < 0.5` in the routers is a boolean parameter `coin`. Routers return a `Wiring.Endpoint`: a registered node, or `End`. Each graph's wiring is a `Wiring.Graph` value, and `Wiring.WellFormed` says that it has no dangling edge and that every router names only registered nodes or END.

A run of a single-path graph is modelled as the nodes' updates merged in order with the overwrite reducer (`Channels.Overwrite`). This follows the doc comments: each node's new value overrides the prior one. A declared output schema then restricts the result (`Channels.Project`).

Python's negative slices `s[:-k]` and `s[-k:]` are `PyList.DropLast` and `PyList.TakeLast`. Like Python, they clamp at the ends of the list instead of failing.

`conv_summary` writes `messages` as `[]` and emits no `RemoveMessage` markers (mod2/message_summ.py:56).

Modules: `Wrappers` (Option, Result), `PyList`, `Messages`, `Channels`, `Wiring`, and one module per source file: `FilteringTrim`, `MessageSumm`, `StateReducers`, `MultipleSchemas`, `Schema`, `SimpleGraph`.

## Model

| member | source | states |
|---|---|---|
| `PyList.DropLast` | mod2/filtering_trim.py:50 | `s[:-k]` is a prefix of `s` of length max(0, n-k) |
| `PyList.TakeLast` | mod2/filtering_trim.py:88 | `s[-k:]` is the suffix of `s` of length min(n, k) |
| `PyList.DropTakeSplit` | mod2/filtering_trim.py:50 | `s[:-k] + s[-k:] == s` |
| `Channels.Overwrite` | mod1/simple_graph.py:22-24 | merging an update gives each written key its new value and keeps every other key unchanged |
| `Channels.Project` | mod2/multiple_schemas.py:81 | the output schema keeps exactly the state's keys that the schema declares, with their values |
| `FilteringTrim.FilterMessages` | mod2/filtering_trim.py:48-51 | the update writes only `messages`: max(0, n-2) removal markers, the i-th targeting the id of message i |
| `FilteringTrim.FilterRemovesOlderIds` | mod2/filtering_trim.py:50 | every marker is a removal, and their ids are exactly the ids of `messages[:-2]`, in order |
| `FilteringTrim.FilterPartitionsIds` | mod2/filtering_trim.py:49-51 | the removed ids followed by the ids of the two kept messages are the ids of the whole list |
| `FilteringTrim.FilterShortListRemovesNothing` | mod2/filtering_trim.py:50 | with two or fewer messages the removal list is empty |
| `FilteringTrim.FilterSparesMostRecent` | mod2/filtering_trim.py:49-50 | with distinct ids, no removal targets either of the two most recent messages |
| `FilteringTrim.FilterFourMessageExample` | mod2/filtering_trim.py:63-77 | for messages with ids "1" to "4" the removals are exactly ids "1" and "2" |
| `FilteringTrim.ChatModelNode2` | mod2/filtering_trim.py:87-88 | the update writes only `messages`, as a one-element list |
| `FilteringTrim.ChatModelNode2SeesOnlyLast` | mod2/filtering_trim.py:88 | the model is given the last message alone, or nothing when the list is empty |
| `FilteringTrim.FilterGraphWellFormed` | mod2/filtering_trim.py:54-60 | START -> filter -> chat_model -> END has no dangling edge |
| `MessageSumm.CallModelPrompt` | mod2/message_summ.py:28-34 | with an empty or missing summary the prompt is the message list unchanged; otherwise it is one system message "Summary of conversation earlier: " + summary, then the messages |
| `MessageSumm.CallModel` | mod2/message_summ.py:36-38 | the update writes only `messages`; the old list is a prefix of it and it is one longer |
| `MessageSumm.CallModelAppendsReply` | mod2/message_summ.py:36-38 | the one new message is the model's reply to the prompt |
| `MessageSumm.SummaryInstruction` | mod2/message_summ.py:43-52 | with a summary, the instruction is the "extend" text carrying it; without one, the "create" text |
| `MessageSumm.SummaryInstructionForms` | mod2/message_summ.py:44-52 | a missing or empty summary gives the create form; a non-empty summary appears right after the extend prefix |
| `MessageSumm.SummaryPrompt` | mod2/message_summ.py:54 | the summarisation prompt is the messages plus exactly one trailing human instruction |
| `MessageSumm.ConvSummary` | mod2/message_summ.py:55-56 | the update writes exactly `summary` (the reply's content) and `messages` (the empty list) |
| `MessageSumm.ShouldContinue` | mod2/message_summ.py:60-64 | the router goes to summarize_conversation exactly when there are more than 6 messages, and to END otherwise |
| `MessageSumm.ShouldContinueBoundary` | mod2/message_summ.py:62 | 6 messages route to END and 7 route to summarisation |
| `MessageSumm.WorkflowRoutesAreRegistered` | mod2/message_summ.py:67-75 | the workflow has no dangling edge, every result of `should_continue` is a declared target, and summarize_conversation only goes to END |
| `StateReducers.ReduceList` | mod2/state_reducers.py:129-133 | the result has length len(left) + len(right), None counting as empty; it starts with the left list and ends with the right list |
| `StateReducers.ReduceListNone` | mod2/state_reducers.py:122-133 | None on the left gives the right list, None on the right gives the left list, and None on both sides gives [] |
| `StateReducers.ReduceListConcat` | mod2/state_reducers.py:126-133 | with both lists present the result is `left + right` |
| `StateReducers.ReduceListAssociative` | mod2/state_reducers.py:126-133 | reducing three writes gives the same list whichever pair is reduced first |
| `StateReducers.AccumulateIsFlatten` | mod2/state_reducers.py:112-137 | reducing writes one after another yields the initial value followed by every write in order |
| `StateReducers.CustomReducerNode` | mod2/state_reducers.py:140-142 | node_1 writes only `foo`, as [2] |
| `StateReducers.CustomReducerRun` | mod2/state_reducers.py:156-159 | reducing the input None and then node_1's write gives [2] |
| `StateReducers.AddNode` | mod2/state_reducers.py:78-90 | each add-reducer node fails with IndexError exactly on an empty list, and otherwise writes only `foo` as [last + 1] |
| `StateReducers.AddNodeExtends` | mod2/state_reducers.py:74-90 | appending a node's write keeps the old list as a prefix and adds exactly one element, last + 1 |
| `MultipleSchemas.PrivateNode1` | mod2/multiple_schemas.py:24-26 | node_1 writes only the private `baz`, as foo + 1 |
| `MultipleSchemas.PrivateNode2` | mod2/multiple_schemas.py:29-31 | node_2 writes only `foo`, as baz + 1 |
| `MultipleSchemas.PrivateRunAddsTwo` | mod2/multiple_schemas.py:40-46 | along START -> node_1 -> node_2 -> END the output is exactly foo + 2, with `baz` not surfaced; input 1 gives 3 |
| `MultipleSchemas.ThinkingNode` | mod2/multiple_schemas.py:73-74 | whatever its input, the node writes `answer` = "bye" and the notes string, both internal channels |
| `MultipleSchemas.AnswerNode` | mod2/multiple_schemas.py:77-78 | the node writes only `answer`, as "bye Devesh" |
| `MultipleSchemas.IoRunSurfacesOnlyAnswer` | mod2/multiple_schemas.py:59-91 | the caller receives exactly {answer: "bye Devesh"}; `question` and `notes` are not surfaced |
| `MultipleSchemas.GraphsWellFormed` | mod2/multiple_schemas.py:35-86 | both graphs have no dangling edge |
| `Schema.ValidateMood` | mod2/schema.py:27-33 | accepts exactly "happy" and "sad", returns the value unchanged, and otherwise fails with the mood error |
| `Schema.NewPydanticState` | mod2/schema.py:23-33 | building the state succeeds exactly when the mood is valid, and keeps both fields |
| `Schema.MadIsRejected` | mod2/schema.py:36-39 | the mood "mad" is rejected with the validator's error |
| `Schema.Subscript` | mod2/schema.py:44 | `state[key]` succeeds exactly on a dict holding the key, giving its value; on a PydanticState instance it raises TypeError |
| `Schema.MoodNode1AsWritten` | mod2/schema.py:42-44 | node_1 as written succeeds exactly when it is given a dict holding `name`, and then writes only `name`, extended by " is ... " |
| `Schema.LanceRunAsWrittenRaises` | mod2/schema.py:69-83 | as written, invoking the graph on `PydanticState(name="Lance", mood="sad")` raises TypeError in node_1 |
| `Schema.MoodNode1` | mod2/schema.py:42-44 | node_1 reading `state.name` writes only `name`, extended by " is ... " |
| `Schema.MoodNode2` | mod2/schema.py:47-49 | node_2 writes only `mood`, as "happy" |
| `Schema.MoodNode3` | mod2/schema.py:52-54 | node_3 writes only `mood`, as "sad" |
| `Schema.MoodNodesWriteValidMoods` | mod2/schema.py:47-54 | both moods the nodes write pass `validate_mood` |
| `Schema.DecideMood` | mod2/schema.py:57-66 | the router returns node_2 or node_3, and node_2 exactly when the random draw is below 0.5 |
| `Schema.DecideMoodTargetsRegistered` | mod2/schema.py:69-78 | the graph has no dangling edge, and the router names only registered nodes |
| `Schema.LanceRun` | mod2/schema.py:75-83 | with node_1 reading `state.name`, from name "Lance" a run ends with name "Lance is ... " and a valid mood, happy exactly on the node_2 branch |
| `SimpleGraph.Node1` | mod1/simple_graph.py:27-29 | node1 writes only `graph_state`, as the old value followed by "I am" |
| `SimpleGraph.Node2` | mod1/simple_graph.py:32-34 | node_2 writes only `graph_state`, as the old value followed by " happy!" |
| `SimpleGraph.Node3` | mod1/simple_graph.py:37-39 | node_3 writes only `graph_state`, as the old value followed by " sad!" |
| `SimpleGraph.NodeUpdateOverrides` | mod1/simple_graph.py:22-24 | merging any node's update replaces `graph_state` and changes no other channel |
| `SimpleGraph.DecideMood` | mod1/simple_graph.py:56-61 | the router returns node2 or node3, and node2 exactly when the random draw is below 0.5 |
| `SimpleGraph.DecideMoodTargetsRegistered` | mod1/simple_graph.py:85-94 | the graph has no dangling edge, and the router names only registered nodes |
| `SimpleGraph.RunComposesNodes` | mod1/simple_graph.py:111-117 | a full run yields input + "I am" + (" happy!" or " sad!", following the router), so the input is a prefix of the result |

## Findings

| source | as written | input that shows it | evidently intended | confidence | as-written member | corrected member |
|---|---|---|---|---|---|---|
| mod2/schema.py:42-44 | node_1 reads `state["name"]`, but a graph built over `StateGraph(PydanticState)` (mod2/schema.py:69) hands each node a PydanticState instance, and a BaseModel has no item access, so a TypeError is raised | `graph.invoke(PydanticState(name="Lance", mood="sad"))` (mod2/schema.py:83), whichever branch the router would take | node_1 reads the field: `{"name": state.name + " is ... "}` | medium: rests on how the library passes a Pydantic state to nodes; not executed | `Schema.LanceRunAsWrittenRaises` | `Schema.LanceRun` |

## Left out

- The LangGraph engine is not part of this model. That covers `StateGraph.compile` and `invoke`, superstep scheduling, parallel fan-out, the `add_messages` upsert/delete reducer, applying `RemoveMessage`, and `MemorySaver` checkpointing. The model states node outputs. For single-path graphs it also states the overwrite merge the doc comments promise.
- MessageSumm.ConvSummary: states the node's output only. Under the library's message reducer, an empty `messages` write deletes nothing. What that means for the conversation length is outside the model.
- StateReducers: the branching examples (mod2/state_reducers.py:10-50 and 93-110) are left out. They show the engine's `InvalidUpdateError` for two overwrite writers and the `operator.add` merge of parallel writes. The `add_messages` demonstrations (mod2/state_reducers.py:173-218) are left out because they call library code.
- StateReducers.ReduceList: models the falsy values that `list | None` can take, None and [], and no other Python falsy values.
- Language-model calls (`ChatOpenAI`, `invoke`, `bind_tools`) become a function parameter. Token counting is not modelled.
- `chat_model_node` (mod2/filtering_trim.py:28-29) is not modelled. It only passes the whole message list to the model.
- `chat_model_node_3` and `trim_messages` (mod2/filtering_trim.py:115-123) are library code driven by a token counter. The node also discards the trimmed list.
- The agent, router, chain and memory-agent scripts (mod1/agent.py, mod1/router.py, mod1/chain.py, mod1/mem_agent.py) are tool-calling glue, and `divide` is floating point. weather_agent.py makes network calls.
- The interactive loop (mod2/message_summ.py:84-104), `load_dotenv`, environment reads and printing are I/O.
- `random.random()` is the boolean parameter `coin`. Probabilities are not modelled.
- Pydantic machinery beyond the mood validator is not modelled. Node updates to a PydanticState are merged field by field, without validating them again.
- Schema.LanceRun: describes the intended run, with node_1 reading `state.name`. The program as written raises TypeError at mod2/schema.py:44 (see Findings and `Schema.LanceRunAsWrittenRaises`).
- Messages.Message: drops the display `name` of a message (`name="Bot"`, `name="Lance"`, mod2/filtering_trim.py:63-72), because no modelled operation reads or writes it.
- Input validation against the input schema is not modelled. A run starts from the declared input keys.
