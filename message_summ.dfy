/**
 * Running-summary conversation (mod2/message_summ.py). The state is the
 * message list plus a `summary` channel that is absent until the first
 * summary is written. `call_model` answers with the summary, when there is
 * one, prepended as a system message; `should_continue` routes to
 * summarisation once there are more than six messages; `conv_summary` asks
 * the model to create or extend the summary.
 */
module MessageSumm {
  import opened Wrappers
  import opened Messages
  import Wiring

  /** State(MessagesState) with `summary: str`, which may not be set yet. */
  datatype State = State(messages: seq<Message>, summary: Option<string>)

  /** The values written to this graph's channels. */
  datatype Value = Msgs(msgs: seq<Message>) | Text(text: string)

  /** Summarise once the conversation holds more than this many messages. */
  const Threshold: nat := 6

  const SummaryPrefix: string := "Summary of conversation earlier: "
  const ExtendPrefix: string := "This is the summary of the conversation to date: "
  const ExtendSuffix: string := "\n\nExtend the summary by taking into account the new messages above:"
  const CreateInstruction: string := "Create a summary of the conversation above:"

  /** `state.get("summary", "")`. */
  function CurrentSummary(state: State): string {
    state.summary.GetOr("")
  }

  /** The messages `call_model` passes to the model. */
  function CallModelPrompt(state: State): (prompt: seq<Message>)
    ensures CurrentSummary(state) == "" ==> prompt == state.messages
    ensures CurrentSummary(state) != "" ==>
      && |prompt| == |state.messages| + 1
      && prompt[1..] == state.messages
      && prompt[0] == Message(None, System, SummaryPrefix + CurrentSummary(state))
  {
    var summary := CurrentSummary(state);
    if summary != "" then
      [NewMessage(System, SummaryPrefix + summary)] + state.messages
    else
      state.messages
  }

  /** `call_model`: the update is the old message list followed by the model's reply. */
  function CallModel(state: State, llm: seq<Message> -> Message): (r: map<string, Value>)
    ensures r.Keys == {"messages"}
    ensures r["messages"].Msgs?
    ensures state.messages <= r["messages"].msgs
    ensures |r["messages"].msgs| == |state.messages| + 1
  {
    map["messages" := Msgs(state.messages + [llm(CallModelPrompt(state))])]
  }

  /** The reply appended by `call_model` is the model's answer to the prompt. */
  lemma CallModelAppendsReply(state: State, llm: seq<Message> -> Message)
    ensures CallModel(state, llm)["messages"].msgs[|state.messages|] == llm(CallModelPrompt(state))
  {
  }

  /** The instruction `conv_summary` appends after the conversation. */
  function SummaryInstruction(state: State): (text: string)
    ensures CurrentSummary(state) != "" ==>
      text == ExtendPrefix + CurrentSummary(state) + ExtendSuffix
    ensures CurrentSummary(state) == "" ==> text == CreateInstruction
  {
    var summary := CurrentSummary(state);
    if summary != "" then ExtendPrefix + summary + ExtendSuffix else CreateInstruction
  }

  /** The messages `conv_summary` passes to the model. */
  function SummaryPrompt(state: State): (prompt: seq<Message>)
    ensures |prompt| == |state.messages| + 1
    ensures prompt[..|state.messages|] == state.messages
    ensures prompt[|state.messages|] == Message(None, Human, SummaryInstruction(state))
  {
    state.messages + [NewMessage(Human, SummaryInstruction(state))]
  }

  /** `conv_summary`: the reply's content becomes the summary and `messages` is written as []. */
  function ConvSummary(state: State, llm: seq<Message> -> Message): (r: map<string, Value>)
    ensures r.Keys == {"summary", "messages"}
    ensures r["messages"] == Msgs([])
    ensures r["summary"] == Text(llm(SummaryPrompt(state)).content)
  {
    var response := llm(SummaryPrompt(state));
    map["summary" := Text(response.content), "messages" := Msgs([])]
  }

  /** An existing summary is carried into the extend instruction; otherwise the create form is used. */
  lemma SummaryInstructionForms(state: State)
    ensures state.summary.None? ==> SummaryInstruction(state) == CreateInstruction
    ensures state.summary == Some("") ==> SummaryInstruction(state) == CreateInstruction
    ensures forall s :: state.summary == Some(s) && s != "" ==>
      var text := SummaryInstruction(state);
      && text[..|ExtendPrefix|] == ExtendPrefix
      && text[|ExtendPrefix|..|ExtendPrefix| + |s|] == s
  {
  }

  /** `should_continue`: the router after "conversation". */
  function ShouldContinue(state: State): (r: Wiring.Endpoint)
    ensures r == Wiring.Node("summarize_conversation") <==> |state.messages| > Threshold
    ensures r == Wiring.End <==> |state.messages| <= Threshold
  {
    if |state.messages| > Threshold then Wiring.Node("summarize_conversation") else Wiring.End
  }

  /** The boundary: six messages end the run, seven trigger a summary. */
  lemma ShouldContinueBoundary(six: State, seven: State)
    requires |six.messages| == 6 && |seven.messages| == 7
    ensures ShouldContinue(six) == Wiring.End
    ensures ShouldContinue(seven) == Wiring.Node("summarize_conversation")
  {
  }

  /** START -> conversation -should_continue-> {summarize_conversation, END}; summarize_conversation -> END. */
  const Workflow: Wiring.Graph := Wiring.Graph(
    {"conversation", "summarize_conversation"},
    {(Wiring.Start, Wiring.Node("conversation")),
     (Wiring.Node("summarize_conversation"), Wiring.End)},
    map["conversation" := {Wiring.Node("summarize_conversation"), Wiring.End}])

  /**
   * Every endpoint `should_continue` returns is one the workflow declares
   * for it, the workflow has no dangling edge, and summarisation always
   * goes straight to END.
   */
  lemma WorkflowRoutesAreRegistered(state: State)
    ensures Wiring.WellFormed(Workflow)
    ensures ShouldContinue(state) in Workflow.routes["conversation"]
    ensures Wiring.IsTarget(Workflow, ShouldContinue(state))
    ensures Wiring.Successors(Workflow, Wiring.Node("summarize_conversation")) == {Wiring.End}
  {
  }
}
