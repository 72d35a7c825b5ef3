/**
 * Context-window management by filtering (mod2/filtering_trim.py).
 * `filter_messages` asks the message reducer to delete every message but
 * the two most recent; `chat_model_node_2` leaves the state alone and
 * shows the model only the last message.
 */
module FilteringTrim {
  import opened Wrappers
  import opened Messages
  import PyList
  import Wiring

  /** How many of the most recent messages the filter keeps. */
  const Keep: nat := 2

  /** `filter_messages`: one removal marker per message of `messages[:-2]`. */
  function FilterMessages(messages: seq<Message>): (r: map<string, seq<Message>>)
    ensures r.Keys == {"messages"}
    ensures |r["messages"]| == if |messages| <= Keep then 0 else |messages| - Keep
    ensures forall i :: 0 <= i < |r["messages"]| ==> r["messages"][i] == RemoveMessage(messages[i].id)
  {
    var older := PyList.DropLast(messages, Keep);
    map["messages" := seq(|older|, i requires 0 <= i < |older| => RemoveMessage(older[i].id))]
  }

  /** The removals target exactly the ids of `messages[0..n-2)`, in their order. */
  lemma FilterRemovesOlderIds(messages: seq<Message>)
    ensures var removals := FilterMessages(messages)["messages"];
      && (forall m :: m in removals ==> m.kind == Removal)
      && Ids(removals) == Ids(PyList.DropLast(messages, Keep))
  {
  }

  /** Every message is either targeted by a removal or among the two kept, in list order. */
  lemma FilterPartitionsIds(messages: seq<Message>)
    ensures Ids(FilterMessages(messages)["messages"]) + Ids(PyList.TakeLast(messages, Keep)) == Ids(messages)
  {
  }

  /** With two or fewer messages nothing is removed. */
  lemma FilterShortListRemovesNothing(messages: seq<Message>)
    requires |messages| <= 2
    ensures FilterMessages(messages)["messages"] == []
  {
  }

  /** When ids are distinct, neither of the two most recent messages is targeted. */
  lemma FilterSparesMostRecent(messages: seq<Message>, j: int)
    requires DistinctIds(messages)
    requires |messages| - Keep <= j < |messages|
    requires 0 <= j
    ensures RemoveMessage(messages[j].id) !in FilterMessages(messages)["messages"]
  {
  }

  /** The four-message example with ids "1" to "4" removes ids "1" and "2". */
  lemma FilterFourMessageExample()
    ensures var messages := [
        Message(Some("1"), Ai, "Hi."),
        Message(Some("2"), Human, "Hi."),
        Message(Some("3"), Ai, "So you said you were researching ocean mammals?"),
        Message(Some("4"), Human, "Yes, I know about whales. But what others should I learn about?")];
      FilterMessages(messages) == map["messages" := [RemoveMessage(Some("1")), RemoveMessage(Some("2"))]]
  {
    var messages := [
        Message(Some("1"), Ai, "Hi."),
        Message(Some("2"), Human, "Hi."),
        Message(Some("3"), Ai, "So you said you were researching ocean mammals?"),
        Message(Some("4"), Human, "Yes, I know about whales. But what others should I learn about?")];
    var removals := FilterMessages(messages)["messages"];
    assert |removals| == 2;
    assert removals[0] == RemoveMessage(Some("1")) && removals[1] == RemoveMessage(Some("2"));
    assert removals == [RemoveMessage(Some("1")), RemoveMessage(Some("2"))];
  }

  /** `chat_model_node_2`: the model sees `messages[-1:]` and its reply is the update. */
  function ChatModelNode2(messages: seq<Message>, llm: seq<Message> -> Message): (r: map<string, seq<Message>>)
    ensures r.Keys == {"messages"}
    ensures |r["messages"]| == 1
  {
    map["messages" := [llm(PyList.TakeLast(messages, 1))]]
  }

  /** The model is shown at most one message, and it is the last one. */
  lemma ChatModelNode2SeesOnlyLast(messages: seq<Message>, llm: seq<Message> -> Message)
    ensures ChatModelNode2(messages, llm)["messages"] ==
      [llm(if messages == [] then [] else [messages[|messages| - 1]])]
  {
    if messages != [] {
      assert PyList.TakeLast(messages, 1) == [messages[|messages| - 1]];
    }
  }

  /** builder2: START -> filter -> chat_model -> END. */
  const FilterGraph: Wiring.Graph := Wiring.Graph(
    {"filter", "chat_model"},
    {(Wiring.Start, Wiring.Node("filter")),
     (Wiring.Node("filter"), Wiring.Node("chat_model")),
     (Wiring.Node("chat_model"), Wiring.End)},
    map[])

  lemma FilterGraphWellFormed()
    ensures Wiring.WellFormed(FilterGraph)
  {
  }
}
