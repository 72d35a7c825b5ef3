/**
 * Chat messages as the nodes see them: an optional identity, a kind and
 * text content. A removal marker (RemoveMessage) is a message of its own
 * kind with empty content; it asks the message reducer to delete the
 * message with the same id.
 */
module Messages {
  import opened Wrappers

  /** SystemMessage, HumanMessage, AIMessage, RemoveMessage. */
  datatype Kind = System | Human | Ai | Removal

  /** A message built inside a node has no id until the message reducer assigns one. */
  datatype Message = Message(id: Option<string>, kind: Kind, content: string)

  /** A message built in a node, without an id. */
  function NewMessage(kind: Kind, content: string): Message
  {
    Message(None, kind, content)
  }

  /** `RemoveMessage(id=...)`, which copies whatever id it is given. */
  function RemoveMessage(id: Option<string>): Message
  {
    Message(id, Removal, "")
  }

  /** The ids of a message list, position by position. */
  function Ids(msgs: seq<Message>): (r: seq<Option<string>>)
    ensures |r| == |msgs|
    ensures forall i :: 0 <= i < |msgs| ==> r[i] == msgs[i].id
  {
    seq(|msgs|, i requires 0 <= i < |msgs| => msgs[i].id)
  }

  /** No two positions of the list share an id. */
  predicate DistinctIds(msgs: seq<Message>) {
    forall i, j :: 0 <= i < j < |msgs| ==> msgs[i].id != msgs[j].id
  }
}
