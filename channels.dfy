/**
 * Graph state as the tutorial's TypedDict states are used: a dictionary
 * from channel name to value. A node returns a partial update of the same
 * shape. Under the default reducer a written channel takes the new value
 * and every other channel keeps its old one; the graph hands the caller
 * only the channels of its output schema.
 */
module Channels {

  /** Merge one node's update into the state under the overwrite reducer. */
  function Overwrite<V>(state: map<string, V>, update: map<string, V>): (r: map<string, V>)
    ensures r.Keys == state.Keys + update.Keys
    ensures forall k :: k in update ==> r[k] == update[k]
    ensures forall k :: k in state && k !in update ==> r[k] == state[k]
  {
    state + update
  }

  /** The state as surfaced through an output schema that declares `keys`. */
  function Project<V>(state: map<string, V>, keys: set<string>): (r: map<string, V>)
    ensures r.Keys == state.Keys * keys
    ensures forall k :: k in r ==> r[k] == state[k]
  {
    map k | k in state && k in keys :: state[k]
  }
}
