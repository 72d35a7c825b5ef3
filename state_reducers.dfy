/**
 * Reducers (mod2/state_reducers.py). `reduce_list` is a custom reducer
 * that concatenates two lists and treats a missing (None) or empty side
 * as the empty list. The nodes of the `operator.add` example each write a
 * one-element list holding the current last element plus one.
 */
module StateReducers {
  import opened Wrappers

  /** Errors the example nodes can raise. */
  datatype PyError = IndexError

  /** Python truthiness of `list | None`: None and [] are falsy. */
  predicate Truthy<T>(v: Option<seq<T>>) {
    v.Some? && v.value != []
  }

  /** `reduce_list(left, right)`: a falsy side is replaced by [] before `left + right`. */
  function ReduceList<T>(left: Option<seq<T>>, right: Option<seq<T>>): (r: seq<T>)
    ensures |r| == |left.GetOr([])| + |right.GetOr([])|
    ensures r[..|left.GetOr([])|] == left.GetOr([])
    ensures r[|left.GetOr([])|..] == right.GetOr([])
  {
    var l := if !Truthy(left) then [] else left.value;
    var r := if !Truthy(right) then [] else right.value;
    l + r
  }

  /** None on the left, None on the right, and None on both sides. */
  lemma ReduceListNone<T>(l: seq<T>, r: seq<T>)
    ensures ReduceList(None, Some(r)) == r
    ensures ReduceList(Some(l), None) == l
    ensures ReduceList<T>(None, None) == []
  {
  }

  /** With both sides present the reducer is plain concatenation. */
  lemma ReduceListConcat<T>(l: seq<T>, r: seq<T>)
    ensures ReduceList(Some(l), Some(r)) == l + r
  {
  }

  /** Reducing three writes gives the same list whichever pair is reduced first. */
  lemma ReduceListAssociative<T>(a: Option<seq<T>>, b: Option<seq<T>>, c: Option<seq<T>>)
    ensures ReduceList(Some(ReduceList(a, b)), c) == ReduceList(a, Some(ReduceList(b, c)))
  {
  }

  /** Reducing successive writes one after another: the channel after each write. */
  function Accumulate<T>(current: Option<seq<T>>, writes: seq<Option<seq<T>>>): seq<T>
    decreases |writes|
  {
    if writes == [] then current.GetOr([])
    else Accumulate(Some(ReduceList(current, writes[0])), writes[1..])
  }

  /** All writes concatenated in order, a missing write contributing nothing. */
  function Flatten<T>(writes: seq<Option<seq<T>>>): seq<T>
    decreases |writes|
  {
    if writes == [] then [] else writes[0].GetOr([]) + Flatten(writes[1..])
  }

  /**
   * Applying `reduce_list` write by write keeps every element of every
   * write, in write order: the channel ends as the initial value followed
   * by the concatenation of the writes.
   */
  lemma {:induction false} AccumulateIsFlatten<T>(current: Option<seq<T>>, writes: seq<Option<seq<T>>>)
    ensures Accumulate(current, writes) == current.GetOr([]) + Flatten(writes)
    decreases |writes|
  {
    if writes == [] {
      assert current.GetOr([]) + [] == current.GetOr([]);
    } else {
      var c := current.GetOr([]);
      var w := writes[0].GetOr([]);
      var next := ReduceList(current, writes[0]);
      assert next == c + w by {
        assert next == next[..|c|] + next[|c|..];
      }
      AccumulateIsFlatten(Some(next), writes[1..]);
      assert (c + w) + Flatten(writes[1..]) == c + (w + Flatten(writes[1..]));
    }
  }

  /** `state["foo"][-1] + 1` wrapped in a one-element list, as nodes 1, 2 and 3 return it. */
  function AddNode(state: map<string, seq<int>>): (r: Result<map<string, seq<int>>, PyError>)
    requires "foo" in state
    ensures r.Failure? <==> state["foo"] == []
    ensures r.Success? ==>
      && r.value.Keys == {"foo"}
      && r.value["foo"] == [state["foo"][|state["foo"]| - 1] + 1]
  {
    var foo := state["foo"];
    if foo == [] then Failure(IndexError) else Success(map["foo" := [foo[|foo| - 1] + 1]])
  }

  /** Under `operator.add` a node's write extends the list by exactly one larger element. */
  lemma AddNodeExtends(state: map<string, seq<int>>)
    requires "foo" in state && state["foo"] != []
    ensures var foo := state["foo"];
      var merged := foo + AddNode(state).value["foo"];
      && |merged| == |foo| + 1
      && merged[..|foo|] == foo
      && merged[|foo|] == foo[|foo| - 1] + 1
  {
  }

  /** `node_1` of the custom-reducer graph writes the constant [2]. */
  function CustomReducerNode(state: map<string, Option<seq<int>>>): (r: map<string, Option<seq<int>>>)
    ensures r.Keys == {"foo"} && r["foo"] == Some([2])
  {
    map["foo" := Some([2])]
  }

  /**
   * `graph.invoke({"foo": None})`: reducing the input write None and then
   * node_1's write gives [2], where `operator.add` would raise a TypeError.
   */
  lemma CustomReducerRun()
    ensures Accumulate(None, [None, CustomReducerNode(map["foo" := None])["foo"]]) == [2]
  {
    AccumulateIsFlatten(None, [None, Some([2])]);
    assert Flatten([None, Some([2])]) == [] + ([2] + []);
  }
}
