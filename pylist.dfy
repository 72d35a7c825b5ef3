/**
 * Python's slicing with a negative bound, on sequences.
 * `s[:-k]` drops the last k elements and `s[-k:]` keeps them; both clamp
 * at the ends of the list instead of failing, so a short list gives `[]`
 * for the first and the whole list for the second.
 */
module PyList {

  /** `s[:-k]` for k >= 1: everything but the last k elements. */
  function DropLast<T>(s: seq<T>, k: nat): (r: seq<T>)
    requires k >= 1
    ensures |r| == if |s| <= k then 0 else |s| - k
    ensures r <= s
  {
    if |s| <= k then [] else s[..|s| - k]
  }

  /** `s[-k:]` for k >= 1: the last k elements, or all of s when it is shorter. */
  function TakeLast<T>(s: seq<T>, k: nat): (r: seq<T>)
    requires k >= 1
    ensures |r| == if |s| <= k then |s| else k
    ensures r == s[|s| - |r|..]
  {
    if |s| <= k then s else s[|s| - k..]
  }

  /** The two slices split a list: `s[:-k] + s[-k:] == s`. */
  lemma DropTakeSplit<T>(s: seq<T>, k: nat)
    requires k >= 1
    ensures DropLast(s, k) + TakeLast(s, k) == s
  {
  }
}
