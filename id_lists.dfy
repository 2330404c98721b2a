/**
 * The JavaScript array operations the chat client applies to lists of user
 * ids (`indexOf`, `splice(i, 1)`, `push`), and the array object itself,
 * which two components share by reference.
 */
module IdLists {

  /** No id occurs twice. */
  predicate Distinct(s: seq<int>) {
    forall i, j :: 0 <= i < j < |s| ==> s[i] != s[j]
  }

  /** `Array.prototype.indexOf`: the position of the first element equal to `x`, or -1. */
  function IndexOf(s: seq<int>, x: int): (r: int)
    ensures r == -1 <==> x !in s
    ensures r != -1 ==> 0 <= r < |s| && s[r] == x && x !in s[..r]
  {
    if |s| == 0 then -1
    else if s[0] == x then 0
    else
      var i := IndexOf(s[1..], x);
      assert s == [s[0]] + s[1..];
      if i == -1 then -1
      else
        assert s[..i + 1] == [s[0]] + s[1..][..i];
        i + 1
  }

  /** `splice(i, 1)`: the list without position `i`, everything else in order. */
  function RemoveAt<T>(s: seq<T>, i: nat): (r: seq<T>)
    requires i < |s|
    ensures |r| == |s| - 1
    ensures forall k :: 0 <= k < i ==> r[k] == s[k]
    ensures forall k :: i <= k < |r| ==> r[k] == s[k + 1]
  {
    s[..i] + s[i + 1..]
  }

  /** `indexOf` then `splice(index, 1)`: drops the first occurrence of `x`, keeping the rest in order. */
  function RemoveFirst(s: seq<int>, x: int): (r: seq<int>)
    requires x in s
    ensures exists i :: 0 <= i < |s| && s[i] == x && x !in s[..i] && r == s[..i] + s[i + 1..]
  {
    RemoveAt(s, IndexOf(s, x))
  }

  /** Removing one position of a duplicate-free list keeps it duplicate-free and drops exactly that id. */
  lemma RemoveAtDistinct(s: seq<int>, i: nat)
    requires Distinct(s) && i < |s|
    ensures Distinct(RemoveAt(s, i))
    ensures forall y :: y in RemoveAt(s, i) <==> y in s && y != s[i]
  {
    var r := RemoveAt(s, i);
    forall y | y in s && y != s[i] ensures y in r {
      var k :| 0 <= k < |s| && s[k] == y;
      if k < i { assert r[k] == y; } else { assert k > i; assert r[k - 1] == y; }
    }
  }

  /**
   * A JavaScript `number[]` object. Components hold references to it, so a
   * change made through one holder is seen by every other holder.
   */
  class IdList {
    var ids: seq<int>

    constructor (ids: seq<int>)
      ensures this.ids == ids
    {
      this.ids := ids;
    }
  }
}
