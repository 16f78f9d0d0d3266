/** The collection operations the route handlers lean on: the first match of a query
    (`findOne`, `findById`), `Array.prototype.filter` and `Array.prototype.map`. */
module Seqs {
  import opened Common

  /** Index of the first element satisfying `f`, as a query that returns one document does. */
  function FirstIndex<T>(s: seq<T>, f: T -> bool): (r: Option<nat>)
    ensures r.Some? ==> r.value < |s| && f(s[r.value])
    ensures r.Some? ==> forall j :: 0 <= j < r.value ==> !f(s[j])
    ensures r.None? ==> forall j :: 0 <= j < |s| ==> !f(s[j])
  {
    if |s| == 0 then None
    else if f(s[0]) then Some(0)
    else match FirstIndex(s[1..], f)
         case None => None
         case Some(k) => Some(k + 1)
  }

  /** The elements satisfying `f`, in their original order. */
  function Filter<T>(s: seq<T>, f: T -> bool): (r: seq<T>)
    ensures |r| <= |s|
    ensures forall i :: 0 <= i < |r| ==> r[i] in s && f(r[i])
    ensures forall i :: 0 <= i < |s| && f(s[i]) ==> s[i] in r
  {
    if |s| == 0 then []
    else
      var r := (if f(s[0]) then [s[0]] else []) + Filter(s[1..], f);
      assert forall i :: 1 <= i < |s| ==> s[i] == s[1..][i - 1];
      r
  }

  /** `f` applied to every element, in order. */
  function Map<T, U>(s: seq<T>, f: T -> U): (r: seq<U>)
    ensures |r| == |s|
    ensures forall i :: 0 <= i < |s| ==> r[i] == f(s[i])
  {
    if |s| == 0 then [] else [f(s[0])] + Map(s[1..], f)
  }

  /** A sequence with the element at `i` taken out, as a delete by id does. */
  function RemoveAt<T>(s: seq<T>, i: nat): (r: seq<T>)
    requires i < |s|
    ensures |r| == |s| - 1
    ensures forall k :: 0 <= k < i ==> r[k] == s[k]
    ensures forall k :: i <= k < |r| ==> r[k] == s[k + 1]
  {
    s[..i] + s[i + 1..]
  }

  /** Two sequences that agree position by position on the query find the same first match. */
  lemma {:induction false} FirstIndexAgrees<T>(s: seq<T>, t: seq<T>, f: T -> bool, g: T -> bool)
    requires |s| == |t|
    requires forall j :: 0 <= j < |s| ==> f(s[j]) == g(t[j])
    ensures FirstIndex(s, f) == FirstIndex(t, g)
  {
    if |s| > 0 && !f(s[0]) {
      FirstIndexAgrees(s[1..], t[1..], f, g);
    }
  }

  /** Appending an element that fails the query does not move the first match. */
  lemma {:induction false} FirstIndexAppend<T>(s: seq<T>, x: T, f: T -> bool)
    ensures FirstIndex(s + [x], f) == match FirstIndex(s, f)
                                      case Some(i) => Some(i)
                                      case None => if f(x) then Some(|s|) else None
  {
    if |s| > 0 {
      assert (s + [x])[1..] == s[1..] + [x];
      FirstIndexAppend(s[1..], x, f);
    }
  }

  /** Filtering distributes over appending one element. */
  lemma {:induction false} FilterAppend<T>(s: seq<T>, x: T, f: T -> bool)
    ensures Filter(s + [x], f) == Filter(s, f) + (if f(x) then [x] else [])
  {
    if |s| == 0 {
      assert s + [x] == [x];
    } else {
      assert (s + [x])[1..] == s[1..] + [x];
      FilterAppend(s[1..], x, f);
    }
  }

  /** Filtering keeps a sequence whose every element passes. */
  lemma {:induction false} FilterKeepsAll<T>(s: seq<T>, f: T -> bool)
    requires forall i :: 0 <= i < |s| ==> f(s[i])
    ensures Filter(s, f) == s
  {
    if |s| > 0 {
      FilterKeepsAll(s[1..], f);
    }
  }
}
