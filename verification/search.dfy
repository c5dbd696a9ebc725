/** First-match search over a sequence in order, the shape of a `foreach` with an early return. */
module Search {
  import opened Wrappers

  /** `i` is the position of the first element of `s` that satisfies `p`. */
  predicate IsFirst<T>(s: seq<T>, p: T -> bool, i: nat)
  {
    i < |s| && p(s[i]) && forall j :: 0 <= j < i ==> !p(s[j])
  }

  /** The index of the first element satisfying `p`, or None when no element does. */
  function FirstIndex<T>(s: seq<T>, p: T -> bool): (r: Option<nat>)
    ensures r.Some? ==> IsFirst(s, p, r.value)
    ensures r.None? <==> forall j :: 0 <= j < |s| ==> !p(s[j])
    decreases |s|
  {
    if |s| == 0 then None
    else if p(s[0]) then Some(0)
    else match FirstIndex(s[1..], p)
      case None => None
      case Some(i) => Some(i + 1)
  }

  /** There is only one first match. */
  lemma FirstIsUnique<T>(s: seq<T>, p: T -> bool, i: nat, j: nat)
    requires IsFirst(s, p, i) && IsFirst(s, p, j)
    ensures i == j
  {
  }

  /** Appending elements never moves a first match that already exists. */
  lemma {:induction false} FirstIndexAppend<T>(s: seq<T>, t: seq<T>, p: T -> bool)
    requires FirstIndex(s, p).Some?
    ensures FirstIndex(s + t, p) == FirstIndex(s, p)
  {
    var i := FirstIndex(s, p).value;
    assert (s + t)[i] == s[i];
    assert forall j :: 0 <= j < i ==> (s + t)[j] == s[j];
    assert IsFirst(s + t, p, i);
    FirstIsUnique(s + t, p, i, FirstIndex(s + t, p).value);
  }

  /** With no match so far, one more element is the first match exactly when it satisfies `p`. */
  lemma {:induction false} FirstIndexSnoc<T>(s: seq<T>, x: T, p: T -> bool)
    requires FirstIndex(s, p).None?
    ensures FirstIndex(s + [x], p) == if p(x) then Some(|s|) else None
  {
    var t := s + [x];
    assert forall j :: 0 <= j < |s| ==> t[j] == s[j];
    assert t[|s|] == x;
    if p(x) {
      assert IsFirst(t, p, |s|);
      FirstIsUnique(t, p, |s|, FirstIndex(t, p).value);
    }
  }
}
