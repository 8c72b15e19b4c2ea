/** Bounded prefixes and counting, shared by the dashboard aggregation and
    the simulation lemmas. */
module Counting {

  /** The first `n` elements of `s`, or all of `s` when it is shorter
      (a sliced query `[:n]` in Django, `slice(0, n)` in JavaScript). */
  function Take<T>(s: seq<T>, n: nat): (r: seq<T>)
    ensures |r| == if |s| < n then |s| else n
    ensures r == s[..|r|]
  {
    if |s| < n then s else s[..n]
  }

  /** How many elements of `s` satisfy `p`. */
  function Count<T>(s: seq<T>, p: T -> bool): (n: nat)
    ensures n <= |s|
  {
    if s == [] then 0 else Count(s[..|s| - 1], p) + (if p(s[|s| - 1]) then 1 else 0)
  }

  /** Extending a sequence by one element adds one to the count exactly when that element satisfies `p`. */
  lemma CountSnoc<T>(s: seq<T>, x: T, p: T -> bool)
    ensures Count(s + [x], p) == Count(s, p) + (if p(x) then 1 else 0)
  {
    assert (s + [x])[..|s|] == s;
  }

  /** The count is zero exactly when no element satisfies `p`. */
  lemma {:induction false} CountZeroIff<T>(s: seq<T>, p: T -> bool)
    ensures Count(s, p) == 0 <==> forall i :: 0 <= i < |s| ==> !p(s[i])
  {
    if s != [] {
      var init := s[..|s| - 1];
      CountZeroIff(init, p);
      assert forall i :: 0 <= i < |init| ==> init[i] == s[i];
    }
  }

}
