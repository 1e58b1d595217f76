/** How many elements of a table satisfy a predicate. */
module Counting {

  function Count<T>(p: T -> bool, s: seq<T>): nat {
    if s == [] then 0 else Count(p, s[..|s| - 1]) + if p(s[|s| - 1]) then 1 else 0
  }

  lemma {:induction false} CountUpdate<T>(p: T -> bool, s: seq<T>, i: nat, x: T)
    requires i < |s|
    ensures Count(p, s[i := x]) == Count(p, s) - (if p(s[i]) then 1 else 0) + (if p(x) then 1 else 0)
  {
    var n := |s| - 1;
    if i == n {
      assert s[i := x][..n] == s[..n];
    } else {
      assert s[i := x][..n] == s[..n][i := x];
      CountUpdate(p, s[..n], i, x);
    }
  }

  /** Pigeonhole: a count below the length leaves an element that was not counted. */
  lemma {:induction false} SomeIsNotCounted<T>(p: T -> bool, s: seq<T>)
    requires Count(p, s) < |s|
    ensures exists i :: 0 <= i < |s| && !p(s[i])
  {
    var n := |s| - 1;
    if p(s[n]) {
      SomeIsNotCounted(p, s[..n]);
      var i :| 0 <= i < n && !p(s[..n][i]);
      assert !p(s[i]);
    }
  }

  lemma {:induction false} CountIsZero<T>(p: T -> bool, s: seq<T>)
    ensures Count(p, s) == 0 <==> forall i :: 0 <= i < |s| ==> !p(s[i])
  {
    if s != [] {
      var n := |s| - 1;
      CountIsZero(p, s[..n]);
      assert forall i :: 0 <= i < n ==> s[i] == s[..n][i];
    }
  }

  lemma {:induction false} CountAtMost<T>(p: T -> bool, s: seq<T>)
    ensures Count(p, s) <= |s|
  {
    if s != [] {
      CountAtMost(p, s[..|s| - 1]);
    }
  }
}
