/** Counting the elements of a sequence that satisfy a test. */
module Counting {

  function Count<T>(s: seq<T>, f: T -> bool): (n: nat)
    ensures n <= |s|
  {
    if s == [] then 0 else (if f(s[0]) then 1 else 0) + Count(s[1..], f)
  }

  lemma {:induction false} CountAppend<T>(a: seq<T>, b: seq<T>, f: T -> bool)
    ensures Count(a + b, f) == Count(a, f) + Count(b, f)
    decreases |a|
  {
    if a == [] {
      assert a + b == b;
    } else {
      assert (a + b)[1..] == a[1..] + b;
      CountAppend(a[1..], b, f);
    }
  }

  lemma {:induction false} CountNone<T>(s: seq<T>, f: T -> bool)
    requires forall i :: 0 <= i < |s| ==> !f(s[i])
    ensures Count(s, f) == 0
    decreases |s|
  {
    if s != [] {
      CountNone(s[1..], f);
    }
  }

  lemma {:induction false} CountAll<T>(s: seq<T>, f: T -> bool)
    requires forall i :: 0 <= i < |s| ==> f(s[i])
    ensures Count(s, f) == |s|
    decreases |s|
  {
    if s != [] {
      CountAll(s[1..], f);
    }
  }

  /** One element that passes makes the count positive. */
  lemma {:induction false} CountPositive<T>(s: seq<T>, f: T -> bool, i: nat)
    requires i < |s| && f(s[i])
    ensures Count(s, f) > 0
    decreases |s|
  {
    if i > 0 {
      CountPositive(s[1..], f, i - 1);
    }
  }

  /** One element that fails keeps the count below the length. */
  lemma {:induction false} CountBelowLength<T>(s: seq<T>, f: T -> bool, i: nat)
    requires i < |s| && !f(s[i])
    ensures Count(s, f) < |s|
    decreases |s|
  {
    if i > 0 {
      CountBelowLength(s[1..], f, i - 1);
    }
  }

  /** Replacing one element changes the count by the difference of the two tests. */
  lemma {:induction false} CountUpdate<T>(s: seq<T>, f: T -> bool, i: nat, x: T)
    requires i < |s|
    ensures Count(s[i := x], f) + (if f(s[i]) then 1 else 0) == Count(s, f) + (if f(x) then 1 else 0)
    decreases |s|
  {
    if i == 0 {
      assert s[i := x][1..] == s[1..];
    } else {
      assert s[i := x][1..] == s[1..][i - 1 := x];
      CountUpdate(s[1..], f, i - 1, x);
    }
  }

  /** A positive count has a witness. */
  lemma {:induction false} CountWitness<T>(s: seq<T>, f: T -> bool) returns (i: nat)
    requires Count(s, f) > 0
    ensures i < |s| && f(s[i])
    decreases |s|
  {
    if f(s[0]) {
      i := 0;
    } else {
      var j := CountWitness(s[1..], f);
      i := j + 1;
    }
  }

  /** A prefix that stops short of a counted last element counts less. */
  lemma {:induction false} CountShortPrefix<T>(s: seq<T>, f: T -> bool, k: nat)
    requires k < |s| && f(s[|s| - 1])
    ensures Count(s[..k], f) < Count(s, f)
  {
    assert s == s[..k] + s[k..];
    CountAppend(s[..k], s[k..], f);
    CountPositive(s[k..], f, |s| - 1 - k);
  }

  /** A zero count means no element passes the test. */
  lemma {:induction false} CountZero<T>(s: seq<T>, f: T -> bool)
    requires Count(s, f) == 0
    ensures forall i :: 0 <= i < |s| ==> !f(s[i])
    decreases |s|
  {
    if s != [] {
      CountZero(s[1..], f);
      assert forall i :: 1 <= i < |s| ==> s[i] == s[1..][i - 1];
    }
  }
}
