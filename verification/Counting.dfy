/** Counting the elements of a sequence that satisfy a predicate: the one notion behind the
    reference counts and the permit accounting. */
module Counting {

  ghost function Count<T>(s: seq<T>, p: T -> bool): (n: nat)
    ensures n <= |s|
  {
    if s == [] then 0
    else Count(s[..|s| - 1], p) + (if p(s[|s| - 1]) then 1 else 0)
  }

  lemma CountAppend<T>(s: seq<T>, x: T, p: T -> bool)
    ensures Count(s + [x], p) == Count(s, p) + (if p(x) then 1 else 0)
  {}

  lemma {:induction false} CountUpdate<T>(s: seq<T>, i: nat, x: T, p: T -> bool)
    requires i < |s|
    ensures Count(s[i := x], p) ==
            Count(s, p) - (if p(s[i]) then 1 else 0) + (if p(x) then 1 else 0)
  {
    var n := |s| - 1;
    if i == n {
      assert s[i := x][..n] == s[..n];
    } else {
      assert s[i := x][..n] == s[..n][i := x];
      CountUpdate(s[..n], i, x, p);
    }
  }

  lemma {:induction false} CountSplit<T>(s: seq<T>, k: nat, p: T -> bool)
    requires k <= |s|
    ensures Count(s, p) == Count(s[..k], p) + Count(s[k..], p)
  {
    if k == |s| {
      assert s[..k] == s;
    } else {
      var n := |s| - 1;
      CountSplit(s[..n], k, p);
      assert s[..n][..k] == s[..k];
      assert s[k..][..n - k] == s[..n][k..];
    }
  }

  lemma {:induction false} CountPositive<T>(s: seq<T>, i: nat, p: T -> bool)
    requires i < |s| && p(s[i])
    ensures Count(s, p) >= 1
  {
    if i < |s| - 1 {
      CountPositive(s[..|s| - 1], i, p);
    }
  }

  lemma {:induction false} CountNone<T>(s: seq<T>, p: T -> bool)
    ensures Count(s, p) == 0 <==> forall i | 0 <= i < |s| :: !p(s[i])
  {
    if s != [] {
      var t := s[..|s| - 1];
      CountNone(t, p);
      assert forall i | 0 <= i < |t| :: t[i] == s[i];
    }
  }

  lemma {:induction false} CountPartition<T>(s: seq<T>, p: T -> bool, a: T -> bool, b: T -> bool)
    requires forall i | 0 <= i < |s| :: p(s[i]) == (a(s[i]) || b(s[i])) && !(a(s[i]) && b(s[i]))
    ensures Count(s, p) == Count(s, a) + Count(s, b)
  {
    if s != [] {
      CountPartition(s[..|s| - 1], p, a, b);
    }
  }
}
