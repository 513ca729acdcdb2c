/** Counting: how many elements satisfy a test. */
module Counting {

  function Count<T>(s: seq<T>, test: T -> bool): (n: nat)
    ensures n <= |s|
  {
    if s == [] then 0
    else Count(s[..|s| - 1], test) + if test(s[|s| - 1]) then 1 else 0
  }

  lemma {:induction false} CountAs<S, T>(s: seq<S>, t: seq<T>, p: S -> bool, q: T -> bool)
    requires |s| == |t| && forall i | 0 <= i < |s| :: p(s[i]) == q(t[i])
    ensures Count(s, p) == Count(t, q)
  {
    if s != [] {
      CountAs(s[..|s| - 1], t[..|s| - 1], p, q);
    }
  }

  lemma {:induction false} CountConcat<T>(a: seq<T>, b: seq<T>, test: T -> bool)
    ensures Count(a + b, test) == Count(a, test) + Count(b, test)
  {
    if b == [] {
      assert a + b == a;
    } else {
      CountConcat(a, b[..|b| - 1], test);
      assert (a + b)[..|a + b| - 1] == a + b[..|b| - 1];
    }
  }

  lemma {:induction false} CountNone<T>(s: seq<T>, test: T -> bool)
    requires forall x | x in s :: !test(x)
    ensures Count(s, test) == 0
  {
    if s != [] {
      CountNone(s[..|s| - 1], test);
    }
  }

  lemma {:induction false} CountAll<T>(s: seq<T>, test: T -> bool)
    requires forall x | x in s :: test(x)
    ensures Count(s, test) == |s|
  {
    if s != [] {
      CountAll(s[..|s| - 1], test);
    }
  }
}
