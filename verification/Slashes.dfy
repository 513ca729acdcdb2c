/** Names joined with slashes. */
module Slashes {

  /** Two joins are the same only if their parts are, when no slash is in the first parts. */
  lemma FirstSlash(a: string, b: string, x: string, y: string)
    requires '/' !in a && '/' !in b && a + ['/'] + x == b + ['/'] + y
    ensures a == b && x == y
  {
    var k := a + ['/'] + x;
    assert k[|a|] == '/' && k[|b|] == '/';
    assert forall i | 0 <= i < |a| :: k[i] == a[i] != '/';
    assert forall i | 0 <= i < |b| :: k[i] == b[i] != '/';
    assert a == k[..|a|] && b == k[..|b|];
    assert x == k[|a| + 1..] && y == k[|b| + 1..];
  }
}
