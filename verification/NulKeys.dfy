/** Keys joined from texts with NUL characters between them. */
module NulKeys {

  const NUL: string := "\0"

  predicate NulFree(s: string) {
    forall i :: 0 <= i < |s| ==> s[i] != '\0'
  }

  /** Up to the first NUL, a joined key determines its parts. */
  lemma {:induction false} JoinInjective(a: string, b: string, x: string, y: string)
    requires NulFree(a) && NulFree(b) && a + (NUL + x) == b + (NUL + y)
    ensures a == b && x == y
    decreases |a|
  {
    assert (a + (NUL + x))[0] == (b + (NUL + y))[0];
    if a == [] || b == [] {
      assert (NUL + x)[0] == '\0' && (NUL + y)[0] == '\0';
      assert (NUL + x)[1..] == x && (NUL + y)[1..] == y;
      assert a == b && a + (NUL + x) == NUL + x && b + (NUL + y) == NUL + y;
    } else {
      assert (a + (NUL + x))[1..] == a[1..] + (NUL + x) && (b + (NUL + y))[1..] == b[1..] + (NUL + y);
      JoinInjective(a[1..], b[1..], x, y);
    }
  }
}
