/**
 * Python's ordering of `str` values, which `sorted(..., key=lambda x: x["Name"])`
 * uses: lexicographic by code point, a proper prefix before its extensions.
 */
module NameOrder {

  /** `a <= b` on Python strings. */
  predicate NameLeq(a: string, b: string)
  {
    |a| == 0 || (|b| > 0 && (a[0] < b[0] || (a[0] == b[0] && NameLeq(a[1..], b[1..]))))
  }

  /** `a < b` on Python strings: in a total order, the negation of `b <= a`. */
  predicate NameLess(a: string, b: string)
  {
    !NameLeq(b, a)
  }

  lemma {:induction false} NameLeqReflexive(a: string)
    ensures NameLeq(a, a)
  {
    if |a| > 0 {
      NameLeqReflexive(a[1..]);
    }
  }

  lemma {:induction false} NameLeqTotal(a: string, b: string)
    ensures NameLeq(a, b) || NameLeq(b, a)
  {
    if |a| > 0 && |b| > 0 && a[0] == b[0] {
      NameLeqTotal(a[1..], b[1..]);
    }
  }

  lemma {:induction false} NameLeqAntisymmetric(a: string, b: string)
    requires NameLeq(a, b) && NameLeq(b, a)
    ensures a == b
  {
    if |a| > 0 && |b| > 0 {
      NameLeqAntisymmetric(a[1..], b[1..]);
      assert a == [a[0]] + a[1..];
      assert b == [b[0]] + b[1..];
    }
  }

  lemma {:induction false} NameLeqTransitive(a: string, b: string, c: string)
    requires NameLeq(a, b) && NameLeq(b, c)
    ensures NameLeq(a, c)
  {
    if |a| > 0 && |b| > 0 && |c| > 0 && a[0] == b[0] && b[0] == c[0] {
      NameLeqTransitive(a[1..], b[1..], c[1..]);
    }
  }
}
