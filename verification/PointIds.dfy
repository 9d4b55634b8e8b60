/**
 * Qdrant point ids. The id is a digest of "accession:seq"; the digest is taken
 * to be injective, so the string itself stands for the id here.
 */
module PointIds {

  function Digit(d: nat): (c: char)
    requires d < 10
    ensures c != ':'
  {
    '0' + d as char
  }

  /** seq as it prints. */
  function Decimal(n: nat): (s: string)
    ensures |s| > 0 && ':' !in s
  {
    if n < 10 then [Digit(n)] else Decimal(n / 10) + [Digit(n % 10)]
  }

  function PointName(acc: string, number: nat): string {
    acc + ":" + Decimal(number)
  }

  lemma DigitsDiffer(d: nat, e: nat)
    requires d < 10 && e < 10 && Digit(d) == Digit(e)
    ensures d == e
  {
  }

  lemma {:induction false} DecimalInjective(m: nat, n: nat)
    requires Decimal(m) == Decimal(n)
    ensures m == n
  {
    var a, b := Decimal(m), Decimal(n);
    assert a[|a| - 1] == Digit(m % 10) && b[|b| - 1] == Digit(n % 10);
    DigitsDiffer(m % 10, n % 10);
    if m >= 10 && n >= 10 {
      assert a[..|a| - 1] == Decimal(m / 10) && b[..|b| - 1] == Decimal(n / 10);
      DecimalInjective(m / 10, n / 10);
    }
  }

  /** The last colon ends the accession, whatever the accession contains. */
  lemma SplitsAtLastColon(a: string, b: string, p: string, q: string)
    requires a + ":" + p == b + ":" + q && ':' !in p && ':' !in q
    ensures a == b && p == q
  {
    var s := a + ":" + p;
    assert s[|a|] == ':' && s[|b|] == ':';
    assert forall i :: |a| < i < |s| ==> s[i] == p[i - |a| - 1];
    assert forall i :: |b| < i < |s| ==> s[i] == q[i - |b| - 1];
    assert |a| == |b|;
    assert a == s[..|a|] && b == s[..|b|];
    assert p == s[|a| + 1..] && q == s[|b| + 1..];
  }

  /** Two chunks share a point only if they are the same chunk of the same filing. */
  lemma PointNameInjective(a: string, m: nat, b: string, n: nat)
    requires PointName(a, m) == PointName(b, n)
    ensures a == b && m == n
  {
    SplitsAtLastColon(a, b, Decimal(m), Decimal(n));
    DecimalInjective(m, n);
  }
}
