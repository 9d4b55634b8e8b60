/**
 * Financial facts as stored: the unique key the table demands, and the sort the
 * extraction ends with, which is by that same key.
 */
module Facts {
  import opened Options

  datatype Period = Quarter | Annual | Instant

  datatype Fact = Fact(metric: string, period: Period, start: Option<int>, end: int, value: real, unit: string,
                       derived: bool, concept: string, accession: Option<string>, filed: Option<int>)

  type Key = (string, Period, int)

  function KeyOf(f: Fact): Key {
    (f.metric, f.period, f.end)
  }

  ghost predicate Unique(fs: seq<Fact>) {
    forall i, j :: 0 <= i < j < |fs| ==> KeyOf(fs[i]) != KeyOf(fs[j])
  }

  ghost predicate NoneShared(a: seq<Fact>, b: seq<Fact>) {
    forall x, y :: x in a && y in b ==> KeyOf(x) != KeyOf(y)
  }

  lemma UniqueConcat(a: seq<Fact>, b: seq<Fact>)
    ensures Unique(a + b) <==> Unique(a) && Unique(b) && NoneShared(a, b)
  {
    var c := a + b;
    if Unique(c) {
      forall i, j | 0 <= i < j < |a| ensures KeyOf(a[i]) != KeyOf(a[j]) { assert c[i] == a[i] && c[j] == a[j]; }
      forall i, j | 0 <= i < j < |b| ensures KeyOf(b[i]) != KeyOf(b[j]) {
        assert c[|a| + i] == b[i] && c[|a| + j] == b[j];
      }
      forall x, y | x in a && y in b ensures KeyOf(x) != KeyOf(y) {
        var i :| 0 <= i < |a| && a[i] == x;
        var j :| 0 <= j < |b| && b[j] == y;
        assert c[i] == x && c[|a| + j] == y;
      }
    }
    if Unique(a) && Unique(b) && NoneShared(a, b) {
      forall i, j | 0 <= i < j < |c| ensures KeyOf(c[i]) != KeyOf(c[j]) {
        if j < |a| { assert c[i] == a[i] && c[j] == a[j]; }
        else if i < |a| { assert c[i] in a && c[j] in b; }
        else { assert c[i] == b[i - |a|] && c[j] == b[j - |a|]; }
      }
    }
  }

  // ---- the order of the keys ----------------------------------------------------

  /** Strings compare character by character. */
  predicate StringLeq(a: string, b: string) {
    |a| == 0 || (|b| > 0 && (a[0] < b[0] || (a[0] == b[0] && StringLeq(a[1..], b[1..]))))
  }

  /** "annual" < "instant" < "quarter". */
  function PeriodRank(p: Period): nat {
    match p
    case Annual => 0
    case Instant => 1
    case Quarter => 2
  }

  /** Tuples compare by their first difference. */
  predicate KeyLeq(a: Key, b: Key) {
    if a.0 != b.0 then StringLeq(a.0, b.0)
    else if a.1 != b.1 then PeriodRank(a.1) <= PeriodRank(b.1)
    else a.2 <= b.2
  }

  lemma {:induction false} StringTotal(a: string, b: string)
    ensures StringLeq(a, b) || StringLeq(b, a)
    ensures StringLeq(a, b) && StringLeq(b, a) ==> a == b
  {
    if |a| > 0 && |b| > 0 {
      StringTotal(a[1..], b[1..]);
      assert a == [a[0]] + a[1..] && b == [b[0]] + b[1..];
    }
  }

  lemma {:induction false} StringTransitive(a: string, b: string, c: string)
    requires StringLeq(a, b) && StringLeq(b, c)
    ensures StringLeq(a, c)
  {
    if |a| > 0 && a[0] == b[0] == c[0] { StringTransitive(a[1..], b[1..], c[1..]); }
  }

  /** b comes after a: where they first differ b has the greater character, or a has ended. */
  ghost predicate ComesBefore(a: string, b: string) {
    exists n :: 0 <= n < |b| && n <= |a| && a[..n] == b[..n] && (n == |a| || a[n] < b[n])
  }

  lemma {:induction false} StringLeqExactly(a: string, b: string)
    ensures StringLeq(a, b) <==> a == b || ComesBefore(a, b)
  {
    if |a| > 0 && |b| > 0 && a[0] == b[0] {
      StringLeqExactly(a[1..], b[1..]);
      assert a == [a[0]] + a[1..] && b == [b[0]] + b[1..];
      if n :| 0 <= n < |b| && n <= |a| && a[..n] == b[..n] && (n == |a| || a[n] < b[n]) {
        if n > 0 { assert a[1..][..n - 1] == a[..n][1..] && b[1..][..n - 1] == b[..n][1..]; }
      }
      if n :| 0 <= n < |b| - 1 && n <= |a| - 1 && a[1..][..n] == b[1..][..n]
              && (n == |a| - 1 || a[1..][n] < b[1..][n]) {
        assert a[..n + 1] == [a[0]] + a[1..][..n] && b[..n + 1] == [b[0]] + b[1..][..n];
      }
    } else if |b| > 0 {
      assert a[..0] == b[..0];
      assert forall n :: 0 < n <= |a| && n <= |b| ==> a[..n][0] == a[0] && b[..n][0] == b[0];
    }
  }

  lemma KeyTotal(a: Key, b: Key)
    ensures KeyLeq(a, b) || KeyLeq(b, a)
    ensures KeyLeq(a, b) && KeyLeq(b, a) ==> a == b
  {
    StringTotal(a.0, b.0);
  }

  lemma KeyTransitive(a: Key, b: Key, c: Key)
    requires KeyLeq(a, b) && KeyLeq(b, c)
    ensures KeyLeq(a, c)
  {
    hide StringLeq;
    if a.0 != b.0 && b.0 != c.0 {
      StringTransitive(a.0, b.0, c.0);
      StringTotal(a.0, b.0);
    }
  }

  // ---- the sort -------------------------------------------------------------------

  /** Before the first fact with a greater key. */
  function Insert(f: Fact, fs: seq<Fact>): (r: seq<Fact>)
    ensures multiset(r) == multiset(fs) + multiset{f}
  {
    if |fs| == 0 then [f]
    else
      assert fs == [fs[0]] + fs[1..];
      if KeyLeq(KeyOf(f), KeyOf(fs[0])) then [f] + fs else [fs[0]] + Insert(f, fs[1..])
  }

  /** sorted(fs, key=...), which leaves facts of equal keys in order. */
  function SortFacts(fs: seq<Fact>): (r: seq<Fact>)
    ensures multiset(r) == multiset(fs)
  {
    if |fs| == 0 then []
    else
      assert fs == [fs[0]] + fs[1..];
      Insert(fs[0], SortFacts(fs[1..]))
  }

  ghost predicate InOrder(fs: seq<Fact>) {
    forall i, j :: 0 <= i < j < |fs| ==> KeyLeq(KeyOf(fs[i]), KeyOf(fs[j]))
  }

  lemma {:induction false} InsertInOrder(f: Fact, fs: seq<Fact>)
    requires InOrder(fs)
    ensures InOrder(Insert(f, fs))
  {
    hide KeyLeq;
    var r := Insert(f, fs);
    if |fs| > 0 {
      KeyTotal(KeyOf(f), KeyOf(fs[0]));
      if KeyLeq(KeyOf(f), KeyOf(fs[0])) {
        forall j | 0 < j < |r| ensures KeyLeq(KeyOf(f), KeyOf(r[j])) {
          if j > 1 { KeyTransitive(KeyOf(f), KeyOf(fs[0]), KeyOf(fs[j - 1])); }
        }
      } else {
        InsertInOrder(f, fs[1..]);
        forall j | 0 < j < |r| ensures KeyLeq(KeyOf(fs[0]), KeyOf(r[j])) {
          assert r[j] in multiset(Insert(f, fs[1..]));
          if r[j] != f { var m :| 0 < m < |fs| && fs[m] == r[j]; }
        }
      }
    }
  }

  /** The result is in order and holds the same facts. */
  lemma {:induction false} SortedInOrder(fs: seq<Fact>)
    ensures InOrder(SortFacts(fs)) && multiset(SortFacts(fs)) == multiset(fs)
  {
    if |fs| > 0 {
      SortedInOrder(fs[1..]);
      InsertInOrder(fs[0], SortFacts(fs[1..]));
    }
  }

  /** The order, spelled out: by metric, then annual before instant before quarter, then by end. */
  ghost predicate StandsBefore(f: Fact, g: Fact) {
    || ComesBefore(f.metric, g.metric)
    || (f.metric == g.metric && ((f.period.Annual? && !g.period.Annual?) || (f.period.Instant? && g.period.Quarter?)))
    || (f.metric == g.metric && f.period == g.period && f.end <= g.end)
  }

  lemma OrderMeans(fs: seq<Fact>)
    requires InOrder(fs)
    ensures forall i, j :: 0 <= i < j < |fs| ==> StandsBefore(fs[i], fs[j])
  {
    forall i, j | 0 <= i < j < |fs| ensures StandsBefore(fs[i], fs[j]) {
      StringLeqExactly(fs[i].metric, fs[j].metric);
    }
  }

  lemma SameElements(a: seq<Fact>, b: seq<Fact>)
    requires multiset(a) == multiset(b)
    ensures forall f :: f in a <==> f in b
  {
    assert forall f :: f in a <==> f in multiset(a);
    assert forall f :: f in b <==> f in multiset(b);
  }

  lemma {:induction false} InsertUnique(f: Fact, fs: seq<Fact>)
    ensures Unique(Insert(f, fs)) <==> Unique([f] + fs)
  {
    hide KeyLeq, Unique;
    if |fs| > 0 && !KeyLeq(KeyOf(f), KeyOf(fs[0])) {
      var first, rest := [fs[0]], fs[1..];
      InsertUnique(f, rest);
      UniqueConcat(first, Insert(f, rest));
      UniqueConcat([f], rest);
      UniqueConcat(first, rest);
      UniqueConcat([f], fs);
      assert fs == first + rest;
      SameElements(Insert(f, rest), [f] + rest);
      assert Unique(first) && Unique([f]) by { UniqueOne(fs[0]); UniqueOne(f); }
    } else if |fs| == 0 {
      assert [f] + fs == [f];
    }
  }

  lemma UniqueOne(f: Fact)
    ensures Unique([f])
  {
  }

  /** Sorting neither makes nor removes a clash of keys. */
  lemma {:induction false} SortKeepsUnique(fs: seq<Fact>)
    ensures Unique(SortFacts(fs)) <==> Unique(fs)
  {
    if |fs| > 0 {
      var first, rest := [fs[0]], fs[1..];
      SortKeepsUnique(rest);
      InsertUnique(fs[0], SortFacts(rest));
      UniqueConcat(first, SortFacts(rest));
      UniqueConcat(first, rest);
      assert fs == first + rest;
      SameElements(SortFacts(rest), rest);
    }
  }
}
