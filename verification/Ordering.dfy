/** ORDER BY: the rows of a query sorted under an order the database brings along (its collation). */
module Ordering {
  /** Any two values compare, and comparisons chain; ties are allowed. */
  ghost predicate TotalPreorder<T(!new)>(leq: (T, T) -> bool) {
    && (forall a, b :: leq(a, b) || leq(b, a))
    && (forall a, b, c :: leq(a, b) && leq(b, c) ==> leq(a, c))
  }

  ghost predicate SortedBy<T>(leq: (T, T) -> bool, rows: seq<T>) {
    forall i, j :: 0 <= i < j < |rows| ==> leq(rows[i], rows[j])
  }

  /** Comparing by a first key and, where that ties, by a second one. */
  function Lexicographic(collate: (string, string) -> bool): ((string, string), (string, string)) -> bool {
    (a: (string, string), b: (string, string)) => collate(a.0, b.0) && (collate(b.0, a.0) ==> collate(a.1, b.1))
  }

  /** The first key decides, and the second one where the first ties. */
  lemma LexicographicMeans(collate: (string, string) -> bool, a: (string, string), b: (string, string))
    requires TotalPreorder(collate)
    ensures collate(a.0, b.0) && !collate(b.0, a.0) ==> Lexicographic(collate)(a, b) && !Lexicographic(collate)(b, a)
    ensures collate(a.0, b.0) && collate(b.0, a.0) ==> (Lexicographic(collate)(a, b) <==> collate(a.1, b.1))
  {
    assert collate(a.1, b.1) || collate(b.1, a.1);
  }

  lemma LexicographicOrders(collate: (string, string) -> bool)
    requires TotalPreorder(collate)
    ensures TotalPreorder(Lexicographic(collate))
  {
    var leq := Lexicographic(collate);
    forall a, b ensures leq(a, b) || leq(b, a) {
      assert collate(a.0, b.0) || collate(b.0, a.0);
      assert collate(a.1, b.1) || collate(b.1, a.1);
    }
    forall a, b, c | leq(a, b) && leq(b, c) ensures leq(a, c) {
      assert collate(a.0, b.0) && collate(b.0, c.0);
      assert collate(a.0, c.0);
      if collate(c.0, a.0) {
        assert collate(c.0, b.0) && collate(b.0, a.0);
      }
    }
  }

  method Insert<T(==,!new)>(sorted: seq<T>, x: T, leq: (T, T) -> bool) returns (r: seq<T>)
    requires SortedBy(leq, sorted) && TotalPreorder(leq)
    ensures SortedBy(leq, r) && multiset(r) == multiset(sorted) + multiset{x}
  {
    var k := |sorted|;
    while k > 0 && !leq(sorted[k - 1], x)
      invariant 0 <= k <= |sorted|
      invariant forall j :: k <= j < |sorted| ==> leq(x, sorted[j])
    {
      k := k - 1;
    }
    Inserted(sorted, k, x, leq);
    r := sorted[..k] + [x] + sorted[k..];
    assert sorted == sorted[..k] + sorted[k..];
  }

  lemma Inserted<T(!new)>(sorted: seq<T>, k: nat, x: T, leq: (T, T) -> bool)
    requires k <= |sorted| && SortedBy(leq, sorted) && TotalPreorder(leq)
    requires k > 0 ==> leq(sorted[k - 1], x)
    requires forall j :: k <= j < |sorted| ==> leq(x, sorted[j])
    ensures SortedBy(leq, sorted[..k] + [x] + sorted[k..])
  {
    var r := sorted[..k] + [x] + sorted[k..];
    forall i | 0 <= i < k ensures leq(sorted[i], x) {
      assert leq(sorted[i], sorted[k - 1]) || i == k - 1;
    }
    forall i, j | 0 <= i < j < |r| ensures leq(r[i], r[j]) {
      var a := if i < k then i else i - 1;
      var b := if j < k then j else j - 1;
      if i != k && j != k {
        assert leq(sorted[a], sorted[b]);
      }
    }
  }

  method Sort<T(==,!new)>(rows: seq<T>, leq: (T, T) -> bool) returns (r: seq<T>)
    requires TotalPreorder(leq)
    ensures SortedBy(leq, r) && multiset(r) == multiset(rows)
  {
    r := [];
    for k := 0 to |rows|
      invariant SortedBy(leq, r) && multiset(r) == multiset(rows[..k])
    {
      assert rows[..k + 1] == rows[..k] + [rows[k]];
      r := Insert(r, rows[k], leq);
    }
    assert rows[..|rows|] == rows;
  }

  /** Sorting neither adds nor drops nor repeats rows. */
  lemma SameRows<T(!new)>(a: seq<T>, b: seq<T>)
    requires multiset(a) == multiset(b)
    ensures |a| == |b| && forall x :: x in a <==> x in b
  {
    assert |multiset(a)| == |a| && |multiset(b)| == |b|;
    forall x ensures x in a <==> x in b {
      assert x in a <==> x in multiset(a);
      assert x in b <==> x in multiset(b);
    }
  }

  lemma {:induction false} OnceEach<T(!new)>(a: seq<T>)
    ensures (forall i, j :: 0 <= i < j < |a| ==> a[i] != a[j]) <==> (forall x :: multiset(a)[x] <= 1)
  {
    if |a| > 0 {
      var rest := a[1..];
      OnceEach(rest);
      assert a == [a[0]] + rest;
      assert multiset(a) == multiset{a[0]} + multiset(rest);
      if forall i, j :: 0 <= i < j < |a| ==> a[i] != a[j] {
        forall i, j | 0 <= i < j < |rest| ensures rest[i] != rest[j] {
          assert a[i + 1] != a[j + 1];
        }
        assert a[0] !in rest;
        assert a[0] !in multiset(rest);
      }
      if forall x :: multiset(a)[x] <= 1 {
        forall x ensures multiset(rest)[x] <= 1 {
          assert multiset(a)[x] <= 1;
        }
        assert multiset(a)[a[0]] <= 1;
        forall i, j | 0 <= i < j < |a| ensures a[i] != a[j] {
          if i == 0 {
            assert a[j] == rest[j - 1] && rest[j - 1] in multiset(rest);
          } else {
            assert rest[i - 1] != rest[j - 1];
          }
        }
      }
    }
  }

  lemma StillOnce<T(!new)>(a: seq<T>, b: seq<T>)
    requires multiset(a) == multiset(b) && forall i, j :: 0 <= i < j < |a| ==> a[i] != a[j]
    ensures forall i, j :: 0 <= i < j < |b| ==> b[i] != b[j]
  {
    OnceEach(a);
    OnceEach(b);
  }
}
