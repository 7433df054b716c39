/** Query counts: how many results each query that was run gave. */
module Queries {
  import opened Correlation

  /** `Set`. */
  function SetCount(queries: map<Query, nat>, q: Query, n: nat): map<Query, nat> { queries[q := n] }

  /** `Total`: the sum of the counts. */
  ghost function Total(m: map<Query, nat>): nat {
    if m == map[] then 0
    else
      var q :| q in m;
      m[q] + Total(m - {q})
  }

  /** The total does not depend on the order in which the map is visited. */
  lemma {:induction false} TotalWithout(m: map<Query, nat>, q: Query)
    requires q in m
    ensures Total(m) == m[q] + Total(m - {q})
    decreases |m|
  {
    var p :| p in m && Total(m) == m[p] + Total(m - {p});
    if p != q {
      TotalWithout(m - {p}, q);
      assert (m - {p}) - {q} == (m - {q}) - {p};
      TotalWithout(m - {q}, p);
    }
  }

  lemma TotalAdd(m: map<Query, nat>, q: Query, n: nat)
    requires q !in m
    ensures Total(m[q := n]) == Total(m) + n
  {
    TotalWithout(m[q := n], q);
    assert m[q := n] - {q} == m;
  }

  lemma {:induction false} PositiveTotal(m: map<Query, nat>)
    ensures Total(m) > 0 <==> exists q :: q in m && m[q] > 0
    decreases |m|
  {
    if m != map[] {
      var p :| p in m && Total(m) == m[p] + Total(m - {p});
      PositiveTotal(m - {p});
      if q :| q in m && m[q] > 0 && q != p { assert q in m - {p}; }
    }
  }

  /** Splitting a map by any property splits its total. */
  lemma {:induction false} TotalSplit(m: map<Query, nat>, a: map<Query, nat>, b: map<Query, nat>)
    requires a.Keys !! b.Keys && m == a + b
    ensures Total(m) == Total(a) + Total(b)
    decreases |b|
  {
    if b == map[] {
      assert m == a;
    } else {
      var q :| q in b;
      assert m - {q} == a + (b - {q});
      TotalSplit(m - {q}, a, b - {q});
      TotalWithout(m, q);
      TotalWithout(b, q);
    }
  }

  /** `Total`, visiting the map in any order. */
  method SumCounts(queries: map<Query, nat>) returns (total: nat)
    ensures total == Total(queries)
  {
    total := 0;
    var rest := queries;
    while rest != map[]
      invariant total + Total(rest) == Total(queries)
      decreases |rest|
    {
      var q :| q in rest;
      TotalWithout(rest, q);
      total := total + rest[q];
      rest := rest - {q};
    }
  }
}
