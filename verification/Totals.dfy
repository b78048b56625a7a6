// Sums over the rows of a table.
module Totals {

  ghost function Total<T(!new)>(m: map<nat, T>, f: T -> nat): nat {
    if m == map[] then 0
    else
      var k :| k in m;
      f(m[k]) + Total(m - {k}, f)
  }

  // The sum does not depend on the order in which the rows are taken.
  lemma {:induction false} TotalSplit<T(!new)>(m: map<nat, T>, f: T -> nat, k: nat)
    requires k in m
    ensures Total(m, f) == f(m[k]) + Total(m - {k}, f)
    decreases |m|
  {
    var first :| first in m && Total(m, f) == f(m[first]) + Total(m - {first}, f);
    if first != k {
      TotalSplit(m - {first}, f, k);
      TotalSplit(m - {k}, f, first);
      assert m - {first} - {k} == m - {k} - {first};
    }
  }

  lemma TotalUpdate<T(!new)>(m: map<nat, T>, f: T -> nat, k: nat, v: T)
    requires k in m
    ensures Total(m[k := v], f) == Total(m, f) - f(m[k]) + f(v)
  {
    TotalSplit(m, f, k);
    TotalSplit(m[k := v], f, k);
    assert m[k := v] - {k} == m - {k};
  }

  lemma TotalAbove<T(!new)>(m: map<nat, T>, f: T -> nat, k: nat)
    requires k in m
    ensures f(m[k]) <= Total(m, f)
  {
    TotalSplit(m, f, k);
  }
}
