/** Sums of a map's values, the total a loop over a dictionary accumulates in any order. */
module Sums {
  import opened Market

  ghost function Sum(m: map<Symbol, real>): real {
    if m == map[] then 0.0
    else
      var s :| s in m;
      m[s] + Sum(m - {s})
  }

  lemma {:induction false} SumRemove(m: map<Symbol, real>, s: Symbol)
    requires s in m
    ensures Sum(m) == m[s] + Sum(m - {s})
    decreases |m|
  {
    var t :| t in m && Sum(m) == m[t] + Sum(m - {t});
    if t != s {
      SumRemove(m - {t}, s);
      SumRemove(m - {s}, t);
      assert m - {t} - {s} == m - {s} - {t};
    }
  }

  lemma SumPut(m: map<Symbol, real>, s: Symbol, v: real)
    ensures Sum(m[s := v]) == Sum(m - {s}) + v
  {
    SumRemove(m[s := v], s);
    assert m[s := v] - {s} == m - {s};
  }
}
