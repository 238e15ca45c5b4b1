/** Sums over the rows of a table, where a table is a finite map. */
module Sums {

  /** The sum of all values of `w`, what SQL's SUM computes over the selected rows. */
  ghost function Total<K(!new)>(w: map<K, int>): int
    decreases |w|
  {
    if w == map[] then 0
    else
      var k :| k in w;
      w[k] + Total(w - {k})
  }

  /** The sum does not depend on the order in which rows are visited. */
  lemma {:induction false} TotalPick<K(!new)>(w: map<K, int>, k: K)
    requires k in w
    ensures Total(w) == w[k] + Total(w - {k})
    decreases |w|
  {
    var j :| j in w && Total(w) == w[j] + Total(w - {j});
    if j != k {
      TotalPick(w - {j}, k);
      TotalPick(w - {k}, j);
      assert w - {j} - {k} == w - {k} - {j};
    }
  }

  /** Writing one row changes the sum by the difference of the two values. */
  lemma TotalUpdate<K(!new)>(w: map<K, int>, k: K, v: int)
    ensures Total(w[k := v]) == Total(w) + v - (if k in w then w[k] else 0)
  {
    TotalPick(w[k := v], k);
    assert w[k := v] - {k} == w - {k};
    if k in w {
      TotalPick(w, k);
    } else {
      assert w - {k} == w;
    }
  }

  /** Sums of two tables over the same rows compare as their rows do. */
  lemma {:induction false} TotalMono<K(!new)>(a: map<K, int>, b: map<K, int>)
    requires a.Keys == b.Keys
    requires forall k :: k in a ==> a[k] <= b[k]
    ensures Total(a) <= Total(b)
    decreases |a|
  {
    if a != map[] {
      var k :| k in a;
      TotalPick(a, k);
      TotalPick(b, k);
      TotalMono(a - {k}, b - {k});
    } else {
      assert b == map[];
    }
  }

  lemma {:induction false} TotalNonNegative<K(!new)>(w: map<K, int>)
    requires forall k :: k in w ==> w[k] >= 0
    ensures Total(w) >= 0
    decreases |w|
  {
    if w != map[] {
      var k :| k in w;
      TotalPick(w, k);
      TotalNonNegative(w - {k});
    }
  }

  lemma {:induction false} TotalZero<K(!new)>(w: map<K, int>)
    requires forall k :: k in w ==> w[k] == 0
    ensures Total(w) == 0
    decreases |w|
  {
    if w != map[] {
      var k :| k in w;
      TotalPick(w, k);
      TotalZero(w - {k});
    }
  }

  /** Adding two columns row by row adds their sums. */
  lemma {:induction false} TotalAdd<K(!new)>(a: map<K, int>, b: map<K, int>, c: map<K, int>)
    requires a.Keys == b.Keys == c.Keys
    requires forall k :: k in a ==> a[k] == b[k] + c[k]
    ensures Total(a) == Total(b) + Total(c)
    decreases |a|
  {
    if a == map[] {
      assert b == map[] && c == map[];
    } else {
      var k :| k in a;
      TotalPick(a, k);
      TotalPick(b, k);
      TotalPick(c, k);
      TotalAdd(a - {k}, b - {k}, c - {k});
    }
  }

  /** Rows worth nothing may be left out of a sum. */
  lemma {:induction false} TotalDropZeros<K(!new)>(a: map<K, int>, b: map<K, int>)
    requires b.Keys <= a.Keys
    requires forall k :: k in a ==> a[k] == if k in b then b[k] else 0
    ensures Total(a) == Total(b)
    decreases |a|
  {
    if a == map[] {
      assert b == map[];
    } else {
      var k :| k in a;
      TotalPick(a, k);
      if k in b {
        TotalPick(b, k);
        TotalDropZeros(a - {k}, b - {k});
      } else {
        TotalDropZeros(a - {k}, b);
      }
    }
  }

  /** Renaming rows one-to-one by `f` keeps the sum. */
  lemma {:induction false} TotalRename<K(!new), L(!new)>(a: map<K, int>, b: map<L, int>, f: map<K, L>)
    requires f.Keys == a.Keys
    requires forall k :: k in a ==> f[k] in b && a[k] == b[f[k]]
    requires forall j, k :: j in f && k in f && f[j] == f[k] ==> j == k
    requires forall l :: l in b ==> exists k :: k in f && f[k] == l
    ensures Total(a) == Total(b)
    decreases |a|
  {
    if a == map[] {
      assert b == map[];
    } else {
      var k :| k in a;
      TotalPick(a, k);
      TotalPick(b, f[k]);
      forall l | l in b - {f[k]}
        ensures exists j :: j in f - {k} && (f - {k})[j] == l
      {
        var j :| j in f && f[j] == l;
        assert j in f - {k};
      }
      TotalRename(a - {k}, b - {f[k]}, f - {k});
    }
  }
}
