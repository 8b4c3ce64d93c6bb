// Sums over the values of a finite map, and sizes of sets.
module Totals {
  ghost function Total<K(!new)>(m: map<K, nat>): nat
    decreases |m|
  {
    if m == map[] then 0 else var k :| k in m; assert |m - {k}| < |m| by { Fewer(m, k); } m[k] + Total(m - {k})
  }

  lemma Fewer<K, V>(m: map<K, V>, k: K)
    requires k in m
    ensures |m - {k}| < |m|
  {
    assert (m - {k}).Keys == m.Keys - {k};
    assert |(m - {k}).Keys| < |m.Keys|;
  }

  lemma {:induction false} SubsetSize<T>(a: set<T>, b: set<T>)
    requires a <= b
    ensures |a| <= |b|
  {
    if a != {} {
      var x :| x in a;
      SubsetSize(a - {x}, b - {x});
    }
  }

  // The order of summation does not matter.
  lemma {:induction false} TotalWithout<K(!new)>(m: map<K, nat>, k: K)
    requires k in m
    ensures Total(m) == m[k] + Total(m - {k})
    decreases |m|
  {
    var j :| j in m && Total(m) == m[j] + Total(m - {j});
    if j != k {
      Fewer(m, j);
      Fewer(m, k);
      TotalWithout(m - {j}, k);
      TotalWithout(m - {k}, j);
      assert m - {j} - {k} == m - {k} - {j};
    }
  }

  lemma TotalUpdate<K(!new)>(m: map<K, nat>, k: K, v: nat)
    ensures Total(m[k := v]) == Total(m) + v - (if k in m then m[k] else 0)
  {
    TotalWithout(m[k := v], k);
    if k in m {
      TotalWithout(m, k);
      assert m[k := v] - {k} == m - {k};
    } else {
      assert m[k := v] - {k} == m;
    }
  }

  lemma {:induction false} TotalOfPart<K(!new)>(part: map<K, nat>, whole: map<K, nat>)
    requires forall k :: k in part ==> k in whole && part[k] <= whole[k]
    ensures Total(part) <= Total(whole)
    decreases |part|
  {
    if part != map[] {
      var k :| k in part;
      Fewer(part, k);
      TotalOfPart(part - {k}, whole - {k});
      TotalWithout(part, k);
      TotalWithout(whole, k);
    }
  }

  // Zeros do not matter.
  lemma {:induction false} TotalWithoutZeros<K(!new)>(part: map<K, nat>, whole: map<K, nat>)
    requires forall k :: k in part ==> k in whole && part[k] == whole[k]
    requires forall k :: k in whole && k !in part ==> whole[k] == 0
    ensures Total(part) == Total(whole)
    decreases |whole|
  {
    if whole == map[] {
      assert part == map[];
    } else {
      var k :| k in whole;
      Fewer(whole, k);
      TotalWithout(whole, k);
      if k in part {
        TotalWithout(part, k);
        TotalWithoutZeros(part - {k}, whole - {k});
      } else {
        TotalWithoutZeros(part, whole - {k});
      }
    }
  }
}
