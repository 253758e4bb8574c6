/** Small vocabulary shared by the other modules: options, powers of two, and totals over finite maps. */
module Base {

  datatype Option<+T> = None | Some(value: T)

  function Pow2(n: nat): (r: nat)
    ensures r >= 1
  {
    if n == 0 then 1 else 2 * Pow2(n - 1)
  }

  /** n * x by repeated addition, which keeps products out of the proofs that only add them up. */
  function Times(n: nat, x: int): (r: int)
    ensures x >= 0 ==> r >= 0
  {
    if n == 0 then 0 else x + Times(n - 1, x)
  }

  lemma {:induction false} TimesIsProduct(n: nat, x: int)
    ensures Times(n, x) == n * x
  {
    if n > 0 {
      TimesIsProduct(n - 1, x);
    }
  }

  lemma {:induction false} TimesLess(n: nat, x: int)
    ensures Times(n, x - 1) + n == Times(n, x)
  {
    if n > 0 {
      TimesLess(n - 1, x);
    }
  }

  lemma {:induction false} TimesMonotone(n: nat, m: nat, x: nat)
    requires n <= m
    ensures Times(n, x) <= Times(m, x)
    decreases m
  {
    if n < m {
      TimesMonotone(n, m - 1, x);
    }
  }

  lemma {:induction false} TimesSum(n: nat, m: nat, x: int)
    ensures Times(n + m, x) == Times(n, x) + Times(m, x)
  {
    if n > 0 {
      TimesSum(n - 1, m, x);
    }
  }

  function Min(a: int, b: int): int {
    if a <= b then a else b
  }

  /** The sum of the values of a finite map. */
  ghost function Total(m: map<nat, int>): int {
    if m == map[] then 0 else var k :| k in m; m[k] + Total(m - {k})
  }

  lemma {:induction false} TotalRemove(m: map<nat, int>, k: nat)
    requires k in m
    ensures Total(m) == m[k] + Total(m - {k})
    decreases |m|
  {
    var j :| j in m && Total(m) == m[j] + Total(m - {j});
    if j != k {
      assert (m - {j}) - {k} == (m - {k}) - {j};
      TotalRemove(m - {j}, k);
      TotalRemove(m - {k}, j);
    }
  }

  lemma TotalUpdate(m: map<nat, int>, k: nat, v: int)
    ensures Total(m[k := v]) == Total(m - {k}) + v
    ensures Total(m[k := v]) == Total(m) + v - if k in m then m[k] else 0
  {
    TotalRemove(m[k := v], k);
    assert m[k := v] - {k} == m - {k};
    if k in m {
      TotalRemove(m, k);
    } else {
      assert m - {k} == m;
    }
  }

  lemma {:induction false} TotalNatural(m: map<nat, int>)
    requires forall k | k in m :: 0 <= m[k]
    ensures 0 <= Total(m)
    decreases |m|
  {
    if m != map[] {
      var k :| k in m;
      TotalRemove(m, k);
      TotalNatural(m - {k});
    }
  }

  lemma {:induction false} SubsetSize<T>(a: set<T>, b: set<T>)
    requires a <= b
    ensures |a| <= |b| && (|a| == |b| ==> a == b)
  {
    if a != {} {
      var x :| x in a;
      SubsetSize(a - {x}, b - {x});
    }
  }

  lemma {:induction false} TotalMonotone(m: map<nat, int>, n: map<nat, int>)
    requires m.Keys == n.Keys && forall k | k in m :: m[k] <= n[k]
    ensures Total(m) <= Total(n)
    decreases |m|
  {
    if m != map[] {
      var k :| k in m;
      TotalRemove(m, k);
      TotalRemove(n, k);
      TotalMonotone(m - {k}, n - {k});
    } else {
      assert n == map[];
    }
  }

  lemma {:induction false} TotalInsert(m: map<nat, int>, ids: set<nat>, c: int)
    requires ids !! m.Keys
    ensures Total(m + map id | id in ids :: c) == Total(m) + Times(|ids|, c)
  {
    if ids == {} {
      assert m + (map id | id in ids :: c) == m;
    } else {
      var x :| x in ids;
      var rest := ids - {x};
      TotalInsert(m, rest, c);
      var without := m + map id | id in rest :: c;
      assert m + (map id | id in ids :: c) == without[x := c];
      TotalUpdate(without, x, c);
      assert |ids| == |rest| + 1;
    }
  }
}
