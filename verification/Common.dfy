/** Machine bounds, saturating arithmetic and sums over finite maps, shared by every module. */
module Common {

  const U32_MAX: nat := 0xFFFF_FFFF
  const U128_MAX: nat := 0xFFFF_FFFF_FFFF_FFFF_FFFF_FFFF_FFFF_FFFF

  datatype Option<+T> = None | Some(value: T)

  function Min(a: int, b: int): int {
    if a <= b then a else b
  }

  function Max(a: int, b: int): int {
    if a >= b then a else b
  }

  /** `a.saturating_sub(b)` on an unsigned type. */
  function SatSub(a: nat, b: nat): nat {
    if a >= b then a - b else 0
  }

  /** `a.saturating_add(b)` on an unsigned type whose largest value is `top`. */
  function SatAdd(a: nat, b: nat, top: nat): nat {
    if a + b <= top then a + b else top
  }

  /** The sum of all values of a finite map. */
  ghost function SumMap<K>(m: map<K, nat>): nat {
    if m == map[] then 0
    else
      var k :| k in m;
      m[k] + SumMap(m - {k})
  }

  /** The sum does not depend on which key is taken out first. */
  lemma {:induction false} SumMapSplit<K>(m: map<K, nat>, k: K)
    requires k in m
    ensures SumMap(m) == m[k] + SumMap(m - {k})
    decreases |m|
  {
    var j :| j in m && SumMap(m) == m[j] + SumMap(m - {j});
    if j != k {
      SumMapSplit(m - {j}, k);
      SumMapSplit(m - {k}, j);
      assert m - {j} - {k} == m - {k} - {j};
    }
  }

  /** Writing one key moves the sum by the difference of the values there. */
  lemma SumMapUpdate<K>(m: map<K, nat>, k: K, v: nat)
    ensures SumMap(m[k := v]) == SumMap(m) - (if k in m then m[k] else 0) + v
  {
    SumMapSplit(m[k := v], k);
    if k in m {
      SumMapSplit(m, k);
      assert m[k := v] - {k} == m - {k};
    } else {
      assert m[k := v] - {k} == m;
    }
  }

  /** `n * weight`, by repeated addition. */
  function Times(n: nat, weight: nat): nat {
    if n == 0 then 0 else weight + Times(n - 1, weight)
  }

  lemma {:induction false} TimesIsProduct(n: nat, weight: nat)
    ensures Times(n, weight) == n * weight
  {
    if n > 0 {
      TimesIsProduct(n - 1, weight);
      assert n * weight == weight + (n - 1) * weight;
    }
  }

  lemma {:induction false} TimesGrows(n: nat, m: nat, weight: nat)
    requires n <= m
    ensures Times(n, weight) + (if n < m then weight else 0) <= Times(m, weight)
  {
    if n < m {
      TimesGrows(n, m - 1, weight);
    }
  }
}
