/** Sums and counts over a table keyed by auto-increment ids: every key lies below
    the table's next id `n`, so a fold over the keys is a fold over 0..n-1. */
module Sumas {

  /** What the row with id `k` contributes to a sum: nothing when there is no such row. */
  function Aporte<V>(m: map<nat, V>, f: V -> real, k: nat): real
  {
    if k in m then f(m[k]) else 0.0
  }

  /** Sum of `f` over the rows whose id is below `n`. */
  function SumaHasta<V>(m: map<nat, V>, f: V -> real, n: nat): real
  {
    if n == 0 then 0.0 else SumaHasta(m, f, n - 1) + Aporte(m, f, n - 1)
  }

  /** Number of rows with id below `n` that satisfy `p`. */
  function CuentaHasta<V>(m: map<nat, V>, p: V -> bool, n: nat): nat
  {
    if n == 0 then 0 else CuentaHasta(m, p, n - 1) + (if n - 1 in m && p(m[n - 1]) then 1 else 0)
  }

  /** Two tables whose rows contribute the same amounts have the same sum. */
  lemma {:induction false} SumaPuntual<V>(m1: map<nat, V>, f1: V -> real, m2: map<nat, V>, f2: V -> real, n: nat)
    requires forall k :: 0 <= k < n ==> Aporte(m1, f1, k) == Aporte(m2, f2, k)
    ensures SumaHasta(m1, f1, n) == SumaHasta(m2, f2, n)
  {
    if n > 0 {
      SumaPuntual(m1, f1, m2, f2, n - 1);
    }
  }

  /** When only the row `j` contributes differently, the sum moves by that difference. */
  lemma {:induction false} SumaCambioUnico<V>(m1: map<nat, V>, f1: V -> real, m2: map<nat, V>, f2: V -> real, n: nat, j: nat)
    requires j < n
    requires forall k :: 0 <= k < n && k != j ==> Aporte(m1, f1, k) == Aporte(m2, f2, k)
    ensures SumaHasta(m2, f2, n) == SumaHasta(m1, f1, n) - Aporte(m1, f1, j) + Aporte(m2, f2, j)
  {
    if n - 1 == j {
      SumaPuntual(m1, f1, m2, f2, n - 1);
    } else {
      SumaCambioUnico(m1, f1, m2, f2, n - 1, j);
    }
  }

  /** Rows that contribute nothing add nothing. */
  lemma {:induction false} SumaNula<V>(m: map<nat, V>, f: V -> real, n: nat)
    requires forall k :: 0 <= k < n ==> Aporte(m, f, k) == 0.0
    ensures SumaHasta(m, f, n) == 0.0
  {
    if n > 0 {
      SumaNula(m, f, n - 1);
    }
  }

  /** Raising the bound over ids that contribute nothing leaves the sum alone. */
  lemma {:induction false} SumaExtender<V>(m: map<nat, V>, f: V -> real, n: nat, n': nat)
    requires n <= n'
    requires forall k :: n <= k < n' ==> Aporte(m, f, k) == 0.0
    ensures SumaHasta(m, f, n') == SumaHasta(m, f, n)
  {
    if n < n' {
      SumaExtender(m, f, n, n' - 1);
    }
  }

  /** No row counts exactly when no row below the bound satisfies `p`. */
  lemma {:induction false} CuentaCero<V>(m: map<nat, V>, p: V -> bool, n: nat)
    ensures CuentaHasta(m, p, n) == 0 <==> forall k :: 0 <= k < n && k in m ==> !p(m[k])
  {
    if n > 0 {
      CuentaCero(m, p, n - 1);
    }
  }
}
