/** Shared vocabulary of the loan engine: the frequency table, the proportional
    interest formula, the rounding helpers and the shape of a generated schedule. */
module Comun {

  datatype Option<T> = None | Some(value: T)

  /** Payment frequency of a loan. `Otra` stands for any other string a form posts. */
  datatype Frecuencia = Diario | Semanal | Quincenal | Mensual | Otra

  /** Status of one installment. */
  datatype EstadoCuota = CuotaPendiente | CuotaPagada

  /** A JavaScript number that is the result of a division: finite, or NaN/Infinity
      when the divisor was zero. */
  datatype Importe = Finito(valor: real) | NoFinito

  /** `a / b` as JavaScript evaluates it for a finite `a`. */
  function Dividir(a: real, b: real): (r: Importe)
    ensures r.Finito? <==> b != 0.0
  {
    if b != 0.0 then Finito(a / b) else NoFinito
  }

  /** `Math.ceil` on a finite number: the least integer not below `x`. */
  function Techo(x: real): (r: int)
    ensures x <= r as real < x + 1.0
  {
    -((-x).Floor)
  }

  lemma TechoEsMinimo(x: real, k: int)
    requires x <= k as real
    ensures Techo(x) <= k
  {
  }

  /** `Number(x.toFixed(2))`: `toFixed` sets the sign aside, rounds the magnitude to the
      nearest cent with halves going up, and puts the sign back, so an exact half cent
      goes away from zero on either side. */
  function RedondearCentimos(x: real): (r: real)
    ensures x >= 0.0 ==> x - 0.005 < r <= x + 0.005
    ensures x < 0.0 ==> x - 0.005 <= r < x + 0.005
    ensures (100.0 * r).Floor as real == 100.0 * r
  {
    CentimosDeMagnitud(x);
    var centimos := ((if x < 0.0 then -x else x) * 100.0 + 0.5).Floor;
    (if x < 0.0 then -centimos else centimos) as real / 100.0
  }

  /** The whole cents nearest to `|x|`, halves up, with the sign of `x` put back. */
  lemma CentimosDeMagnitud(x: real)
    ensures var k := ((if x < 0.0 then -x else x) * 100.0 + 0.5).Floor;
            var r := (if x < 0.0 then -k else k) as real / 100.0;
            && (x >= 0.0 ==> x - 0.005 < r <= x + 0.005)
            && (x < 0.0 ==> x - 0.005 <= r < x + 0.005)
            && (100.0 * r).Floor as real == 100.0 * r
  {
    var a := if x < 0.0 then -x else x;
    var k := (a * 100.0 + 0.5).Floor;
    assert a * 100.0 - 0.5 < k as real <= a * 100.0 + 0.5;
    var c := if x < 0.0 then -k else k;
    assert 100.0 * (c as real / 100.0) == c as real;
  }

  /** The rounding is symmetric in the sign: `(-x).toFixed(2)` is `x.toFixed(2)` negated. */
  lemma CentimosSimetricos(x: real)
    ensures RedondearCentimos(-x) == -RedondearCentimos(x)
  {
    if x == 0.0 {
      assert -x == x;
    }
  }

  /** An exact half cent goes away from zero on either side. */
  lemma MedioCentimo()
    ensures RedondearCentimos(1.125) == 1.13
    ensures RedondearCentimos(-1.125) == -1.13
  {
    assert (1.125 * 100.0 + 0.5).Floor == 113;
  }

  /** Days one installment covers: 7, 15 or 30 for the weekly, fortnightly and
      monthly frequencies and 1 for anything else (app/actions.ts:61-64). */
  function DiasPorCuota(f: Frecuencia): (d: int)
    ensures d >= 1
    ensures d == 1 <==> !(f.Semanal? || f.Quincenal? || f.Mensual?)
  {
    match f
    case Semanal => 7
    case Quincenal => 15
    case Mensual => 30
    case _ => 1
  }

  /** Simple interest scaled to the loan's real duration, a month being 30 days:
      `monto * (tasa / 100) * (duracionDias / 30)`. */
  function InteresProporcional(monto: real, tasaMensual: real, duracionDias: int): real
  {
    monto * (tasaMensual / 100.0) * (duracionDias as real / 30.0)
  }

  /** Interest is linear in the duration: `duracionDias` days earn `duracionDias / 30`
      months of the monthly rate. */
  lemma InteresPorMeses(monto: real, tasaMensual: real, meses: int)
    ensures InteresProporcional(monto, tasaMensual, 30 * meses) == monto * (tasaMensual / 100.0) * meses as real
  {
  }

  /** One installment of a generated plan. */
  datatype CuotaPlan = CuotaPlan(numero: int, fechaVencimiento: int, monto: real)

  /** The plan every generator in the source builds: `n` entries numbered 1..n, the
      i-th due `i * intervalo` days after `inicio`, all of the same amount. */
  function Calendario(n: nat, inicio: int, intervalo: int, monto: real): seq<CuotaPlan>
  {
    seq(n, i requires 0 <= i < n => CuotaPlan(i + 1, inicio + (i + 1) * intervalo, monto))
  }

  /** A plan grows by one entry per iteration of the generator loops. */
  lemma CalendarioExtiende(n: nat, inicio: int, intervalo: int, monto: real)
    ensures Calendario(n + 1, inicio, intervalo, monto)
         == Calendario(n, inicio, intervalo, monto) + [CuotaPlan(n + 1, inicio + (n + 1) * intervalo, monto)]
  {
  }

  /** Sum of the amounts of a plan. */
  function SumaMontos(plan: seq<CuotaPlan>): real
  {
    if plan == [] then 0.0 else SumaMontos(plan[..|plan| - 1]) + plan[|plan| - 1].monto
  }

  /** Due dates are evenly spaced: the first one interval after the start, every
      other one interval after its predecessor. */
  lemma CalendarioEspaciado(n: nat, inicio: int, intervalo: int, monto: real)
    ensures var plan := Calendario(n, inicio, intervalo, monto);
      && (n > 0 ==> plan[0].fechaVencimiento - inicio == intervalo)
      && forall i :: 0 < i < n ==> plan[i].fechaVencimiento - plan[i - 1].fechaVencimiento == intervalo
  {
  }

  /** A plan of `n` equal installments collects exactly `n * monto`. */
  lemma {:induction false} SumaCalendario(n: nat, inicio: int, intervalo: int, monto: real)
    ensures SumaMontos(Calendario(n, inicio, intervalo, monto)) == n as real * monto
  {
    if n > 0 {
      var plan := Calendario(n, inicio, intervalo, monto);
      assert plan[..n - 1] == Calendario(n - 1, inicio, intervalo, monto);
      SumaCalendario(n - 1, inicio, intervalo, monto);
    }
  }
}
