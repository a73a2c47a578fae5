/** The schedule generator of lib/finance.ts: rounding up to 0.50, adding days to a
    date, and a schedule built from a duration in months. */
module FinanzasLib {
  import opened Comun

  /** Result of `generarCronograma`: `{ cuotas, totalReal, montoCuotaFinal, interesTotal }`. */
  datatype Cronograma = Cronograma(
    cuotas: seq<CuotaPlan>,
    totalReal: Importe,
    montoCuotaFinal: Importe,
    interesTotal: real)

  /** `Math.ceil(monto * 2) / 2`: the least multiple of 0.50 that is not below `monto`. */
  function RedondearEspecial(monto: real): (r: real)
    ensures monto <= r < monto + 0.5
    ensures (2.0 * r).Floor as real == 2.0 * r
  {
    Techo(monto * 2.0) as real / 2.0
  }

  /** The rounding on a JavaScript number: NaN and Infinity stay what they are. */
  function RedondearImporte(x: Importe): Importe
  {
    match x
    case Finito(v) => Finito(RedondearEspecial(v))
    case NoFinito => NoFinito
  }

  /** No multiple of 0.50 lies between `monto` and its rounding. */
  lemma RedondearEsMinimo(monto: real, k: int)
    requires monto <= k as real / 2.0
    ensures RedondearEspecial(monto) <= k as real / 2.0
  {
    TechoEsMinimo(monto * 2.0, k);
  }

  /** Rounding an amount that is already a multiple of 0.50 leaves it alone. */
  lemma RedondearIdempotente(monto: real)
    ensures RedondearEspecial(RedondearEspecial(monto)) == RedondearEspecial(monto)
  {
    var r := RedondearEspecial(monto);
    var k := (2.0 * r).Floor;
    assert r == k as real / 2.0;
    RedondearEsMinimo(r, k);
  }

  /** A new date `diasASumar` days after `fechaBase`; the base is a value and is not changed. */
  function SumarDias(fechaBase: int, diasASumar: int): (r: int)
    ensures r - fechaBase == diasASumar
  {
    fechaBase + diasASumar
  }

  /** The frequency switch: installment count for a duration in months, and the
      interval in days. A frequency outside the four cases leaves both at 0. */
  function CuotasEIntervalo(frecuencia: Frecuencia, duracionMeses: int): (int, int)
  {
    match frecuencia
    case Diario => (duracionMeses * 30, 1)
    case Semanal => (duracionMeses * 4, 7)
    case Quincenal => (duracionMeses * 2, 15)
    case Mensual => (duracionMeses, 30)
    case Otra => (0, 0)
  }

  /** `montoCuotaFinal * numeroCuotas`. */
  function TotalReal(montoCuotaFinal: Importe, numeroCuotas: int): Importe
  {
    match montoCuotaFinal
    case Finito(m) => Finito(m * numeroCuotas as real)
    case NoFinito => NoFinito
  }

  /** What `generarCronograma` returns, in closed form. */
  function Plan(monto: real, tasa: real, frecuencia: Frecuencia, duracionMeses: int, inicio: int): Cronograma
  {
    var interesTotal := monto * (tasa / 100.0) * duracionMeses as real;
    var (numeroCuotas, intervaloDias) := CuotasEIntervalo(frecuencia, duracionMeses);
    PlanDe(monto + interesTotal, interesTotal, numeroCuotas, intervaloDias, inicio)
  }

  /** The schedule once the amount owed, the count and the interval are known. */
  function PlanDe(totalPagar: real, interesTotal: real, numeroCuotas: int, intervaloDias: int, inicio: int): Cronograma
  {
    var montoCuotaFinal := RedondearImporte(Dividir(totalPagar, numeroCuotas as real));
    var totalReal := TotalReal(montoCuotaFinal, numeroCuotas);
    var n := if numeroCuotas > 0 then numeroCuotas else 0;
    Cronograma(
      Calendario(n, inicio, intervaloDias, if montoCuotaFinal.Finito? then montoCuotaFinal.valor else 0.0),
      totalReal, montoCuotaFinal, interesTotal)
  }

  /** `generarCronograma(monto, tasa, frecuencia, duracionMeses, fechaInicio)`, with the
      current date `hoy` standing in for `new Date()` when no start date is given. */
  method GenerarCronograma(monto: real, tasa: real, frecuencia: Frecuencia, duracionMeses: int,
                           fechaInicio: Option<int>, hoy: int) returns (c: Cronograma)
    ensures c == Plan(monto, tasa, frecuencia, duracionMeses, if fechaInicio.Some? then fechaInicio.value else hoy)
  {
    var interesTotal := monto * (tasa / 100.0) * duracionMeses as real;
    var totalPagar := monto + interesTotal;

    var numeroCuotas := 0;
    var intervaloDias := 0;
    match frecuencia {
      case Diario =>
        numeroCuotas := duracionMeses * 30;
        intervaloDias := 1;
      case Semanal =>
        numeroCuotas := duracionMeses * 4;
        intervaloDias := 7;
      case Quincenal =>
        numeroCuotas := duracionMeses * 2;
        intervaloDias := 15;
      case Mensual =>
        numeroCuotas := duracionMeses;
        intervaloDias := 30;
      case Otra =>
    }
    assert (numeroCuotas, intervaloDias) == CuotasEIntervalo(frecuencia, duracionMeses);

    var montoCuotaRaw := Dividir(totalPagar, numeroCuotas as real);
    var montoCuotaFinal := RedondearImporte(montoCuotaRaw);
    var totalReal := TotalReal(montoCuotaFinal, numeroCuotas);
    var montoCuota := if montoCuotaFinal.Finito? then montoCuotaFinal.valor else 0.0;

    var inicio := if fechaInicio.Some? then fechaInicio.value else hoy;
    var cuotas: seq<CuotaPlan> := [];
    var fechaActual := inicio;
    var i := 1;
    while i <= numeroCuotas
      invariant 1 <= i <= (if numeroCuotas > 0 then numeroCuotas else 0) + 1
      invariant fechaActual == inicio + (i - 1) * intervaloDias
      invariant cuotas == Calendario(i - 1, inicio, intervaloDias, montoCuota)
    {
      fechaActual := SumarDias(fechaActual, intervaloDias);
      assert fechaActual == inicio + i * intervaloDias by {
        assert (i - 1) * intervaloDias + intervaloDias == i * intervaloDias;
      }
      CalendarioExtiende(i - 1, inicio, intervaloDias, montoCuota);
      cuotas := cuotas + [CuotaPlan(i, fechaActual, montoCuota)];
      i := i + 1;
    }
    c := Cronograma(cuotas, totalReal, montoCuotaFinal, interesTotal);
  }

  /** The frequency table: for the four known frequencies the installment count is
      the duration in months times 30, 4, 2 or 1, at 1, 7, 15 or 30 days apart. */
  lemma TablaDeFrecuencias(monto: real, tasa: real, frecuencia: Frecuencia, meses: int, inicio: int)
    requires meses > 0 && !frecuencia.Otra?
    ensures var c := Plan(monto, tasa, frecuencia, meses, inicio);
      && |c.cuotas| == meses * (match frecuencia case Diario => 30 case Semanal => 4 case Quincenal => 2 case _ => 1)
      && forall i :: 0 <= i < |c.cuotas| ==>
           c.cuotas[i].fechaVencimiento == inicio + (i + 1) * (match frecuencia case Diario => 1 case Semanal => 7 case Quincenal => 15 case _ => 30)
  {
  }

  /** Every entry carries the rounded installment amount, and entries are numbered 1..n. */
  lemma EntradasUniformes(monto: real, tasa: real, frecuencia: Frecuencia, meses: int, inicio: int)
    ensures var c := Plan(monto, tasa, frecuencia, meses, inicio);
      && (c.cuotas != [] ==> c.montoCuotaFinal.Finito?)
      && forall i :: 0 <= i < |c.cuotas| ==>
           c.cuotas[i].numero == i + 1 && c.cuotas[i].monto == c.montoCuotaFinal.valor
  {
  }

  /** The plan's interest is `duracionMeses` months of simple interest: what thirty days a
      month earn at the same monthly rate. */
  lemma InteresDelPlan(monto: real, tasa: real, frecuencia: Frecuencia, meses: int, inicio: int)
    ensures Plan(monto, tasa, frecuencia, meses, inicio).interesTotal == InteresProporcional(monto, tasa, 30 * meses)
  {
    InteresPorMeses(monto, tasa, meses);
  }

  /** Rounding each installment up to 0.50 makes the real total at least what is owed
      and at most 0.50 per installment more. */
  lemma TotalRealAcotado(monto: real, tasa: real, frecuencia: Frecuencia, meses: int, inicio: int)
    requires CuotasEIntervalo(frecuencia, meses).0 > 0
    ensures Plan(monto, tasa, frecuencia, meses, inicio).totalReal.Finito?
    ensures monto + Plan(monto, tasa, frecuencia, meses, inicio).interesTotal
            <= Plan(monto, tasa, frecuencia, meses, inicio).totalReal.valor
            < monto + Plan(monto, tasa, frecuencia, meses, inicio).interesTotal + 0.5 * CuotasEIntervalo(frecuencia, meses).0 as real
    ensures SumaMontos(Plan(monto, tasa, frecuencia, meses, inicio).cuotas) == Plan(monto, tasa, frecuencia, meses, inicio).totalReal.valor
  {
    var interesTotal := monto * (tasa / 100.0) * meses as real;
    var (k, intervalo) := CuotasEIntervalo(frecuencia, meses);
    assert Plan(monto, tasa, frecuencia, meses, inicio) == PlanDe(monto + interesTotal, interesTotal, k, intervalo, inicio);
    PlanDeAcotado(monto + interesTotal, interesTotal, k, intervalo, inicio);
  }

  /** The bounds of `TotalRealAcotado` for any amount owed and positive count. */
  lemma PlanDeAcotado(totalPagar: real, interesTotal: real, n: int, intervalo: int, inicio: int)
    requires n > 0
    ensures PlanDe(totalPagar, interesTotal, n, intervalo, inicio).totalReal.Finito?
    ensures totalPagar <= PlanDe(totalPagar, interesTotal, n, intervalo, inicio).totalReal.valor < totalPagar + 0.5 * n as real
    ensures SumaMontos(PlanDe(totalPagar, interesTotal, n, intervalo, inicio).cuotas)
            == PlanDe(totalPagar, interesTotal, n, intervalo, inicio).totalReal.valor
  {
    TotalRealDe(totalPagar, n, inicio, intervalo);
  }

  /** `n` entries of the share rounded up to 0.50 collect their product, which covers
      `totalPagar` by less than 0.50 per entry. */
  lemma TotalRealDe(totalPagar: real, n: nat, inicio: int, intervalo: int)
    requires n > 0
    ensures totalPagar <= RedondearEspecial(totalPagar / n as real) * n as real < totalPagar + 0.5 * n as real
    ensures SumaMontos(Calendario(n, inicio, intervalo, RedondearEspecial(totalPagar / n as real)))
            == RedondearEspecial(totalPagar / n as real) * n as real
  {
    CotaTotalReal(totalPagar, n as real);
    SumaCalendario(n, inicio, intervalo, RedondearEspecial(totalPagar / n as real));
  }

  /** Rounding the share `totalPagar / n` up to 0.50 and multiplying back by `n`. */
  lemma CotaTotalReal(totalPagar: real, n: real)
    requires n > 0.0
    ensures totalPagar <= RedondearEspecial(totalPagar / n) * n < totalPagar + 0.5 * n
  {
    var raw := totalPagar / n;
    var m := RedondearEspecial(raw);
    var d := raw + 0.5 - m;
    assert raw * n == totalPagar;
    assert d > 0.0 && m - raw >= 0.0;
    assert d * n > 0.0;
    assert (m - raw) * n >= 0.0;
    assert m * n + d * n == totalPagar + 0.5 * n;
    assert m * n == totalPagar + (m - raw) * n;
    assert m * n < totalPagar + 0.5 * n;
  }

  /** The returned `interesTotal` is the unrounded interest, which can be less than what
      the rounded schedule really collects above the principal. */
  lemma InteresSinRedondear(monto: real, tasa: real, frecuencia: Frecuencia, meses: int, inicio: int)
    requires CuotasEIntervalo(frecuencia, meses).0 > 0
    ensures var c := Plan(monto, tasa, frecuencia, meses, inicio);
      && c.interesTotal == monto * tasa * meses as real / 100.0
      && c.interesTotal <= c.totalReal.valor - monto
  {
    TotalRealAcotado(monto, tasa, frecuencia, meses, inicio);
  }

  /** A frequency outside the table, or a non-positive duration, gives an empty
      schedule; with a zero count the amounts are NaN/Infinity. */
  lemma PlanVacio(monto: real, tasa: real, frecuencia: Frecuencia, meses: int, inicio: int)
    requires frecuencia.Otra? || meses <= 0
    ensures var c := Plan(monto, tasa, frecuencia, meses, inicio);
      && c.cuotas == []
      && (CuotasEIntervalo(frecuencia, meses).0 == 0 ==> c.montoCuotaFinal == NoFinito && c.totalReal == NoFinito)
  {
  }
}
