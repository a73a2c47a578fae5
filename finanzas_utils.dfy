/** The older copy of the schedule generator in utils/finance.ts: it always starts
    from the current date, marks every entry PENDIENTE and returns a summary. */
module FinanzasUtils {
  import opened Comun
  import FinanzasLib

  /** `resumen` of the result: capital, earned interest, total to pay, monthly rate and count. */
  datatype Resumen = Resumen(
    capital: real,
    interesGanado: Importe,
    totalPagar: Importe,
    tasaMensual: real,
    numeroCuotas: int)

  /** One schedule entry: `{ numero, fechaVencimiento, monto, estado }`. */
  datatype CuotaGenerada = CuotaGenerada(numero: int, fechaVencimiento: int, monto: real, estado: EstadoCuota)

  datatype Resultado = Resultado(resumen: Resumen, cuotas: seq<CuotaGenerada>)

  /** `Math.ceil(monto * 2) / 2`, e.g. 23.10 becomes 23.50. */
  function RedondearEspecial(monto: real): (r: real)
    ensures monto <= r < monto + 0.5
    ensures (2.0 * r).Floor as real == 2.0 * r
  {
    Techo(monto * 2.0) as real / 2.0
  }

  /** A new date `diasASumar` days after `fechaBase`, counting Sundays like any other day. */
  function SumarDias(fechaBase: int, diasASumar: int): (r: int)
    ensures r - fechaBase == diasASumar
  {
    fechaBase + diasASumar
  }

  /** The frequency switch, identical to the lib copy's. */
  function CuotasEIntervalo(frecuencia: Frecuencia, duracionMeses: int): (int, int)
  {
    match frecuencia
    case Diario => (duracionMeses * 30, 1)
    case Semanal => (duracionMeses * 4, 7)
    case Quincenal => (duracionMeses * 2, 15)
    case Mensual => (duracionMeses, 30)
    case Otra => (0, 0)
  }

  /** The schedule entries: numbered 1..n, due every `intervalo` days after `hoy`. */
  function Entradas(n: nat, hoy: int, intervalo: int, monto: real): seq<CuotaGenerada>
  {
    seq(n, i requires 0 <= i < n => CuotaGenerada(i + 1, hoy + (i + 1) * intervalo, monto, CuotaPendiente))
  }

  /** `redondearEspecial(totalPagar / numeroCuotas)`: NaN or Infinity when the count is 0. */
  function MontoCuotaFinal(totalPagar: real, numeroCuotas: int): Importe
  {
    match Dividir(totalPagar, numeroCuotas as real)
    case Finito(raw) => Finito(RedondearEspecial(raw))
    case NoFinito => NoFinito
  }

  /** `montoCuotaFinal * numeroCuotas`. */
  function TotalReal(montoCuotaFinal: Importe, numeroCuotas: int): Importe
  {
    match montoCuotaFinal
    case Finito(m) => Finito(m * numeroCuotas as real)
    case NoFinito => NoFinito
  }

  /** `totalReal - monto`. */
  function InteresGanado(totalReal: Importe, monto: real): Importe
  {
    match totalReal
    case Finito(t) => Finito(t - monto)
    case NoFinito => NoFinito
  }

  /** What `generarCronograma` returns, in closed form, for the current date `hoy`. */
  function Plan(monto: real, tasa: real, frecuencia: Frecuencia, duracionMeses: int, hoy: int): Resultado
  {
    var interesTotal := monto * (tasa / 100.0) * duracionMeses as real;
    var totalPagar := monto + interesTotal;
    var (numeroCuotas, intervaloDias) := CuotasEIntervalo(frecuencia, duracionMeses);
    var montoCuotaFinal := MontoCuotaFinal(totalPagar, numeroCuotas);
    var totalReal := TotalReal(montoCuotaFinal, numeroCuotas);
    var n := if numeroCuotas > 0 then numeroCuotas else 0;
    Resultado(
      Resumen(monto, InteresGanado(totalReal, monto), totalReal, tasa, numeroCuotas),
      Entradas(n, hoy, intervaloDias, if montoCuotaFinal.Finito? then montoCuotaFinal.valor else 0.0))
  }

  /** `generarCronograma(monto, tasa, frecuencia, duracionMeses)`; `hoy` is `new Date()`. */
  method GenerarCronograma(monto: real, tasa: real, frecuencia: Frecuencia, duracionMeses: int, hoy: int)
    returns (r: Resultado)
    ensures r == Plan(monto, tasa, frecuencia, duracionMeses, hoy)
  {
    var interesTotal := monto * (tasa / 100.0) * duracionMeses as real;
    var totalPagar := monto + interesTotal;

    var numeroCuotas := 0;
    var intervaloDias := 0;
    match frecuencia {
      case Diario =>
        numeroCuotas := duracionMeses * 30;
        intervaloDias := 1;
      case Semanal =>
        numeroCuotas := duracionMeses * 4;
        intervaloDias := 7;
      case Quincenal =>
        numeroCuotas := duracionMeses * 2;
        intervaloDias := 15;
      case Mensual =>
        numeroCuotas := duracionMeses;
        intervaloDias := 30;
      case Otra =>
    }
    assert (numeroCuotas, intervaloDias) == CuotasEIntervalo(frecuencia, duracionMeses);

    var montoCuotaFinal := MontoCuotaFinal(totalPagar, numeroCuotas);
    var totalReal := TotalReal(montoCuotaFinal, numeroCuotas);
    var montoCuota := if montoCuotaFinal.Finito? then montoCuotaFinal.valor else 0.0;

    var cuotas: seq<CuotaGenerada> := [];
    var fechaActual := hoy;
    var i := 1;
    while i <= numeroCuotas
      invariant 1 <= i <= (if numeroCuotas > 0 then numeroCuotas else 0) + 1
      invariant fechaActual == hoy + (i - 1) * intervaloDias
      invariant cuotas == Entradas(i - 1, hoy, intervaloDias, montoCuota)
    {
      fechaActual := SumarDias(fechaActual, intervaloDias);
      assert fechaActual == hoy + i * intervaloDias by {
        assert (i - 1) * intervaloDias + intervaloDias == i * intervaloDias;
      }
      EntradasExtiende(i - 1, hoy, intervaloDias, montoCuota);
      cuotas := cuotas + [CuotaGenerada(i, fechaActual, montoCuota, CuotaPendiente)];
      i := i + 1;
    }

    r := Resultado(Resumen(monto, InteresGanado(totalReal, monto), totalReal, tasa, numeroCuotas), cuotas);
  }

  lemma EntradasExtiende(n: nat, hoy: int, intervalo: int, monto: real)
    ensures Entradas(n + 1, hoy, intervalo, monto)
         == Entradas(n, hoy, intervalo, monto) + [CuotaGenerada(n + 1, hoy + (n + 1) * intervalo, monto, CuotaPendiente)]
  {
  }

  /** The summary: the total to pay covers principal plus unrounded interest, the
      earned interest is that total minus the principal, and the count is the table's. */
  lemma ResumenCubreDeuda(monto: real, tasa: real, frecuencia: Frecuencia, meses: int, hoy: int)
    requires CuotasEIntervalo(frecuencia, meses).0 > 0
    ensures var r := Plan(monto, tasa, frecuencia, meses, hoy);
      && r.resumen.totalPagar.Finito? && r.resumen.interesGanado.Finito?
      && r.resumen.totalPagar.valor >= monto + monto * (tasa / 100.0) * meses as real
      && r.resumen.interesGanado.valor == r.resumen.totalPagar.valor - monto
      && r.resumen.numeroCuotas == |r.cuotas|
  {
    var (n, intervalo) := CuotasEIntervalo(frecuencia, meses);
    var totalPagar := monto + monto * (tasa / 100.0) * meses as real;
    FinanzasLib.CotaTotalReal(totalPagar, n as real);
  }

  /** Every entry is PENDIENTE, carries the same amount, is numbered 1..n and is due
      `i * intervalo` days after the current date. */
  lemma EntradasDesdeHoy(monto: real, tasa: real, frecuencia: Frecuencia, meses: int, hoy: int, i: int)
    requires 0 <= i < |Plan(monto, tasa, frecuencia, meses, hoy).cuotas|
    ensures var r := Plan(monto, tasa, frecuencia, meses, hoy);
      var e := r.cuotas[i];
      && e.estado == CuotaPendiente
      && e.numero == i + 1
      && e.fechaVencimiento == hoy + (i + 1) * CuotasEIntervalo(frecuencia, meses).1
      && e.monto == r.cuotas[0].monto
      && |r.cuotas| == r.resumen.numeroCuotas
  {
  }

  /** The two copies of the generator agree: with no start date the lib copy starts
      today too, and both produce the same entries, count and total. The lib copy
      reports the unrounded interest where this one reports `totalPagar - capital`. */
  lemma CopiasCoinciden(monto: real, tasa: real, frecuencia: Frecuencia, meses: int, hoy: int)
    ensures var u := Plan(monto, tasa, frecuencia, meses, hoy);
      var l := FinanzasLib.Plan(monto, tasa, frecuencia, meses, hoy);
      && |u.cuotas| == |l.cuotas|
      && (forall i :: 0 <= i < |u.cuotas| ==>
            && u.cuotas[i].numero == l.cuotas[i].numero
            && u.cuotas[i].fechaVencimiento == l.cuotas[i].fechaVencimiento
            && u.cuotas[i].monto == l.cuotas[i].monto)
      && u.resumen.totalPagar == l.totalReal
      && (l.totalReal.Finito? ==> u.resumen.interesGanado == Finito(l.totalReal.valor - monto))
      && (CuotasEIntervalo(frecuencia, meses).0 > 0 ==> l.interesTotal <= u.resumen.interesGanado.valor)
  {
    var u := Plan(monto, tasa, frecuencia, meses, hoy);
    var l := FinanzasLib.Plan(monto, tasa, frecuencia, meses, hoy);
    var (n, intervalo) := CuotasEIntervalo(frecuencia, meses);
    assert (n, intervalo) == FinanzasLib.CuotasEIntervalo(frecuencia, meses);
    var totalPagar := monto + monto * (tasa / 100.0) * meses as real;
    var cuota := MontoCuotaFinal(totalPagar, n);
    if n != 0 {
      assert RedondearEspecial(totalPagar / n as real) == FinanzasLib.RedondearEspecial(totalPagar / n as real);
    }
    assert cuota == FinanzasLib.RedondearImporte(Dividir(totalPagar, n as real));
    assert u.resumen.totalPagar == TotalReal(cuota, n) == l.totalReal;
    var k := if n > 0 then n else 0;
    assert |u.cuotas| == k == |l.cuotas|;
    if n > 0 {
      ResumenCubreDeuda(monto, tasa, frecuencia, meses, hoy);
      FinanzasLib.InteresSinRedondear(monto, tasa, frecuencia, meses, hoy);
    }
  }
}
