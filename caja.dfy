/** The cash report of app/caja/page.tsx: money lent, projected interest, money
    collected, the outstanding total and this month's net flow. */
module Caja {
  import opened Comun
  import opened Modelo

  /** The figures the report shows. A month is the days `inicioMes..finMes`. */
  datatype Informe = Informe(
    totalPrestado: real,
    gananciaProyectada: real,
    totalCobrado: real,
    ingresosMes: real,
    salidasMes: real,
    flujoCajaMes: real,
    deudaExigible: real,
    activos: seq<Prestamo>)

  /** Sum of the log entries that are not ANULACION; a corrección counts with its sign. */
  function Cobrado(pagos: seq<Pago>): real
  {
    if |pagos| == 0 then 0.0
    else Cobrado(pagos[..|pagos| - 1]) + (if pagos[|pagos| - 1].tipo != Anulacion then pagos[|pagos| - 1].monto else 0.0)
  }

  /** The same sum over the entries dated inside the month. */
  function CobradoEntre(pagos: seq<Pago>, inicioMes: int, finMes: int): real
  {
    if |pagos| == 0 then 0.0
    else
      var p := pagos[|pagos| - 1];
      CobradoEntre(pagos[..|pagos| - 1], inicioMes, finMes)
      + (if p.tipo != Anulacion && inicioMes <= p.fecha <= finMes then p.monto else 0.0)
  }

  /** Every log entry, whatever its kind. */
  function TotalLog(pagos: seq<Pago>): real
  {
    if |pagos| == 0 then 0.0 else TotalLog(pagos[..|pagos| - 1]) + pagos[|pagos| - 1].monto
  }

  /** The ANULACION entries only. */
  function TotalAnulado(pagos: seq<Pago>): real
  {
    if |pagos| == 0 then 0.0
    else TotalAnulado(pagos[..|pagos| - 1]) + (if pagos[|pagos| - 1].tipo == Anulacion then pagos[|pagos| - 1].monto else 0.0)
  }

  /** What was collected is the whole log less its reversals: a reversal is left out,
      while the payment it reverses stays counted. */
  lemma {:induction false} CobradoSinAnulaciones(pagos: seq<Pago>)
    ensures Cobrado(pagos) == TotalLog(pagos) - TotalAnulado(pagos)
  {
    if |pagos| > 0 {
      CobradoSinAnulaciones(pagos[..|pagos| - 1]);
    }
  }

  /** A window that holds every entry's date collects the whole report's total. */
  lemma {:induction false} VentanaCompleta(pagos: seq<Pago>, inicioMes: int, finMes: int)
    requires forall i :: 0 <= i < |pagos| ==> inicioMes <= pagos[i].fecha <= finMes
    ensures CobradoEntre(pagos, inicioMes, finMes) == Cobrado(pagos)
  {
    if |pagos| > 0 {
      VentanaCompleta(pagos[..|pagos| - 1], inicioMes, finMes);
    }
  }

  /** Capital of every loan. */
  function CapitalPrestado(prestamos: seq<Prestamo>): real
  {
    if |prestamos| == 0 then 0.0
    else CapitalPrestado(prestamos[..|prestamos| - 1]) + prestamos[|prestamos| - 1].montoCapital
  }

  /** Capital of the loans that start inside the month. */
  function CapitalEntre(prestamos: seq<Prestamo>, inicioMes: int, finMes: int): real
  {
    if |prestamos| == 0 then 0.0
    else
      var p := prestamos[|prestamos| - 1];
      CapitalEntre(prestamos[..|prestamos| - 1], inicioMes, finMes)
      + (if inicioMes <= p.fechaInicio <= finMes then p.montoCapital else 0.0)
  }

  /** `gananciaTotalProyectada`: each loan's capital times its monthly rate. */
  function InteresProyectado(prestamos: seq<Prestamo>): real
  {
    if |prestamos| == 0 then 0.0
    else
      var p := prestamos[|prestamos| - 1];
      InteresProyectado(prestamos[..|prestamos| - 1]) + p.montoCapital * (p.interesPorcentaje / 100.0)
  }

  /** The projected interest is one month of interest per loan, as the loan engine would
      charge it over thirty days, whatever the term, frequency or status. */
  lemma {:induction false} InteresDeUnMes(prestamos: seq<Prestamo>)
    ensures InteresProyectado(prestamos) == InteresDeTreintaDias(prestamos)
  {
    if |prestamos| > 0 {
      var p := prestamos[|prestamos| - 1];
      InteresDeUnMes(prestamos[..|prestamos| - 1]);
      InteresPorMeses(p.montoCapital, p.interesPorcentaje, 1);
    }
  }

  /** Thirty days of day-proportional interest on each loan. */
  function InteresDeTreintaDias(prestamos: seq<Prestamo>): real
  {
    if |prestamos| == 0 then 0.0
    else
      var p := prestamos[|prestamos| - 1];
      InteresDeTreintaDias(prestamos[..|prestamos| - 1]) + InteresProporcional(p.montoCapital, p.interesPorcentaje, 30)
  }

  /** Two portfolios with the same capitals and rates project the same interest, so a
      finished, refinanced or long loan projects what an active one-month loan does. */
  lemma {:induction false} InteresIgnoraPlazoYEstado(a: seq<Prestamo>, b: seq<Prestamo>)
    requires |a| == |b|
    requires forall i :: 0 <= i < |a| ==>
      a[i].montoCapital == b[i].montoCapital && a[i].interesPorcentaje == b[i].interesPorcentaje
    ensures InteresProyectado(a) == InteresProyectado(b)
  {
    if |a| > 0 {
      InteresIgnoraPlazoYEstado(a[..|a| - 1], b[..|b| - 1]);
    }
  }

  /** `totalDeudaExigible`: lent plus projected interest less collected, raised to zero
      when negative. */
  function DeudaExigible(totalPrestado: real, ganancia: real, totalCobrado: real): (r: real)
    ensures r >= 0.0 && r >= totalPrestado + ganancia - totalCobrado
    ensures r == 0.0 || r == totalPrestado + ganancia - totalCobrado
    ensures r == 0.0 <==> totalPrestado + ganancia - totalCobrado <= 0.0
  {
    var deuda := (totalPrestado + ganancia) - totalCobrado;
    if deuda < 0.0 then 0.0 else deuda
  }

  /** `prestamosActivos`: the loans in ACTIVO or PENDIENTE, every copy of each, in
      their order (`ActivosConcatena`). */
  function Activos(prestamos: seq<Prestamo>): (r: seq<Prestamo>)
    ensures |r| <= |prestamos|
    ensures forall p :: p in r <==> p in prestamos && EnCurso(p.estado)
  {
    if |prestamos| == 0 then []
    else Activos(prestamos[..|prestamos| - 1]) + (if EnCurso(prestamos[|prestamos| - 1].estado) then [prestamos[|prestamos| - 1]] else [])
  }

  /** Every copy of a live loan is kept, and no other loan. */
  lemma {:induction false} ActivosCuenta(s: seq<Prestamo>, p: Prestamo)
    ensures multiset(Activos(s))[p] == if EnCurso(p.estado) then multiset(s)[p] else 0
    decreases |s|
  {
    if |s| > 0 {
      var s', x := s[..|s| - 1], s[|s| - 1];
      assert s == s' + [x];
      ActivosCuenta(s', p);
    }
  }

  /** One unfolding of the filter at the last loan. */
  lemma ActivosUltimo(s: seq<Prestamo>)
    requires |s| > 0
    ensures Activos(s) == Activos(s[..|s| - 1]) + if EnCurso(s[|s| - 1].estado) then [s[|s| - 1]] else []
  {
  }

  lemma Asociativa<T>(x: seq<T>, y: seq<T>, z: seq<T>)
    ensures x + (y + z) == (x + y) + z
  {
  }

  /** The filter keeps order: the live loans of two runs of loans are those of the first
      followed by those of the second. */
  lemma {:induction false} ActivosConcatena(a: seq<Prestamo>, b: seq<Prestamo>)
    ensures Activos(a + b) == Activos(a) + Activos(b)
    decreases |b|
  {
    if |b| == 0 {
      assert a + b == a;
    } else {
      var b' := b[..|b| - 1];
      assert (a + b)[..|a + b| - 1] == a + b' && (a + b)[|a + b| - 1] == b[|b| - 1];
      ActivosUltimo(a + b);
      ActivosUltimo(b);
      ActivosConcatena(a, b');
      var resto := if EnCurso(b[|b| - 1].estado) then [b[|b| - 1]] else [];
      Asociativa(Activos(a), Activos(b'), resto);
    }
  }

  /** The whole report for the given loans, log and month. */
  function Reporte(prestamos: seq<Prestamo>, pagos: seq<Pago>, inicioMes: int, finMes: int): Informe
  {
    var totalPrestado := CapitalPrestado(prestamos);
    var ganancia := InteresProyectado(prestamos);
    var totalCobrado := Cobrado(pagos);
    var ingresos := CobradoEntre(pagos, inicioMes, finMes);
    var salidas := CapitalEntre(prestamos, inicioMes, finMes);
    Informe(totalPrestado, ganancia, totalCobrado, ingresos, salidas, ingresos - salidas,
            DeudaExigible(totalPrestado, ganancia, totalCobrado), Activos(prestamos))
  }

  /** With no loans and no payments the report shows nothing owed. */
  lemma ReporteVacio(inicioMes: int, finMes: int)
    ensures Reporte([], [], inicioMes, finMes).deudaExigible == 0.0
    ensures Reporte([], [], inicioMes, finMes).flujoCajaMes == 0.0
  {
  }

  /** The outstanding total the report shows never falls below what the loans lent plus
      one month's interest on them, less the whole log without its reversals. */
  lemma DeudaExigibleAcotada(prestamos: seq<Prestamo>, pagos: seq<Pago>, inicioMes: int, finMes: int)
    ensures var r := Reporte(prestamos, pagos, inicioMes, finMes);
      && r.deudaExigible >= 0.0
      && r.deudaExigible >= CapitalPrestado(prestamos) + InteresDeTreintaDias(prestamos)
                            - (TotalLog(pagos) - TotalAnulado(pagos))
  {
    CobradoSinAnulaciones(pagos);
    InteresDeUnMes(prestamos);
  }

  /** A payment of the loan engine adds its amount to what was collected; a reversal
      adds nothing, and a correction adds its signed difference. */
  lemma CobradoTrasAsiento(pagos: seq<Pago>, p: Pago)
    ensures Cobrado(pagos + [p]) == Cobrado(pagos) + (if p.tipo == Anulacion then 0.0 else p.monto)
  {
    assert (pagos + [p])[..|pagos|] == pagos;
  }
}
