/** The collect-payment button of components/BotonCobrar.tsx: the amount it offers, the
    late fee or early-payment discount it suggests, and what applying either does. */
module Cobro {
  import opened Comun
  import opened Modelo
  import Acciones

  /** Milliseconds in a day: the divisor of the day difference. */
  const MsPorDia: int := 1000 * 60 * 60 * 24

  /** What is still owed on the installment; also the amount the form starts with. */
  function DeudaRestante(c: Cuota): real
  {
    c.montoEsperado - c.montoPagado
  }

  /** Collecting the offered amount as it stands settles the installment, making it
      PAGADO with nothing left to pay, unless nothing is owed: then the amount is not
      positive and `registrarPago` refuses it. */
  lemma CobrarDeudaSalda(c: Cuota, liquidar: bool)
    ensures Acciones.PagoAplicado(c, DeudaRestante(c), liquidar).Some? <==> DeudaRestante(c) > 0.0
    ensures Acciones.PagoAplicado(c, DeudaRestante(c), liquidar).Some? ==>
      && Acciones.PagoAplicado(c, DeudaRestante(c), liquidar).value.estado == CuotaPagada
      && Acciones.PagoAplicado(c, DeudaRestante(c), liquidar).value.montoPagado == c.montoEsperado
      && Acciones.PagoAplicado(c, DeudaRestante(c), liquidar).value.montoEsperado == c.montoEsperado
  {
  }

  /** Days from the due date to the payment date, both at noon: `Math.ceil` of the
      millisecond difference over a day. */
  function DiasDiferencia(fechaPago: int, fechaVencimiento: int): (dias: int)
  {
    Techo(((fechaPago - fechaVencimiento) * MsPorDia) as real / MsPorDia as real)
  }

  /** With both dates at noon the difference is a whole number of days, so the ceiling
      changes nothing: late payments give a positive count and early ones a negative one. */
  lemma DiasEnteros(fechaPago: int, fechaVencimiento: int)
    ensures DiasDiferencia(fechaPago, fechaVencimiento) == fechaPago - fechaVencimiento
  {
    var d := fechaPago - fechaVencimiento;
    assert (d * MsPorDia) as real / MsPorDia as real == d as real;
    TechoEntero(d);
  }

  lemma TechoEntero(d: int)
    ensures Techo(d as real) == d
  {
    TechoEsMinimo(d as real, d);
  }

  /** The suggested late fee (late) or discount (early): the daily rate per day of
      difference, nothing on the due date itself. */
  function CalculoExtra(dias: int, interesDiario: real): (extra: real)
  {
    if dias > 0 then dias as real * interesDiario
    else if dias < 0 then (-dias) as real * interesDiario
    else 0.0
  }

  /** The extra is the absolute day difference times the rate, whichever side of the due
      date the payment falls on, so it is never negative for a non-negative rate and a
      day early is worth as much as a day late. */
  lemma ExtraSimetrico(dias: int, interesDiario: real)
    ensures CalculoExtra(dias, interesDiario) == (if dias < 0 then -dias else dias) as real * interesDiario
    ensures CalculoExtra(dias, interesDiario) == CalculoExtra(-dias, interesDiario)
    ensures interesDiario >= 0.0 ==> CalculoExtra(dias, interesDiario) >= 0.0
  {
  }

  /** "Sumar Mora": the current amount plus the fee, to the cent, an exact half cent
      going away from zero. */
  function AplicarMora(monto: real, extra: real): (r: real)
    ensures (100.0 * r).Floor as real == 100.0 * r
    ensures monto + extra >= 0.0 ==> monto + extra - 0.005 < r <= monto + extra + 0.005
    ensures monto + extra < 0.0 ==> monto + extra - 0.005 <= r < monto + extra + 0.005
  {
    RedondearCentimos(monto + extra)
  }

  /** A rounded positive amount is never negative: a whole number of cents above -0.005. */
  lemma CentimosNoNegativos(x: real)
    requires x > 0.0
    ensures RedondearCentimos(x) >= 0.0
  {
    var r := RedondearCentimos(x);
    var k := (100.0 * r).Floor;
    assert k as real == 100.0 * r;
    assert k > -1;
  }

  /** "Aplicar Descuento": the amount becomes the debt less the discount, to the cent,
      or zero when the discount swallows the debt; settling is switched on. */
  function AplicarDescuento(deudaRestante: real, extra: real): (r: (real, bool))
    ensures r.1
    ensures r.0 >= 0.0
    ensures deudaRestante - extra <= 0.0 ==> r.0 == 0.0
    ensures deudaRestante - extra > 0.0 ==> deudaRestante - extra - 0.005 < r.0 <= deudaRestante - extra + 0.005
  {
    var nuevoMonto := deudaRestante - extra;
    if nuevoMonto > 0.0 then
      CentimosNoNegativos(nuevoMonto);
      (RedondearCentimos(nuevoMonto), true)
    else (0.0, true)
  }

  /** Paying what the discount leaves closes the installment whenever `registrarPago`
      accepts it, since settling is on; when the discount more than half a cent the
      expected amount is lowered to what was paid. When the discount swallows the debt
      the amount is 0 and the payment is refused, so the installment stays open; it goes
      through whenever at least half a cent is left. */
  lemma DescuentoCierraCuota(c: Cuota, extra: real)
    requires DeudaRestante(c) > 0.0 && extra >= 0.0
    ensures Acciones.PagoAplicado(c, AplicarDescuento(DeudaRestante(c), extra).0, AplicarDescuento(DeudaRestante(c), extra).1).Some?
            ==> && Acciones.PagoAplicado(c, AplicarDescuento(DeudaRestante(c), extra).0, AplicarDescuento(DeudaRestante(c), extra).1).value.estado == CuotaPagada
                && (extra > 0.005 ==>
                      && Acciones.PagoAplicado(c, AplicarDescuento(DeudaRestante(c), extra).0, AplicarDescuento(DeudaRestante(c), extra).1).value.montoEsperado
                         < c.montoEsperado
                      && Acciones.PagoAplicado(c, AplicarDescuento(DeudaRestante(c), extra).0, AplicarDescuento(DeudaRestante(c), extra).1).value.montoEsperado
                         == Acciones.PagoAplicado(c, AplicarDescuento(DeudaRestante(c), extra).0, AplicarDescuento(DeudaRestante(c), extra).1).value.montoPagado)
    ensures DeudaRestante(c) - extra <= 0.0 ==>
      Acciones.PagoAplicado(c, AplicarDescuento(DeudaRestante(c), extra).0, AplicarDescuento(DeudaRestante(c), extra).1).None?
    ensures DeudaRestante(c) - extra >= 0.005 ==>
      Acciones.PagoAplicado(c, AplicarDescuento(DeudaRestante(c), extra).0, AplicarDescuento(DeudaRestante(c), extra).1).Some?
  {
  }

  /** The fee button shows only for a late payment and the discount button only for an
      early one: never both, and neither on the due date. */
  predicate OfreceMora(dias: int)
  {
    dias > 0
  }

  predicate OfreceDescuento(dias: int)
  {
    dias < 0
  }

  lemma OfertasExcluyentes(fechaPago: int, fechaVencimiento: int, interesDiario: real)
    ensures var dias := DiasDiferencia(fechaPago, fechaVencimiento);
      && !(OfreceMora(dias) && OfreceDescuento(dias))
      && (OfreceMora(dias) <==> fechaPago > fechaVencimiento)
      && (OfreceDescuento(dias) <==> fechaPago < fechaVencimiento)
      && (!OfreceMora(dias) && !OfreceDescuento(dias) ==> CalculoExtra(dias, interesDiario) == 0.0)
  {
    DiasEnteros(fechaPago, fechaVencimiento);
  }
}
