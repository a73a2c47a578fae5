/** The live preview of the new-loan form in components/FormularioPrestamo.tsx: total,
    installment, earnings, the suggested daily late fee and the duration text. */
module Formulario {
  import opened Comun
  import Acciones

  /** The duration line under the preview: whole days up to a month, months to one
      decimal beyond. */
  datatype Tiempo = EnDias(dias: int) | EnMeses(meses: real)

  /** What the form shows, and the late fee it fills in. */
  datatype Vista = Vista(total: real, cuota: Importe, ganancia: real, tiempo: Tiempo, moraSugerida: real)

  /** The form's own frequency table: three `if`s over a default of one day. */
  function DiasFormulario(f: Frecuencia): int
  {
    var dias := 1;
    var dias := if f == Semanal then 7 else dias;
    var dias := if f == Quincenal then 15 else dias;
    if f == Mensual then 30 else dias
  }

  /** The form and the server agree on the days an installment covers. */
  lemma DiasComoServidor(f: Frecuencia)
    ensures DiasFormulario(f) == DiasPorCuota(f)
  {
  }

  /** `toFixed(1)` on a non-negative number: to the nearest tenth, halves up. */
  function RedondearDecimas(x: real): (r: real)
    requires x >= 0.0
    ensures x - 0.05 < r <= x + 0.05
    ensures (10.0 * r).Floor as real == 10.0 * r
  {
    (x * 10.0 + 0.5).Floor as real / 10.0
  }

  /** The daily fee that earns in a day what the loan earns on average: `ganancia` over
      the days, or nothing for a loan of no days. */
  function MoraDiaria(ganancia: real, duracionDias: int): real
  {
    if duracionDias > 0 then ganancia / duracionDias as real else 0.0
  }

  /** The preview for `monto` at `interes` percent a month over `cuotas` installments. */
  function Calcular(monto: real, interes: real, cuotas: int, frecuencia: Frecuencia): Vista
  {
    VistaPorDias(monto, interes, cuotas, DiasFormulario(frecuencia))
  }

  /** The preview once the days per installment are known. */
  function VistaPorDias(monto: real, interes: real, cuotas: int, dias: int): Vista
  {
    var duracionDias := cuotas * dias;
    VistaDe(monto, monto * (interes / 100.0) * (duracionDias as real / 30.0), cuotas, duracionDias)
  }

  /** The preview once the earnings are known. */
  function VistaDe(monto: real, ganancia: real, cuotas: int, duracionDias: int): Vista
  {
    var total := monto + ganancia;
    var moraSugerida := MoraDiaria(ganancia, duracionDias);
    Vista(total, Dividir(total, cuotas as real), ganancia, TiempoDe(duracionDias), RedondearCentimos(moraSugerida))
  }

  /** The duration line for a loan of `duracionDias` days. */
  function TiempoDe(duracionDias: int): Tiempo
  {
    if duracionDias > 30 then EnMeses(RedondearDecimas(duracionDias as real / 30.0)) else EnDias(duracionDias)
  }

  /** The preview charges what the server will: the same day-proportional interest, the
      same total, and for a positive count the same equal share per installment. */
  lemma VistaComoServidor(monto: real, interes: real, cuotas: int, frecuencia: Frecuencia)
    ensures Calcular(monto, interes, cuotas, frecuencia).ganancia == InteresProporcional(monto, interes, cuotas * DiasPorCuota(frecuencia))
    ensures Calcular(monto, interes, cuotas, frecuencia).total == Acciones.TotalAPagar(monto, interes, cuotas, frecuencia)
    ensures cuotas > 0 ==>
      Calcular(monto, interes, cuotas, frecuencia).cuota == Finito(Acciones.TotalAPagar(monto, interes, cuotas, frecuencia) / cuotas as real)
    ensures cuotas == 0 ==> Calcular(monto, interes, cuotas, frecuencia).cuota == NoFinito
    ensures Calcular(monto, interes, cuotas, frecuencia).tiempo == TiempoDe(cuotas * DiasPorCuota(frecuencia))
  {
    DiasComoServidor(frecuencia);
    var d := DiasPorCuota(frecuencia);
    assert Calcular(monto, interes, cuotas, frecuencia) == VistaPorDias(monto, interes, cuotas, d);
    CamposDeLaVista(monto, interes, cuotas, d);
  }

  /** The preview's earnings, total, share and duration for a known day count. */
  lemma CamposDeLaVista(monto: real, interes: real, cuotas: int, dias: int)
    ensures VistaPorDias(monto, interes, cuotas, dias).ganancia == InteresProporcional(monto, interes, cuotas * dias)
    ensures VistaPorDias(monto, interes, cuotas, dias).total == monto + InteresProporcional(monto, interes, cuotas * dias)
    ensures VistaPorDias(monto, interes, cuotas, dias).cuota
            == Dividir(monto + InteresProporcional(monto, interes, cuotas * dias), cuotas as real)
    ensures VistaPorDias(monto, interes, cuotas, dias).tiempo == TiempoDe(cuotas * dias)
  {
  }

  /** Earnings over the days they take come to a thirtieth of a month's interest on the
      capital, so the suggested fee depends on neither the count nor the frequency. */
  lemma MoraPorDia(monto: real, interes: real, duracionDias: int)
    requires duracionDias > 0
    ensures InteresProporcional(monto, interes, duracionDias) / duracionDias as real == monto * interes / 3000.0
  {
    var d := duracionDias as real;
    calc {
      InteresProporcional(monto, interes, duracionDias) / d;
      (monto * (interes / 100.0) * (d / 30.0)) / d;
      { assert monto * (interes / 100.0) * (d / 30.0) == (monto * interes / 3000.0) * d; }
      (monto * interes / 3000.0) * d / d;
    }
  }

  /** The suggested daily fee is a month's interest over thirty, to the cent, whenever the
      loan lasts at least a day, and zero otherwise. */
  lemma MoraSugerida(monto: real, interes: real, cuotas: int, frecuencia: Frecuencia)
    ensures var v := Calcular(monto, interes, cuotas, frecuencia);
      && (cuotas > 0 ==> v.moraSugerida == RedondearCentimos(monto * interes / 3000.0))
      && (cuotas <= 0 ==> v.moraSugerida == RedondearCentimos(0.0))
  {
    var d := cuotas * DiasPorCuota(frecuencia);
    MoraDeLaVista(monto, interes, cuotas, frecuencia);
    DuracionPositiva(cuotas, DiasPorCuota(frecuencia));
    if cuotas > 0 {
      MoraPorDia(monto, interes, d);
      assert MoraDiaria(InteresProporcional(monto, interes, d), d) == monto * interes / 3000.0;
    }
  }

  /** The fee the preview fills in is the daily share of the loan's earnings. */
  lemma MoraDeLaVista(monto: real, interes: real, cuotas: int, frecuencia: Frecuencia)
    ensures Calcular(monto, interes, cuotas, frecuencia).moraSugerida
            == RedondearCentimos(MoraDiaria(InteresProporcional(monto, interes, cuotas * DiasPorCuota(frecuencia)),
                                            cuotas * DiasPorCuota(frecuencia)))
  {
    DiasComoServidor(frecuencia);
    var d := cuotas * DiasPorCuota(frecuencia);
    var v := Calcular(monto, interes, cuotas, frecuencia);
    assert v == VistaPorDias(monto, interes, cuotas, DiasPorCuota(frecuencia));
    assert v.moraSugerida == RedondearCentimos(MoraDiaria(v.ganancia, d));
    CamposDeLaVista(monto, interes, cuotas, DiasPorCuota(frecuencia));
  }

  lemma DuracionPositiva(cuotas: int, dias: int)
    requires dias >= 1
    ensures cuotas * dias > 0 <==> cuotas > 0
  {
    if cuotas > 0 {
      assert cuotas * dias >= cuotas;
    } else {
      assert cuotas * dias <= 0;
    }
  }

  /** The duration reads in whole days up to thirty, and beyond that in months: at least
      one, to the nearest tenth. */
  lemma TextoDeTiempo(duracionDias: int)
    ensures duracionDias <= 30 ==> TiempoDe(duracionDias) == EnDias(duracionDias)
    ensures duracionDias > 30 ==>
      && TiempoDe(duracionDias).EnMeses?
      && TiempoDe(duracionDias).meses >= 1.0
      && duracionDias as real / 30.0 - 0.05 < TiempoDe(duracionDias).meses <= duracionDias as real / 30.0 + 0.05
  {
    if duracionDias > 30 {
      var m := RedondearDecimas(duracionDias as real / 30.0);
      var k := (10.0 * m).Floor;
      assert k as real > 9.0;
    }
  }
}
