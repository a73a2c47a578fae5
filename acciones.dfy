/** The server actions of app/actions.ts over the four tables they update: clients,
    loans, installments and the append-only payment log. */
module Acciones {
  import opened Comun
  import opened Modelo
  import opened Sumas
  import FinanzasLib

  /** Why an action throws before writing anything. */
  datatype Fallo =
    | DatosInvalidos          // empty name, non-positive amount or count
    | MontoNoPositivo         // a payment of 0 or less
    | CuotaNoEncontrada
    | PrestamoNoEncontrado    // includes the foreign-key failure of the first insert
    | ClienteNoExiste
    | FechaConCuotasPagadas   // start date changed on a loan with a paid installment

  datatype Resultado<T> = Ok(valor: T) | Falla(motivo: Fallo)

  // ---------------------------------------------------------------------------
  // Per-loan views of the tables

  /** Contribution of an installment to the paid total of loan `l`. */
  function PagadoDe(l: nat): Cuota -> real
  {
    (c: Cuota) => if c.prestamoId == l then c.montoPagado else 0.0
  }

  /** Contribution of an installment to the expected total of loan `l`. */
  function EsperadoDe(l: nat): Cuota -> real
  {
    (c: Cuota) => if c.prestamoId == l then c.montoEsperado else 0.0
  }

  /** Contribution of an installment to the outstanding debt of loan `l`, unclamped. */
  function SaldoDe(l: nat): Cuota -> real
  {
    (c: Cuota) => if c.prestamoId == l then c.montoEsperado - c.montoPagado else 0.0
  }

  /** The installments counted by `count({ prestamoId: l, estado: { not: 'PAGADO' } })`. */
  function NoPagadaDe(l: nat): Cuota -> bool
  {
    (c: Cuota) => c.prestamoId == l && c.estado != CuotaPagada
  }

  /** Every installment of loan `l` is PAGADO. */
  predicate TodasPagadas(cuotas: map<nat, Cuota>, l: nat)
  {
    forall id :: id in cuotas && cuotas[id].prestamoId == l ==> cuotas[id].estado == CuotaPagada
  }

  /** `prestamo.cuotas.some(c => c.estado === 'PAGADO')`. */
  predicate HayPagadas(cuotas: map<nat, Cuota>, l: nat)
  {
    exists id :: id in cuotas && cuotas[id].prestamoId == l && cuotas[id].estado == CuotaPagada
  }

  /** Sum of the signed log entries of loan `l`. */
  function TotalRegistrado(pagos: seq<Pago>, l: nat): real
  {
    if pagos == [] then 0.0
    else TotalRegistrado(pagos[..|pagos| - 1], l)
         + (if pagos[|pagos| - 1].prestamoId == l then pagos[|pagos| - 1].monto else 0.0)
  }

  lemma TotalRegistradoAgregar(pagos: seq<Pago>, p: Pago, l: nat)
    ensures TotalRegistrado(pagos + [p], l) == TotalRegistrado(pagos, l) + (if p.prestamoId == l then p.monto else 0.0)
  {
    assert (pagos + [p])[..|pagos|] == pagos;
  }

  /** `pago.deleteMany({ where: { prestamoId: l } })`: the log without loan `l`'s entries. */
  function SinPrestamo(pagos: seq<Pago>, l: nat): seq<Pago>
  {
    if pagos == [] then []
    else SinPrestamo(pagos[..|pagos| - 1], l) + (if pagos[|pagos| - 1].prestamoId == l then [] else [pagos[|pagos| - 1]])
  }

  /** Deleting a loan's entries keeps every other entry, in order, and only those. */
  lemma {:induction false} SinPrestamoFiltra(pagos: seq<Pago>, l: nat)
    ensures forall p :: p in SinPrestamo(pagos, l) <==> p in pagos && p.prestamoId != l
    ensures forall l' :: l' != l ==> TotalRegistrado(SinPrestamo(pagos, l), l') == TotalRegistrado(pagos, l')
    ensures TotalRegistrado(SinPrestamo(pagos, l), l) == 0.0
  {
    if pagos != [] {
      var init := pagos[..|pagos| - 1];
      var last := pagos[|pagos| - 1];
      SinPrestamoFiltra(init, l);
      assert pagos == init + [last];
      var r := SinPrestamo(init, l);
      if last.prestamoId != l {
        forall l' ensures TotalRegistrado(r + [last], l') == TotalRegistrado(r, l') + (if last.prestamoId == l' then last.monto else 0.0) {
          TotalRegistradoAgregar(r, last, l');
        }
      } else {
        assert r + [] == r;
      }
    }
  }

  /** The installment rows a nested `cuotas: { create: ... }` inserts for loan `l`, with
      ids from `base` on: PENDIENTE, nothing paid. */
  function CuotasNuevas(base: nat, l: nat, plan: seq<CuotaPlan>): map<nat, Cuota>
  {
    map k | base <= k < base + |plan| :: Fila(base, l, plan, k)
  }

  /** The row with id `k` of `CuotasNuevas`: entry `k - base` of the plan. */
  function Fila(base: nat, l: nat, plan: seq<CuotaPlan>, k: nat): Cuota
    requires base <= k < base + |plan|
  {
    Cuota(l, plan[k - base].numero, plan[k - base].fechaVencimiento, plan[k - base].monto, 0.0, CuotaPendiente)
  }

  /** `cuota.deleteMany({ where: { prestamoId: l } })`. */
  function SinCuotasDe(cuotas: map<nat, Cuota>, l: nat): map<nat, Cuota>
  {
    map k | k in cuotas && cuotas[k].prestamoId != l :: cuotas[k]
  }

  /** The rows inserted for a plan carry, in id order, the plan's amounts as expected amounts. */
  lemma {:induction false} EsperadoDeCuotasNuevas(base: nat, l: nat, plan: seq<CuotaPlan>, k: nat)
    requires k <= |plan|
    ensures SumaHasta(CuotasNuevas(base, l, plan), EsperadoDe(l), base + k) == SumaMontos(plan[..k])
  {
    var m := CuotasNuevas(base, l, plan);
    if k == 0 {
      SumaNula(m, EsperadoDe(l), base);
    } else {
      EsperadoDeCuotasNuevas(base, l, plan, k - 1);
      assert plan[..k][..k - 1] == plan[..k - 1];
    }
  }

  /** `findFirst` over the clients with ids `i..n-1`: the first one with that name (and
      that owner, when one is given). */
  function BuscarCliente(clientes: map<nat, Cliente>, nombre: string, usuario: Option<int>, i: nat, n: nat): (r: Option<nat>)
    decreases n - i
    ensures r.Some? ==> i <= r.value < n && r.value in clientes && Coincide(clientes[r.value], nombre, usuario)
    ensures r.Some? ==> forall j :: i <= j < r.value && j in clientes ==> !Coincide(clientes[j], nombre, usuario)
    ensures r.None? ==> forall j :: i <= j < n && j in clientes ==> !Coincide(clientes[j], nombre, usuario)
  {
    if i >= n then None
    else if i in clientes && Coincide(clientes[i], nombre, usuario) then Some(i)
    else BuscarCliente(clientes, nombre, usuario, i + 1, n)
  }

  predicate Coincide(c: Cliente, nombre: string, usuario: Option<int>)
  {
    c.nombre == nombre && (usuario.None? || c.usuarioId == usuario.value)
  }

  /** The schedule loop of `crearPrestamo` and `procesarRenovacion`: `fechaActual` moves
      `diasPorCuota` days per iteration and entry i is pushed with that date. */
  method ArmarCuotas(fechaInicio: int, diasPorCuota: int, numeroCuotas: int, montoPorCuota: real)
    returns (cuotas: seq<CuotaPlan>)
    ensures cuotas == Calendario(if numeroCuotas > 0 then numeroCuotas else 0, fechaInicio, diasPorCuota, montoPorCuota)
  {
    cuotas := [];
    var fechaActual := fechaInicio;
    var i := 1;
    while i <= numeroCuotas
      invariant 1 <= i <= (if numeroCuotas > 0 then numeroCuotas else 0) + 1
      invariant fechaActual == fechaInicio + (i - 1) * diasPorCuota
      invariant cuotas == Calendario(i - 1, fechaInicio, diasPorCuota, montoPorCuota)
    {
      fechaActual := fechaActual + diasPorCuota;
      assert fechaActual == fechaInicio + i * diasPorCuota by {
        assert (i - 1) * diasPorCuota + diasPorCuota == i * diasPorCuota;
      }
      CalendarioExtiende(i - 1, fechaInicio, diasPorCuota, montoPorCuota);
      cuotas := cuotas + [CuotaPlan(i, fechaActual, montoPorCuota)];
      i := i + 1;
    }
  }

  /** The terms `crearPrestamo` derives: `totalAPagar / numeroCuotas` per installment,
      `totalAPagar` being the principal plus proportional interest over the loan's days. */
  function TotalAPagar(monto: real, interesMensual: real, numeroCuotas: int, frecuencia: Frecuencia): real
  {
    monto + InteresProporcional(monto, interesMensual, numeroCuotas * DiasPorCuota(frecuencia))
  }

  /** A schedule of `n` unrounded shares `total / n` collects exactly `total`. */
  lemma CuotaIgualSumaTotal(n: nat, inicio: int, dias: int, total: real)
    requires n > 0
    ensures SumaMontos(Calendario(n, inicio, dias, total / n as real)) == total
  {
    SumaCalendario(n, inicio, dias, total / n as real);
  }

  /** A loan inserted with `n` equal shares of what `crearPrestamo` charges expects
      exactly that charge and has nothing paid yet. */
  lemma EsperadoDelAlta(cuotas0: map<nat, Cuota>, sig0: nat, id: nat, monto: real, interes: real, n: nat,
                        frecuencia: Frecuencia, inicio: int)
    requires forall k :: k in cuotas0 ==> k < sig0 && cuotas0[k].prestamoId != id
    requires n > 0
    ensures var total := TotalAPagar(monto, interes, n, frecuencia);
      var m := cuotas0 + CuotasNuevas(sig0, id, Calendario(n, inicio, DiasPorCuota(frecuencia), total / n as real));
      && SumaHasta(m, EsperadoDe(id), sig0 + n) == total
      && SumaHasta(m, PagadoDe(id), sig0 + n) == 0.0
  {
    var total := TotalAPagar(monto, interes, n, frecuencia);
    var plan := Calendario(n, inicio, DiasPorCuota(frecuencia), total / n as real);
    AltaDeCuotas(cuotas0, sig0, id, plan);
    CuotaIgualSumaTotal(n, inicio, DiasPorCuota(frecuencia), total);
  }

  /** Inserting a loan's schedule under fresh ids: the new loan's expected total is the
      plan's sum and nothing of it is paid, and every other loan keeps its totals. */
  lemma {:induction false} AltaDeCuotas(cuotas0: map<nat, Cuota>, sig0: nat, id: nat, plan: seq<CuotaPlan>)
    requires forall k :: k in cuotas0 ==> k < sig0 && cuotas0[k].prestamoId != id
    ensures var m := cuotas0 + CuotasNuevas(sig0, id, plan);
      && SumaHasta(m, EsperadoDe(id), sig0 + |plan|) == SumaMontos(plan)
      && SumaHasta(m, PagadoDe(id), sig0 + |plan|) == 0.0
    ensures var m := cuotas0 + CuotasNuevas(sig0, id, plan);
      forall l :: l != id ==>
        && SumaHasta(m, PagadoDe(l), sig0 + |plan|) == SumaHasta(cuotas0, PagadoDe(l), sig0)
        && SumaHasta(m, EsperadoDe(l), sig0 + |plan|) == SumaHasta(cuotas0, EsperadoDe(l), sig0)
  {
    var nuevas := CuotasNuevas(sig0, id, plan);
    var m := cuotas0 + nuevas;
    var n := sig0 + |plan|;
    forall k | 0 <= k < n
      ensures Aporte(m, EsperadoDe(id), k) == Aporte(nuevas, EsperadoDe(id), k)
      ensures Aporte(m, PagadoDe(id), k) == 0.0
    {
    }
    SumaNula(m, PagadoDe(id), n);
    SumaPuntual(m, EsperadoDe(id), nuevas, EsperadoDe(id), n);
    EsperadoDeCuotasNuevas(sig0, id, plan, |plan|);
    assert plan[..|plan|] == plan;
    forall l | l != id
      ensures SumaHasta(m, PagadoDe(l), n) == SumaHasta(cuotas0, PagadoDe(l), sig0)
      ensures SumaHasta(m, EsperadoDe(l), n) == SumaHasta(cuotas0, EsperadoDe(l), sig0)
    {
      SumaExtender(m, PagadoDe(l), sig0, n);
      SumaPuntual(m, PagadoDe(l), cuotas0, PagadoDe(l), sig0);
      SumaExtender(m, EsperadoDe(l), sig0, n);
      SumaPuntual(m, EsperadoDe(l), cuotas0, EsperadoDe(l), sig0);
    }
  }

  /** No log entry refers to an id that is not (yet) a loan. */
  lemma {:induction false} SinEntradasDeNuevo(pagos: seq<Pago>, l: nat)
    requires forall i :: 0 <= i < |pagos| ==> pagos[i].prestamoId != l
    ensures TotalRegistrado(pagos, l) == 0.0
  {
    if pagos != [] {
      SinEntradasDeNuevo(pagos[..|pagos| - 1], l);
    }
  }

  /** Ids are below the table's next id, every reference points at an existing row,
      and an installment is PAGADO only when what was paid covers, within the 0.10
      margin, what is expected of it. */
  ghost predicate TablasValidas(clientes: map<nat, Cliente>, prestamos: map<nat, Prestamo>, cuotas: map<nat, Cuota>,
                                pagos: seq<Pago>, sigCliente: nat, sigPrestamo: nat, sigCuota: nat)
  {
    && (forall id :: id in clientes ==> id < sigCliente)
    && (forall id :: id in prestamos ==> id < sigPrestamo && prestamos[id].clienteId in clientes)
    && (forall id :: id in cuotas ==> id < sigCuota && cuotas[id].prestamoId in prestamos)
    && (forall i :: 0 <= i < |pagos| ==> pagos[i].prestamoId in prestamos)
    && (forall id :: id in cuotas && cuotas[id].estado == CuotaPagada ==>
          Cubierta(cuotas[id].montoPagado, cuotas[id].montoEsperado))
  }

  /** Inserting a loan of an existing client under the next id, with its schedule under
      fresh installment ids, keeps the tables consistent. */
  lemma AltaValida(clientes: map<nat, Cliente>, prestamos: map<nat, Prestamo>, cuotas: map<nat, Cuota>,
                   pagos: seq<Pago>, sigCliente: nat, sigPrestamo: nat, sigCuota: nat,
                   p: Prestamo, plan: seq<CuotaPlan>)
    requires TablasValidas(clientes, prestamos, cuotas, pagos, sigCliente, sigPrestamo, sigCuota)
    requires p.clienteId in clientes
    ensures TablasValidas(clientes, prestamos[sigPrestamo := p], cuotas + CuotasNuevas(sigCuota, sigPrestamo, plan),
                          pagos, sigCliente, sigPrestamo + 1, sigCuota + |plan|)
    ensures forall k :: k in cuotas ==> cuotas[k].prestamoId != sigPrestamo
    ensures forall i :: 0 <= i < |pagos| ==> pagos[i].prestamoId != sigPrestamo
  {
  }

  /** Replacing one installment row moves each loan's totals by the difference of that
      row's contributions, and nothing else. */
  lemma CambioDeCuota(cuotas: map<nat, Cuota>, n: nat, id: nat, c: Cuota)
    requires id in cuotas && id < n
    ensures forall l :: SumaHasta(cuotas[id := c], PagadoDe(l), n)
                        == SumaHasta(cuotas, PagadoDe(l), n) - PagadoDe(l)(cuotas[id]) + PagadoDe(l)(c)
    ensures forall l :: SumaHasta(cuotas[id := c], EsperadoDe(l), n)
                        == SumaHasta(cuotas, EsperadoDe(l), n) - EsperadoDe(l)(cuotas[id]) + EsperadoDe(l)(c)
  {
    forall l
      ensures SumaHasta(cuotas[id := c], PagadoDe(l), n)
              == SumaHasta(cuotas, PagadoDe(l), n) - PagadoDe(l)(cuotas[id]) + PagadoDe(l)(c)
      ensures SumaHasta(cuotas[id := c], EsperadoDe(l), n)
              == SumaHasta(cuotas, EsperadoDe(l), n) - EsperadoDe(l)(cuotas[id]) + EsperadoDe(l)(c)
    {
      SumaCambioUnico(cuotas, PagadoDe(l), cuotas[id := c], PagadoDe(l), n, id);
      SumaCambioUnico(cuotas, EsperadoDe(l), cuotas[id := c], EsperadoDe(l), n, id);
    }
  }

  /** The installment after `registrarPago` adds `monto` to it: with `liquidar`, a
      payment short of what is expected lowers the expectation to what was paid. What
      is expected never grows, a write-off always settles the installment, and what is
      left to pay drops by the payment or to zero. */
  function CuotaTrasPago(c: Cuota, monto: real, liquidar: bool): (n: Cuota)
    ensures n.prestamoId == c.prestamoId && n.numero == c.numero && n.fechaVencimiento == c.fechaVencimiento
    ensures n.montoPagado == c.montoPagado + monto
    ensures n.montoEsperado <= c.montoEsperado
    ensures n.montoEsperado < c.montoEsperado <==> liquidar && c.montoPagado + monto < c.montoEsperado
    ensures n.estado == CuotaPagada <==> Cubierta(n.montoPagado, n.montoEsperado)
    ensures liquidar ==> n.estado == CuotaPagada
    ensures monto >= 0.0 && Cubierta(c.montoPagado, c.montoEsperado) ==> n.estado == CuotaPagada
    ensures n.montoEsperado - n.montoPagado
            == if liquidar && c.montoPagado + monto < c.montoEsperado then 0.0 else c.montoEsperado - c.montoPagado - monto
  {
    var nuevoMontoPagado := c.montoPagado + monto;
    var montoEsperado := if liquidar && nuevoMontoPagado < c.montoEsperado then nuevoMontoPagado else c.montoEsperado;
    c.(estado := if nuevoMontoPagado >= montoEsperado - Margen then CuotaPagada else CuotaPendiente,
       montoPagado := nuevoMontoPagado, montoEsperado := montoEsperado)
  }

  /** The installment after `anularPago`: nothing paid, PENDIENTE. */
  function CuotaAnulada(c: Cuota): (n: Cuota)
    ensures n.montoPagado == 0.0 && n.estado == CuotaPendiente
    ensures n.montoEsperado == c.montoEsperado && n.prestamoId == c.prestamoId && n.numero == c.numero
  {
    c.(estado := CuotaPendiente, montoPagado := 0.0)
  }

  /** What `registrarPago` makes of an installment: it refuses an amount that is not
      positive, and otherwise the installment becomes `CuotaTrasPago`. */
  function PagoAplicado(c: Cuota, monto: real, liquidar: bool): (r: Option<Cuota>)
    ensures r.Some? <==> monto > 0.0
  {
    if monto <= 0.0 then None else Some(CuotaTrasPago(c, monto, liquidar))
  }

  /** The installment after `corregirPago` sets what was paid to `nuevoMonto`: PAGADO
      exactly when that covers the unchanged expected amount within the margin. */
  function CuotaCorregida(c: Cuota, nuevoMonto: real): (n: Cuota)
    ensures n.montoPagado == nuevoMonto && n.montoEsperado == c.montoEsperado
    ensures n.prestamoId == c.prestamoId && n.numero == c.numero
    ensures n.estado == CuotaPagada <==> Cubierta(nuevoMonto, c.montoEsperado)
  {
    c.(montoPagado := nuevoMonto, estado := if nuevoMonto >= c.montoEsperado - Margen then CuotaPagada else CuotaPendiente)
  }

  /** How far a loan's log total is above its installments' paid total. */
  function Descuadre(pagos: seq<Pago>, cuotas: map<nat, Cuota>, n: nat, l: nat): real
  {
    TotalRegistrado(pagos, l) - SumaHasta(cuotas, PagadoDe(l), n)
  }

  /** One log entry and one installment update move a loan's `Descuadre` by the entry's
      amount minus what the update added to what was paid. */
  lemma DescuadreTrasCambio(pagos: seq<Pago>, cuotas: map<nat, Cuota>, n: nat, id: nat, c: Cuota, p: Pago, l: nat)
    requires id in cuotas && id < n
    ensures Descuadre(pagos + [p], cuotas[id := c], n, l)
            == Descuadre(pagos, cuotas, n, l) + (if p.prestamoId == l then p.monto else 0.0)
               - (PagadoDe(l)(c) - PagadoDe(l)(cuotas[id]))
  {
    TotalRegistradoAgregar(pagos, p, l);
    CambioDeCuota(cuotas, n, id, c);
  }

  /** `registrarPago` on an installment of the loan it logs to keeps every loan's log
      total in step with its paid total: the entry is exactly what was added. */
  lemma PagoCuadra(pagos: seq<Pago>, cuotas: map<nat, Cuota>, n: nat, id: nat, monto: real, liquidar: bool,
                   fecha: int, nota: Nota)
    requires id in cuotas && id < n
    ensures forall l :: Descuadre(pagos + [Pago(cuotas[id].prestamoId, monto, fecha, PagoCuota, nota)],
                                  cuotas[id := CuotaTrasPago(cuotas[id], monto, liquidar)], n, l)
                        == Descuadre(pagos, cuotas, n, l)
  {
    forall l
      ensures Descuadre(pagos + [Pago(cuotas[id].prestamoId, monto, fecha, PagoCuota, nota)],
                        cuotas[id := CuotaTrasPago(cuotas[id], monto, liquidar)], n, l)
              == Descuadre(pagos, cuotas, n, l)
    {
      DescuadreTrasCambio(pagos, cuotas, n, id, CuotaTrasPago(cuotas[id], monto, liquidar),
                          Pago(cuotas[id].prestamoId, monto, fecha, PagoCuota, nota), l);
    }
  }

  /** `corregirPago` logs exactly the change of what was paid, so no loan's log total
      drifts from its paid total. */
  lemma CorreccionCuadra(pagos: seq<Pago>, cuotas: map<nat, Cuota>, n: nat, id: nat, nuevoMonto: real, fecha: int)
    requires id in cuotas && id < n
    ensures var c := cuotas[id];
      forall l :: Descuadre(pagos + [Pago(c.prestamoId, nuevoMonto - c.montoPagado, fecha, Correccion,
                                          CorreccionManual(c.numero, c.montoPagado, nuevoMonto))],
                            cuotas[id := CuotaCorregida(c, nuevoMonto)], n, l)
                  == Descuadre(pagos, cuotas, n, l)
  {
    var c := cuotas[id];
    forall l
      ensures Descuadre(pagos + [Pago(c.prestamoId, nuevoMonto - c.montoPagado, fecha, Correccion,
                                      CorreccionManual(c.numero, c.montoPagado, nuevoMonto))],
                        cuotas[id := CuotaCorregida(c, nuevoMonto)], n, l)
              == Descuadre(pagos, cuotas, n, l)
    {
      DescuadreTrasCambio(pagos, cuotas, n, id, CuotaCorregida(c, nuevoMonto),
                          Pago(c.prestamoId, nuevoMonto - c.montoPagado, fecha, Correccion,
                               CorreccionManual(c.numero, c.montoPagado, nuevoMonto)), l);
    }
  }

  /** `anularPago` logs minus what was expected but takes back what was paid: the
      loan's log total moves off its paid total by the difference, and stays in step
      only when the two were equal. */
  lemma AnulacionDescuadra(pagos: seq<Pago>, cuotas: map<nat, Cuota>, n: nat, id: nat, fecha: int)
    requires id in cuotas && id < n
    ensures var c := cuotas[id];
      var despues := Descuadre(pagos + [Pago(c.prestamoId, -c.montoEsperado, fecha, Anulacion, PagoAnulado(c.numero))],
                               cuotas[id := CuotaAnulada(c)], n, c.prestamoId);
      && despues == Descuadre(pagos, cuotas, n, c.prestamoId) + c.montoPagado - c.montoEsperado
      && (despues == Descuadre(pagos, cuotas, n, c.prestamoId) <==> c.montoPagado == c.montoEsperado)
  {
    var c := cuotas[id];
    DescuadreTrasCambio(pagos, cuotas, n, id, CuotaAnulada(c),
                        Pago(c.prestamoId, -c.montoEsperado, fecha, Anulacion, PagoAnulado(c.numero)), c.prestamoId);
  }

  /** `procesarRenovacion` logs today's payment on the old loan without touching any of
      its installments, so the old loan's log total runs ahead of its paid total by
      `pagoHoy` when that is positive. The new loan starts in step, and no other loan
      moves. */
  lemma RefinanciamientoDescuadra(pagos: seq<Pago>, cuotas: map<nat, Cuota>, base: nat, q: nat, id: nat,
                                  plan: seq<CuotaPlan>, pagoHoy: real, fecha: int)
    requires forall k :: k in cuotas ==> k < base && cuotas[k].prestamoId != id
    requires forall i :: 0 <= i < |pagos| ==> pagos[i].prestamoId != id
    requires q != id
    ensures Descuadre(pagos + (if pagoHoy > 0.0 then [Pago(q, pagoHoy, fecha, PagoCuota, PagoInicialRefinanciamiento)] else []),
                      cuotas + CuotasNuevas(base, id, plan), base + |plan|, q)
            == Descuadre(pagos, cuotas, base, q) + (if pagoHoy > 0.0 then pagoHoy else 0.0)
    ensures Descuadre(pagos + (if pagoHoy > 0.0 then [Pago(q, pagoHoy, fecha, PagoCuota, PagoInicialRefinanciamiento)] else []),
                      cuotas + CuotasNuevas(base, id, plan), base + |plan|, id)
            == 0.0
    ensures forall l :: l != q && l != id ==>
      Descuadre(pagos + (if pagoHoy > 0.0 then [Pago(q, pagoHoy, fecha, PagoCuota, PagoInicialRefinanciamiento)] else []),
                cuotas + CuotasNuevas(base, id, plan), base + |plan|, l)
      == Descuadre(pagos, cuotas, base, l)
  {
    var entrada := Pago(q, pagoHoy, fecha, PagoCuota, PagoInicialRefinanciamiento);
    var despues := pagos + (if pagoHoy > 0.0 then [entrada] else []);
    AltaDeCuotas(cuotas, base, id, plan);
    SinEntradasDeNuevo(pagos, id);
    if pagoHoy > 0.0 {
      forall l ensures TotalRegistrado(despues, l) == TotalRegistrado(pagos, l) + (if l == q then pagoHoy else 0.0) {
        TotalRegistradoAgregar(pagos, entrada, l);
      }
    } else {
      assert despues == pagos;
    }
  }

  /** Rescheduling drops every installment of the loan, and `!HayPagadas` rules out only
      PAGADO ones: what was paid on a PENDIENTE installment leaves the paid total while its
      log entries stay, so the loan's log total runs ahead by everything paid before. No
      other loan moves. */
  lemma ReprogramacionDescuadra(pagos: seq<Pago>, cuotas: map<nat, Cuota>, base: nat, l: nat, plan: seq<CuotaPlan>)
    requires forall k :: k in cuotas ==> k < base
    ensures Descuadre(pagos, SinCuotasDe(cuotas, l) + CuotasNuevas(base, l, plan), base + |plan|, l)
            == Descuadre(pagos, cuotas, base, l) + SumaHasta(cuotas, PagadoDe(l), base)
    ensures forall l' :: l' != l ==>
      Descuadre(pagos, SinCuotasDe(cuotas, l) + CuotasNuevas(base, l, plan), base + |plan|, l')
      == Descuadre(pagos, cuotas, base, l')
  {
    SinCuotasDeTotales(cuotas, base, l);
    AltaDeCuotas(SinCuotasDe(cuotas, l), base, l, plan);
  }

  /** A loan is FINALIZADO only when it has installments and every one is PAGADO. */
  ghost predicate CoherenteEn(prestamos: map<nat, Prestamo>, cuotas: map<nat, Cuota>)
  {
    forall l :: l in prestamos && prestamos[l].estado == Finalizado ==> TodasPagadas(cuotas, l) && HayPagadas(cuotas, l)
  }

  /** Updating one installment without unpaying it, then closing its loan exactly when
      all of that loan's installments are paid, keeps FINALIZADO loans fully paid. */
  lemma CierreCoherente(prestamos: map<nat, Prestamo>, cuotas: map<nat, Cuota>, id: nat, c: Cuota)
    requires CoherenteEn(prestamos, cuotas)
    requires id in cuotas && c.prestamoId == cuotas[id].prestamoId && c.prestamoId in prestamos
    requires cuotas[id].estado == CuotaPagada ==> c.estado == CuotaPagada
    ensures var l := c.prestamoId;
      var cuotas' := cuotas[id := c];
      CoherenteEn(if TodasPagadas(cuotas', l) then prestamos[l := prestamos[l].(estado := Finalizado)] else prestamos, cuotas')
  {
    var l := c.prestamoId;
    var cuotas' := cuotas[id := c];
    var prestamos' := if TodasPagadas(cuotas', l) then prestamos[l := prestamos[l].(estado := Finalizado)] else prestamos;
    forall k | k in prestamos' && prestamos'[k].estado == Finalizado
      ensures TodasPagadas(cuotas', k) && HayPagadas(cuotas', k)
    {
      if k == l {
        assert cuotas'[id].estado == CuotaPagada;
      } else {
        var j :| j in cuotas && cuotas[j].prestamoId == k && cuotas[j].estado == CuotaPagada;
        assert cuotas'[j] == cuotas[j];
      }
    }
  }

  /** Setting one loan ACTIVO after touching one of its installments: nothing else
      changes, so FINALIZADO loans stay fully paid. */
  lemma ReaperturaCoherente(prestamos: map<nat, Prestamo>, cuotas: map<nat, Cuota>, id: nat, c: Cuota)
    requires CoherenteEn(prestamos, cuotas)
    requires id in cuotas && c.prestamoId == cuotas[id].prestamoId && c.prestamoId in prestamos
    ensures CoherenteEn(prestamos[c.prestamoId := prestamos[c.prestamoId].(estado := Activo)], cuotas[id := c])
  {
    var prestamos' := prestamos[c.prestamoId := prestamos[c.prestamoId].(estado := Activo)];
    forall k | k in prestamos' && prestamos'[k].estado == Finalizado
      ensures TodasPagadas(cuotas[id := c], k) && HayPagadas(cuotas[id := c], k)
    {
      var j :| j in cuotas && cuotas[j].prestamoId == k && cuotas[j].estado == CuotaPagada;
      assert cuotas[id := c][j] == cuotas[j];
    }
  }

  /** `montoEsperado` of an installment that survives an action never grows. */
  predicate NoCrece(antes: map<nat, Cuota>, despues: map<nat, Cuota>)
  {
    forall k :: k in antes && k in despues ==> despues[k].montoEsperado <= antes[k].montoEsperado
  }

  lemma NoCreceCambio(cuotas: map<nat, Cuota>, id: nat, c: Cuota)
    requires id in cuotas && c.montoEsperado <= cuotas[id].montoEsperado
    ensures NoCrece(cuotas, cuotas[id := c])
  {
  }

  /** The debt `procesarRenovacion` folds, Σ(esperado − pagado), is the expected total
      minus the paid total. */
  lemma {:induction false} SaldoEsDiferencia(cuotas: map<nat, Cuota>, n: nat, l: nat)
    ensures SumaHasta(cuotas, SaldoDe(l), n) == SumaHasta(cuotas, EsperadoDe(l), n) - SumaHasta(cuotas, PagadoDe(l), n)
  {
    if n > 0 {
      SaldoEsDiferencia(cuotas, n - 1, l);
    }
  }

  /** Deleting a loan's installments zeroes its totals and leaves every other loan's. */
  lemma SinCuotasDeTotales(cuotas: map<nat, Cuota>, n: nat, l: nat)
    ensures SumaHasta(SinCuotasDe(cuotas, l), PagadoDe(l), n) == 0.0
    ensures SumaHasta(SinCuotasDe(cuotas, l), EsperadoDe(l), n) == 0.0
    ensures forall l' :: l' != l ==>
      && SumaHasta(SinCuotasDe(cuotas, l), PagadoDe(l'), n) == SumaHasta(cuotas, PagadoDe(l'), n)
      && SumaHasta(SinCuotasDe(cuotas, l), EsperadoDe(l'), n) == SumaHasta(cuotas, EsperadoDe(l'), n)
  {
    var m := SinCuotasDe(cuotas, l);
    SumaNula(m, PagadoDe(l), n);
    SumaNula(m, EsperadoDe(l), n);
    forall l' | l' != l
      ensures SumaHasta(m, PagadoDe(l'), n) == SumaHasta(cuotas, PagadoDe(l'), n)
      ensures SumaHasta(m, EsperadoDe(l'), n) == SumaHasta(cuotas, EsperadoDe(l'), n)
    {
      SumaPuntual(m, PagadoDe(l'), cuotas, PagadoDe(l'), n);
      SumaPuntual(m, EsperadoDe(l'), cuotas, EsperadoDe(l'), n);
    }
  }

  /** The schedule `actualizarPrestamo` regenerates: the lib generator, given the loan's
      `plazo` as a number of months. */
  function Reprogramado(p: Prestamo, fecha: int): seq<CuotaPlan>
  {
    FinanzasLib.Plan(p.montoCapital, p.interesPorcentaje, p.frecuencia, p.plazo, fecha).cuotas
  }

  /** `plazo` holds the installment count that `crearPrestamo` created, but rescheduling
      reads it as months: a loan of n weekly installments comes back with 4n. Only a
      monthly loan keeps its count. */
  lemma ReprogramacionUsaPlazoComoMeses(p: Prestamo, fecha: int)
    requires p.plazo > 0 && !p.frecuencia.Otra?
    ensures |Reprogramado(p, fecha)|
            == p.plazo * (match p.frecuencia case Diario => 30 case Semanal => 4 case Quincenal => 2 case _ => 1)
    ensures |Reprogramado(p, fecha)| == p.plazo <==> p.frecuencia.Mensual?
  {
    var m := p.plazo;
    FinanzasLib.TablaDeFrecuencias(p.montoCapital, p.interesPorcentaje, p.frecuencia, m, fecha);
    var factor := match p.frecuencia case Diario => 30 case Semanal => 4 case Quincenal => 2 case _ => 1;
    assert |Reprogramado(p, fecha)| == m * factor;
    assert m * factor == m <==> factor == 1 by {
      if factor > 1 {
        assert m * factor >= m * 2 > m;
      }
    }
  }

  /** The rescheduled plan charges `plazo` months of interest, where the original charged
      the days its installments covered (7n for n weekly installments). */
  lemma ReprogramacionCobraMeses(p: Prestamo, fecha: int)
    requires p.plazo > 0 && !p.frecuencia.Otra?
    ensures SumaMontos(Reprogramado(p, fecha))
            >= p.montoCapital + InteresProporcional(p.montoCapital, p.interesPorcentaje, 30 * p.plazo)
  {
    var m := p.plazo;
    var c := FinanzasLib.Plan(p.montoCapital, p.interesPorcentaje, p.frecuencia, m, fecha);
    assert FinanzasLib.CuotasEIntervalo(p.frecuencia, m).0 >= m;
    FinanzasLib.TotalRealAcotado(p.montoCapital, p.interesPorcentaje, p.frecuencia, m, fecha);
    FinanzasLib.InteresDelPlan(p.montoCapital, p.interesPorcentaje, p.frecuencia, m, fecha);
  }

  /** Editing a loan's other fields keeps FINALIZADO loans fully paid. */
  lemma EdicionCoherente(prestamos: map<nat, Prestamo>, cuotas: map<nat, Cuota>, l: nat, p: Prestamo)
    requires CoherenteEn(prestamos, cuotas)
    requires l in prestamos && p.estado == prestamos[l].estado
    ensures CoherenteEn(prestamos[l := p], cuotas)
  {
  }

  /** A new loan that is not FINALIZADO, with its schedule under fresh ids, leaves
      every FINALIZADO loan fully paid. */
  lemma AltaCoherente(prestamos: map<nat, Prestamo>, cuotas: map<nat, Cuota>, id: nat, p: Prestamo, plan: seq<CuotaPlan>, base: nat)
    requires CoherenteEn(prestamos, cuotas)
    requires id !in prestamos && p.estado != Finalizado
    requires forall k :: k in cuotas ==> k < base && cuotas[k].prestamoId != id
    ensures CoherenteEn(prestamos[id := p], cuotas + CuotasNuevas(base, id, plan))
  {
    forall l | l in prestamos[id := p] && prestamos[id := p][l].estado == Finalizado
      ensures TodasPagadas(cuotas + CuotasNuevas(base, id, plan), l) && HayPagadas(cuotas + CuotasNuevas(base, id, plan), l)
    {
      var j :| j in cuotas && cuotas[j].prestamoId == l && cuotas[j].estado == CuotaPagada;
      assert (cuotas + CuotasNuevas(base, id, plan))[j] == cuotas[j];
    }
  }

  /** Marking one loan REFINANCIADO and inserting a new loan with its schedule keeps
      FINALIZADO loans fully paid. */
  lemma RefinanciamientoCoherente(prestamos: map<nat, Prestamo>, cuotas: map<nat, Cuota>, q: nat, id: nat,
                                  p: Prestamo, plan: seq<CuotaPlan>, base: nat)
    requires CoherenteEn(prestamos, cuotas)
    requires q in prestamos && id !in prestamos && p.estado != Finalizado
    requires forall k :: k in cuotas ==> k < base && cuotas[k].prestamoId != id
    ensures CoherenteEn(prestamos[q := prestamos[q].(estado := Refinanciado)][id := p], cuotas + CuotasNuevas(base, id, plan))
  {
    var cerrado := prestamos[q := prestamos[q].(estado := Refinanciado)];
    assert CoherenteEn(cerrado, cuotas) by {
      forall l | l in cerrado && cerrado[l].estado == Finalizado
        ensures TodasPagadas(cuotas, l) && HayPagadas(cuotas, l)
      {
        assert l != q && cerrado[l] == prestamos[l];
      }
    }
    AltaCoherente(cerrado, cuotas, id, p, plan, base);
  }

  /** Deleting a loan with its installments leaves every other loan's installments. */
  lemma BajaCoherente(prestamos: map<nat, Prestamo>, cuotas: map<nat, Cuota>, l: nat)
    requires CoherenteEn(prestamos, cuotas)
    ensures CoherenteEn(prestamos - {l}, SinCuotasDe(cuotas, l))
  {
    forall k | k in prestamos - {l} && (prestamos - {l})[k].estado == Finalizado
      ensures HayPagadas(SinCuotasDe(cuotas, l), k)
    {
      var j :| j in cuotas && cuotas[j].prestamoId == k && cuotas[j].estado == CuotaPagada;
      assert SinCuotasDe(cuotas, l)[j] == cuotas[j];
    }
  }

  /** Replacing a loan row (same or other existing client) together with its whole
      schedule keeps the tables consistent. */
  lemma ReprogramacionValida(clientes: map<nat, Cliente>, prestamos: map<nat, Prestamo>, cuotas: map<nat, Cuota>,
                             pagos: seq<Pago>, sigCliente: nat, sigPrestamo: nat, sigCuota: nat,
                             l: nat, p: Prestamo, plan: seq<CuotaPlan>)
    requires TablasValidas(clientes, prestamos, cuotas, pagos, sigCliente, sigPrestamo, sigCuota)
    requires l in prestamos && p.clienteId in clientes
    ensures TablasValidas(clientes, prestamos[l := p], SinCuotasDe(cuotas, l) + CuotasNuevas(sigCuota, l, plan),
                          pagos, sigCliente, sigPrestamo, sigCuota + |plan|)
  {
  }

  /** Rescheduling a loan that is not FINALIZADO leaves every FINALIZADO loan's
      installments as they were. */
  lemma ReprogramacionCoherente(prestamos: map<nat, Prestamo>, cuotas: map<nat, Cuota>, l: nat, p: Prestamo,
                                plan: seq<CuotaPlan>, base: nat)
    requires CoherenteEn(prestamos, cuotas)
    requires l in prestamos && p.estado == prestamos[l].estado && !HayPagadas(cuotas, l)
    requires forall k :: k in cuotas ==> k < base
    ensures CoherenteEn(prestamos[l := p], SinCuotasDe(cuotas, l) + CuotasNuevas(base, l, plan))
  {
    var m := SinCuotasDe(cuotas, l) + CuotasNuevas(base, l, plan);
    forall k | k in prestamos[l := p] && prestamos[l := p][k].estado == Finalizado
      ensures TodasPagadas(m, k) && HayPagadas(m, k)
    {
      assert k != l;
      var j :| j in cuotas && cuotas[j].prestamoId == k && cuotas[j].estado == CuotaPagada;
      assert m[j] == cuotas[j];
    }
  }

  class Cartera {
    var clientes: map<nat, Cliente>
    var prestamos: map<nat, Prestamo>
    var cuotas: map<nat, Cuota>
    var pagos: seq<Pago>
    /** The next auto-increment id of each table. */
    var sigCliente: nat
    var sigPrestamo: nat
    var sigCuota: nat

    ghost predicate Valid()
      reads this
    {
      TablasValidas(clientes, prestamos, cuotas, pagos, sigCliente, sigPrestamo, sigCuota)
    }

    constructor ()
      ensures Valid()
      ensures clientes == map[] && prestamos == map[] && cuotas == map[] && pagos == []
    {
      clientes, prestamos, cuotas, pagos := map[], map[], map[], [];
      sigCliente, sigPrestamo, sigCuota := 0, 0, 0;
    }

    /** Σ montoPagado over the installments of loan `l`. */
    function PagadoTotal(l: nat): real
      reads this`cuotas, this`sigCuota
    {
      SumaHasta(cuotas, PagadoDe(l), sigCuota)
    }

    /** Σ montoEsperado over the installments of loan `l`. */
    function EsperadoTotal(l: nat): real
      reads this`cuotas, this`sigCuota
    {
      SumaHasta(cuotas, EsperadoDe(l), sigCuota)
    }

    /** Σ(montoEsperado − montoPagado) over the installments of loan `l`, unclamped. */
    function Deuda(l: nat): real
      reads this`cuotas, this`sigCuota
    {
      SumaHasta(cuotas, SaldoDe(l), sigCuota)
    }

    /** Number of installments of loan `l` that are not PAGADO. */
    function Pendientes(l: nat): nat
      reads this`cuotas, this`sigCuota
    {
      CuentaHasta(cuotas, NoPagadaDe(l), sigCuota)
    }

    /** The count the source runs is zero exactly when every installment is paid. */
    lemma PendientesCero(l: nat)
      requires Valid()
      ensures Pendientes(l) == 0 <==> TodasPagadas(cuotas, l)
    {
      CuentaCero(cuotas, NoPagadaDe(l), sigCuota);
    }

    /** Client find-or-create of `crearPrestamo`: the first client of this user with this
        name, or a new one. */
    method ObtenerOCrearCliente(usuarioId: int, nombre: string, telefono: string) returns (id: nat)
      requires Valid()
      modifies this`clientes, this`sigCliente
      ensures Valid()
      ensures id in clientes && clientes[id].nombre == nombre && clientes[id].usuarioId == usuarioId
      ensures BuscarCliente(old(clientes), nombre, Some(usuarioId), 0, old(sigCliente)).Some? ==>
                id == BuscarCliente(old(clientes), nombre, Some(usuarioId), 0, old(sigCliente)).value
                && clientes == old(clientes) && sigCliente == old(sigCliente)
      ensures BuscarCliente(old(clientes), nombre, Some(usuarioId), 0, old(sigCliente)).None? ==>
                id == old(sigCliente) && clientes == old(clientes)[id := Cliente(nombre, telefono, usuarioId)]
                && sigCliente == old(sigCliente) + 1
    {
      var encontrado := BuscarCliente(clientes, nombre, Some(usuarioId), 0, sigCliente);
      if encontrado.Some? {
        id := encontrado.value;
      } else {
        id := sigCliente;
        clientes := clientes[id := Cliente(nombre, telefono, usuarioId)];
        sigCliente := sigCliente + 1;
      }
    }

    /** `prestamo.create` with its nested `cuotas: { create: plan }`: the loan under the
        next id, its schedule under fresh installment ids, in one write. */
    method Alta(nuevo: Prestamo, plan: seq<CuotaPlan>) returns (id: nat)
      requires Valid()
      requires nuevo.clienteId in clientes
      modifies this`prestamos, this`sigPrestamo, this`cuotas, this`sigCuota
      ensures Valid()
      ensures id == old(sigPrestamo) && id !in old(prestamos)
      ensures prestamos == old(prestamos)[id := nuevo] && sigPrestamo == id + 1
      ensures cuotas == old(cuotas) + CuotasNuevas(old(sigCuota), id, plan) && sigCuota == old(sigCuota) + |plan|
      ensures NoCrece(old(cuotas), cuotas)
      ensures old(Coherente()) && nuevo.estado != Finalizado ==> Coherente()
    {
      AltaValida(clientes, prestamos, cuotas, pagos, sigCliente, sigPrestamo, sigCuota, nuevo, plan);
      ghost var prestamos0, cuotas0, base := prestamos, cuotas, sigCuota;
      id := sigPrestamo;
      prestamos := prestamos[id := nuevo];
      sigPrestamo := sigPrestamo + 1;
      cuotas := cuotas + CuotasNuevas(sigCuota, id, plan);
      sigCuota := sigCuota + |plan|;
      if old(Coherente()) && nuevo.estado != Finalizado {
        assert forall k :: k in cuotas0 ==> k < base && cuotas0[k].prestamoId != id;
        AltaCoherente(prestamos0, cuotas0, id, nuevo, plan, base);
      }
    }

    /** `crearPrestamo`: validate, find or create the client, then insert the loan with
        its whole schedule at once. */
    method CrearPrestamo(usuarioId: int, nombre: string, telefono: string, monto: real, interesMensual: real,
                         numeroCuotas: int, frecuencia: Frecuencia, fechaInicio: int, moraDiaria: real)
      returns (r: Resultado<nat>)
      requires Valid()
      modifies this`clientes, this`sigCliente, this`prestamos, this`sigPrestamo, this`cuotas, this`sigCuota
      ensures Valid()
      ensures r.Falla? <==> nombre == [] || monto <= 0.0 || numeroCuotas <= 0
      ensures r.Falla? ==> r.motivo == DatosInvalidos && unchanged(this)
      ensures r.Ok? ==> r.valor == old(sigPrestamo) && r.valor !in old(prestamos) && r.valor in prestamos
      ensures r.Ok? ==>
        var id := r.valor;
        var p := prestamos[id];
        && prestamos == old(prestamos)[id := p]
        && p == Prestamo(p.clienteId, monto, interesMensual, frecuencia, numeroCuotas, fechaInicio, moraDiaria, Activo)
        && clientes[p.clienteId].nombre == nombre && clientes[p.clienteId].usuarioId == usuarioId
        && cuotas == old(cuotas) + CuotasNuevas(old(sigCuota), id,
             Calendario(numeroCuotas, fechaInicio, DiasPorCuota(frecuencia),
                        TotalAPagar(monto, interesMensual, numeroCuotas, frecuencia) / numeroCuotas as real))
        && pagos == old(pagos)
        && sigPrestamo == old(sigPrestamo) + 1 && sigCuota == old(sigCuota) + numeroCuotas
      // The client: the user's first client of that name is reused, otherwise one is created.
      ensures r.Ok? && BuscarCliente(old(clientes), nombre, Some(usuarioId), 0, old(sigCliente)).Some? ==>
        && prestamos[r.valor].clienteId == BuscarCliente(old(clientes), nombre, Some(usuarioId), 0, old(sigCliente)).value
        && clientes == old(clientes) && sigCliente == old(sigCliente)
      ensures r.Ok? && BuscarCliente(old(clientes), nombre, Some(usuarioId), 0, old(sigCliente)).None? ==>
        && prestamos[r.valor].clienteId == old(sigCliente)
        && clientes == old(clientes)[old(sigCliente) := Cliente(nombre, telefono, usuarioId)]
        && sigCliente == old(sigCliente) + 1
      ensures NoCrece(old(cuotas), cuotas)
      ensures old(Coherente()) ==> Coherente()
    {
      // 1-4. Days per installment, duration, proportional interest, amounts
      var diasPorCuota := 1;
      if frecuencia == Semanal { diasPorCuota := 7; }
      if frecuencia == Quincenal { diasPorCuota := 15; }
      if frecuencia == Mensual { diasPorCuota := 30; }
      var duracionTotalDias := numeroCuotas * diasPorCuota;
      var gananciaInteres := InteresProporcional(monto, interesMensual, duracionTotalDias);
      var totalAPagar := monto + gananciaInteres;

      if nombre == [] || monto <= 0.0 || numeroCuotas <= 0 {
        return Falla(DatosInvalidos);
      }
      var montoPorCuota := totalAPagar / numeroCuotas as real;
      assert diasPorCuota == DiasPorCuota(frecuencia);
      assert totalAPagar == TotalAPagar(monto, interesMensual, numeroCuotas, frecuencia);

      ghost var hallado := BuscarCliente(clientes, nombre, Some(usuarioId), 0, sigCliente);
      var clienteId := ObtenerOCrearCliente(usuarioId, nombre, telefono);
      assert hallado.Some? ==> clienteId == hallado.value;
      assert hallado.None? ==> clienteId == old(sigCliente);
      var plan := ArmarCuotas(fechaInicio, diasPorCuota, numeroCuotas, montoPorCuota);

      var nuevo := Prestamo(clienteId, monto, interesMensual, frecuencia, numeroCuotas, fechaInicio, moraDiaria, Activo);
      ghost var clientes1, sigCliente1 := clientes, sigCliente;
      var id := Alta(nuevo, plan);
      assert clientes == clientes1 && sigCliente == sigCliente1;
      r := Ok(id);
    }

    /** `pago.create`: append one entry to the log of an existing loan. */
    method Anotar(p: Pago)
      requires Valid()
      requires p.prestamoId in prestamos
      modifies this`pagos
      ensures Valid()
      ensures pagos == old(pagos) + [p]
    {
      pagos := pagos + [p];
    }

    /** `cuota.update`: replace an installment row, keeping its loan. */
    method Reemplazar(id: nat, c: Cuota)
      requires Valid()
      requires id in cuotas && c.prestamoId == cuotas[id].prestamoId
      requires c.estado == CuotaPagada ==> Cubierta(c.montoPagado, c.montoEsperado)
      modifies this`cuotas
      ensures Valid()
      ensures cuotas == old(cuotas)[id := c]
    {
      cuotas := cuotas[id := c];
    }

    /** `prestamo.update({ data: { estado } })`. */
    method FijarEstado(l: nat, e: EstadoPrestamo)
      requires Valid()
      requires l in prestamos
      modifies this`prestamos
      ensures Valid()
      ensures prestamos == old(prestamos)[l := old(prestamos[l]).(estado := e)]
    {
      prestamos := prestamos[l := prestamos[l].(estado := e)];
    }

    /** A loan is FINALIZADO only when it has installments and every one is PAGADO. */
    ghost predicate Coherente()
      reads this`prestamos, this`cuotas
    {
      CoherenteEn(prestamos, cuotas)
    }

    /** `registrarPago`: add `monto` to an installment, optionally writing off the rest
        (`liquidar`), log it, and close the loan when nothing is left pending. */
    method RegistrarPago(cuotaId: nat, prestamoId: nat, monto: real, fecha: Option<int>, hoy: int, liquidar: bool)
      returns (r: Resultado<()>)
      requires Valid()
      modifies this`pagos, this`cuotas, this`prestamos
      ensures Valid()
      ensures r.Falla? ==> unchanged(this)
      ensures monto <= 0.0 ==> r == Falla(MontoNoPositivo)
      ensures monto > 0.0 && cuotaId !in old(cuotas) ==> r == Falla(CuotaNoEncontrada)
      ensures monto > 0.0 && cuotaId in old(cuotas) && prestamoId !in old(prestamos) ==> r == Falla(PrestamoNoEncontrado)
      ensures r.Ok? <==> monto > 0.0 && cuotaId in old(cuotas) && prestamoId in old(prestamos)
      ensures r.Ok? ==>
        var c := old(cuotas[cuotaId]);
        && cuotas == old(cuotas)[cuotaId := CuotaTrasPago(c, monto, liquidar)]
        && pagos == old(pagos) + [Pago(prestamoId, monto, if fecha.Some? then fecha.value else hoy, PagoCuota,
                                       if liquidar && c.montoPagado + monto < c.montoEsperado
                                       then Descuento(c.montoEsperado, c.montoPagado + monto)
                                       else Abono(c.numero))]
        && prestamos == (if TodasPagadas(cuotas, prestamoId)
                         then old(prestamos)[prestamoId := old(prestamos)[prestamoId].(estado := Finalizado)]
                         else old(prestamos))
        && clientes == old(clientes) && sigCliente == old(sigCliente)
        && sigPrestamo == old(sigPrestamo) && sigCuota == old(sigCuota)
      // The installment ends as `PagoAplicado` says, and the payment goes through whenever that accepts it.
      ensures r.Ok? ==> PagoAplicado(old(cuotas[cuotaId]), monto, liquidar) == Some(cuotas[cuotaId])
      ensures (cuotaId in old(cuotas) && prestamoId in old(prestamos)
               && PagoAplicado(old(cuotas[cuotaId]), monto, liquidar).Some?) ==> r.Ok?
      // The loan is closed exactly when all its installments are paid; never reopened here.
      ensures r.Ok? && TodasPagadas(cuotas, prestamoId) ==> prestamos[prestamoId].estado == Finalizado
      ensures r.Ok? && !TodasPagadas(cuotas, prestamoId) ==> prestamos[prestamoId] == old(prestamos[prestamoId])
      // No installment's expected amount grows.
      ensures NoCrece(old(cuotas), cuotas)
      ensures r.Ok? && old(Coherente()) && prestamoId == old(cuotas[cuotaId].prestamoId) ==> Coherente()
    {
      if monto <= 0.0 {
        return Falla(MontoNoPositivo);
      }
      if cuotaId !in cuotas {
        return Falla(CuotaNoEncontrada);
      }
      var c := cuotas[cuotaId];
      var nuevoMontoPagado := c.montoPagado + monto;
      var montoEsperado := c.montoEsperado;
      if liquidar && nuevoMontoPagado < montoEsperado {
        montoEsperado := nuevoMontoPagado;
      }
      var estaPagadoTotalmente := nuevoMontoPagado >= montoEsperado - Margen;

      // 1. The log entry: its foreign key is the first check of `prestamoId`.
      if prestamoId !in prestamos {
        return Falla(PrestamoNoEncontrado);
      }
      var fechaPago := if fecha.Some? then fecha.value else hoy;
      var nota := if liquidar && nuevoMontoPagado < c.montoEsperado then Descuento(c.montoEsperado, nuevoMontoPagado)
                  else Abono(c.numero);
      var nueva := c.(estado := if estaPagadoTotalmente then CuotaPagada else CuotaPendiente,
                      montoPagado := nuevoMontoPagado, montoEsperado := montoEsperado);
      assert nueva == CuotaTrasPago(c, monto, liquidar);
      NoCreceCambio(cuotas, cuotaId, nueva);
      if Coherente() && prestamoId == c.prestamoId {
        CierreCoherente(prestamos, cuotas, cuotaId, nueva);
      }
      Asentar(cuotaId, nueva, Pago(prestamoId, monto, fechaPago, PagoCuota, nota));
      r := Ok(());
    }

    /** The writes of `registrarPago`, in order: the log entry, the installment, and the
        loan's closure when nothing of it is pending. */
    method Asentar(cuotaId: nat, nueva: Cuota, entrada: Pago)
      requires Valid()
      requires cuotaId in cuotas && nueva.prestamoId == cuotas[cuotaId].prestamoId
      requires nueva.estado == CuotaPagada ==> Cubierta(nueva.montoPagado, nueva.montoEsperado)
      requires entrada.prestamoId in prestamos
      modifies this`pagos, this`cuotas, this`prestamos
      ensures Valid()
      ensures pagos == old(pagos) + [entrada]
      ensures cuotas == old(cuotas)[cuotaId := nueva]
      ensures prestamos == if TodasPagadas(cuotas, entrada.prestamoId)
                           then old(prestamos)[entrada.prestamoId := old(prestamos[entrada.prestamoId]).(estado := Finalizado)]
                           else old(prestamos)
    {
      Anotar(entrada);
      Reemplazar(cuotaId, nueva);
      CerrarSiSaldado(entrada.prestamoId);
    }

    /** The last step of `registrarPago`: count the loan's installments that are not
        PAGADO and mark the loan FINALIZADO when there are none. */
    method CerrarSiSaldado(l: nat)
      requires Valid()
      requires l in prestamos
      modifies this`prestamos
      ensures Valid()
      ensures prestamos == if TodasPagadas(cuotas, l) then old(prestamos)[l := old(prestamos[l]).(estado := Finalizado)]
                           else old(prestamos)
    {
      var pendientes := Pendientes(l);
      PendientesCero(l);
      if pendientes == 0 {
        FijarEstado(l, Finalizado);
      }
    }

    /** `procesarRenovacion`: close the old loan as REFINANCIADO and open a new one for
        the same client whose capital is the old debt minus today's payment plus the
        increase, scheduled from today; log today's payment on the old loan. */
    method ProcesarRenovacion(prestamoId: nat, pagoHoy: real, aumentoCapital: real, nuevoInteres: real,
                              nuevasCuotas: int, nuevaFrecuencia: Frecuencia, moraDiaria: real, hoy: int)
      returns (r: Resultado<nat>)
      requires Valid()
      modifies this`prestamos, this`sigPrestamo, this`cuotas, this`sigCuota, this`pagos
      ensures Valid()
      ensures r.Falla? <==> prestamoId !in old(prestamos)
      ensures r.Falla? ==> r.motivo == PrestamoNoEncontrado && unchanged(this)
      ensures r.Ok? ==> r.valor == old(sigPrestamo) && r.valor !in old(prestamos) && r.valor in prestamos
      ensures r.Ok? ==>
        var anterior := old(prestamos[prestamoId]);
        var capital := old(Deuda(prestamoId)) - pagoHoy + aumentoCapital;
        var total := TotalAPagar(capital, nuevoInteres, nuevasCuotas, nuevaFrecuencia);
        && prestamos == old(prestamos)[prestamoId := anterior.(estado := Refinanciado)]
                          [r.valor := Prestamo(anterior.clienteId, capital, nuevoInteres, nuevaFrecuencia, nuevasCuotas,
                                               hoy, moraDiaria, Activo)]
        && cuotas == old(cuotas) + CuotasNuevas(old(sigCuota), r.valor,
                       Calendario(if nuevasCuotas > 0 then nuevasCuotas else 0, hoy, DiasPorCuota(nuevaFrecuencia),
                                  if nuevasCuotas != 0 then total / nuevasCuotas as real else 0.0))
        && pagos == old(pagos) + (if pagoHoy > 0.0 then [Pago(prestamoId, pagoHoy, hoy, PagoCuota, PagoInicialRefinanciamiento)] else [])
        && clientes == old(clientes)
        && sigCuota == old(sigCuota) + (if nuevasCuotas > 0 then nuevasCuotas else 0)
      // The old debt is unclamped: an overpaid installment lowers it.
      ensures r.Ok? ==> old(Deuda(prestamoId)) == old(EsperadoTotal(prestamoId)) - old(PagadoTotal(prestamoId))
      ensures NoCrece(old(cuotas), cuotas)
      ensures old(Coherente()) ==> Coherente()
    {
      if prestamoId !in prestamos {
        return Falla(PrestamoNoEncontrado);
      }
      var anterior := prestamos[prestamoId];
      var deudaActual := Deuda(prestamoId);
      SaldoEsDiferencia(cuotas, sigCuota, prestamoId);
      var nuevoMontoCapital := deudaActual - pagoHoy + aumentoCapital;

      var diasPorCuota := 1;
      if nuevaFrecuencia == Semanal { diasPorCuota := 7; }
      if nuevaFrecuencia == Quincenal { diasPorCuota := 15; }
      if nuevaFrecuencia == Mensual { diasPorCuota := 30; }
      assert diasPorCuota == DiasPorCuota(nuevaFrecuencia);
      var duracionDias := nuevasCuotas * diasPorCuota;
      var gananciaInteres := InteresProporcional(nuevoMontoCapital, nuevoInteres, duracionDias);
      var totalAPagar := nuevoMontoCapital + gananciaInteres;
      assert totalAPagar == TotalAPagar(nuevoMontoCapital, nuevoInteres, nuevasCuotas, nuevaFrecuencia);
      // With no installments JavaScript's quotient is NaN or Infinity, but no entry uses it.
      var montoPorCuota := if nuevasCuotas != 0 then totalAPagar / nuevasCuotas as real else 0.0;

      var plan := ArmarCuotas(hoy, diasPorCuota, nuevasCuotas, montoPorCuota);
      var nuevo := Prestamo(anterior.clienteId, nuevoMontoCapital, nuevoInteres, nuevaFrecuencia, nuevasCuotas,
                            hoy, moraDiaria, Activo);
      var id := Refinanciar(prestamoId, nuevo, plan, pagoHoy, hoy);
      r := Ok(id);
    }

    /** The writes of `procesarRenovacion`, in order: (A) the old loan becomes
        REFINANCIADO, (B) the new loan is inserted with its schedule, (C) today's
        payment, if any, is logged on the old loan. */
    method Refinanciar(prestamoId: nat, nuevo: Prestamo, plan: seq<CuotaPlan>, pagoHoy: real, hoy: int) returns (id: nat)
      requires Valid()
      requires prestamoId in prestamos && nuevo.clienteId == prestamos[prestamoId].clienteId && nuevo.estado == Activo
      modifies this`prestamos, this`sigPrestamo, this`cuotas, this`sigCuota, this`pagos
      ensures Valid()
      ensures id == old(sigPrestamo) && id !in old(prestamos) && id != prestamoId
      ensures prestamos == old(prestamos)[prestamoId := old(prestamos[prestamoId]).(estado := Refinanciado)][id := nuevo]
      ensures cuotas == old(cuotas) + CuotasNuevas(old(sigCuota), id, plan)
      ensures pagos == old(pagos) + (if pagoHoy > 0.0 then [Pago(prestamoId, pagoHoy, hoy, PagoCuota, PagoInicialRefinanciamiento)] else [])
      ensures sigCuota == old(sigCuota) + |plan| && clientes == old(clientes)
      ensures NoCrece(old(cuotas), cuotas)
      ensures old(Coherente()) ==> Coherente()
    {
      assert forall k :: k in cuotas ==> k < sigCuota && cuotas[k].prestamoId != sigPrestamo;
      if Coherente() {
        RefinanciamientoCoherente(prestamos, cuotas, prestamoId, sigPrestamo, nuevo, plan, sigCuota);
      }
      FijarEstado(prestamoId, Refinanciado);
      id := Alta(nuevo, plan);
      if pagoHoy > 0.0 {
        Anotar(Pago(prestamoId, pagoHoy, hoy, PagoCuota, PagoInicialRefinanciamiento));
      }
    }

    /** `anularPago`: log minus the installment's expected amount, reset what was paid
        to 0 and PENDIENTE, and set the given loan ACTIVO whatever its status. */
    method AnularPago(cuotaId: nat, prestamoId: nat, hoy: int) returns (r: Resultado<()>)
      requires Valid()
      modifies this`pagos, this`cuotas, this`prestamos
      ensures Valid()
      ensures r.Falla? ==> unchanged(this)
      ensures cuotaId !in old(cuotas) ==> r == Falla(CuotaNoEncontrada)
      ensures cuotaId in old(cuotas) && prestamoId !in old(prestamos) ==> r == Falla(PrestamoNoEncontrado)
      ensures r.Ok? <==> cuotaId in old(cuotas) && prestamoId in old(prestamos)
      ensures r.Ok? ==>
        && cuotas == old(cuotas)[cuotaId := CuotaAnulada(old(cuotas[cuotaId]))]
        && pagos == old(pagos) + [Pago(prestamoId, -old(cuotas[cuotaId]).montoEsperado, hoy, Anulacion,
                                       PagoAnulado(old(cuotas[cuotaId]).numero))]
        && prestamos == old(prestamos)[prestamoId := old(prestamos[prestamoId]).(estado := Activo)]
        && clientes == old(clientes)
      ensures NoCrece(old(cuotas), cuotas)
      ensures r.Ok? && old(Coherente()) && prestamoId == old(cuotas[cuotaId].prestamoId) ==> Coherente()
    {
      if cuotaId !in cuotas {
        return Falla(CuotaNoEncontrada);
      }
      var c := cuotas[cuotaId];
      // 1. The negative entry; its foreign key is the first check of `prestamoId`.
      if prestamoId !in prestamos {
        return Falla(PrestamoNoEncontrado);
      }
      var nueva := c.(estado := CuotaPendiente, montoPagado := 0.0);
      assert nueva == CuotaAnulada(c);
      NoCreceCambio(cuotas, cuotaId, nueva);
      if Coherente() && prestamoId == c.prestamoId {
        ReaperturaCoherente(prestamos, cuotas, cuotaId, nueva);
      }
      Anotar(Pago(prestamoId, -c.montoEsperado, hoy, Anulacion, PagoAnulado(c.numero)));
      // 2. The installment.
      Reemplazar(cuotaId, nueva);
      // 3. The loan.
      FijarEstado(prestamoId, Activo);
      r := Ok(());
    }

    /** `corregirPago`: set what was paid of an installment to `nuevoMonto`, log the
        difference on the installment's loan, and re-derive the statuses. */
    method CorregirPago(cuotaId: nat, nuevoMonto: real, hoy: int) returns (r: Resultado<()>)
      requires Valid()
      modifies this`pagos, this`cuotas, this`prestamos
      ensures Valid()
      ensures r.Falla? <==> cuotaId !in old(cuotas)
      ensures r.Falla? ==> r.motivo == CuotaNoEncontrada && unchanged(this)
      ensures r.Ok? && nuevoMonto == old(cuotas[cuotaId].montoPagado) ==> unchanged(this)
      ensures r.Ok? && nuevoMonto != old(cuotas[cuotaId].montoPagado) ==>
        var c := old(cuotas[cuotaId]);
        var l := c.prestamoId;
        var pagada := Cubierta(nuevoMonto, c.montoEsperado);
        && cuotas == old(cuotas)[cuotaId := CuotaCorregida(c, nuevoMonto)]
        && pagos == old(pagos) + [Pago(l, nuevoMonto - c.montoPagado, hoy, Correccion, CorreccionManual(c.numero, c.montoPagado, nuevoMonto))]
        && prestamos == (if !pagada then old(prestamos)[l := old(prestamos[l]).(estado := Activo)]
                         else if TodasPagadas(cuotas, l) then old(prestamos)[l := old(prestamos[l]).(estado := Finalizado)]
                         else old(prestamos))
        && clientes == old(clientes)
      ensures NoCrece(old(cuotas), cuotas)
      ensures old(Coherente()) ==> Coherente()
    {
      if cuotaId !in cuotas {
        return Falla(CuotaNoEncontrada);
      }
      var c := cuotas[cuotaId];
      var montoAnterior := c.montoPagado;
      var diferencia := nuevoMonto - montoAnterior;
      if diferencia == 0.0 {
        return Ok(());
      }
      var montoEsperado := c.montoEsperado;
      var estaPagado := nuevoMonto >= montoEsperado - Margen;
      var nueva := c.(montoPagado := nuevoMonto, estado := if estaPagado then CuotaPagada else CuotaPendiente);
      NoCreceCambio(cuotas, cuotaId, nueva);
      if Coherente() {
        if estaPagado {
          CierreCoherente(prestamos, cuotas, cuotaId, nueva);
        } else {
          ReaperturaCoherente(prestamos, cuotas, cuotaId, nueva);
        }
      }
      // 1. The cash adjustment, on the installment's own loan.
      Anotar(Pago(c.prestamoId, diferencia, hoy, Correccion, CorreccionManual(c.numero, montoAnterior, nuevoMonto)));
      // 2. The installment, against its unchanged expected amount.
      Reemplazar(cuotaId, nueva);
      // 3. Reopen the loan, or 4. close it when nothing is left pending.
      if !estaPagado {
        FijarEstado(c.prestamoId, Activo);
      } else {
        CerrarSiSaldado(c.prestamoId);
      }
      r := Ok(());
    }

    /** `eliminarPrestamo`: in one transaction, the loan's log entries, its installments
        and the loan itself. */
    method EliminarPrestamo(prestamoId: nat) returns (r: Resultado<()>)
      requires Valid()
      modifies this`prestamos, this`cuotas, this`pagos
      ensures Valid()
      ensures r.Falla? <==> prestamoId !in old(prestamos)
      ensures r.Falla? ==> r.motivo == PrestamoNoEncontrado && unchanged(this)
      ensures r.Ok? ==>
        && prestamos == old(prestamos) - {prestamoId}
        && cuotas == SinCuotasDe(old(cuotas), prestamoId)
        && pagos == SinPrestamo(old(pagos), prestamoId)
        && clientes == old(clientes) && sigCuota == old(sigCuota)
      ensures NoCrece(old(cuotas), cuotas)
      ensures old(Coherente()) ==> Coherente()
    {
      // A missing loan makes the last delete throw and the transaction roll back.
      if prestamoId !in prestamos {
        return Falla(PrestamoNoEncontrado);
      }
      SinPrestamoFiltra(pagos, prestamoId);
      ghost var coherente := Coherente();
      pagos := SinPrestamo(pagos, prestamoId);
      cuotas := SinCuotasDe(cuotas, prestamoId);
      prestamos := prestamos - {prestamoId};
      assert forall i :: 0 <= i < |pagos| ==> pagos[i] in pagos;
      if coherente {
        BajaCoherente(old(prestamos), old(cuotas), prestamoId);
      }
      r := Ok(());
    }

    /** `actualizarPrestamo`: move the loan to the client with the given name and, when a
        start date is given and nothing is paid yet, replace its whole schedule with the
        lib generator's, in one transaction. With a paid installment only an unchanged
        date is accepted. */
    method ActualizarPrestamo(prestamoId: nat, nombreCliente: string, nuevaFecha: Option<int>) returns (r: Resultado<()>)
      requires Valid()
      modifies this`prestamos, this`cuotas, this`sigCuota
      ensures Valid()
      ensures r.Falla? ==> unchanged(this)
      ensures prestamoId !in old(prestamos) ==> r == Falla(PrestamoNoEncontrado)
      ensures (prestamoId in old(prestamos) && nombreCliente != []
               && BuscarCliente(old(clientes), nombreCliente, None, 0, old(sigCliente)).None?) ==> r == Falla(ClienteNoExiste)
      ensures r == Falla(FechaConCuotasPagadas) <==>
        && prestamoId in old(prestamos)
        && (nombreCliente == [] || BuscarCliente(old(clientes), nombreCliente, None, 0, old(sigCliente)).Some?)
        && nuevaFecha.Some? && HayPagadas(old(cuotas), prestamoId)
        && nuevaFecha.value != old(prestamos[prestamoId].fechaInicio)
      ensures r.Ok? <==>
        && prestamoId in old(prestamos)
        && (nombreCliente == [] || BuscarCliente(old(clientes), nombreCliente, None, 0, old(sigCliente)).Some?)
        && !(nuevaFecha.Some? && HayPagadas(old(cuotas), prestamoId)
             && nuevaFecha.value != old(prestamos[prestamoId].fechaInicio))
      ensures r.Ok? ==>
        var p := old(prestamos[prestamoId]);
        var clienteId := if nombreCliente == [] then p.clienteId
                         else BuscarCliente(old(clientes), nombreCliente, None, 0, old(sigCliente)).value;
        && clientes == old(clientes) && pagos == old(pagos)
        && if nuevaFecha.Some? && !HayPagadas(old(cuotas), prestamoId) then
             var plan := Reprogramado(p, nuevaFecha.value);
             && prestamos == old(prestamos)[prestamoId := p.(clienteId := clienteId, fechaInicio := nuevaFecha.value)]
             && cuotas == SinCuotasDe(old(cuotas), prestamoId) + CuotasNuevas(old(sigCuota), prestamoId, plan)
             && sigCuota == old(sigCuota) + |plan|
           else
             && prestamos == old(prestamos)[prestamoId := p.(clienteId := clienteId)]
             && cuotas == old(cuotas) && sigCuota == old(sigCuota)
      ensures NoCrece(old(cuotas), cuotas)
      ensures old(Coherente()) ==> Coherente()
    {
      if prestamoId !in prestamos {
        return Falla(PrestamoNoEncontrado);
      }
      var prestamo := prestamos[prestamoId];

      // 1. The client, looked up by name alone.
      var nuevoClienteId := prestamo.clienteId;
      if nombreCliente != [] {
        var cliente := BuscarCliente(clientes, nombreCliente, None, 0, sigCliente);
        if cliente.Some? {
          nuevoClienteId := cliente.value;
        } else {
          return Falla(ClienteNoExiste);
        }
      }

      // 2. The start date.
      if nuevaFecha.Some? {
        var hayPagos := HayPagadas(cuotas, prestamoId);
        if hayPagos {
          if nuevaFecha.value != prestamo.fechaInicio {
            return Falla(FechaConCuotasPagadas);
          }
        } else {
          var cronograma := FinanzasLib.GenerarCronograma(prestamo.montoCapital, prestamo.interesPorcentaje,
                                                          prestamo.frecuencia, prestamo.plazo, nuevaFecha, nuevaFecha.value);
          Reprogramar(prestamoId, prestamo.(clienteId := nuevoClienteId, fechaInicio := nuevaFecha.value), cronograma.cuotas);
          return Ok(());
        }
      }

      if Coherente() {
        EdicionCoherente(prestamos, cuotas, prestamoId, prestamo.(clienteId := nuevoClienteId));
      }
      prestamos := prestamos[prestamoId := prestamo.(clienteId := nuevoClienteId)];
      r := Ok(());
    }

    /** The rescheduling transaction: drop the loan's installments, update the loan and
        insert the new schedule under fresh ids. */
    method Reprogramar(l: nat, p: Prestamo, plan: seq<CuotaPlan>)
      requires Valid()
      requires l in prestamos && p.clienteId in clientes && p.estado == prestamos[l].estado
      requires !HayPagadas(cuotas, l)
      modifies this`prestamos, this`cuotas, this`sigCuota
      ensures Valid()
      ensures prestamos == old(prestamos)[l := p]
      ensures cuotas == SinCuotasDe(old(cuotas), l) + CuotasNuevas(old(sigCuota), l, plan)
      ensures sigCuota == old(sigCuota) + |plan|
      ensures NoCrece(old(cuotas), cuotas)
      ensures old(Coherente()) ==> Coherente()
    {
      var restantes := SinCuotasDe(cuotas, l);
      ReprogramacionValida(clientes, prestamos, cuotas, pagos, sigCliente, sigPrestamo, sigCuota, l, p, plan);
      if Coherente() {
        ReprogramacionCoherente(prestamos, cuotas, l, p, plan, sigCuota);
      }
      prestamos := prestamos[l := p];
      cuotas := restantes + CuotasNuevas(sigCuota, l, plan);
      sigCuota := sigCuota + |plan|;
    }
  }
}
