/** The rows the loan engine stores: clients, loans, installments and the payment log. */
module Modelo {
  import opened Comun

  /** Loan status. CANCELADO exists in the data but no action of the engine writes it. */
  datatype EstadoPrestamo = Activo | Pendiente | Finalizado | Refinanciado | Cancelado

  /** Kind of a payment-log entry: CUOTA, ANULACION or CORRECCION. */
  datatype TipoPago = PagoCuota | Anulacion | Correccion

  /** The note the engine writes on a log entry, as structured data. */
  datatype Nota =
    | Abono(numeroCuota: int)
    | Descuento(esperadoAntes: real, pagadoAhora: real)
    | PagoInicialRefinanciamiento
    | PagoAnulado(numeroCuota: int)
    | CorreccionManual(numeroCuota: int, desde: real, hasta: real)

  datatype Cliente = Cliente(nombre: string, telefono: string, usuarioId: int)

  /** A loan. `plazo` holds the number of installments. */
  datatype Prestamo = Prestamo(
    clienteId: nat,
    montoCapital: real,
    interesPorcentaje: real,
    frecuencia: Frecuencia,
    plazo: int,
    fechaInicio: int,
    moraDiaria: real,
    estado: EstadoPrestamo)

  datatype Cuota = Cuota(
    prestamoId: nat,
    numero: int,
    fechaVencimiento: int,
    montoEsperado: real,
    montoPagado: real,
    estado: EstadoCuota)

  /** An entry of the append-only payment log; `monto` is signed. */
  datatype Pago = Pago(prestamoId: nat, monto: real, fecha: int, tipo: TipoPago, nota: Nota)

  /** Rounding tolerance: an installment counts as paid 0.10 short of what is expected. */
  const Margen: real := 0.1

  /** The rule both payment actions use to mark an installment PAGADO. */
  predicate Cubierta(pagado: real, esperado: real)
  {
    pagado >= esperado - Margen
  }

  /** The loan statuses the dashboards treat as live: ACTIVO and PENDIENTE. */
  predicate EnCurso(e: EstadoPrestamo)
  {
    e == Activo || e == Pendiente
  }
}
