# prestamos-app loan engine, in Dafny

A model of the loan engine of *prestamos-app*, a small money-lending application.
A lender registers clients and their loans. Each loan has installments (`cuota`).
Payments go into an append-only log (`pago`). The dashboards read all of this back.

The model covers:

- **The server actions** of `app/actions.ts`: create a loan, apply a payment,
  refinance, reverse a payment, correct a payment, delete a loan, edit a loan.
  - They are the methods of one class, `Acciones.Cartera`.
  - It holds the four tables as fields: clients, loans and installments as maps keyed
    by auto-increment id, and the payment log as a `seq`.
  - Each action validates first, then writes in the source's order: log entry,
    installment, loan status.
- **The two copies of the schedule generator**, `lib/finance.ts` (`FinanzasLib`) and
  `utils/finance.ts` (`FinanzasUtils`):
  - round an installment up to the next 0.50;
  - add days to a date;
  - build a schedule from a duration in *months*.
- **The home dashboard** of `app/page.tsx` (`Tablero`):
  - the agenda grouped by loan;
  - its split into overdue and upcoming;
  - the money still out and the number of clients owing.
- **The payment button** of `components/BotonCobrar.tsx` (`Cobro`): the late fee and
  the early-payment discount.
- **The new-loan preview** of `components/FormularioPrestamo.tsx` (`Formulario`).
- **The cash report** of `app/caja/page.tsx` (`Caja`).

Shared definitions live in `Comun` and `Modelo`: the frequency table,
day-proportional interest, the schedule shape, the entities and the 0.10 paid
tolerance. `Sumas` holds sums over id-keyed tables.

Modelling conventions:

- **Money** is `real`.
- **Dates** are integer day numbers. The noon normalisations in the source exist only
  to keep day arithmetic exact.
- **The current date** is a parameter `hoy`.
- **`Math.ceil`** is `Comun.Techo`.
- **`toFixed(2)`** is `Comun.RedondearCentimos`: to the nearest cent, an exact half cent going away from zero (the magnitude is rounded half up and the sign put back).
- **A JavaScript division by zero** is `Importe.NoFinito`.

The invariants the actions keep:

- **Consistency** (`Cartera.Valid`): keys lie below the id counters, foreign keys
  resolve, and a PAGADO installment is covered within 0.10.
- **An installment's expected amount never grows** (`NoCrece`): it compares only the installment ids that survive the action, so a reschedule, which replaces the rows, is outside it.
- **Loan closure** (`Cartera.Coherente`): a FINALIZADO loan has installments, and all
  of them are paid.
  - `registrarPago` and `anularPago` take the loan id from the form, apart from the
    installment id. The closure invariant is preserved only when the two agree.
  - When they disagree, the payment lands on the installment's own loan, but
    `registrarPago` counts the pending installments of the form's loan. It can close the form's loan when that loan has no installments at all (an
    empty pending count is 0), leaving a FINALIZADO loan without paid installments.
    Whenever it closes a loan, every installment of that loan is PAGADO.
  - `anularPago` reopens the form's loan and resets the installment of another loan,
    which may be FINALIZADO and then holds a PENDIENTE installment.

The methods of `Cartera` state their new tables outright. The per-loan totals those
tables imply are lemmas on the table values:

- `EsperadoDelAlta` and `AltaDeCuotas` for a new loan;
- `CambioDeCuota` for an installment update;
- `TotalRegistradoAgregar` for a log entry;
- `SinCuotasDeTotales` and `SinPrestamoFiltra` for a deletion.

The log-versus-paid balance (`Acciones.Descuadre`) is tracked per loan by
`PagoCuadra`, `CorreccionCuadra`, `AnulacionDescuadra`, `RefinanciamientoDescuadra` and
`ReprogramacionDescuadra`:

- a payment keeps it;
- a correction keeps it;
- a reversal moves it by `montoPagado − montoEsperado`;
- a refinance moves the old loan's balance by `pagoHoy` when that is positive, since
  the entry is logged without touching an installment;
- a reschedule moves it by everything paid on the dropped installments. Only PAGADO
  installments block a reschedule, so a partly paid PENDIENTE one can be dropped.

## Model

| member | source | states |
|---|---|---|
| Comun.Dividir | lib/finance.ts:50 | a quotient is finite exactly when the divisor is non-zero |
| Comun.Techo | lib/finance.ts:5 | `Math.ceil`: an integer not below `x` and less than one above it |
| Comun.TechoEsMinimo | lib/finance.ts:5 | the ceiling is the least integer not below `x` |
| Comun.RedondearCentimos | components/BotonCobrar.tsx:61 | `toFixed(2)`: a whole number of cents within half a cent of `x`, an exact half cent going up for `x ≥ 0` and down for `x < 0` (away from zero); the two half-open windows fix the result uniquely |
| Comun.CentimosSimetricos | components/BotonCobrar.tsx:61 | `toFixed` is odd in the sign: rounding `-x` gives minus the rounding of `x` |
| Comun.DiasPorCuota | app/actions.ts:61-64 | days per installment are at least 1, and exactly 1 for every frequency other than SEMANAL, QUINCENAL and MENSUAL |
| Comun.InteresPorMeses | app/actions.ts:71 | day-proportional interest over 30·m days is m months of the monthly rate |
| Comun.CalendarioExtiende | app/actions.ts:106-119 | one more loop pass appends entry n+1, due (n+1) intervals after the start |
| Comun.CalendarioEspaciado | app/actions.ts:104-119 | the first due date is one interval after the start, and each later one is one interval after its predecessor |
| Comun.SumaCalendario | app/actions.ts:115-119 | n equal installments collect exactly n times the installment |
| FinanzasLib.RedondearEspecial | lib/finance.ts:4-6 | `x ≤ r < x + 0.5`, and `2r` is an integer |
| FinanzasLib.RedondearEsMinimo | lib/finance.ts:4-6 | the result is the least half-unit not below `x` |
| FinanzasLib.RedondearIdempotente | lib/finance.ts:4-6 | rounding twice is rounding once |
| FinanzasLib.SumarDias | lib/finance.ts:9-13 | the new date is exactly `diasASumar` days after the base, and the base is a value that is not changed |
| FinanzasLib.GenerarCronograma | lib/finance.ts:16-74 | the loop builds the schedule `Plan` from `fechaInicio`, or from today when it is absent |
| FinanzasLib.TablaDeFrecuencias | lib/finance.ts:27-47 | for DIARIO/SEMANAL/QUINCENAL/MENSUAL, the count is months·{30,4,2,1} and entry i is due start + i·{1,7,15,30} |
| FinanzasLib.EntradasUniformes | lib/finance.ts:63-71 | entries are numbered 1..n and all carry the rounded installment |
| FinanzasLib.TotalRealAcotado | lib/finance.ts:24-56 | `totalReal` lies in `[monto + interest, monto + interest + 0.5·n)` and equals the schedule's sum |
| FinanzasLib.PlanDeAcotado | lib/finance.ts:49-71 | for a positive count, the real total of a schedule lies in `[totalPagar, totalPagar + 0.5·n)` and is the sum of its entries |
| FinanzasLib.TotalRealDe | lib/finance.ts:50-71 | n entries of the share rounded up to 0.50 cover `totalPagar` by less than 0.5·n, and sum to the share times n |
| FinanzasLib.InteresDelPlan | lib/finance.ts:24 | the plan's `interesTotal` is `duracionMeses` months of the day-proportional interest at the same monthly rate |
| FinanzasLib.CotaTotalReal | lib/finance.ts:50-56 | rounding the share up to 0.50 and multiplying back by n overshoots by less than 0.5·n |
| FinanzasLib.InteresSinRedondear | lib/finance.ts:73 | the returned `interesTotal` is `monto·tasa·meses/100`, unrounded, and at most `totalReal − monto` |
| FinanzasLib.PlanVacio | lib/finance.ts:27-56 | an unknown frequency or a non-positive duration gives no entries, with a non-finite amount when the count is 0 |
| FinanzasUtils.RedondearEspecial | utils/finance.ts:4-8 | `x ≤ r < x + 0.5`, and `2r` is an integer |
| FinanzasUtils.SumarDias | utils/finance.ts:12-16 | the new date is exactly `diasASumar` days after the base |
| FinanzasUtils.GenerarCronograma | utils/finance.ts:19-87 | the loop builds `Plan` from today |
| FinanzasUtils.EntradasExtiende | utils/finance.ts:65-75 | one more loop pass appends the PENDIENTE entry n+1 |
| FinanzasUtils.ResumenCubreDeuda | utils/finance.ts:54-84 | `resumen.totalPagar ≥ monto + interest`, `interesGanado = totalPagar − monto`, and `numeroCuotas` is the schedule's length |
| FinanzasUtils.EntradasDesdeHoy | utils/finance.ts:63-75 | entry i is PENDIENTE, numbered i+1, due (i+1) intervals after today, with the same amount as every other entry |
| FinanzasUtils.CopiasCoinciden | utils/finance.ts:19-87 | the two generator copies agree on entries, count and total, but report interest differently |
| Acciones.TotalRegistradoAgregar | app/actions.ts:187-197 | appending a log entry adds its amount to its own loan's log total only |
| Acciones.SinPrestamoFiltra | app/actions.ts:412 | deleting a loan's log entries keeps every other entry and every other loan's total, and leaves that loan's total 0 |
| Acciones.EsperadoDeCuotasNuevas | app/actions.ts:132-138 | the nested installment create gives the loan the plan's expected amounts |
| Acciones.BuscarCliente | app/actions.ts:83-88 | `findFirst`: a client matching name (and user), the lowest-id one, and none when no client matches |
| Acciones.ArmarCuotas | app/actions.ts:99-120 | the loop builds installments 1..n due every `diasPorCuota` days after the start, or none for n ≤ 0 |
| Acciones.CuotaIgualSumaTotal | app/actions.ts:73-120 | n unrounded shares `total/n` sum back exactly to the total |
| Acciones.AltaDeCuotas | app/actions.ts:123-141 | a new loan's installments expect the plan's sum and have nothing paid; other loans' totals are unchanged |
| Acciones.EsperadoDelAlta | app/actions.ts:66-141 | a loan created with n equal shares of `monto + proportional interest` expects exactly that total and has nothing paid |
| Acciones.SinEntradasDeNuevo | app/actions.ts:123-141 | a loan id not yet used has no log entries |
| Acciones.AltaValida | app/actions.ts:123-141 | inserting a loan of an existing client with its schedule keeps the tables consistent |
| Acciones.CambioDeCuota | app/actions.ts:200-207 | updating one installment moves its loan's paid and expected totals by the change, and no other loan's |
| Acciones.CuotaTrasPago | app/actions.ts:173-207 | paid grows by the amount; expected falls (to paid) exactly when settling short; PAGADO iff covered within 0.10; settling always pays |
| Acciones.PagoAplicado | app/actions.ts:168-207 | `registrarPago` refuses an amount that is not positive, and otherwise applies `CuotaTrasPago` |
| Acciones.CuotaAnulada | app/actions.ts:380-386 | a reversed installment has nothing paid, is PENDIENTE, and keeps its expected amount |
| Acciones.CuotaCorregida | app/actions.ts:524-534 | a corrected installment has the new paid amount, the same expected amount, and is PAGADO iff covered within 0.10 |
| Acciones.DescuadreTrasCambio | app/actions.ts:186-207 | one log entry plus one installment update move a loan's log-minus-paid balance by the entry less the paid change |
| Acciones.PagoCuadra | app/actions.ts:186-207 | a payment logged on the installment's own loan keeps every loan's log total in step with its paid total |
| Acciones.CorreccionCuadra | app/actions.ts:513-534 | a correction logs exactly the paid change, so no loan's balance drifts |
| Acciones.AnulacionDescuadra | app/actions.ts:369-386 | a reversal moves the balance by `pagado − esperado`, so it stays in step iff the two were equal |
| Acciones.RefinanciamientoDescuadra | app/actions.ts:268-320 | the refinance moves the old loan's log-minus-paid balance by `pagoHoy` when positive and by nothing otherwise; the new loan starts at 0; no other loan moves |
| Acciones.ReprogramacionDescuadra | app/actions.ts:464-481 | rescheduling moves the loan's balance up by the paid total of the installments it drops; no other loan moves |
| Acciones.CierreCoherente | app/actions.ts:209-216 | closing a loan exactly when all its installments are paid keeps FINALIZADO loans fully paid |
| Acciones.ReaperturaCoherente | app/actions.ts:388-392 | setting the installment's loan ACTIVO after unpaying it keeps FINALIZADO loans fully paid |
| Acciones.RefinanciamientoCoherente | app/actions.ts:268-300 | marking the old loan REFINANCIADO and inserting the new one with its schedule keeps FINALIZADO loans fully paid |
| Acciones.EdicionCoherente | app/actions.ts:489-493 | changing a loan's client without touching its status keeps FINALIZADO loans fully paid |
| Acciones.NoCreceCambio | app/actions.ts:174-181 | an update that does not raise the expected amount keeps every expected amount from growing |
| Acciones.SaldoEsDiferencia | app/actions.ts:245-247 | the unclamped debt Σ(esperado − pagado) is Σesperado − Σpagado |
| Acciones.SinCuotasDeTotales | app/actions.ts:411-415 | deleting a loan's installments zeroes its totals and keeps every other loan's |
| Acciones.ReprogramacionUsaPlazoComoMeses | app/actions.ts:456-462 | rescheduling treats the stored installment count as months: plazo·{30,4,2,1} entries, equal to plazo only for MENSUAL |
| Acciones.ReprogramacionCobraMeses | app/actions.ts:456-462 | the rescheduled plan collects at least the capital plus 30·plazo days of interest, whatever the frequency |
| Acciones.AltaCoherente | app/actions.ts:123-141 | a new loan with a schedule keeps FINALIZADO loans fully paid |
| Acciones.BajaCoherente | app/actions.ts:411-415 | deleting a loan with its installments keeps FINALIZADO loans fully paid |
| Acciones.ReprogramacionValida | app/actions.ts:464-481 | replacing a loan's schedule keeps the tables consistent |
| Acciones.ReprogramacionCoherente | app/actions.ts:464-481 | replacing the schedule of a loan with nothing paid keeps FINALIZADO loans fully paid |
| Acciones.Cartera.PendientesCero | app/actions.ts:210-214 | the pending count is zero exactly when every installment of the loan is PAGADO |
| Acciones.Cartera.ObtenerOCrearCliente | app/actions.ts:82-97 | the first matching client of the user is reused, otherwise one is created under the next id |
| Acciones.Cartera.Alta | app/actions.ts:123-141 | the loan goes under the next id with its schedule under fresh ids; nothing else changes; tables consistent and closure kept |
| Acciones.Cartera.CrearPrestamo | app/actions.ts:49-145 | rejects, writing nothing, exactly on empty name, monto ≤ 0 or count ≤ 0; otherwise inserts the loan with `Calendario(n, start, días, total/n)` under the next ids; its client is the user's existing client of that name (clients table and counter untouched) or, when there is none, a new client `(nombre, teléfono, usuario)` under the next client id; keeps all invariants |
| Acciones.Cartera.Anotar | app/actions.ts:187-197 | `pago.create` appends one entry to the log and changes nothing else |
| Acciones.Cartera.Reemplazar | app/actions.ts:200-207 | `cuota.update` replaces one installment and nothing else |
| Acciones.Cartera.FijarEstado | app/actions.ts:214-216 | `prestamo.update` changes one loan's status and nothing else |
| Acciones.Cartera.Asentar | app/actions.ts:186-216 | log the entry, update the installment, then close its loan exactly when all its installments are PAGADO |
| Acciones.Cartera.CerrarSiSaldado | app/actions.ts:209-216 | the loan becomes FINALIZADO exactly when all its installments are PAGADO, and otherwise nothing changes |
| Acciones.Cartera.RegistrarPago | app/actions.ts:158-219 | the error cases in order; the installment becomes `CuotaTrasPago`, as `PagoAplicado` says, and the payment succeeds whenever that accepts it; one `+monto` entry is logged on the form's loan; that loan is FINALIZADO iff all its installments are paid and is never reopened; expected amounts never grow |
| Acciones.Cartera.ProcesarRenovacion | app/actions.ts:223-324 | old loan REFINANCIADO; new loan for the same client with capital = unclamped old debt − pagoHoy + aumento, scheduled from today, expected total by the server formula; `+pagoHoy` logged on the old loan iff positive |
| Acciones.Cartera.Refinanciar | app/actions.ts:268-320 | the three writes of the refinance: old loan REFINANCIADO, new loan and schedule under fresh ids, `+pagoHoy` logged iff positive; invariants kept |
| Acciones.Cartera.AnularPago | app/actions.ts:362-396 | logs −montoEsperado; resets the installment to nothing paid, PENDIENTE; sets the form's loan ACTIVO whatever its status |
| Acciones.Cartera.CorregirPago | app/actions.ts:500-562 | nothing changes for a zero difference; otherwise logs the difference, sets the paid amount, re-derives PAGADO against the unchanged expected amount, and reopens or closes the loan; closure invariant kept |
| Acciones.Cartera.EliminarPrestamo | app/actions.ts:403-419 | removes the loan, all its installments and all its log entries together, and nothing else |
| Acciones.Cartera.ActualizarPrestamo | app/actions.ts:421-497 | errors for a missing loan or client; a changed date is refused iff an installment is PAGADO; succeeds exactly when none of the three refusals applies; otherwise the whole schedule is replaced by the lib generator's (plazo read as months); else only the client changes (schedule and installment counter untouched) |
| Acciones.Cartera.Reprogramar | app/actions.ts:464-481 | the transaction: installments replaced, loan updated, other loans untouched, all invariants kept |
| Tablero.Primero | app/page.tsx:79-87 | the position of the first item of a loan in the agenda |
| Tablero.AgruparPorPrestamo | app/page.tsx:72-91 | one group per loan id that appears, keyed by its id, with that loan's debt Σ(esperado − pagado) and its item count |
| Tablero.AgruparPrimero | app/page.tsx:79-87 | a group carries the client name and due date of its loan's first item |
| Tablero.FechaMasTemprana | app/page.tsx:37-87 | with the agenda sorted by due date, a group's date is its loan's earliest |
| Tablero.Cota | app/page.tsx:93 | a bound above every loan id in the list |
| Tablero.ValoresOrdenados | app/page.tsx:93 | `Object.values` lists the groups strictly ascending by loan id, each exactly once |
| Tablero.TotalesDeGrupos | app/page.tsx:75-91 | the groups' counts sum to the list's length and their debts to the list's total debt |
| Tablero.AgruparDeudas | app/page.tsx:72-94 | the loop yields exactly `GruposDe(lista)`, the groups the properties below are proved of |
| Tablero.GruposOrdenados | app/page.tsx:93 | the groups come strictly ascending by loan id |
| Tablero.GruposDeLaAgenda | app/page.tsx:75-91 | every group is of a loan in the list, with that loan's debt Σ(esperado − pagado) and item count |
| Tablero.CadaPrestamoAgrupado | app/page.tsx:75-87 | every item's loan has a group |
| Tablero.GruposSuman | app/page.tsx:75-91 | the groups' counts sum to the list's length and their debts to the list's total debt |
| Tablero.Primeros5 | app/page.tsx:129 | `.slice(0, 5)`: the first min(5, n) groups |
| Tablero.PorVencerMenoresIds | app/page.tsx:93-129 | the upcoming panel keeps the five lowest loan ids, not the five soonest due |
| Tablero.Particion | app/page.tsx:119-126 | every agenda item lands in exactly one of overdue (< today) and upcoming (≥ today) |
| Tablero.SoloEnCurso | app/page.tsx:16 | the query keeps exactly the ACTIVO and PENDIENTE loans |
| Tablero.SoloEnCursoCuenta | app/page.tsx:16 | each live loan is kept as many times as it occurs, any other loan not at all |
| Tablero.SoloEnCursoConcatena | app/page.tsx:16 | the filter keeps order: filtering a concatenation concatenates the filtered parts |
| Tablero.Cargar | app/page.tsx:12-21 | each client keeps its position, with only its live loans |
| Tablero.SaldoPorCuotas | app/page.tsx:109-111 | a loan's Σesperado − Σpagado is the sum of its installments' balances |
| Tablero.SaldoNoNegativo | app/page.tsx:109-111 | with no installment overpaid, a loan's balance is not negative |
| Tablero.CapitalClienteNoNegativo | app/page.tsx:108-112 | with no installment overpaid, a client's debt is not negative |
| Tablero.CapitalEnCalleNoNegativo | app/page.tsx:107-113 | with no installment overpaid, the money out is not negative |
| Tablero.ClientesConDeudaEnCurso | app/page.tsx:106 | after the query's filter, `clientesConDeuda` counts exactly the clients with a live loan |
| Cobro.CobrarDeudaSalda | components/BotonCobrar.tsx:21-22 | `registrarPago` accepts the offered amount exactly when something is owed, and then the installment is PAGADO with paid = expected |
| Cobro.DiasEnteros | components/BotonCobrar.tsx:34-42 | with both dates at noon, `ceil(ms / day)` is the whole-day difference |
| Cobro.TechoEntero | components/BotonCobrar.tsx:42 | the ceiling of a whole number is itself |
| Cobro.ExtraSimetrico | components/BotonCobrar.tsx:46-55 | the extra is \|días\|·rate, the same early as late, and not negative for a non-negative rate |
| Comun.MedioCentimo | components/BotonCobrar.tsx:61 | an exact half cent goes away from zero: 1.125 rounds to 1.13 and −1.125 to −1.13 |
| Cobro.AplicarMora | components/BotonCobrar.tsx:60-62 | the amount plus the fee to a whole cent, within half a cent, an exact half cent going away from zero (−1.125 gives −1.13) |
| Cobro.CentimosNoNegativos | components/BotonCobrar.tsx:67 | rounding a positive amount to the cent never gives a negative one |
| Cobro.AplicarDescuento | components/BotonCobrar.tsx:65-69 | the amount is never negative: 0 when the discount covers the debt, otherwise the debt less the discount within half a cent; settling is switched on |
| Cobro.DescuentoCierraCuota | components/BotonCobrar.tsx:65-69 | an accepted payment after the discount closes the installment, lowering its expected amount when the discount exceeds half a cent; the 0 left when the discount covers the debt is refused, and at least half a cent left is accepted |
| Cobro.OfertasExcluyentes | components/BotonCobrar.tsx:101-118 | the fee is offered only when late, the discount only when early, never both; on the due date neither, with a zero extra |
| Formulario.DiasComoServidor | components/FormularioPrestamo.tsx:21-24 | the form's days-per-installment table is the server's |
| Formulario.RedondearDecimas | components/FormularioPrestamo.tsx:46 | `toFixed(1)`: within half a tenth, and a whole number of tenths |
| Formulario.VistaComoServidor | components/FormularioPrestamo.tsx:27-34 | the preview's earnings, total and installment are the ones `crearPrestamo` stores, and the installment is non-finite for 0 installments; the duration line is read off the same days |
| Formulario.MoraPorDia | components/FormularioPrestamo.tsx:39 | earnings over the duration are `monto·interes/3000` per day |
| Formulario.MoraSugerida | components/FormularioPrestamo.tsx:39-42 | the suggested fee is `monto·interes/3000` to the cent, independent of count and frequency, or 0 without a duration |
| Formulario.MoraDeLaVista | components/FormularioPrestamo.tsx:39-42 | the suggested fee is the loan's earnings per day of its duration, to the cent |
| Formulario.TextoDeTiempo | components/FormularioPrestamo.tsx:45-46 | a duration of d days reads as d days up to 30; beyond that as months, at least 1 and within half a tenth of d/30 |
| Caja.CobradoSinAnulaciones | app/caja/page.tsx:21-24 | collected = whole log − ANULACION entries; corrections count with their sign |
| Caja.VentanaCompleta | app/caja/page.tsx:37-43 | a month window holding every entry collects the report's total |
| Caja.InteresDeUnMes | app/caja/page.tsx:31-34 | the projected interest is 30 days of the engine's interest per loan |
| Caja.InteresIgnoraPlazoYEstado | app/caja/page.tsx:27-34 | projected interest depends only on capitals and rates, not on term or status |
| Caja.DeudaExigible | app/caja/page.tsx:63-66 | the outstanding total is the unclamped figure when positive and 0 otherwise |
| Caja.Activos | app/caja/page.tsx:52 | exactly the ACTIVO and PENDIENTE loans |
| Caja.ActivosCuenta | app/caja/page.tsx:52 | each ACTIVO or PENDIENTE loan is kept as many times as it occurs, any other loan not at all |
| Caja.ActivosConcatena | app/caja/page.tsx:52 | the filter keeps order: filtering a concatenation concatenates the filtered parts |
| Caja.ReporteVacio | app/caja/page.tsx:55-66 | with no loans and no payments, nothing is owed and the flow is 0 |
| Caja.DeudaExigibleAcotada | app/caja/page.tsx:55-66 | the outstanding total is at least lent + 30 days of interest − (log without reversals) |
| Caja.CobradoTrasAsiento | app/caja/page.tsx:21-24 | a new entry adds its signed amount to what was collected, unless it is a reversal |

## Left out

- **Authentication and sessions** (`verificarSesion`, `registro`, `login`, `cerrarSesion`): the user id is a parameter.
- **Other actions in app/actions.ts**: `actualizarCliente`, `agregarNota`, `eliminarNota` and `eliminarCliente` are client and note housekeeping outside the loan engine.
- **Framework plumbing**: `revalidatePath`, `redirect` and `FormData` parsing are not modelled. The actions take typed parameters. `Number()` of a missing field is not modelled. An unknown frequency string is `Frecuencia.Otra`.
- **Prisma and concurrency**: queries are operations on the in-memory maps and log. Interleaved actions are not modelled. A database failure between two non-transactional writes is not modelled: every check that can fail comes before the first write.
- **Loan status at creation**: the Prisma schema is not part of this model. A created loan is taken to start ACTIVO, the value the dashboards treat as live.
- **Log notes** are the structured `Nota`, not the formatted text.
- **Dates and time zones**: dates are day numbers. Not modelled:
  - UTC midnight versus local noon for date-only strings;
  - the `getTime()` comparison in `actualizarPrestamo`;
  - daylight-saving shifts under `Math.ceil` in the payment button.
- **Log dates in `anularPago` and `corregirPago`**: the dates the database fills in are the parameter `hoy`.
- **Calendar months in the cash report** are the parameters `inicioMes` and `finMes`. The 23:59:59 end of the last day is not modelled.
- **Binary floating point**: `toFixed` is rounding on exact reals (magnitude half up, sign put back). `Decimal`/`Number` conversions and `toLocaleString` are not modelled.
- **Acciones.BuscarCliente**: `findFirst` without `orderBy` leaves unspecified which matching client comes back. Taking the lowest id is a choice of the model.
- **Client lookup in `actualizarPrestamo`**: the source's `findUnique` by name is the first client with that name, over all users.
- **Rendering and UI state**: JSX, `useState` and the open/closed form are not modelled. The computed values are function results.
- **Acciones.Cartera.ProcesarRenovacion**: with 0 new installments, the source's per-installment amount is NaN or Infinity. The model uses 0, which no entry ever carries.
