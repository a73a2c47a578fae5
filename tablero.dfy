/** The home dashboard of app/page.tsx: the agenda of unpaid installments grouped by
    loan, its split into overdue and upcoming, and the two headline figures. */
module Tablero {
  import opened Comun
  import opened Modelo

  /** One agenda row: a PENDIENTE installment of a live loan, with its client's name. */
  datatype ItemAgenda = ItemAgenda(
    id: nat,
    numero: int,
    fechaVencimiento: int,
    montoEsperado: real,
    montoPagado: real,
    clienteNombre: string,
    prestamoId: nat,
    frecuencia: Frecuencia)

  /** What the dashboard shows for one loan: its first due date, debt and installment count. */
  datatype GrupoDeuda = GrupoDeuda(
    prestamoId: nat,
    clienteNombre: string,
    fechaVencimiento: int,
    totalDeuda: real,
    cantidadCuotas: nat)

  function Deuda(item: ItemAgenda): real
  {
    item.montoEsperado - item.montoPagado
  }

  // ---------------------------------------------------------------------------
  // Grouping: the dictionary the loop builds, as a fold over the list
  // ---------------------------------------------------------------------------

  /** The dictionary after the loop has seen every item of `lista`. */
  function Agrupar(lista: seq<ItemAgenda>): map<nat, GrupoDeuda>
  {
    if |lista| == 0 then map[]
    else
      var grupos := Agrupar(lista[..|lista| - 1]);
      var item := lista[|lista| - 1];
      var k := item.prestamoId;
      var g := if k in grupos then grupos[k]
               else GrupoDeuda(item.prestamoId, item.clienteNombre, item.fechaVencimiento, 0.0, 0);
      grupos[k := g.(totalDeuda := g.totalDeuda + Deuda(item), cantidadCuotas := g.cantidadCuotas + 1)]
  }

  /** Debt of the items of loan `k`. */
  function DeudaDe(lista: seq<ItemAgenda>, k: nat): real
  {
    if |lista| == 0 then 0.0
    else DeudaDe(lista[..|lista| - 1], k) + (if lista[|lista| - 1].prestamoId == k then Deuda(lista[|lista| - 1]) else 0.0)
  }

  /** Number of items of loan `k`. */
  function CuentaDe(lista: seq<ItemAgenda>, k: nat): nat
  {
    if |lista| == 0 then 0
    else CuentaDe(lista[..|lista| - 1], k) + (if lista[|lista| - 1].prestamoId == k then 1 else 0)
  }

  /** Debt of every item. */
  function DeudaTotal(lista: seq<ItemAgenda>): real
  {
    if |lista| == 0 then 0.0 else DeudaTotal(lista[..|lista| - 1]) + Deuda(lista[|lista| - 1])
  }

  /** Position of the first item of loan `k`, or `|lista|` when there is none. */
  function Primero(lista: seq<ItemAgenda>, k: nat): (r: nat)
    ensures r <= |lista|
    ensures forall j :: 0 <= j < r ==> lista[j].prestamoId != k
    ensures r < |lista| ==> lista[r].prestamoId == k
  {
    if |lista| == 0 then 0
    else if lista[0].prestamoId == k then 0
    else 1 + Primero(lista[1..], k)
  }

  /** The dictionary has a group for exactly the loans that appear, each keyed by its
      own loan id, with that loan's debt and item count. */
  lemma {:induction false} AgruparPorPrestamo(lista: seq<ItemAgenda>)
    ensures forall k :: k in Agrupar(lista) <==> exists i :: 0 <= i < |lista| && lista[i].prestamoId == k
    ensures forall k :: k in Agrupar(lista) ==>
      && Agrupar(lista)[k].prestamoId == k
      && Agrupar(lista)[k].totalDeuda == DeudaDe(lista, k)
      && Agrupar(lista)[k].cantidadCuotas == CuentaDe(lista, k) > 0
  {
    if |lista| > 0 {
      var previa := lista[..|lista| - 1];
      AgruparPorPrestamo(previa);
      forall k ensures k in Agrupar(lista) <==> exists i :: 0 <= i < |lista| && lista[i].prestamoId == k {
        if exists i :: 0 <= i < |lista| && lista[i].prestamoId == k {
          var i :| 0 <= i < |lista| && lista[i].prestamoId == k;
          if i < |previa| {
            assert previa[i].prestamoId == k;
          }
        }
        if k in Agrupar(previa) {
          var i :| 0 <= i < |previa| && previa[i].prestamoId == k;
          assert lista[i].prestamoId == k;
        }
      }
      var k := lista[|lista| - 1].prestamoId;
      if k !in Agrupar(previa) {
        AusenteSinDeuda(previa, k);
      }
    }
  }

  /** A loan whose items never appear has no debt and no count. */
  lemma {:induction false} AusenteSinDeuda(lista: seq<ItemAgenda>, k: nat)
    requires forall i :: 0 <= i < |lista| ==> lista[i].prestamoId != k
    ensures DeudaDe(lista, k) == 0.0 && CuentaDe(lista, k) == 0
  {
    if |lista| > 0 {
      AusenteSinDeuda(lista[..|lista| - 1], k);
    }
  }

  /** A group carries the client name and due date of the first item of its loan. */
  lemma {:induction false} AgruparPrimero(lista: seq<ItemAgenda>, k: nat)
    requires k in Agrupar(lista)
    ensures Primero(lista, k) < |lista|
    ensures Agrupar(lista)[k].fechaVencimiento == lista[Primero(lista, k)].fechaVencimiento
    ensures Agrupar(lista)[k].clienteNombre == lista[Primero(lista, k)].clienteNombre
  {
    var previa := lista[..|lista| - 1];
    AgruparPorPrestamo(lista);
    AgruparPorPrestamo(previa);
    if k in Agrupar(previa) {
      AgruparPrimero(previa, k);
      var r := Primero(previa, k);
      assert forall j :: 0 <= j <= r ==> lista[j] == previa[j];
      PrimeroEs(lista, k, r);
    } else {
      assert forall j :: 0 <= j < |previa| ==> lista[j] == previa[j];
      PrimeroEs(lista, k, |previa|);
    }
  }

  /** The first position is the one before which loan `k` does not occur. */
  lemma PrimeroEs(lista: seq<ItemAgenda>, k: nat, r: nat)
    requires r < |lista| && lista[r].prestamoId == k
    requires forall j :: 0 <= j < r ==> lista[j].prestamoId != k
    ensures Primero(lista, k) == r
  {
  }

  /** The agenda arrives sorted by due date, so the date a group shows is its loan's earliest. */
  lemma FechaMasTemprana(lista: seq<ItemAgenda>, k: nat, i: nat)
    requires forall a, b :: 0 <= a < b < |lista| ==> lista[a].fechaVencimiento <= lista[b].fechaVencimiento
    requires i < |lista| && lista[i].prestamoId == k
    ensures k in Agrupar(lista) && Agrupar(lista)[k].fechaVencimiento <= lista[i].fechaVencimiento
  {
    AgruparPorPrestamo(lista);
    AgruparPrimero(lista, k);
  }

  // ---------------------------------------------------------------------------
  // Object.values: integer-like keys come out in ascending order
  // ---------------------------------------------------------------------------

  /** The groups with key below `n`, in ascending key order (section 10.1.11.1 of
      ECMA-262 lists array-index keys first, ascending). */
  function Valores(grupos: map<nat, GrupoDeuda>, n: nat): seq<GrupoDeuda>
  {
    if n == 0 then [] else Valores(grupos, n - 1) + (if n - 1 in grupos then [grupos[n - 1]] else [])
  }

  /** One above the largest loan id of the list, so every key lies below it. */
  function Cota(lista: seq<ItemAgenda>): (r: nat)
    ensures forall i :: 0 <= i < |lista| ==> lista[i].prestamoId < r
  {
    if |lista| == 0 then 0
    else
      var c := Cota(lista[..|lista| - 1]);
      if lista[|lista| - 1].prestamoId < c then c else lista[|lista| - 1].prestamoId + 1
  }

  /** The result of `agruparDeudas(lista)`. */
  function GruposDe(lista: seq<ItemAgenda>): seq<GrupoDeuda>
  {
    Valores(Agrupar(lista), Cota(lista))
  }

  /** The values of a dictionary whose groups are keyed by their own loan id come out
      strictly ascending by id, and are exactly the groups with key below `n`. */
  lemma {:induction false} ValoresOrdenados(grupos: map<nat, GrupoDeuda>, n: nat)
    requires forall k :: k in grupos ==> grupos[k].prestamoId == k
    ensures forall i, j :: 0 <= i < j < |Valores(grupos, n)| ==> Valores(grupos, n)[i].prestamoId < Valores(grupos, n)[j].prestamoId
    ensures forall i :: 0 <= i < |Valores(grupos, n)| ==>
      var g := Valores(grupos, n)[i];
      g.prestamoId < n && g.prestamoId in grupos && grupos[g.prestamoId] == g
    ensures forall k :: k in grupos && k < n ==> grupos[k] in Valores(grupos, n)
  {
    if n > 0 {
      ValoresOrdenados(grupos, n - 1);
      var a := Valores(grupos, n - 1);
      if n - 1 in grupos {
        var v := a + [grupos[n - 1]];
        assert Valores(grupos, n) == v;
        assert forall i :: 0 <= i < |a| ==> v[i] == a[i];
        assert v[|a|].prestamoId == n - 1;
      } else {
        assert Valores(grupos, n) == a;
        assert forall i :: 0 <= i < |a| ==> a[i].prestamoId < n - 1;
      }
    }
  }

  function SumaCantidades(gs: seq<GrupoDeuda>): int
  {
    if |gs| == 0 then 0 else SumaCantidades(gs[..|gs| - 1]) + gs[|gs| - 1].cantidadCuotas
  }

  function SumaDeudas(gs: seq<GrupoDeuda>): real
  {
    if |gs| == 0 then 0.0 else SumaDeudas(gs[..|gs| - 1]) + gs[|gs| - 1].totalDeuda
  }

  /** Replacing the group under key `j` moves both sums over the values by the change. */
  lemma {:induction false} ValoresCambio(grupos: map<nat, GrupoDeuda>, n: nat, j: nat, g: GrupoDeuda)
    requires j < n
    ensures SumaCantidades(Valores(grupos[j := g], n))
            == SumaCantidades(Valores(grupos, n)) - (if j in grupos then grupos[j].cantidadCuotas else 0) + g.cantidadCuotas
    ensures SumaDeudas(Valores(grupos[j := g], n))
            == SumaDeudas(Valores(grupos, n)) - (if j in grupos then grupos[j].totalDeuda else 0.0) + g.totalDeuda
  {
    ValoresPaso(grupos, n);
    ValoresPaso(grupos[j := g], n);
    if j < n - 1 {
      ValoresCambio(grupos, n - 1, j, g);
    } else {
      ValoresIguales(grupos, grupos[j := g], n - 1);
    }
  }

  /** Key `n - 1` adds its group, if any, to both sums. */
  lemma ValoresPaso(grupos: map<nat, GrupoDeuda>, n: nat)
    requires n > 0
    ensures SumaCantidades(Valores(grupos, n))
            == SumaCantidades(Valores(grupos, n - 1)) + (if n - 1 in grupos then grupos[n - 1].cantidadCuotas else 0)
    ensures SumaDeudas(Valores(grupos, n))
            == SumaDeudas(Valores(grupos, n - 1)) + (if n - 1 in grupos then grupos[n - 1].totalDeuda else 0.0)
  {
    var a := Valores(grupos, n - 1);
    if n - 1 in grupos {
      var v := a + [grupos[n - 1]];
      assert Valores(grupos, n) == v;
      assert v[..|v| - 1] == a;
    } else {
      assert Valores(grupos, n) == a;
    }
  }

  /** Dictionaries that agree below `n` have the same values below `n`. */
  lemma {:induction false} ValoresIguales(g1: map<nat, GrupoDeuda>, g2: map<nat, GrupoDeuda>, n: nat)
    requires forall k :: k < n ==> (k in g1 <==> k in g2) && (k in g1 ==> g1[k] == g2[k])
    ensures Valores(g1, n) == Valores(g2, n)
  {
    if n > 0 {
      ValoresIguales(g1, g2, n - 1);
    }
  }

  /** Over all groups, the counts add up to the number of items and the debts to the
      debt of all items. */
  lemma {:induction false} TotalesDeGrupos(lista: seq<ItemAgenda>, n: nat)
    requires forall i :: 0 <= i < |lista| ==> lista[i].prestamoId < n
    ensures SumaCantidades(Valores(Agrupar(lista), n)) == |lista|
    ensures SumaDeudas(Valores(Agrupar(lista), n)) == DeudaTotal(lista)
  {
    if |lista| == 0 {
      ValoresVacios(n);
    } else {
      var previa := lista[..|lista| - 1];
      var item := lista[|lista| - 1];
      TotalesDeGrupos(previa, n);
      var grupos := Agrupar(previa);
      var k := item.prestamoId;
      var g := if k in grupos then grupos[k] else GrupoDeuda(item.prestamoId, item.clienteNombre, item.fechaVencimiento, 0.0, 0);
      ValoresCambio(grupos, n, k, g.(totalDeuda := g.totalDeuda + Deuda(item), cantidadCuotas := g.cantidadCuotas + 1));
    }
  }

  lemma {:induction false} ValoresVacios(n: nat)
    ensures Valores(map[], n) == []
  {
    if n > 0 {
      ValoresVacios(n - 1);
    }
  }

  /** `agruparDeudas`: one pass over the list, creating a loan's group the first time it
      is seen and adding each item's debt and a count of one to it. */
  method AgruparDeudas(lista: seq<ItemAgenda>) returns (grupos: seq<GrupoDeuda>)
    ensures grupos == GruposDe(lista)
  {
    var tabla: map<nat, GrupoDeuda> := map[];
    var i := 0;
    while i < |lista|
      invariant 0 <= i <= |lista|
      invariant tabla == Agrupar(lista[..i])
    {
      var item := lista[i];
      var key := item.prestamoId;
      var deuda := item.montoEsperado - item.montoPagado;
      if key !in tabla {
        tabla := tabla[key := GrupoDeuda(item.prestamoId, item.clienteNombre, item.fechaVencimiento, 0.0, 0)];
      }
      tabla := tabla[key := tabla[key].(totalDeuda := tabla[key].totalDeuda + deuda)];
      tabla := tabla[key := tabla[key].(cantidadCuotas := tabla[key].cantidadCuotas + 1)];
      assert lista[..i + 1][..i] == lista[..i];
      i := i + 1;
    }
    assert lista[..|lista|] == lista;
    grupos := Valores(tabla, Cota(lista));
  }

  /** `agruparDeudas` lists the groups strictly ascending by loan id. */
  lemma GruposOrdenados(lista: seq<ItemAgenda>)
    ensures forall i, j :: 0 <= i < j < |GruposDe(lista)| ==> GruposDe(lista)[i].prestamoId < GruposDe(lista)[j].prestamoId
  {
    AgruparPorPrestamo(lista);
    ValoresOrdenados(Agrupar(lista), Cota(lista));
  }

  /** Each group belongs to a loan of the list and carries that loan's debt and item count. */
  lemma GruposDeLaAgenda(lista: seq<ItemAgenda>)
    ensures forall i :: 0 <= i < |GruposDe(lista)| ==>
      && (exists t :: 0 <= t < |lista| && lista[t].prestamoId == GruposDe(lista)[i].prestamoId)
      && GruposDe(lista)[i].totalDeuda == DeudaDe(lista, GruposDe(lista)[i].prestamoId)
      && GruposDe(lista)[i].cantidadCuotas == CuentaDe(lista, GruposDe(lista)[i].prestamoId)
  {
    AgruparPorPrestamo(lista);
    ValoresOrdenados(Agrupar(lista), Cota(lista));
  }

  /** Every loan of the list has a group. */
  lemma CadaPrestamoAgrupado(lista: seq<ItemAgenda>)
    ensures forall t :: 0 <= t < |lista| ==>
      exists i :: 0 <= i < |GruposDe(lista)| && GruposDe(lista)[i].prestamoId == lista[t].prestamoId
  {
    var tabla := Agrupar(lista);
    var grupos := GruposDe(lista);
    AgruparPorPrestamo(lista);
    ValoresOrdenados(tabla, Cota(lista));
    forall t | 0 <= t < |lista|
      ensures exists i :: 0 <= i < |grupos| && grupos[i].prestamoId == lista[t].prestamoId
    {
      var k := lista[t].prestamoId;
      assert tabla[k] in grupos;
      var i :| 0 <= i < |grupos| && grupos[i] == tabla[k];
    }
  }

  /** The groups' counts add up to the list's length and their debts to its total debt. */
  lemma GruposSuman(lista: seq<ItemAgenda>)
    ensures SumaCantidades(GruposDe(lista)) == |lista| && SumaDeudas(GruposDe(lista)) == DeudaTotal(lista)
  {
    TotalesDeGrupos(lista, Cota(lista));
  }

  /** `.slice(0, 5)`: at most the first five groups. */
  function Primeros5(gs: seq<GrupoDeuda>): (r: seq<GrupoDeuda>)
    ensures |r| == if |gs| < 5 then |gs| else 5
    ensures r == gs[..|r|]
  {
    if |gs| < 5 then gs else gs[..5]
  }

  /** The upcoming panel keeps the five groups with the lowest loan ids, not the five
      falling due soonest. */
  lemma PorVencerMenoresIds(lista: seq<ItemAgenda>)
    ensures var gs := GruposDe(lista);
      forall i, j :: 0 <= i < |Primeros5(gs)| <= j < |gs| ==> Primeros5(gs)[i].prestamoId < gs[j].prestamoId
  {
    AgruparPorPrestamo(lista);
    ValoresOrdenados(Agrupar(lista), Cota(lista));
    var gs := GruposDe(lista);
    assert gs == Valores(Agrupar(lista), Cota(lista));
    forall i, j | 0 <= i < |Primeros5(gs)| <= j < |gs|
      ensures Primeros5(gs)[i].prestamoId < gs[j].prestamoId
    {
      assert Primeros5(gs)[i] == gs[i];
    }
  }

  // ---------------------------------------------------------------------------
  // Overdue and upcoming
  // ---------------------------------------------------------------------------

  /** `listaVencidos`: items whose due day is before today. */
  function Vencidos(agenda: seq<ItemAgenda>, hoy: int): seq<ItemAgenda>
  {
    if |agenda| == 0 then []
    else Vencidos(agenda[..|agenda| - 1], hoy)
         + (if agenda[|agenda| - 1].fechaVencimiento < hoy then [agenda[|agenda| - 1]] else [])
  }

  /** `listaPorVencer`: items due today or later. */
  function PorVencer(agenda: seq<ItemAgenda>, hoy: int): seq<ItemAgenda>
  {
    if |agenda| == 0 then []
    else PorVencer(agenda[..|agenda| - 1], hoy)
         + (if agenda[|agenda| - 1].fechaVencimiento >= hoy then [agenda[|agenda| - 1]] else [])
  }

  /** Every agenda item lands in exactly one of the two lists: together they hold the
      agenda's items with their multiplicities, overdue ones strictly before today and
      upcoming ones from today on. */
  lemma {:induction false} Particion(agenda: seq<ItemAgenda>, hoy: int)
    ensures multiset(Vencidos(agenda, hoy)) + multiset(PorVencer(agenda, hoy)) == multiset(agenda)
    ensures forall x :: x in Vencidos(agenda, hoy) <==> x in agenda && x.fechaVencimiento < hoy
    ensures forall x :: x in PorVencer(agenda, hoy) <==> x in agenda && x.fechaVencimiento >= hoy
  {
    if |agenda| > 0 {
      var previa := agenda[..|agenda| - 1];
      Particion(previa, hoy);
      assert agenda == previa + [agenda[|agenda| - 1]];
    }
  }

  // ---------------------------------------------------------------------------
  // Headline figures
  // ---------------------------------------------------------------------------

  /** A loan as loaded for the dashboard, with all its installments. */
  datatype FichaPrestamo = FichaPrestamo(estado: EstadoPrestamo, cuotas: seq<Cuota>)

  /** A client as loaded for the dashboard, with its loans. */
  datatype FichaCliente = FichaCliente(nombre: string, prestamos: seq<FichaPrestamo>)

  /** The query keeps only ACTIVO and PENDIENTE loans under each client. */
  function SoloEnCurso(ps: seq<FichaPrestamo>): (r: seq<FichaPrestamo>)
    ensures forall p :: p in r <==> p in ps && EnCurso(p.estado)
  {
    if |ps| == 0 then []
    else SoloEnCurso(ps[..|ps| - 1]) + (if EnCurso(ps[|ps| - 1].estado) then [ps[|ps| - 1]] else [])
  }

  /** Every copy of a live loan is kept, and no other loan. */
  lemma {:induction false} SoloEnCursoCuenta(s: seq<FichaPrestamo>, p: FichaPrestamo)
    ensures multiset(SoloEnCurso(s))[p] == if EnCurso(p.estado) then multiset(s)[p] else 0
    decreases |s|
  {
    if |s| > 0 {
      var s', x := s[..|s| - 1], s[|s| - 1];
      assert s == s' + [x];
      SoloEnCursoCuenta(s', p);
    }
  }

  /** One unfolding of the filter at the last loan. */
  lemma SoloEnCursoUltimo(s: seq<FichaPrestamo>)
    requires |s| > 0
    ensures SoloEnCurso(s) == SoloEnCurso(s[..|s| - 1]) + if EnCurso(s[|s| - 1].estado) then [s[|s| - 1]] else []
  {
  }

  /** The filter keeps order: the live loans of two runs are those of the first followed
      by those of the second. */
  lemma {:induction false} SoloEnCursoConcatena(a: seq<FichaPrestamo>, b: seq<FichaPrestamo>)
    ensures SoloEnCurso(a + b) == SoloEnCurso(a) + SoloEnCurso(b)
    decreases |b|
  {
    if |b| == 0 {
      assert a + b == a;
    } else {
      var b' := b[..|b| - 1];
      assert (a + b)[..|a + b| - 1] == a + b' && (a + b)[|a + b| - 1] == b[|b| - 1];
      SoloEnCursoUltimo(a + b);
      SoloEnCursoUltimo(b);
      SoloEnCursoConcatena(a, b');
    }
  }

  function Cargar(clientes: seq<FichaCliente>): (r: seq<FichaCliente>)
    ensures |r| == |clientes|
    ensures forall i :: 0 <= i < |r| ==> r[i] == clientes[i].(prestamos := SoloEnCurso(clientes[i].prestamos))
  {
    if |clientes| == 0 then []
    else Cargar(clientes[..|clientes| - 1])
         + [clientes[|clientes| - 1].(prestamos := SoloEnCurso(clientes[|clientes| - 1].prestamos))]
  }

  function SumaEsperado(cs: seq<Cuota>): real
  {
    if |cs| == 0 then 0.0 else SumaEsperado(cs[..|cs| - 1]) + cs[|cs| - 1].montoEsperado
  }

  function SumaPagado(cs: seq<Cuota>): real
  {
    if |cs| == 0 then 0.0 else SumaPagado(cs[..|cs| - 1]) + cs[|cs| - 1].montoPagado
  }

  /** What a client owes on its loans: expected minus paid, loan by loan. */
  function CapitalCliente(ps: seq<FichaPrestamo>): real
  {
    if |ps| == 0 then 0.0
    else CapitalCliente(ps[..|ps| - 1]) + (SumaEsperado(ps[|ps| - 1].cuotas) - SumaPagado(ps[|ps| - 1].cuotas))
  }

  /** `capitalEnCalle`. */
  function CapitalEnCalle(clientes: seq<FichaCliente>): real
  {
    if |clientes| == 0 then 0.0
    else CapitalEnCalle(clientes[..|clientes| - 1]) + CapitalCliente(clientes[|clientes| - 1].prestamos)
  }

  /** `clientesConDeuda`: clients with at least one loan left after the query's filter. */
  function ClientesConDeuda(clientes: seq<FichaCliente>): nat
  {
    if |clientes| == 0 then 0
    else ClientesConDeuda(clientes[..|clientes| - 1]) + (if |clientes[|clientes| - 1].prestamos| > 0 then 1 else 0)
  }

  /** Balance of an installment, unclamped: an overpaid one counts negative. */
  function SaldoCuotas(cs: seq<Cuota>): real
  {
    if |cs| == 0 then 0.0
    else SaldoCuotas(cs[..|cs| - 1]) + (cs[|cs| - 1].montoEsperado - cs[|cs| - 1].montoPagado)
  }

  /** A loan's expected-minus-paid is the sum of its installments' balances. */
  lemma {:induction false} SaldoPorCuotas(cs: seq<Cuota>)
    ensures SumaEsperado(cs) - SumaPagado(cs) == SaldoCuotas(cs)
  {
    if |cs| > 0 {
      SaldoPorCuotas(cs[..|cs| - 1]);
    }
  }

  /** When no installment is overpaid, a loan's balance is not negative. */
  lemma {:induction false} SaldoNoNegativo(cs: seq<Cuota>)
    requires forall i :: 0 <= i < |cs| ==> cs[i].montoPagado <= cs[i].montoEsperado
    ensures SaldoCuotas(cs) >= 0.0
  {
    if |cs| > 0 {
      SaldoNoNegativo(cs[..|cs| - 1]);
    }
  }

  /** When no installment is overpaid, the money on the street is not negative. */
  lemma {:induction false} CapitalEnCalleNoNegativo(clientes: seq<FichaCliente>)
    requires forall c, p, i :: c in clientes && p in c.prestamos && 0 <= i < |p.cuotas| ==>
      p.cuotas[i].montoPagado <= p.cuotas[i].montoEsperado
    ensures CapitalEnCalle(clientes) >= 0.0
  {
    if |clientes| > 0 {
      CapitalEnCalleNoNegativo(clientes[..|clientes| - 1]);
      CapitalClienteNoNegativo(clientes[|clientes| - 1].prestamos);
    }
  }

  lemma {:induction false} CapitalClienteNoNegativo(ps: seq<FichaPrestamo>)
    requires forall p, i :: p in ps && 0 <= i < |p.cuotas| ==> p.cuotas[i].montoPagado <= p.cuotas[i].montoEsperado
    ensures CapitalCliente(ps) >= 0.0
  {
    if |ps| > 0 {
      CapitalClienteNoNegativo(ps[..|ps| - 1]);
      SaldoPorCuotas(ps[|ps| - 1].cuotas);
      SaldoNoNegativo(ps[|ps| - 1].cuotas);
    }
  }

  /** Clients having some ACTIVO or PENDIENTE loan. */
  function ConPrestamoEnCurso(clientes: seq<FichaCliente>): nat
  {
    if |clientes| == 0 then 0
    else ConPrestamoEnCurso(clientes[..|clientes| - 1])
         + (if exists p :: p in clientes[|clientes| - 1].prestamos && EnCurso(p.estado) then 1 else 0)
  }

  /** After the query's filter, `clientesConDeuda` counts exactly the clients with a live
      loan, and the money on the street only counts live loans. */
  lemma {:induction false} ClientesConDeudaEnCurso(clientes: seq<FichaCliente>)
    ensures ClientesConDeuda(Cargar(clientes)) == ConPrestamoEnCurso(clientes)
    ensures forall c, p :: c in Cargar(clientes) && p in c.prestamos ==> EnCurso(p.estado)
  {
    if |clientes| > 0 {
      var previa := clientes[..|clientes| - 1];
      ClientesConDeudaEnCurso(previa);
      var r := Cargar(clientes);
      assert r[..|r| - 1] == Cargar(previa);
      var ultimo := clientes[|clientes| - 1];
      if exists p :: p in ultimo.prestamos && EnCurso(p.estado) {
        var p :| p in ultimo.prestamos && EnCurso(p.estado);
        assert p in SoloEnCurso(ultimo.prestamos);
      } else {
        var q := SoloEnCurso(ultimo.prestamos);
        if |q| > 0 {
          assert q[0] in q;
        }
      }
    }
  }
}
