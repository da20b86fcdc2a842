/**
 * The order store of the sales report page: the loaded orders `ordenes`, the
 * order open in the detail dialog `ordenSel`, the id of the order being deleted
 * `deletingId` and the commission rate `porcentajeComision`. The outcome of each
 * request to the backend (and of the confirmation dialog) is a parameter.
 */
module OrderStore {
  import opened Wrappers
  import opened LineItems
  import opened Aggregator

  /** `ordenes.filter(o => o.id !== id)`: keeps, in order, every order with another id. */
  function RemoveId(ordenes: seq<Orden>, id: Id): (r: seq<Orden>)
    ensures |r| <= |ordenes|
  {
    if ordenes == [] then []
    else (if ordenes[0].id != id then [ordenes[0]] else []) + RemoveId(ordenes[1..], id)
  }

  /** The kept orders are exactly the orders whose id differs. */
  lemma {:induction false} RemoveIdMembers(ordenes: seq<Orden>, id: Id)
    ensures forall o :: o in RemoveId(ordenes, id) <==> o in ordenes && o.id != id
  {
    if ordenes != [] {
      RemoveIdMembers(ordenes[1..], id);
      assert ordenes == [ordenes[0]] + ordenes[1..];
    }
  }

  /** Filtering distributes over concatenation, so the kept orders keep their relative order. */
  lemma {:induction false} RemoveIdAppend(a: seq<Orden>, b: seq<Orden>, id: Id)
    ensures RemoveId(a + b, id) == RemoveId(a, id) + RemoveId(b, id)
  {
    if a == [] {
      assert a + b == b;
    } else {
      assert (a + b)[0] == a[0];
      assert (a + b)[1..] == a[1..] + b;
      RemoveIdAppend(a[1..], b, id);
    }
  }

  /** Filtering an id that no order has changes nothing. */
  lemma {:induction false} RemoveIdAbsent(ordenes: seq<Orden>, id: Id)
    requires forall o :: o in ordenes ==> o.id != id
    ensures RemoveId(ordenes, id) == ordenes
  {
    if ordenes != [] {
      assert ordenes == [ordenes[0]] + ordenes[1..];
      RemoveIdAbsent(ordenes[1..], id);
    }
  }

  /** Filtering the same id twice is the same as filtering it once. */
  lemma RemoveIdIdempotent(ordenes: seq<Orden>, id: Id)
    ensures RemoveId(RemoveId(ordenes, id), id) == RemoveId(ordenes, id)
  {
    RemoveIdMembers(ordenes, id);
    RemoveIdAbsent(RemoveId(ordenes, id), id);
  }

  /** When some order has the id, the collection gets strictly shorter. */
  lemma {:induction false} RemoveIdShrinks(ordenes: seq<Orden>, id: Id)
    requires exists o :: o in ordenes && o.id == id
    ensures |RemoveId(ordenes, id)| < |ordenes|
  {
    if ordenes[0].id != id {
      var o :| o in ordenes && o.id == id;
      assert o in ordenes[1..];
      RemoveIdShrinks(ordenes[1..], id);
    }
  }

  /** Filtering a lone order drops it exactly when it has the id. */
  lemma RemoveIdSingleton(o: Orden, id: Id)
    ensures RemoveId([o], id) == if o.id == id then [] else [o]
  {
    assert [o][1..] == [];
  }

  /** Filtering the id of the one matching order between two match-free runs removes just it. */
  lemma RemoveIdBetween(left: seq<Orden>, x: Orden, right: seq<Orden>)
    requires forall o :: o in left ==> o.id != x.id
    requires forall o :: o in right ==> o.id != x.id
    ensures RemoveId(left + [x] + right, x.id) == left + right
  {
    var id, lx := x.id, left + [x];
    RemoveIdAbsent(left, id);
    RemoveIdAbsent(right, id);
    RemoveIdSingleton(x, id);
    RemoveIdAppend(left, [x], id);
    assert RemoveId(lx, id) == left;
    RemoveIdAppend(lx, right, id);
    assert RemoveId(lx + right, id) == left + right;
  }

  /** With unique ids, filtering the id of the order at `i` removes exactly that order. */
  lemma RemoveUniqueId(ordenes: seq<Orden>, i: int)
    requires 0 <= i < |ordenes|
    requires forall j :: 0 <= j < |ordenes| && j != i ==> ordenes[j].id != ordenes[i].id
    ensures RemoveId(ordenes, ordenes[i].id) == ordenes[..i] + ordenes[i + 1..]
  {
    var x, left, right := ordenes[i], ordenes[..i], ordenes[i + 1..];
    forall o | o in left
      ensures o.id != x.id
    {
      var j :| 0 <= j < |left| && left[j] == o;
      assert ordenes[j] == o;
    }
    forall o | o in right
      ensures o.id != x.id
    {
      var j :| 0 <= j < |right| && right[j] == o;
      assert ordenes[i + 1 + j] == o;
    }
    assert ordenes == left + [x] + right;
    RemoveIdBetween(left, x, right);
  }

  /**
   * With unique ids, deleting the order at `i` lowers the period total and the
   * period profit by exactly that order's total and profit.
   */
  lemma RemoveUniqueIdLowersPeriod(ordenes: seq<Orden>, i: int)
    requires 0 <= i < |ordenes|
    requires forall j :: 0 <= j < |ordenes| && j != i ==> ordenes[j].id != ordenes[i].id
    ensures TotalPeriodo(RemoveId(ordenes, ordenes[i].id)) == TotalPeriodo(ordenes) - OrderTotal(ordenes[i])
    ensures GananciaPeriodo(RemoveId(ordenes, ordenes[i].id)) == GananciaPeriodo(ordenes) - OrderProfit(ordenes[i])
  {
    RemoveUniqueId(ordenes, i);
    FoldSumRemove(ordenes, i, OrderTotal);
    FoldSumRemove(ordenes, i, OrderProfit);
  }

  /** The state of the report page. */
  class Reportes {
    var ordenes: seq<Orden>
    var ordenSel: Option<Orden>
    var deletingId: Option<Id>
    var porcentajeComision: real

    /** The page's initial state: nothing loaded, nothing selected or being deleted, rate 0. */
    constructor ()
      ensures ordenes == [] && ordenSel == None && deletingId == None && porcentajeComision == 0.0
    {
      ordenes := [];
      ordenSel := None;
      deletingId := None;
      porcentajeComision := 0.0;
    }

    /** The listed orders: today no filtering beyond the backend's date range. */
    function Filtered(): (r: seq<Orden>)
      reads this
      ensures r == ordenes
    {
      ordenes
    }

    /** `totalPeriodo`: computed over `filtered`, it is the sum over every item of every loaded order. */
    function PeriodTotal(): (r: real)
      reads this
      ensures r == CalcTotal(AllItems(ordenes))
      ensures r == TotalPeriodo(ordenes)
    {
      PeriodIsSumOverAllItems(Filtered());
      TotalPeriodo(Filtered())
    }

    /** `gananciaPeriodo`: computed over `filtered`, it is the item-level profit of every loaded order. */
    function PeriodProfit(): (r: real)
      reads this
      ensures r == CalcGanancia(AllItems(ordenes))
      ensures r == GananciaPeriodo(ordenes)
    {
      PeriodIsSumOverAllItems(Filtered());
      GananciaPeriodo(Filtered())
    }

    /** `totalComision`: the current rate's share of the period total, 0 at rate 0. */
    function Commission(): (r: real)
      reads this
      ensures porcentajeComision == 0.0 ==> r == 0.0
      ensures r == TotalPeriodo(ordenes) * porcentajeComision / 100.0
    {
      TotalComision(PeriodTotal(), porcentajeComision)
    }

    /** `setPorcentajeComision`: the rate's state setter. */
    method SetPorcentajeComision(porcentaje: real)
      modifies this
      ensures porcentajeComision == porcentaje
      ensures ordenes == old(ordenes) && ordenSel == old(ordenSel) && deletingId == old(deletingId)
    {
      porcentajeComision := porcentaje;
    }

    /** Opening a row (`setOrdenSel(o)`) or closing the dialog (`setOrdenSel(null)`). */
    method SelectOrden(o: Option<Orden>)
      modifies this
      ensures ordenSel == o
      ensures ordenes == old(ordenes) && deletingId == old(deletingId)
      ensures porcentajeComision == old(porcentajeComision)
    {
      ordenSel := o;
    }

    /**
     * `cargarOrdenes`: `response` is the parsed body of a successful `GET /ordenes`,
     * or None when the request failed or answered non-ok. Success replaces the
     * collection wholesale; failure keeps it. The selection is never touched.
     */
    method CargarOrdenes(response: Option<seq<Orden>>)
      modifies this
      ensures response.Some? ==> ordenes == response.value
      ensures response.None? ==> ordenes == old(ordenes)
      ensures ordenSel == old(ordenSel) && deletingId == old(deletingId)
      ensures porcentajeComision == old(porcentajeComision)
    {
      if response.Some? {
        ordenes := response.value;
      }
    }

    /**
     * `handleDeleteOrden`: `confirmed` is the answer to the confirmation dialog and
     * `deleteOk` whether `DELETE /ordenes/<id>` answered ok. Returns whether the
     * request was issued: only for a truthy id the user confirmed. The marker is
     * set before the request and cleared afterwards whatever the outcome.
     */
    method HandleDeleteOrden(id: Option<Id>, confirmed: bool, deleteOk: bool) returns (requested: bool)
      modifies this
      ensures requested <==> id.Some? && IdTruthy(id.value) && confirmed
      ensures !requested ==> ordenes == old(ordenes) && ordenSel == old(ordenSel) && deletingId == old(deletingId)
      ensures requested ==> deletingId == None
      ensures requested && deleteOk ==> ordenes == RemoveId(old(ordenes), id.value)
      ensures requested && deleteOk ==>
        ordenSel == if old(ordenSel).Some? && old(ordenSel).value.id == id.value then None else old(ordenSel)
      ensures requested && !deleteOk ==> ordenes == old(ordenes) && ordenSel == old(ordenSel)
      ensures porcentajeComision == old(porcentajeComision)
    {
      if id.None? || !IdTruthy(id.value) {
        return false;
      }
      if !confirmed {
        return false;
      }
      requested := true;
      deletingId := id;
      if deleteOk {
        ordenes := RemoveId(ordenes, id.value);
        if ordenSel.Some? && ordenSel.value.id == id.value {
          ordenSel := None;
        }
      }
      deletingId := None;
    }
  }
}
