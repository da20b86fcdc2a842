/**
 * The aggregator of the sales report page: per-order folds over line items
 * (`calcTotal`, `calcGanancia`), period folds over the loaded orders and the
 * commission derived from the period total. Money is exact (`real`).
 */
module Aggregator {
  import opened Wrappers
  import opened LineItems

  // ---------------------------------------------------------------------------
  // `reduce((acc, x) => acc + f(x), 0)`: a left fold, last element added last

  function FoldSum<T>(s: seq<T>, f: T -> real): real
    decreases |s|
  {
    if s == [] then 0.0 else FoldSum(s[..|s| - 1], f) + f(s[|s| - 1])
  }

  /** The fold is additive over concatenation. */
  lemma {:induction false} FoldSumAppend<T>(a: seq<T>, b: seq<T>, f: T -> real)
    ensures FoldSum(a + b, f) == FoldSum(a, f) + FoldSum(b, f)
    decreases |b|
  {
    if b == [] {
      assert a + b == a;
    } else {
      var n := |b| - 1;
      assert (a + b)[..|a + b| - 1] == a + b[..n];
      assert (a + b)[|a + b| - 1] == b[n];
      FoldSumAppend(a, b[..n], f);
    }
  }

  /** Taking one element out of the fold subtracts exactly its value. */
  lemma FoldSumRemove<T>(b: seq<T>, j: int, f: T -> real)
    requires 0 <= j < |b|
    ensures FoldSum(b, f) == FoldSum(b[..j] + b[j + 1..], f) + f(b[j])
  {
    var left, x, right := b[..j], b[j], b[j + 1..];
    assert b == left + ([x] + right);
    FoldSumAppend(left, [x] + right, f);
    FoldSumAppend([x], right, f);
    FoldSumAppend(left, right, f);
    FoldSumSingleton(x, f);
  }

  /** Taking one element out of two equal multisets leaves equal multisets. */
  lemma MultisetRemove<T>(a: seq<T>, b: seq<T>, j: int)
    requires a != [] && 0 <= j < |b| && b[j] == a[|a| - 1]
    requires multiset(a) == multiset(b)
    ensures multiset(a[..|a| - 1]) == multiset(b[..j] + b[j + 1..])
  {
    var x := a[|a| - 1];
    assert a == a[..|a| - 1] + [x];
    assert b == b[..j] + [x] + b[j + 1..];
    assert multiset(a[..|a| - 1]) == multiset(a) - multiset{x};
    assert multiset(b[..j] + b[j + 1..]) == multiset(b) - multiset{x};
  }

  /** The fold does not depend on the order of the elements. */
  lemma {:induction false} FoldSumPermutation<T>(a: seq<T>, b: seq<T>, f: T -> real)
    requires multiset(a) == multiset(b)
    ensures FoldSum(a, f) == FoldSum(b, f)
    decreases |a|
  {
    if a == [] {
      assert |b| == |multiset(b)| == 0;
    } else {
      var n := |a| - 1;
      assert a[n] in multiset(b) by { assert a[n] in multiset(a); }
      var j :| 0 <= j < |b| && b[j] == a[n];
      MultisetRemove(a, b, j);
      FoldSumPermutation(a[..n], b[..j] + b[j + 1..], f);
      FoldSumRemove(b, j, f);
    }
  }

  /** The fold of one element is its value. */
  lemma FoldSumSingleton<T>(x: T, f: T -> real)
    ensures FoldSum([x], f) == f(x)
  {
    assert [x][..0] == [];
  }

  /** The fold of two elements is the sum of their values. */
  lemma FoldSumPair<T>(x: T, y: T, f: T -> real)
    ensures FoldSum([x, y], f) == f(x) + f(y)
  {
    assert [x, y][..1] == [x];
    FoldSumSingleton(x, f);
  }

  /** A fold of non-negative values is non-negative. */
  lemma {:induction false} FoldSumNonNegative<T>(s: seq<T>, f: T -> real)
    requires forall x :: x in s ==> f(x) >= 0.0
    ensures FoldSum(s, f) >= 0.0
    decreases |s|
  {
    if s != [] {
      FoldSumNonNegative(s[..|s| - 1], f);
    }
  }

  /** Folding a pointwise difference gives the difference of the folds. */
  lemma {:induction false} FoldSumDifference<T>(s: seq<T>, f: T -> real, g: T -> real, h: T -> real)
    requires forall x :: x in s ==> h(x) == f(x) - g(x)
    ensures FoldSum(s, h) == FoldSum(s, f) - FoldSum(s, g)
    decreases |s|
  {
    if s != [] {
      FoldSumDifference(s[..|s| - 1], f, g, h);
    }
  }

  /** Functions that agree on every element have the same fold. */
  lemma {:induction false} FoldSumCongruent<T>(s: seq<T>, f: T -> real, g: T -> real)
    requires forall x :: x in s ==> f(x) == g(x)
    ensures FoldSum(s, f) == FoldSum(s, g)
    decreases |s|
  {
    if s != [] {
      FoldSumCongruent(s[..|s| - 1], f, g);
    }
  }

  /** A fold of zeros is zero. */
  lemma {:induction false} FoldSumZero<T>(s: seq<T>, f: T -> real)
    requires forall x :: x in s ==> f(x) == 0.0
    ensures FoldSum(s, f) == 0.0
    decreases |s|
  {
    if s != [] {
      FoldSumZero(s[..|s| - 1], f);
    }
  }

  // ---------------------------------------------------------------------------
  // Per-order folds

  /** A product of two non-negative amounts is non-negative. */
  lemma ProductSign(a: real, b: real)
    ensures a >= 0.0 && b >= 0.0 ==> a * b >= 0.0
  {
  }

  /** What one item adds to `calcTotal`: price times quantity. */
  function LineTotal(it: Item): (r: real)
    ensures it.qty.None? && it.cantidad.None? ==> r == UnitPrice(it)
    ensures UnitPrice(it) >= 0.0 && Quantity(it) >= 0 ==> r >= 0.0
  {
    ProductSign(UnitPrice(it), Quantity(it) as real);
    UnitPrice(it) * Quantity(it) as real
  }

  /** The cost side of one item: cost times quantity (a reference, not on the page). */
  function LineCost(it: Item): real {
    UnitCost(it) * Quantity(it) as real
  }

  /** What one item adds to `calcGanancia`: (price - cost) times quantity. */
  function LineProfit(it: Item): (r: real)
    ensures HasDirectPrice(it) ==> r == LineTotal(it) - LineCost(it)
    ensures !HasDirectPrice(it) ==> r == -LineCost(it)
    ensures it.qty.None? && it.cantidad.None? ==> r == ProfitPrice(it) - UnitCost(it)
    ensures ProfitPrice(it) >= UnitCost(it) && Quantity(it) >= 0 ==> r >= 0.0
  {
    var margin, q := ProfitPrice(it) - UnitCost(it), Quantity(it) as real;
    ProductSign(margin, q);
    if HasDirectPrice(it) then DirectPriceAgrees(it); margin * q else margin * q
  }

  /** `calcTotal(items)`: non-negative when every price and quantity is. */
  function CalcTotal(items: seq<Item>): (r: real)
    ensures (forall it :: it in items ==> UnitPrice(it) >= 0.0 && Quantity(it) >= 0) ==> r >= 0.0
  {
    if forall it :: it in items ==> UnitPrice(it) >= 0.0 && Quantity(it) >= 0 then
      FoldSumNonNegative(items, LineTotal);
      FoldSum(items, LineTotal)
    else FoldSum(items, LineTotal)
  }

  /** `calcGanancia(items)`: non-negative when no item sells below cost or in a negative quantity. */
  function CalcGanancia(items: seq<Item>): (r: real)
    ensures (forall it :: it in items ==> ProfitPrice(it) >= UnitCost(it) && Quantity(it) >= 0) ==> r >= 0.0
  {
    if forall it :: it in items ==> ProfitPrice(it) >= UnitCost(it) && Quantity(it) >= 0 then
      FoldSumNonNegative(items, LineProfit);
      FoldSum(items, LineProfit)
    else FoldSum(items, LineProfit)
  }

  /** The total cost of a list of items. */
  function CostTotal(items: seq<Item>): real {
    FoldSum(items, LineCost)
  }

  /** `calcTotal` is a fold: zero on no items, additive over concatenation. */
  lemma CalcTotalAdditive(a: seq<Item>, b: seq<Item>)
    ensures CalcTotal([]) == 0.0
    ensures CalcTotal(a + b) == CalcTotal(a) + CalcTotal(b)
    ensures CalcGanancia(a + b) == CalcGanancia(a) + CalcGanancia(b)
  {
    FoldSumAppend(a, b, LineTotal);
    FoldSumAppend(a, b, LineProfit);
  }

  /** Reordering the items of an order changes neither its total nor its profit. */
  lemma CalcTotalPermutation(a: seq<Item>, b: seq<Item>)
    requires multiset(a) == multiset(b)
    ensures CalcTotal(a) == CalcTotal(b)
    ensures CalcGanancia(a) == CalcGanancia(b)
  {
    FoldSumPermutation(a, b, LineTotal);
    FoldSumPermutation(a, b, LineProfit);
  }

  /** When every item has a price of its own, profit is total minus cost. */
  lemma ProfitIsTotalMinusCost(items: seq<Item>)
    requires forall it :: it in items ==> HasDirectPrice(it)
    ensures CalcGanancia(items) == CalcTotal(items) - CostTotal(items)
  {
    FoldSumDifference(items, LineTotal, LineCost, LineProfit);
  }

  /** When, in addition, no item carries a cost, profit equals total. */
  lemma ProfitIsTotalWithoutCosts(items: seq<Item>)
    requires forall it :: it in items ==> HasDirectPrice(it) && HasNoCost(it)
    ensures CalcGanancia(items) == CalcTotal(items)
  {
    FoldSumZero(items, LineCost);
    ProfitIsTotalMinusCost(items);
  }

  /**
   * `calcGanancia` ignores `producto.precio`: an item priced only through its
   * product adds to the total but counts its cost as a loss in the profit.
   */
  lemma ProfitIgnoresProductoPrecio(it: Item)
    requires !HasDirectPrice(it) && ProductoPrecio(it).Some?
    ensures LineTotal(it) == ProductoPrecio(it).value * Quantity(it) as real
    ensures LineProfit(it) == -LineCost(it)
  {
  }

  // ---------------------------------------------------------------------------
  // The detail dialog's rows against its Total row

  /**
   * The subtotal a detail row shows: its own price chain times quantity. It is
   * the item's share of `calcTotal` exactly when that chain finds a price, and
   * the service's price (or 0) times quantity otherwise.
   */
  function DetailSubtotal(it: Item): (r: real)
    ensures HasListPrice(it) ==> r == LineTotal(it)
    ensures !HasListPrice(it) ==> r == ServicioPrecio(it).GetOr(0.0) * Quantity(it) as real
  {
    DetailPriceExtendsUnitPrice(it);
    DetailPrice(it) * Quantity(it) as real
  }

  /** When every item finds a price in `calcTotal`'s chain, the rows add up to the Total row. */
  lemma DetailRowsMatchTotal(items: seq<Item>)
    requires forall it :: it in items ==> HasListPrice(it)
    ensures FoldSum(items, DetailSubtotal) == CalcTotal(items)
  {
    FoldSumCongruent(items, DetailSubtotal, LineTotal);
  }

  /** A service priced only through `servicio.precio` shows a row subtotal the Total row leaves out. */
  lemma DetailRowsCanDisagreeWithTotal()
    ensures exists it: Item :: it.producto.Some? && FoldSum([it], DetailSubtotal) != CalcTotal([it])
  {
    var it := Item(Some(Num(1)), Some("servicio"), None, None, None, None, None, None, None,
                   Some(Producto(None, None, None, None)), None,
                   Some(Servicio(Some(50.0), None)), Some(Num(7)));
    FoldSumSingleton(it, DetailSubtotal);
    assert DetailPrice(it) == 50.0 && Quantity(it) == 1;
    assert FoldSum([it], DetailSubtotal) == 50.0;
    assert UnitPrice(it) == 0.0;
    assert LineTotal(it) == 0.0;
    FoldSumSingleton(it, LineTotal);
    assert CalcTotal([it]) == 0.0;
  }

  // ---------------------------------------------------------------------------
  // Period folds

  /** A loaded order: its key and its line items, which may be missing. */
  datatype Orden = Orden(id: Id, items: Option<seq<Item>>)

  /** `o.items || []`: an empty array is truthy, so only a missing list becomes `[]`. */
  function OrderItems(o: Orden): (r: seq<Item>)
    ensures o.items.Some? ==> r == o.items.value
    ensures o.items.None? ==> r == []
  {
    o.items.GetOr([])
  }

  function OrderTotal(o: Orden): real {
    CalcTotal(OrderItems(o))
  }

  function OrderProfit(o: Orden): real {
    CalcGanancia(OrderItems(o))
  }

  /** Every line item of every order, in order; a missing item list adds none. */
  function AllItems(orders: seq<Orden>): seq<Item>
    decreases |orders|
  {
    if orders == [] then [] else AllItems(orders[..|orders| - 1]) + OrderItems(orders[|orders| - 1])
  }

  /** Folding the orders' totals (profits) is folding every item of every order. */
  lemma {:induction false} PeriodIsSumOverAllItems(orders: seq<Orden>)
    ensures FoldSum(orders, OrderTotal) == CalcTotal(AllItems(orders))
    ensures FoldSum(orders, OrderProfit) == CalcGanancia(AllItems(orders))
    decreases |orders|
  {
    if orders != [] {
      var n := |orders| - 1;
      PeriodIsSumOverAllItems(orders[..n]);
      CalcTotalAdditive(AllItems(orders[..n]), OrderItems(orders[n]));
    }
  }

  /** `totalPeriodo`: the sum of the order totals, which is `calcTotal` over every loaded item. */
  function TotalPeriodo(orders: seq<Orden>): (r: real)
    ensures r == CalcTotal(AllItems(orders))
  {
    PeriodIsSumOverAllItems(orders);
    FoldSum(orders, OrderTotal)
  }

  /** `gananciaPeriodo`: the sum of the order profits, which is `calcGanancia` over every loaded item. */
  function GananciaPeriodo(orders: seq<Orden>): (r: real)
    ensures r == CalcGanancia(AllItems(orders))
  {
    PeriodIsSumOverAllItems(orders);
    FoldSum(orders, OrderProfit)
  }

  /** Reordering the orders changes neither period figure. */
  lemma PeriodPermutation(a: seq<Orden>, b: seq<Orden>)
    requires multiset(a) == multiset(b)
    ensures TotalPeriodo(a) == TotalPeriodo(b)
    ensures GananciaPeriodo(a) == GananciaPeriodo(b)
  {
    FoldSumPermutation(a, b, OrderTotal);
    FoldSumPermutation(a, b, OrderProfit);
  }

  /** An order without an item list contributes nothing to either period figure. */
  lemma OrderWithoutItemsAddsNothing(orders: seq<Orden>, i: int)
    requires 0 <= i < |orders| && orders[i].items.None?
    ensures TotalPeriodo(orders) == TotalPeriodo(orders[..i] + orders[i + 1..])
    ensures GananciaPeriodo(orders) == GananciaPeriodo(orders[..i] + orders[i + 1..])
  {
    assert orders == orders[..i] + ([orders[i]] + orders[i + 1..]);
    assert [orders[i]][..0] == [];
    FoldSumAppend(orders[..i], [orders[i]] + orders[i + 1..], OrderTotal);
    FoldSumAppend([orders[i]], orders[i + 1..], OrderTotal);
    FoldSumAppend(orders[..i], orders[i + 1..], OrderTotal);
    FoldSumAppend(orders[..i], [orders[i]] + orders[i + 1..], OrderProfit);
    FoldSumAppend([orders[i]], orders[i + 1..], OrderProfit);
    FoldSumAppend(orders[..i], orders[i + 1..], OrderProfit);
  }

  /** Over a period whose items all carry their own price, profit is total minus cost. */
  lemma PeriodProfitIsTotalMinusCost(orders: seq<Orden>)
    requires forall it :: it in AllItems(orders) ==> HasDirectPrice(it)
    ensures GananciaPeriodo(orders) == TotalPeriodo(orders) - CostTotal(AllItems(orders))
  {
    PeriodIsSumOverAllItems(orders);
    ProfitIsTotalMinusCost(AllItems(orders));
  }

  // ---------------------------------------------------------------------------
  // Commission

  /**
   * `porcentajeComision ? totalPeriodo * porcentajeComision / 100 : 0`. The guard
   * only short-circuits a zero rate: in exact arithmetic the result is always
   * the percentage of the total.
   */
  function TotalComision(totalPeriodo: real, porcentaje: real): (r: real)
    ensures porcentaje == 0.0 ==> r == 0.0
    ensures r == totalPeriodo * porcentaje / 100.0
  {
    if porcentaje != 0.0 then totalPeriodo * porcentaje / 100.0 else 0.0
  }

  /** A rate between 0 and 100 of a non-negative total is at most that total. */
  lemma CommissionBounds(totalPeriodo: real, porcentaje: real)
    requires 0.0 <= totalPeriodo && 0.0 <= porcentaje <= 100.0
    ensures 0.0 <= TotalComision(totalPeriodo, porcentaje) <= totalPeriodo
  {
    assert totalPeriodo * porcentaje <= totalPeriodo * 100.0;
  }

  /**
   * Two orders: 10 x 2 at cost 4 (flat fields) and 5 x 1 (snapshot fields).
   * The period total is 25, the profit 17, and a 10 % commission is 2.5.
   */
  lemma TwoOrderPeriod()
    ensures var o1 := Orden(Num(1), Some([Item(None, None, None, Some(10.0), None, Some(2), None,
                                               None, Some(4.0), None, None, None, None)]));
            var o2 := Orden(Num(2), Some([Item(None, None, None, None, Some(5.0), None, Some(1),
                                               None, None, None, None, None, None)]));
            TotalPeriodo([o1, o2]) == 25.0 && GananciaPeriodo([o1, o2]) == 17.0
            && TotalComision(TotalPeriodo([o1, o2]), 10.0) == 2.5
  {
    var o1 := Orden(Num(1), Some([Item(None, None, None, Some(10.0), None, Some(2), None,
                                       None, Some(4.0), None, None, None, None)]));
    var o2 := Orden(Num(2), Some([Item(None, None, None, None, Some(5.0), None, Some(1),
                                       None, None, None, None, None, None)]));
    var it1, it2 := OrderItems(o1)[0], OrderItems(o2)[0];
    assert LineTotal(it1) == 20.0 && LineProfit(it1) == 12.0;
    assert LineTotal(it2) == 5.0 && LineProfit(it2) == 5.0;
    FoldSumSingleton(it1, LineTotal);
    FoldSumSingleton(it1, LineProfit);
    FoldSumSingleton(it2, LineTotal);
    FoldSumSingleton(it2, LineProfit);
    FoldSumPair(o1, o2, OrderTotal);
    FoldSumPair(o1, o2, OrderProfit);
  }
}
