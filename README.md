# Sales report engine of the `Reportes` page

A Dafny model of the reporting engine inside the `Reportes` page of a shop
front-end (`src/pages/Reportes.jsx`). The page lists the sales orders of a date
range, shows the period's revenue and profit, and opens one order's line items in
a detail dialog. Three parts are modelled:

- **Field resolution** (`LineItems.dfy`). Line items arrive in several shapes:
  flat mock fields (`price`, `qty`), backend snapshots (`precio_unitario`,
  `cantidad`), or nested `producto` / `servicio` records. Every optional field is an
  `Option`. A `??` chain is `FirstPresent`, which takes the first present
  candidate, so a present `0` is kept. A `||` chain is `FirstTruthy`, which takes
  the first non-empty string, so `""` falls through. Three price chains exist and
  they differ. The order total uses `price ?? precio_unitario ?? producto?.precio ?? 0`.
  The profit uses `price ?? precio_unitario ?? 0`. The detail row adds
  `servicio?.precio` before the final 0.
- **Aggregation** (`Aggregator.dfy`). Each `reduce` is the left fold `FoldSum`.
  `calcTotal` and `calcGanancia` are folds over one order's items.
  `totalPeriodo` and `gananciaPeriodo` are folds over the loaded orders, with
  `o.items || []` for a missing item list. `totalComision` is a guarded
  percentage of the period total. Money is exact `real` and quantities are
  `int`.
- **Order store** (`OrderStore.dfy`). The class `Reportes` holds the page state:
  `ordenes`, `ordenSel`, `deletingId` and `porcentajeComision`. `CargarOrdenes`
  takes the outcome of the `GET` request as a parameter: `Some(list)` on success
  and `None` on failure. `HandleDeleteOrden` takes the confirmation answer and the
  outcome of the `DELETE` request as booleans. It returns whether the request was
  issued. `RemoveId` is the `filter(o => o.id !== id)` that a successful delete
  applies.

The model keeps the following behaviours of the code as written, although a
reader might expect otherwise:
- A reload does not clear a selection whose order is gone.
- Nothing rejects a second delete of an order whose delete is already in flight.
  Only the disabled buttons prevent it.
- A delete does not check that the id is loaded. Filtering an absent id changes
  nothing (`RemoveIdAbsent`).
- The order total has no `servicio.precio` fallback. Only the dialog rows have it.
  The dialog's rows and its Total row agree when every item finds a price in
  `calcTotal`'s chain (`DetailRowsMatchTotal`).
  `DetailRowsCanDisagreeWithTotal` gives an item where they differ.

The file never calls `setPorcentajeComision`, so on the page the rate stays at
its initial 0 and the commission is 0 (`TotalComision`, `Reportes.Commission`).

## Model

| member | source | states |
|---|---|---|
| LineItems.FirstPresent | src/pages/Reportes.jsx:20-21 | a `??` chain returns the first present candidate, even a present zero, and the default only when every candidate is absent |
| LineItems.FirstPresentAppend | src/pages/Reportes.jsx:262-266 | appending candidates to a `??` chain only replaces the default of the shorter chain |
| LineItems.FirstPresentIgnoresDefault | src/pages/Reportes.jsx:29 | once any candidate is present, the chain's final default is irrelevant |
| LineItems.FirstTruthy | src/pages/Reportes.jsx:248-256 | a logical-or chain returns the first present non-empty string; absent and empty candidates fall through to the fallback |
| LineItems.UnitPrice | src/pages/Reportes.jsx:20 | the total's unit price is `price`, else `precio_unitario`, else the product's `precio`, else 0; a present 0 wins |
| LineItems.Quantity | src/pages/Reportes.jsx:21 | the quantity is `qty`, else `cantidad`, else 1; a present 0 is kept |
| LineItems.ProfitPrice | src/pages/Reportes.jsx:29 | the profit's unit price is `price`, else `precio_unitario`, else 0; the product's price is never consulted |
| LineItems.UnitCost | src/pages/Reportes.jsx:31-35 | the unit cost is `costo_unitario`, else `costo`, else the product's `costo`, else 0 |
| LineItems.DetailPrice | src/pages/Reportes.jsx:262-266 | the detail row's price follows the total's chain and then the service's `precio` before 0 |
| LineItems.DetailPriceExtendsUnitPrice | src/pages/Reportes.jsx:262-266 | the detail price equals the total's unit price whenever that chain finds a price, and is the service price (or 0) otherwise |
| LineItems.DirectPriceAgrees | src/pages/Reportes.jsx:29 | for an item with `price` or `precio_unitario`, the profit's price and the total's price coincide |
| LineItems.IdTruthy | src/pages/Reportes.jsx:76 | an id passes the `!id` guard exactly when it is neither the number 0 nor the empty string |
| LineItems.FallbackName | src/pages/Reportes.jsx:251-256 | the synthesized label is `Servicio #` (for a service) or `Producto #` (otherwise) followed by the referenced record's id when present, else the item's id, else `undefined`; it is never empty |
| LineItems.DisplayName | src/pages/Reportes.jsx:246-257 | a service prefers its service's description, anything else its product's, then `nombre`, then the label; empty strings fall through; the name is never empty |
| LineItems.Sku | src/pages/Reportes.jsx:260 | with the product record present, the SKU is its `sku`, or `""` when absent |
| Aggregator.FoldSumAppend | src/pages/Reportes.jsx:19-23 | the `reduce` sum is additive over concatenation |
| Aggregator.FoldSumPermutation | src/pages/Reportes.jsx:19-23 | the `reduce` sum is the same for any permutation of its input |
| Aggregator.FoldSumRemove | src/pages/Reportes.jsx:94-97 | taking one element out of a `reduce` sum subtracts exactly its value |
| Aggregator.FoldSumNonNegative | src/pages/Reportes.jsx:19-23 | a `reduce` sum of non-negative values is non-negative |
| Aggregator.LineTotal | src/pages/Reportes.jsx:20-22 | an item without `qty` or `cantidad` adds exactly its unit price to `calcTotal`; a non-negative price and quantity add a non-negative amount |
| Aggregator.LineProfit | src/pages/Reportes.jsx:29-36 | an item with `price` or `precio_unitario` adds its total share minus its cost to `calcGanancia`; any other item adds only minus its cost; without a quantity field it adds price minus cost |
| Aggregator.CalcTotal | src/pages/Reportes.jsx:18-24 | `calcTotal` is non-negative when every item's price and quantity are; its fold laws are `CalcTotalAdditive` and `CalcTotalPermutation` |
| Aggregator.CalcGanancia | src/pages/Reportes.jsx:27-38 | `calcGanancia` is non-negative when no item sells below cost or in a negative quantity; its relation to `calcTotal` is `ProfitIsTotalMinusCost` |
| Aggregator.CalcTotalAdditive | src/pages/Reportes.jsx:18-38 | `calcTotal([])` is 0; `calcTotal` and `calcGanancia` of a concatenation are the sums of the parts |
| Aggregator.CalcTotalPermutation | src/pages/Reportes.jsx:18-38 | reordering an order's items changes neither its total nor its profit |
| Aggregator.ProfitIsTotalMinusCost | src/pages/Reportes.jsx:27-38 | when every item has `price` or `precio_unitario`, `calcGanancia` equals `calcTotal` minus the sum of cost times quantity |
| Aggregator.ProfitIsTotalWithoutCosts | src/pages/Reportes.jsx:27-38 | when, in addition, no item has a cost anywhere in its chain, `calcGanancia` equals `calcTotal` |
| Aggregator.ProfitIgnoresProductoPrecio | src/pages/Reportes.jsx:29-36 | an item priced only through its product adds its product price times quantity to the total but only minus its cost to the profit |
| Aggregator.DetailSubtotal | src/pages/Reportes.jsx:262-276 | a dialog row's subtotal equals the item's share of `calcTotal` when the total's price chain finds a price, and the service's price (or 0) times quantity otherwise |
| Aggregator.DetailRowsMatchTotal | src/pages/Reportes.jsx:262-287 | the dialog's row subtotals add up to its Total row when every item finds a price in `calcTotal`'s chain |
| Aggregator.DetailRowsCanDisagreeWithTotal | src/pages/Reportes.jsx:262-287 | some item with a product record has a row subtotal that the Total row does not count |
| Aggregator.OrderItems | src/pages/Reportes.jsx:95 | the logical-or fallback of `o.items` to `[]` is the order's item list when present (even an empty one) and no items when missing |
| Aggregator.PeriodIsSumOverAllItems | src/pages/Reportes.jsx:94-102 | folding the order totals (profits) equals `calcTotal` (`calcGanancia`) over all items of all orders, where a missing item list adds nothing |
| Aggregator.TotalPeriodo | src/pages/Reportes.jsx:94-97 | `totalPeriodo` equals `calcTotal` over every item of every loaded order |
| Aggregator.GananciaPeriodo | src/pages/Reportes.jsx:99-102 | `gananciaPeriodo` equals `calcGanancia` over every item of every loaded order |
| Aggregator.PeriodPermutation | src/pages/Reportes.jsx:94-102 | reordering the loaded orders changes neither period figure |
| Aggregator.OrderWithoutItemsAddsNothing | src/pages/Reportes.jsx:94-102 | an order without an item list contributes 0 to the period total and profit |
| Aggregator.PeriodProfitIsTotalMinusCost | src/pages/Reportes.jsx:94-102 | over a period whose items all carry their own price, the period profit is the period total minus the total cost |
| Aggregator.TotalComision | src/pages/Reportes.jsx:106-109 | the commission is exactly 0 at rate 0 and `total * rate / 100` otherwise; in exact arithmetic the guard does not change the value |
| Aggregator.CommissionBounds | src/pages/Reportes.jsx:104-109 | a rate in [0, 100] of a non-negative total lies between 0 and that total |
| Aggregator.TwoOrderPeriod | src/pages/Reportes.jsx:94-109 | two orders (10 x 2 at cost 4, and 5 x 1) give total 25, profit 17 and commission 2.5 at 10 % |
| OrderStore.RemoveId | src/pages/Reportes.jsx:84 | the filtered collection is never longer than the original |
| OrderStore.RemoveIdMembers | src/pages/Reportes.jsx:84 | the filtered collection holds exactly the orders whose id differs from the deleted id |
| OrderStore.RemoveIdAppend | src/pages/Reportes.jsx:84 | filtering distributes over concatenation, so the kept orders keep their relative order |
| OrderStore.RemoveIdAbsent | src/pages/Reportes.jsx:84 | filtering an id that no loaded order has leaves the collection unchanged |
| OrderStore.RemoveIdIdempotent | src/pages/Reportes.jsx:84 | filtering the same id a second time changes nothing |
| OrderStore.RemoveIdShrinks | src/pages/Reportes.jsx:84 | when some order has the id, the collection gets strictly shorter |
| OrderStore.RemoveIdSingleton | src/pages/Reportes.jsx:84 | a lone order is dropped exactly when its id matches |
| OrderStore.RemoveIdBetween | src/pages/Reportes.jsx:84 | between two runs without the id, filtering removes exactly the one matching order |
| OrderStore.RemoveUniqueId | src/pages/Reportes.jsx:84 | with unique ids, deleting the order at position i leaves the collection with exactly that position cut out |
| OrderStore.RemoveUniqueIdLowersPeriod | src/pages/Reportes.jsx:84-102 | with unique ids, a successful delete lowers the period total and profit by exactly the deleted order's total and profit |
| OrderStore.Reportes.constructor | src/pages/Reportes.jsx:41-47 | the page starts with no orders, no selection, no delete in flight and commission rate 0 |
| OrderStore.Reportes.Filtered | src/pages/Reportes.jsx:49-55 | `filtered` is always exactly the loaded collection |
| OrderStore.Reportes.PeriodTotal | src/pages/Reportes.jsx:94-97 | the page's period total, computed over `filtered`, is `calcTotal` over every item of every loaded order |
| OrderStore.Reportes.PeriodProfit | src/pages/Reportes.jsx:99-102 | the page's period profit, computed over `filtered`, is `calcGanancia` over every item of every loaded order |
| OrderStore.Reportes.Commission | src/pages/Reportes.jsx:104-109 | the page's commission is 0 at rate 0 and the rate's percentage of the loaded period total otherwise |
| OrderStore.Reportes.SetPorcentajeComision | src/pages/Reportes.jsx:104 | the rate setter changes the rate and nothing else |
| OrderStore.Reportes.SelectOrden | src/pages/Reportes.jsx:182 | opening a row or closing the dialog sets the selection and nothing else |
| OrderStore.Reportes.CargarOrdenes | src/pages/Reportes.jsx:59-73 | a successful load replaces `ordenes` wholesale with the response; a failed one leaves it unchanged; the selection and the delete marker are never touched |
| OrderStore.Reportes.HandleDeleteOrden | src/pages/Reportes.jsx:75-91 | the request is issued iff the id is truthy and confirmed. A guarded exit changes nothing. On success the id's orders are filtered out in order and the selection is cleared iff it has that id. On failure the orders and the selection are kept. After any issued request the marker is null |

## Left out

- Rendering with React and MUI (lines 122-308), the `toFixed(2)` formatting and JavaScript floating point. Money is exact `real` and quantities are `int`. Prices that JavaScript would coerce from strings, and `NaN`, are not modelled.
- HTTP: `fetch`, `API_BASE_URL`, `res.json()`, and the `inicio`/`fin` query string that `cargarOrdenes` builds from its two ISO bounds (lines 61-68). The response of a load and the success of a delete are parameters. `console.error` is not modelled.
- `window.confirm` (line 77) is the `confirmed` parameter.
- The date range state and the effect that reloads on a range change (lines 43-46, 112-120). Day normalisation and ISO conversion depend on dayjs and on the time zone.
- Overlapping asynchronous loads and deletes. The code discards no stale response and has no duplicate-delete guard, so neither is a property of the model.
- OrderStore.Reportes.HandleDeleteOrden: the marker `deletingId` holds the id only while the request is in flight. The model states the state before and after the call, not during it. It also reads `ordenSel` at the time of the call, while the page's handler reads the value its render captured.
- Orders carry only `id` and `items`. `fecha`, `codigo` and `cliente` are only displayed.
- `null` and `undefined` are both `None`. A template literal would print an absent id as `null` or `undefined`; the model always prints `undefined`.
- LineItems.Sku: the code throws at line 260 when an item has no `producto`. The model makes the product record a precondition and does not model that failure.
- The dialog's Total row calls `calcTotal(ordenSel.items)` without `|| []`. That throws for an order with no item list, and the model does not represent the failure.
