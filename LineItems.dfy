/**
 * The field resolver of the sales report page: line items arrive in several
 * shapes (mock data, backend snapshots, nested product or service records),
 * and each canonical value is picked from a fixed chain of candidate fields.
 *
 * Two kinds of chain occur. A `??` chain takes the first PRESENT candidate, so a
 * present `0` is kept. A `||` chain takes the first TRUTHY candidate, so a
 * present empty string falls through to the next one.
 */
module LineItems {
  import opened Wrappers

  /** An identifier as JavaScript sees it: a number or a string. */
  datatype Id = Num(n: int) | Str(s: string)

  /** `!id` is false: the only falsy identifiers are the number 0 and the empty string. */
  predicate IdTruthy(id: Id): (b: bool)
    ensures b <==> id != Num(0) && id != Str("")
  {
    match id
    case Num(n) => n != 0
    case Str(s) => s != ""
  }

  /** The nested product record an item may reference. */
  datatype Producto = Producto(
    precio: Option<real>,
    costo: Option<real>,
    descripcion: Option<string>,
    sku: Option<string>)

  /** The nested service record an item may reference. */
  datatype Servicio = Servicio(
    precio: Option<real>,
    descripcion: Option<string>)

  /** A line item with every field the page reads, each possibly absent. */
  datatype Item = Item(
    id: Option<Id>,
    tipo: Option<string>,
    nombre: Option<string>,
    price: Option<real>,
    precioUnitario: Option<real>,
    qty: Option<int>,
    cantidad: Option<int>,
    costoUnitario: Option<real>,
    costo: Option<real>,
    producto: Option<Producto>,
    productoId: Option<Id>,
    servicio: Option<Servicio>,
    servicioId: Option<Id>)

  // ---------------------------------------------------------------------------
  // The two kinds of fallback chain

  /** No candidate before index `i` is present. */
  predicate NoneBefore<T>(chain: seq<Option<T>>, i: int)
    requires 0 <= i <= |chain|
  {
    forall j :: 0 <= j < i ==> chain[j].None?
  }

  /**
   * `chain[0] ?? chain[1] ?? ... ?? default`: the first present candidate,
   * even when that candidate is zero or empty.
   */
  function FirstPresent<T>(chain: seq<Option<T>>, default: T): (r: T)
    ensures (forall i :: 0 <= i < |chain| ==> chain[i].None?) ==> r == default
    ensures forall i :: 0 <= i < |chain| && chain[i].Some? && NoneBefore(chain, i) ==> r == chain[i].value
    ensures r == default || exists i :: 0 <= i < |chain| && chain[i] == Some(r)
  {
    if chain == [] then default
    else match chain[0]
      case Some(v) => v
      case None =>
        var r := FirstPresent(chain[1..], default);
        assert forall i :: 1 <= i < |chain| && NoneBefore(chain, i) ==> NoneBefore(chain[1..], i - 1);
        assert forall i :: 1 <= i < |chain| ==> chain[i] == chain[1..][i - 1];
        r
  }

  /** Appending candidates to a `??` chain only replaces its default. */
  lemma {:induction false} FirstPresentAppend<T>(a: seq<Option<T>>, b: seq<Option<T>>, default: T)
    ensures FirstPresent(a + b, default) == FirstPresent(a, FirstPresent(b, default))
  {
    if a != [] {
      assert (a + b)[0] == a[0];
      assert (a + b)[1..] == a[1..] + b;
      FirstPresentAppend(a[1..], b, default);
    } else {
      assert a + b == b;
    }
  }

  /** Once some candidate is present, the default of a `??` chain is never used. */
  lemma {:induction false} FirstPresentIgnoresDefault<T>(chain: seq<Option<T>>, d1: T, d2: T)
    requires exists i :: 0 <= i < |chain| && chain[i].Some?
    ensures FirstPresent(chain, d1) == FirstPresent(chain, d2)
  {
    if chain[0].None? {
      var i :| 0 <= i < |chain| && chain[i].Some?;
      assert chain[1..][i - 1].Some?;
      FirstPresentIgnoresDefault(chain[1..], d1, d2);
    }
  }

  /** JavaScript truthiness of an optional string: present and non-empty. */
  predicate Truthy(s: Option<string>) {
    s.Some? && s.value != ""
  }

  /** No candidate before index `i` is truthy. */
  predicate NoneTruthyBefore(chain: seq<Option<string>>, i: int)
    requires 0 <= i <= |chain|
  {
    forall j :: 0 <= j < i ==> !Truthy(chain[j])
  }

  /**
   * `chain[0] || chain[1] || ... || fallback`: the first truthy candidate;
   * absent and empty candidates both fall through.
   */
  function FirstTruthy(chain: seq<Option<string>>, fallback: string): (r: string)
    ensures (forall i :: 0 <= i < |chain| ==> !Truthy(chain[i])) ==> r == fallback
    ensures forall i :: 0 <= i < |chain| && Truthy(chain[i]) && NoneTruthyBefore(chain, i) ==> r == chain[i].value
    ensures r == fallback || exists i :: 0 <= i < |chain| && Truthy(chain[i]) && chain[i].value == r
  {
    if chain == [] then fallback
    else if Truthy(chain[0]) then chain[0].value
    else
      var r := FirstTruthy(chain[1..], fallback);
      assert forall i :: 1 <= i < |chain| && NoneTruthyBefore(chain, i) ==> NoneTruthyBefore(chain[1..], i - 1);
      assert forall i :: 1 <= i < |chain| ==> chain[i] == chain[1..][i - 1];
      r
  }

  // ---------------------------------------------------------------------------
  // Optional chaining into the nested records: `it.producto?.precio` and friends

  function ProductoPrecio(it: Item): Option<real> {
    if it.producto.Some? then it.producto.value.precio else None
  }

  function ProductoCosto(it: Item): Option<real> {
    if it.producto.Some? then it.producto.value.costo else None
  }

  function ProductoDescripcion(it: Item): Option<string> {
    if it.producto.Some? then it.producto.value.descripcion else None
  }

  function ServicioPrecio(it: Item): Option<real> {
    if it.servicio.Some? then it.servicio.value.precio else None
  }

  function ServicioDescripcion(it: Item): Option<string> {
    if it.servicio.Some? then it.servicio.value.descripcion else None
  }

  // ---------------------------------------------------------------------------
  // Canonical values

  /** Candidates for the unit price used by the order total. */
  function PriceChain(it: Item): seq<Option<real>> {
    [it.price, it.precioUnitario, ProductoPrecio(it)]
  }

  /** Candidates for the unit price used by the profit: no nested product price. */
  function ProfitPriceChain(it: Item): seq<Option<real>> {
    [it.price, it.precioUnitario]
  }

  /** Candidates for the unit price shown in the detail dialog: the nested service price last. */
  function DetailPriceChain(it: Item): seq<Option<real>> {
    [it.price, it.precioUnitario, ProductoPrecio(it), ServicioPrecio(it)]
  }

  /** The unit price of the order total: `price ?? precio_unitario ?? producto?.precio ?? 0`. */
  function UnitPrice(it: Item): (r: real)
    ensures it.price.Some? ==> r == it.price.value
    ensures it.price.None? && it.precioUnitario.Some? ==> r == it.precioUnitario.value
    ensures it.price.None? && it.precioUnitario.None? && ProductoPrecio(it).Some? ==> r == ProductoPrecio(it).value
    ensures it.price.None? && it.precioUnitario.None? && ProductoPrecio(it).None? ==> r == 0.0
  {
    var c := PriceChain(it);
    assert c[0].None? ==> NoneBefore(c, 1);
    assert c[0].None? && c[1].None? ==> NoneBefore(c, 2);
    FirstPresent(c, 0.0)
  }

  /** The quantity: `qty ?? cantidad ?? 1`; a present 0 is kept. */
  function Quantity(it: Item): (r: int)
    ensures it.qty.Some? ==> r == it.qty.value
    ensures it.qty.None? && it.cantidad.Some? ==> r == it.cantidad.value
    ensures it.qty.None? && it.cantidad.None? ==> r == 1
  {
    var c := [it.qty, it.cantidad];
    assert c[0].None? ==> NoneBefore(c, 1);
    FirstPresent(c, 1)
  }

  /** The unit price of the profit: `price ?? precio_unitario ?? 0`. */
  function ProfitPrice(it: Item): (r: real)
    ensures it.price.Some? ==> r == it.price.value
    ensures it.price.None? && it.precioUnitario.Some? ==> r == it.precioUnitario.value
    ensures it.price.None? && it.precioUnitario.None? ==> r == 0.0
  {
    var c := ProfitPriceChain(it);
    assert c[0].None? ==> NoneBefore(c, 1);
    FirstPresent(c, 0.0)
  }

  /** The unit cost: `costo_unitario ?? costo ?? producto?.costo ?? 0`. */
  function UnitCost(it: Item): (r: real)
    ensures it.costoUnitario.Some? ==> r == it.costoUnitario.value
    ensures it.costoUnitario.None? && it.costo.Some? ==> r == it.costo.value
    ensures it.costoUnitario.None? && it.costo.None? && ProductoCosto(it).Some? ==> r == ProductoCosto(it).value
    ensures it.costoUnitario.None? && it.costo.None? && ProductoCosto(it).None? ==> r == 0.0
  {
    var c := [it.costoUnitario, it.costo, ProductoCosto(it)];
    assert c[0].None? ==> NoneBefore(c, 1);
    assert c[0].None? && c[1].None? ==> NoneBefore(c, 2);
    FirstPresent(c, 0.0)
  }

  /** The unit price of a detail row: the total's chain, then `servicio?.precio`, then 0. */
  function DetailPrice(it: Item): (r: real)
    ensures it.price.Some? ==> r == it.price.value
    ensures it.price.None? && it.precioUnitario.Some? ==> r == it.precioUnitario.value
    ensures it.price.None? && it.precioUnitario.None? && ProductoPrecio(it).Some? ==> r == ProductoPrecio(it).value
    ensures it.price.None? && it.precioUnitario.None? && ProductoPrecio(it).None? ==> r == ServicioPrecio(it).GetOr(0.0)
  {
    var c := DetailPriceChain(it);
    assert c[0].None? ==> NoneBefore(c, 1);
    assert c[0].None? && c[1].None? ==> NoneBefore(c, 2);
    assert c[0].None? && c[1].None? && c[2].None? ==> NoneBefore(c, 3);
    FirstPresent(c, 0.0)
  }

  /** Some candidate of the order total's price chain is present. */
  predicate HasListPrice(it: Item) {
    it.price.Some? || it.precioUnitario.Some? || ProductoPrecio(it).Some?
  }

  /**
   * The detail row's price extends the order total's chain by one candidate:
   * it agrees with `UnitPrice` whenever that chain finds a price, and otherwise
   * falls back to the service's price.
   */
  lemma DetailPriceExtendsUnitPrice(it: Item)
    ensures DetailPrice(it) == if HasListPrice(it) then UnitPrice(it) else ServicioPrecio(it).GetOr(0.0)
  {
    assert DetailPriceChain(it) == PriceChain(it) + [ServicioPrecio(it)];
    FirstPresentAppend(PriceChain(it), [ServicioPrecio(it)], 0.0);
    if HasListPrice(it) {
      assert PriceChain(it)[if it.price.Some? then 0 else if it.precioUnitario.Some? then 1 else 2].Some?;
      FirstPresentIgnoresDefault(PriceChain(it), FirstPresent([ServicioPrecio(it)], 0.0), 0.0);
    }
  }

  /** Whether the item carries a price of its own (`price` or `precio_unitario`). */
  predicate HasDirectPrice(it: Item) {
    it.price.Some? || it.precioUnitario.Some?
  }

  /** Whether the item carries no cost anywhere in the cost chain. */
  predicate HasNoCost(it: Item) {
    it.costoUnitario.None? && it.costo.None? && ProductoCosto(it).None?
  }

  /** With a price of its own, the profit's price and the total's price agree. */
  lemma DirectPriceAgrees(it: Item)
    requires HasDirectPrice(it)
    ensures ProfitPrice(it) == UnitPrice(it)
  {
    FirstPresentAppend(ProfitPriceChain(it), [ProductoPrecio(it)], 0.0);
    assert PriceChain(it) == ProfitPriceChain(it) + [ProductoPrecio(it)];
    assert ProfitPriceChain(it)[if it.price.Some? then 0 else 1].Some?;
    FirstPresentIgnoresDefault(ProfitPriceChain(it), FirstPresent([ProductoPrecio(it)], 0.0), 0.0);
  }

  // ---------------------------------------------------------------------------
  // Display name and SKU of a detail row

  /** Decimal digits of a natural number. */
  function Digits(n: nat): (r: string)
    ensures r != []
    decreases n
  {
    var d := ['0', '1', '2', '3', '4', '5', '6', '7', '8', '9'][n % 10];
    if n < 10 then [d] else Digits(n / 10) + [d]
  }

  /** How a template literal `${x}` renders an optional identifier. */
  function IdText(id: Option<Id>): string {
    match id
    case None => "undefined"
    case Some(Str(s)) => s
    case Some(Num(n)) => if n < 0 then "-" + Digits(-n) else Digits(n)
  }

  predicate IsServicio(it: Item) {
    it.tipo == Some("servicio")
  }

  /**
   * The synthesized label of an unnamed item: `Servicio #${servicio_id ?? id}` or
   * `Producto #${producto_id ?? id}`; with both ids absent the template prints `undefined`.
   */
  function FallbackName(it: Item): (r: string)
    ensures r != ""
    ensures IsServicio(it) && it.servicioId.Some? ==> r == "Servicio #" + IdText(it.servicioId)
    ensures IsServicio(it) && it.servicioId.None? && it.id.Some? ==> r == "Servicio #" + IdText(it.id)
    ensures IsServicio(it) && it.servicioId.None? && it.id.None? ==> r == "Servicio #undefined"
    ensures !IsServicio(it) && it.productoId.Some? ==> r == "Producto #" + IdText(it.productoId)
    ensures !IsServicio(it) && it.productoId.None? && it.id.Some? ==> r == "Producto #" + IdText(it.id)
    ensures !IsServicio(it) && it.productoId.None? && it.id.None? ==> r == "Producto #undefined"
  {
    if IsServicio(it) then "Servicio #" + IdText(if it.servicioId.Some? then it.servicioId else it.id)
    else "Producto #" + IdText(if it.productoId.Some? then it.productoId else it.id)
  }

  /** Candidates for the display name: the referenced record's description, then `nombre`. */
  function NameChain(it: Item): seq<Option<string>> {
    if IsServicio(it) then [ServicioDescripcion(it), it.nombre]
    else [ProductoDescripcion(it), it.nombre]
  }

  /**
   * The display name of a detail row. A service prefers its service's description,
   * anything else its product's; empty strings fall through to `nombre` and then
   * to the synthesized label, so the name is never empty.
   */
  function DisplayName(it: Item): (r: string)
    ensures r != ""
    ensures IsServicio(it) && Truthy(ServicioDescripcion(it)) ==> r == ServicioDescripcion(it).value
    ensures !IsServicio(it) && Truthy(ProductoDescripcion(it)) ==> r == ProductoDescripcion(it).value
    ensures !Truthy(NameChain(it)[0]) && Truthy(it.nombre) ==> r == it.nombre.value
    ensures !Truthy(NameChain(it)[0]) && !Truthy(it.nombre) ==> r == FallbackName(it)
  {
    var c := NameChain(it);
    assert NoneTruthyBefore(c, 0);
    assert !Truthy(c[0]) ==> NoneTruthyBefore(c, 1);
    FirstTruthy(c, FallbackName(it))
  }

  /** The SKU of a detail row: `it.producto.sku || ''`; the product record must exist. */
  function Sku(it: Item): (r: string)
    requires it.producto.Some?
    ensures r == it.producto.value.sku.GetOr("")
  {
    FirstTruthy([it.producto.value.sku], "")
  }
}
