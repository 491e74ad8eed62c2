/** Products of a bundle and the lookups the widget performs on the bundle list.

    Prices are integer cents: the widget's prices are JavaScript numbers with two
    decimals, and cents keep every sum exact. */
module Products {

  datatype Option<+T> = None | Some(value: T)

  /** One product record as the widget receives it. Optional fields of the
      record are `Option`s; `isNew` is `false` when the record leaves it out. */
  datatype Product = Product(
    id: int,
    name: string,
    price: int,                 // cents
    originalPrice: Option<int>, // cents, when the record carries one
    discount: Option<int>,      // advertised percentage, when present
    isNew: bool
  )

  /** JavaScript truthiness of an optional number: absent and 0 are falsy. */
  predicate Truthy(x: Option<int>) {
    x.Some? && x.value != 0
  }

  /** `product.originalPrice || product.price`: the original price when it is
      present and nonzero, the sale price otherwise. */
  function OriginalOrPrice(p: Product): (r: int)
    ensures Truthy(p.originalPrice) ==> r == p.originalPrice.value
    ensures !Truthy(p.originalPrice) ==> r == p.price
  {
    if Truthy(p.originalPrice) then p.originalPrice.value else p.price
  }

  /** Identifiers that occur in a product list. */
  function IdsOf(ps: seq<Product>): set<int> {
    set p | p in ps :: p.id
  }

  /** No two products of the list share an identifier. */
  predicate DistinctIds(ps: seq<Product>) {
    forall i, j :: 0 <= i < j < |ps| ==> ps[i].id != ps[j].id
  }

  /** Index of the first product with identifier `id` (`Array.prototype.find`
      stops at the first match), or `None` when no product has it. */
  function FindIndex(ps: seq<Product>, id: int): (r: Option<nat>)
    ensures r.Some? ==> r.value < |ps| && ps[r.value].id == id
    ensures r.Some? ==> forall j :: 0 <= j < r.value ==> ps[j].id != id
    ensures r.None? <==> id !in IdsOf(ps)
  {
    if ps == [] then None
    else if ps[0].id == id then Some(0)
    else
      match FindIndex(ps[1..], id)
      case None =>
        assert ps == [ps[0]] + ps[1..];
        None
      case Some(i) => Some(i + 1)
  }

  /** `allProducts.find((p) => p.id === id)`. */
  function FindProduct(ps: seq<Product>, id: int): (r: Option<Product>)
    ensures r.Some? ==> r.value in ps && r.value.id == id
    ensures r.None? <==> id !in IdsOf(ps)
  {
    match FindIndex(ps, id)
    case None => None
    case Some(i) => Some(ps[i])
  }

  /** Looking up in `[p] + rest` finds `p` for its own identifier and otherwise
      whatever `rest` finds. */
  lemma {:induction false} FindProductCons(p: Product, rest: seq<Product>, id: int)
    ensures FindProduct([p] + rest, id) == if id == p.id then Some(p) else FindProduct(rest, id)
  {
    var ps := [p] + rest;
    assert ps[1..] == rest;
  }

  /** The five products the widget shows when it is given no props: the main
      product first, then the related products in their order. */
  function DefaultProducts(): seq<Product> {
    [ Product(1, "Premium Wireless Headphones", 29999, Some(39999), None, false),
      Product(2, "Wireless Charging Pad", 4999, Some(6999), Some(29), false),
      Product(3, "Premium Phone Case", 2499, Some(3499), Some(28), false),
      Product(4, "USB-C Fast Cable", 1999, None, None, true),
      Product(5, "Bluetooth Speaker", 8999, Some(12999), Some(31), false) ]
  }
}
