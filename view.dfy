/** The two decisions the widget's markup makes from product data and the
    selection: which badge a product card shows, and which products the
    compact (mobile) view lists, with a "+" separator between neighbours. */
module BundleView {
  import opened Products

  datatype Badge = Featured | PercentOff(percent: int) | New | NoBadge

  /** `ProductBadge`: the first matching branch wins, in the order main
      product, truthy discount, `isNew`. */
  function ProductBadge(p: Product, isMain: bool): (b: Badge)
    ensures b == Featured <==> isMain
    ensures b.PercentOff? <==> !isMain && Truthy(p.discount)
    ensures b.PercentOff? ==> b.percent == p.discount.value && b.percent != 0
    ensures b == New <==> !isMain && !Truthy(p.discount) && p.isNew
    ensures b == NoBadge <==> !isMain && !Truthy(p.discount) && !p.isNew
  {
    if isMain then Featured
    else if Truthy(p.discount) then PercentOff(p.discount.value)
    else if p.isNew then New
    else NoBadge
  }

  /** `allProducts.filter((p) => selectedProducts.has(p.id))`: the selected
      products in bundle order (not in selection order). */
  function CompactSelection(ps: seq<Product>, sel: seq<int>): (r: seq<Product>)
    ensures |r| <= |ps|
    ensures forall p :: p in r <==> p in ps && p.id in sel
  {
    if ps == [] then []
    else if ps[0].id in sel then [ps[0]] + CompactSelection(ps[1..], sel)
    else
      assert forall p :: p in ps <==> p == ps[0] || p in ps[1..];
      CompactSelection(ps[1..], sel)
  }

  /** The filter keeps bundle order: filtering a concatenation concatenates
      the filtered parts. */
  lemma {:induction false} CompactSelectionKeepsOrder(ps1: seq<Product>, ps2: seq<Product>, sel: seq<int>)
    ensures CompactSelection(ps1 + ps2, sel) == CompactSelection(ps1, sel) + CompactSelection(ps2, sel)
  {
    if ps1 != [] {
      assert (ps1 + ps2)[1..] == ps1[1..] + ps2;
      CompactSelectionKeepsOrder(ps1[1..], ps2, sel);
    } else {
      assert ps1 + ps2 == ps2;
    }
  }

  /** Whether item `index` of an `n`-item list is followed by a separator
      (`index < selectedProductsData.length - 1`). */
  predicate SeparatorAfter(index: nat, n: nat) {
    index < n - 1
  }

  /** Number of separators rendered for items `from .. n-1`. */
  function SeparatorsFrom(from: nat, n: nat): nat
    decreases n - from
  {
    if from >= n then 0
    else (if SeparatorAfter(from, n) then 1 else 0) + SeparatorsFrom(from + 1, n)
  }

  lemma {:induction false} SeparatorsFromCount(from: nat, n: nat)
    ensures SeparatorsFrom(from, n) == if from >= n then 0 else n - 1 - from
    decreases n - from
  {
    if from < n {
      SeparatorsFromCount(from + 1, n);
    }
  }

  /** A list of `n` selected products shows one separator between each
      consecutive pair: `n - 1` of them, none for an empty list. */
  lemma {:induction false} SeparatorCount(n: nat)
    ensures SeparatorsFrom(0, n) == if n == 0 then 0 else n - 1
  {
    SeparatorsFromCount(0, n);
  }
}
