/** `calculatePricing`: the pricing snapshot derived from the bundle, the
    selection and the quantities, and what the summary's add-to-cart button
    decides from it.

    The pricing loop keeps three accumulators (subtotal, original total and
    selected count). Each is a sum over the selected identifiers of one
    column of a line value, so one sum function, indexed by the column,
    describes all three. */
module BundlePricing {
  import opened Products
  import opened Selection
  import opened BundleView

  datatype Column = SubtotalColumn | OriginalColumn | CountColumn

  /** What one found product adds to a column at quantity `q`. */
  function LineValue(p: Product, q: int, c: Column): int {
    match c
    case SubtotalColumn => p.price * q
    case OriginalColumn => OriginalOrPrice(p) * q
    case CountColumn => 1
  }

  /** What the selected identifier `id` adds to a column: the line of the
      first product with that identifier, at the identifier's quantity, or
      nothing when the bundle holds no such product. */
  function Contribution(ps: seq<Product>, id: int, qty: map<int, int>, c: Column): int {
    match FindProduct(ps, id)
    case None => 0
    case Some(p) => LineValue(p, Qty(qty, id), c)
  }

  /** A column's accumulator after visiting the selected identifiers in
      insertion order, as the `forEach` over the `Set` does. Only identifiers
      found in the bundle are counted, so the count never exceeds the number
      of selected identifiers. */
  function SelectedSum(ps: seq<Product>, sel: seq<int>, qty: map<int, int>, c: Column): (r: int)
    ensures c == CountColumn ==> 0 <= r <= |sel|
    decreases |sel|
  {
    if sel == [] then 0
    else SelectedSum(ps, sel[..|sel| - 1], qty, c) + Contribution(ps, sel[|sel| - 1], qty, c)
  }

  /** The object `calculatePricing` returns. */
  datatype PricingSnapshot = PricingSnapshot(
    subtotal: int,
    originalTotal: int,
    discountAmount: int,
    selectedCount: nat,
    finalTotal: int
  )

  function Pricing(ps: seq<Product>, sel: seq<int>, qty: map<int, int>): (r: PricingSnapshot)
    ensures r.discountAmount == r.originalTotal - r.subtotal
    ensures r.finalTotal == r.subtotal
    ensures r.selectedCount <= |sel|
  {
    var subtotal := SelectedSum(ps, sel, qty, SubtotalColumn);
    var originalTotal := SelectedSum(ps, sel, qty, OriginalColumn);
    PricingSnapshot(subtotal, originalTotal, originalTotal - subtotal,
                    SelectedSum(ps, sel, qty, CountColumn), subtotal)
  }

  /** The add-to-cart button is disabled while an add is in progress or when
      no selected product was found. */
  predicate AddToCartDisabled(isAddingToCart: bool, pricing: PricingSnapshot) {
    isAddingToCart || pricing.selectedCount == 0
  }

  /** A column summed over a list of products, each at its stored quantity. */
  function ListSum(items: seq<Product>, qty: map<int, int>, c: Column): (r: int)
    ensures c == CountColumn ==> r == |items|
  {
    if items == [] then 0
    else LineValue(items[0], Qty(qty, items[0].id), c) + ListSum(items[1..], qty, c)
  }

  /** Against an empty bundle every selected identifier is stale. */
  lemma {:induction false} SelectedSumEmptyBundle(sel: seq<int>, qty: map<int, int>, c: Column)
    ensures SelectedSum([], sel, qty, c) == 0
    decreases |sel|
  {
    if sel != [] {
      SelectedSumEmptyBundle(sel[..|sel| - 1], qty, c);
    }
  }

  /** Peeling the first product off the bundle: it contributes its line
      exactly when its identifier is selected. */
  lemma {:induction false} SelectedSumCons(p: Product, rest: seq<Product>, sel: seq<int>, qty: map<int, int>, c: Column)
    requires p.id !in IdsOf(rest)
    requires NoDuplicates(sel)
    ensures SelectedSum([p] + rest, sel, qty, c)
         == (if p.id in sel then LineValue(p, Qty(qty, p.id), c) else 0) + SelectedSum(rest, sel, qty, c)
    decreases |sel|
  {
    if sel != [] {
      var init, x := sel[..|sel| - 1], sel[|sel| - 1];
      assert sel == init + [x];
      assert NoDuplicates(init) by {
        forall i, j | 0 <= i < j < |init| ensures init[i] != init[j] {
          assert init[i] == sel[i] && init[j] == sel[j];
        }
      }
      SelectedSumCons(p, rest, init, qty, c);
      FindProductCons(p, rest, x);
      if x == p.id {
        assert p.id !in init by {
          forall i | 0 <= i < |init| ensures init[i] != x {
            assert init[i] == sel[i];
          }
        }
      }
    }
  }

  /** For a bundle with distinct identifiers and a duplicate-free selection,
      visiting the selection in insertion order and looking each identifier up
      gives the same sums as going through the selected products in bundle
      order: the subtotal is the sum of price times quantity over the selected
      products, whatever order they were selected in. */
  lemma {:induction false} SelectionOrderIrrelevant(ps: seq<Product>, sel: seq<int>, qty: map<int, int>, c: Column)
    requires DistinctIds(ps)
    requires NoDuplicates(sel)
    ensures SelectedSum(ps, sel, qty, c) == ListSum(CompactSelection(ps, sel), qty, c)
  {
    if ps == [] {
      SelectedSumEmptyBundle(sel, qty, c);
    } else {
      var p, rest := ps[0], ps[1..];
      assert ps == [p] + rest;
      assert p.id !in IdsOf(rest) by {
        forall q | q in rest ensures q.id != p.id {
          var k :| 0 <= k < |rest| && rest[k] == q;
          assert ps[k + 1] == q;
        }
      }
      assert DistinctIds(rest) by {
        forall i, j | 0 <= i < j < |rest| ensures rest[i].id != rest[j].id {
          assert ps[i + 1] == rest[i] && ps[j + 1] == rest[j];
        }
      }
      SelectedSumCons(p, rest, sel, qty, c);
      SelectionOrderIrrelevant(rest, sel, qty, c);
    }
  }

  /** The whole snapshot in bundle order: subtotal and original total are the
      sums over the selected products of price, and of original-or-price,
      times quantity; the count is the number of products the compact view
      lists. */
  lemma PricingInBundleOrder(ps: seq<Product>, sel: seq<int>, qty: map<int, int>)
    requires DistinctIds(ps)
    requires NoDuplicates(sel)
    ensures Pricing(ps, sel, qty).subtotal == ListSum(CompactSelection(ps, sel), qty, SubtotalColumn)
    ensures Pricing(ps, sel, qty).originalTotal == ListSum(CompactSelection(ps, sel), qty, OriginalColumn)
    ensures Pricing(ps, sel, qty).selectedCount == |CompactSelection(ps, sel)|
  {
    SelectionOrderIrrelevant(ps, sel, qty, SubtotalColumn);
    SelectionOrderIrrelevant(ps, sel, qty, OriginalColumn);
    SelectionOrderIrrelevant(ps, sel, qty, CountColumn);
  }

  /** The selected identifiers that name a product of the bundle, in order. */
  function ListedOnly(ps: seq<Product>, sel: seq<int>): (r: seq<int>)
    ensures forall id :: id in r <==> id in sel && id in IdsOf(ps)
    decreases |sel|
  {
    if sel == [] then []
    else
      var init, x := sel[..|sel| - 1], sel[|sel| - 1];
      assert sel == init + [x];
      if x in IdsOf(ps) then ListedOnly(ps, init) + [x] else ListedOnly(ps, init)
  }

  /** Appending one identifier to the selection adds its contribution. */
  lemma SelectedSumSnoc(ps: seq<Product>, init: seq<int>, x: int, qty: map<int, int>, c: Column)
    ensures SelectedSum(ps, init + [x], qty, c) == SelectedSum(ps, init, qty, c) + Contribution(ps, x, qty, c)
  {
    assert (init + [x])[..|init|] == init;
  }

  /** Stale selected identifiers (not in the bundle) change nothing: every
      sum is that of the selection with them removed. */
  lemma {:induction false} StaleIdsIgnored(ps: seq<Product>, sel: seq<int>, qty: map<int, int>, c: Column)
    ensures SelectedSum(ps, sel, qty, c) == SelectedSum(ps, ListedOnly(ps, sel), qty, c)
    decreases |sel|
  {
    if sel != [] {
      var init, x := sel[..|sel| - 1], sel[|sel| - 1];
      StaleIdsIgnored(ps, init, qty, c);
      var kept := ListedOnly(ps, init);
      assert SelectedSum(ps, sel, qty, c) == SelectedSum(ps, init, qty, c) + Contribution(ps, x, qty, c);
      if x in IdsOf(ps) {
        assert ListedOnly(ps, sel) == kept + [x];
        SelectedSumSnoc(ps, kept, x, qty, c);
      } else {
        assert ListedOnly(ps, sel) == kept;
        assert FindProduct(ps, x).None?;
      }
    }
  }

  /** The count is zero exactly when no selected identifier names a product
      of the bundle. */
  lemma {:induction false} CountZeroIffNoneListed(ps: seq<Product>, sel: seq<int>, qty: map<int, int>)
    ensures SelectedSum(ps, sel, qty, CountColumn) == 0 <==> forall id :: id in sel ==> id !in IdsOf(ps)
    decreases |sel|
  {
    if sel != [] {
      var init, x := sel[..|sel| - 1], sel[|sel| - 1];
      assert sel == init + [x];
      CountZeroIffNoneListed(ps, init, qty);
    }
  }

  /** The add-to-cart button is disabled exactly when an add is in progress or
      none of the selected identifiers names a product of the bundle. */
  lemma AddToCartDisabledIff(isAddingToCart: bool, ps: seq<Product>, sel: seq<int>, qty: map<int, int>)
    ensures AddToCartDisabled(isAddingToCart, Pricing(ps, sel, qty))
        <==> isAddingToCart || forall id :: id in sel ==> id !in IdsOf(ps)
  {
    CountZeroIffNoneListed(ps, sel, qty);
  }

  /** When every selected product either carries no truthy original price or
      one equal to its price, the original total equals the subtotal and the
      discount is zero. */
  lemma {:induction false} UndiscountedSelectionNoDiscount(ps: seq<Product>, sel: seq<int>, qty: map<int, int>)
    requires forall id :: id in sel && FindProduct(ps, id).Some? ==>
      OriginalOrPrice(FindProduct(ps, id).value) == FindProduct(ps, id).value.price
    ensures Pricing(ps, sel, qty).discountAmount == 0
    ensures Pricing(ps, sel, qty).originalTotal == Pricing(ps, sel, qty).finalTotal
    decreases |sel|
  {
    if sel != [] {
      var init := sel[..|sel| - 1];
      assert forall id :: id in init ==> id in sel;
      UndiscountedSelectionNoDiscount(ps, init, qty);
    }
  }

  /** The original-total column never falls below the subtotal column when
      no product's original price is below its price. */
  lemma {:induction false} OriginalCoversSubtotal(ps: seq<Product>, sel: seq<int>, qty: map<int, int>)
    requires forall p :: p in ps ==> OriginalOrPrice(p) >= p.price
    requires QuantitiesInRange(qty)
    ensures SelectedSum(ps, sel, qty, OriginalColumn) >= SelectedSum(ps, sel, qty, SubtotalColumn)
    decreases |sel|
  {
    if sel != [] {
      var init, x := sel[..|sel| - 1], sel[|sel| - 1];
      OriginalCoversSubtotal(ps, init, qty);
      match FindProduct(ps, x)
      case None =>
      case Some(p) =>
        assert p in ps;
        ScaleKeepsOrder(OriginalOrPrice(p), p.price, Qty(qty, x));
    }
  }

  lemma ScaleKeepsOrder(a: int, b: int, q: int)
    requires a >= b && q >= 0
    ensures a * q >= b * q
  {
    assert a * q - b * q == (a - b) * q;
  }

  /** When every product's original price is at least its price and every
      stored quantity lies in [1, 10], the discount is never negative. */
  lemma DiscountNonNegative(ps: seq<Product>, sel: seq<int>, qty: map<int, int>)
    requires forall p :: p in ps ==> OriginalOrPrice(p) >= p.price
    requires QuantitiesInRange(qty)
    ensures Pricing(ps, sel, qty).discountAmount >= 0
  {
    OriginalCoversSubtotal(ps, sel, qty);
  }

  /** With only the main product (identifier 1, first in the bundle) selected,
      one item is counted and the final total is its price times its quantity. */
  lemma MainOnlyPricing(ps: seq<Product>, qty: map<int, int>)
    requires |ps| > 0 && ps[0].id == LockedId
    ensures Pricing(ps, [LockedId], qty).selectedCount == 1
    ensures Pricing(ps, [LockedId], qty).finalTotal == ps[0].price * Qty(qty, LockedId)
  {
    assert [LockedId][..0] == [];
    FindProductCons(ps[0], ps[1..], LockedId);
    assert ps == [ps[0]] + ps[1..];
    assert Contribution(ps, LockedId, qty, SubtotalColumn) == ps[0].price * Qty(qty, LockedId);
    assert SelectedSum(ps, [LockedId], qty, SubtotalColumn)
        == SelectedSum(ps, [], qty, SubtotalColumn) + Contribution(ps, LockedId, qty, SubtotalColumn);
  }

  /** The default bundle with products 1 and 2 selected at quantity 1 (stored
      or defaulted): $349.98 to pay, $469.98 before discounts, $120.00 saved,
      two items. */
  lemma DefaultBundleExample(qty: map<int, int>)
    requires Qty(qty, 1) == 1 && Qty(qty, 2) == 1
    ensures Pricing(DefaultProducts(), [1, 2], qty) == PricingSnapshot(34998, 46998, 12000, 2, 34998)
  {
    var ps := DefaultProducts();
    assert ps == [ps[0]] + ps[1..];
    assert ps[1..] == [ps[1]] + ps[2..];
    FindProductCons(ps[0], ps[1..], 1);
    FindProductCons(ps[0], ps[1..], 2);
    FindProductCons(ps[1], ps[2..], 2);
    assert FindProduct(ps, 1) == Some(ps[0]);
    assert FindProduct(ps, 2) == Some(ps[1]);
    assert [1, 2][..1] == [1];
    assert [1][..0] == [];
    forall c: Column
      ensures SelectedSum(ps, [1, 2], qty, c) == Contribution(ps, 1, qty, c) + Contribution(ps, 2, qty, c)
    {
      assert SelectedSum(ps, [1], qty, c) == Contribution(ps, 1, qty, c);
    }
  }
}
