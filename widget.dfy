/** The bundle component's state and its handlers. React keeps the selection
    `Set` and the quantity `Map` in state hooks; each handler copies the
    collection, edits the copy and stores it back, which amounts to updating
    the field in place, so the component is a class whose methods reassign
    its fields. */
module BundleWidget {
  import opened Products
  import opened Selection
  import opened BundlePricing

  class UniversalBundleWidget {
    /** `[mainProduct, ...relatedProducts]`: the main product is index 0. */
    const allProducts: seq<Product>
    /** `options.autoSelectMain`. */
    const autoSelectMain: bool
    /** The `selectedProducts` set, in insertion order. */
    var selectedProducts: seq<int>
    /** The `quantities` map. */
    var quantities: map<int, int>

    /** What every handler preserves: the selection is a set, every stored
        quantity lies in [1, 10], and while `autoSelectMain` is set the
        locked identifier stays selected. */
    ghost predicate Valid()
      reads this
    {
      NoDuplicates(selectedProducts) &&
      QuantitiesInRange(quantities) &&
      (autoSelectMain ==> LockedId in selectedProducts)
    }

    /** The initial state: identifier 1 selected (whatever the main product's
        identifier is) and quantity 1 stored for identifier 1. */
    constructor (mainProduct: Product, relatedProducts: seq<Product>, autoSelectMain: bool)
      ensures Valid()
      ensures allProducts == [mainProduct] + relatedProducts
      ensures this.autoSelectMain == autoSelectMain
      ensures selectedProducts == [LockedId]
      ensures quantities == map[LockedId := 1]
    {
      allProducts := [mainProduct] + relatedProducts;
      this.autoSelectMain := autoSelectMain;
      selectedProducts := [LockedId];
      quantities := map[LockedId := 1];
    }

    /** The mount effect: the quantity map is replaced by one holding 1 for
        every product of the bundle (and nothing else). */
    method MountQuantities()
      requires Valid()
      modifies this`quantities
      ensures Valid()
      ensures quantities.Keys == IdsOf(allProducts)
      ensures forall id :: id in quantities ==> quantities[id] == 1
    {
      var initialQuantities := InitialQuantities(allProducts);
      quantities := initialQuantities;
    }

    /** `handleProductToggle`. */
    method HandleProductToggle(productId: int)
      requires Valid()
      modifies this`selectedProducts
      ensures Valid()
      ensures selectedProducts == ToggledSelection(old(selectedProducts), productId, autoSelectMain)
      ensures productId == LockedId && autoSelectMain ==> selectedProducts == old(selectedProducts)
      ensures !(productId == LockedId && autoSelectMain) ==>
        (productId in selectedProducts <==> productId !in old(selectedProducts))
    {
      if productId == LockedId && autoSelectMain {
        return;
      }
      var newSelected := selectedProducts;
      if productId in newSelected {
        newSelected := Without(newSelected, productId);
      } else {
        newSelected := newSelected + [productId];
      }
      selectedProducts := newSelected;
    }

    /** `handleQuantityChange`. */
    method HandleQuantityChange(productId: int, newQuantity: int)
      requires Valid()
      modifies this`quantities
      ensures Valid()
      ensures quantities == QuantityUpdated(old(quantities), productId, newQuantity)
    {
      if newQuantity < MinQuantity || newQuantity > MaxQuantity {
        return;
      }
      var newQuantities := quantities;
      newQuantities := newQuantities[productId := newQuantity];
      quantities := newQuantities;
    }

    /** `calculatePricing`: one pass over the selection in insertion order,
        looking each identifier up in the bundle and skipping the ones it
        does not hold. */
    method CalculatePricing() returns (pricing: PricingSnapshot)
      ensures pricing == Pricing(allProducts, selectedProducts, quantities)
    {
      var subtotal, originalTotal := 0, 0;
      var selectedCount: nat := 0;
      var i := 0;
      while i < |selectedProducts|
        invariant 0 <= i <= |selectedProducts|
        invariant subtotal == SelectedSum(allProducts, selectedProducts[..i], quantities, SubtotalColumn)
        invariant originalTotal == SelectedSum(allProducts, selectedProducts[..i], quantities, OriginalColumn)
        invariant selectedCount == SelectedSum(allProducts, selectedProducts[..i], quantities, CountColumn)
      {
        var productId := selectedProducts[i];
        var product := FindProduct(allProducts, productId);
        var quantity := Qty(quantities, productId);
        if product.Some? {
          subtotal := subtotal + product.value.price * quantity;
          originalTotal := originalTotal + OriginalOrPrice(product.value) * quantity;
          selectedCount := selectedCount + 1;
        }
        assert selectedProducts[..i + 1][..i] == selectedProducts[..i];
        i := i + 1;
      }
      assert selectedProducts[..i] == selectedProducts;
      var discountAmount := originalTotal - subtotal;
      pricing := PricingSnapshot(subtotal, originalTotal, discountAmount, selectedCount, subtotal);
    }
  }

  /** The widget with its default props: after mounting, ticking product 2
      gives the default bundle example's snapshot. */
  method DefaultBundleScenario() returns (pricing: PricingSnapshot)
    ensures pricing == PricingSnapshot(34998, 46998, 12000, 2, 34998)
  {
    var defaults := DefaultProducts();
    var widget := new UniversalBundleWidget(defaults[0], defaults[1..], true);
    assert widget.allProducts == defaults;
    widget.MountQuantities();
    assert defaults[0] in defaults && defaults[1] in defaults;
    widget.HandleProductToggle(2);
    assert widget.selectedProducts == [1, 2];
    pricing := widget.CalculatePricing();
    DefaultBundleExample(widget.quantities);
  }
}
