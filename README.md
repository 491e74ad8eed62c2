# Bundle widget: selection, quantities and pricing

This project models the state and pricing logic of `UniversalBundleWidget`. That is a
React component that shows a main product with related products. The shopper ticks
products into a bundle, picks quantities, and sees the bundle's price and saving. The
model covers four things:

- **Selection set** (`Selection`, `BundleWidget`). The set of selected product ids starts
  as `{1}`. `handleProductToggle` flips one id. It ignores id `1` while `autoSelectMain`
  is on. The lock uses the literal id 1, not the main product's id, and the model keeps
  that. A JavaScript `Set` iterates in insertion order, so the model stores the selection
  as a sequence without duplicates: `add` appends, and `delete` removes the id while the
  other ids keep their order.
- **Quantity map** (`Selection`, `BundleWidget`). The map starts as `{1: 1}`. The mount
  effect then replaces it with quantity 1 for every product of the bundle.
  `handleQuantityChange` stores a quantity only when it lies in [1, 10]. It does not check
  that the id belongs to the bundle. A missing (or falsy) quantity reads as 1.
- **Pricing** (`BundlePricing`, `BundleWidget.UniversalBundleWidget.CalculatePricing`).
  One pass over the selected ids, in insertion order. It looks up each id with `find`, so
  the first product with that id wins, and it skips ids the bundle does not hold. Each
  found product adds `price × quantity` to the subtotal and `(originalPrice || price) ×
  quantity` to the original total, and adds 1 to the count.
  `discountAmount = originalTotal − subtotal` and `finalTotal = subtotal`.
- **View decisions** (`BundleView`). These are the product badge and the compact view's
  list of selected products, in bundle order, with a "+" between neighbours.

The component's class keeps three facts true across every handler: the selection has no
duplicates, every stored quantity is in [1, 10], and with `autoSelectMain` on, id 1 stays
selected.

Prices are JavaScript numbers with two decimals. The model uses integer cents, so every
sum is exact. `originalPrice` and `discount` are optional numbers. Their truthiness (an
absent value or 0 is falsy) is written out as `Truthy`.

Three consequences of the code as written:

- In the default props the main product has `originalPrice: 399.99`. With products 1 and 2
  selected at quantity 1, pricing gives a subtotal of $349.98, an original total of
  $469.98 and a saving of $120.00 (`DefaultBundleExample`, `DefaultBundleScenario`).
- The lock uses the literal id 1, not the main product's id. `handleProductToggle` itself
  lets any other id through, including a main product whose id is not 1, and the model
  of the handler does the same. In the rendered widget the only caller is the product
  card's checkbox. That checkbox is disabled for the main card while `autoSelectMain` is
  on. So with `autoSelectMain` on and a main id other than 1, the main product starts
  unselected and can never be selected. Meanwhile a related product with id 1 starts
  selected and cannot be deselected.
- The initial quantity map is `{1: 1}`. The mount effect replaces it with quantity 1 for
  every product's id, so key 1 disappears when no product has id 1. Pricing reads a
  missing quantity as 1 anyway.

## Model

| member | source | states |
|---|---|---|
| Products.FindIndex | src/components/UniversalBundleWidget.jsx:122 | `find` returns the first index whose product has the id; every earlier product has another id; no result exactly when no product has the id |
| Products.FindProduct | src/components/UniversalBundleWidget.jsx:122 | the found product is in the bundle and has the id; no result exactly when the id is not in the bundle |
| Products.FindProductCons | src/components/UniversalBundleWidget.jsx:122 | looking up in `[p] + rest` yields `p` for `p.id` and otherwise what `rest` yields |
| Products.OriginalOrPrice | src/components/UniversalBundleWidget.jsx:126 | `originalPrice` when present and nonzero, `price` otherwise |
| Selection.Without | src/components/UniversalBundleWidget.jsx:149 | `delete` removes exactly the id, keeps every other member, keeps the set duplicate-free, and changes nothing when the id is absent |
| Selection.WithoutKeepsOrder | src/components/UniversalBundleWidget.jsx:149 | deleting the id at position k of a duplicate-free selection leaves the ids before it followed by the ids after it, in their order |
| Selection.WithoutAppended | src/components/UniversalBundleWidget.jsx:147-152 | deleting an id just added at the end restores the previous selection exactly |
| Selection.ToggledSelection | src/components/UniversalBundleWidget.jsx:144-154 | locked id 1 with `autoSelectMain`: unchanged; otherwise the id's membership flips and every other id's membership is unchanged; duplicate-freedom is kept |
| Selection.ToggleTwiceRestores | src/components/UniversalBundleWidget.jsx:144-154 | toggling an unlocked id twice restores the selection set, and restores the exact sequence when the id was not selected |
| Selection.LockedIdStaysSelected | src/components/UniversalBundleWidget.jsx:144-145 | with `autoSelectMain`, no sequence of toggles of any ids removes id 1 from a selection holding it |
| Selection.QuantityUpdated | src/components/UniversalBundleWidget.jsx:156-161 | out-of-range quantities leave the map unchanged; in-range ones map the id to the quantity and keep every other key's value; the [1, 10] range of all stored quantities is preserved |
| Selection.Qty | src/components/UniversalBundleWidget.jsx:123 | the stored quantity when present and nonzero; 1 when absent or when the stored value is the falsy 0; within [1, 10] when all stored quantities are |
| Selection.InitialQuantities | src/components/UniversalBundleWidget.jsx:108-114 | the mount loop builds a map whose keys are exactly the bundle's ids, each mapped to 1 |
| BundleView.ProductBadge | src/components/UniversalBundleWidget.jsx:188-214 | "Featured" exactly for the main card; "% OFF" (with the discount) exactly for a non-main card with a truthy discount; "New" exactly for a non-main card without one but with `isNew`; no badge otherwise |
| BundleView.CompactSelection | src/components/UniversalBundleWidget.jsx:492-494 | a product is listed exactly when it is in the bundle and its id is selected; never more items than the bundle |
| BundleView.CompactSelectionKeepsOrder | src/components/UniversalBundleWidget.jsx:492-494 | the filter keeps bundle order: filtering a concatenation concatenates the filtered parts |
| BundleView.SeparatorsFromCount | src/components/UniversalBundleWidget.jsx:510 | items `from..n-1` carry `n - 1 - from` separators |
| BundleView.SeparatorCount | src/components/UniversalBundleWidget.jsx:500-513 | `n` listed products show `n - 1` separators, one between each consecutive pair, none when empty |
| BundlePricing.SelectedSum | src/components/UniversalBundleWidget.jsx:121-129 | the count accumulated over the selection never exceeds the number of selected ids |
| BundlePricing.ListSum | src/components/UniversalBundleWidget.jsx:125-127 | summing a list of products counts each of them once |
| BundlePricing.Pricing | src/components/UniversalBundleWidget.jsx:131-139 | `discountAmount = originalTotal − subtotal`, `finalTotal = subtotal`, `selectedCount ≤` number of selected ids |
| BundlePricing.SelectedSumEmptyBundle | src/components/UniversalBundleWidget.jsx:124 | against an empty bundle every selected id is skipped and every sum is 0 |
| BundlePricing.SelectedSumCons | src/components/UniversalBundleWidget.jsx:121-129 | the first product of a bundle with distinct ids adds its line to each sum exactly when its id is selected |
| BundlePricing.SelectionOrderIrrelevant | src/components/UniversalBundleWidget.jsx:121-129 | with distinct ids, each sum over the selection in insertion order equals the sum over the selected products in bundle order |
| BundlePricing.PricingInBundleOrder | src/components/UniversalBundleWidget.jsx:121-129 | with distinct ids, subtotal = Σ price × quantity and original total = Σ (originalPrice or price) × quantity over the selected products; the count equals the compact view's length |
| BundlePricing.ListedOnly | src/components/UniversalBundleWidget.jsx:124 | keeps exactly the selected ids that name a product of the bundle |
| BundlePricing.StaleIdsIgnored | src/components/UniversalBundleWidget.jsx:122-128 | selected ids absent from the bundle contribute nothing: every sum equals that of the selection without them |
| BundlePricing.CountZeroIffNoneListed | src/components/UniversalBundleWidget.jsx:121-128 | the count is 0 exactly when no selected id names a product of the bundle |
| BundlePricing.AddToCartDisabledIff | src/components/UniversalBundleWidget.jsx:450 | the add-to-cart button is disabled exactly when an add is in progress or no selected id names a product of the bundle |
| BundlePricing.UndiscountedSelectionNoDiscount | src/components/UniversalBundleWidget.jsx:126-131 | when no selected product has a truthy original price different from its price, the discount is 0 and the original total equals the final total |
| BundlePricing.OriginalCoversSubtotal | src/components/UniversalBundleWidget.jsx:121-129 | when original prices are never below prices and stored quantities lie in [1, 10], the original-total accumulator is never below the subtotal accumulator |
| BundlePricing.DiscountNonNegative | src/components/UniversalBundleWidget.jsx:123-131 | when original prices are never below prices and stored quantities lie in [1, 10], the discount is not negative |
| BundlePricing.MainOnlyPricing | src/components/UniversalBundleWidget.jsx:121-138 | with only id 1 (first in the bundle) selected, the count is 1 and the final total is its price times its quantity |
| BundlePricing.DefaultBundleExample | src/components/UniversalBundleWidget.jsx:15-33 | default products 1 and 2 at quantity 1: subtotal 34998, original total 46998, discount 12000, count 2, final total 34998 (cents) |
| BundleWidget.UniversalBundleWidget.constructor | src/components/UniversalBundleWidget.jsx:92-99 | initial state: bundle `[main, ...related]`, selection `{1}`, quantities `{1: 1}`, invariant established |
| BundleWidget.UniversalBundleWidget.MountQuantities | src/components/UniversalBundleWidget.jsx:108-114 | the quantity map is replaced by quantity 1 for exactly the bundle's ids; the invariant is kept |
| BundleWidget.UniversalBundleWidget.HandleProductToggle | src/components/UniversalBundleWidget.jsx:144-154 | the new selection is `ToggledSelection` of the old one; locked id 1 changes nothing; otherwise the id's membership flips; the invariant (including id 1 staying selected) is kept |
| BundleWidget.UniversalBundleWidget.HandleQuantityChange | src/components/UniversalBundleWidget.jsx:156-161 | the new map is `QuantityUpdated` of the old one; every stored quantity stays in [1, 10] |
| BundleWidget.UniversalBundleWidget.CalculatePricing | src/components/UniversalBundleWidget.jsx:116-140 | the loop's snapshot equals `Pricing` of the bundle, the selection and the quantities |
| BundleWidget.DefaultBundleScenario | src/components/UniversalBundleWidget.jsx:14-93 | default props, mount, tick product 2, price: the snapshot is (34998, 46998, 12000, 2, 34998) |

## Left out

- Rendering: JSX markup, CSS classes, hover state, the modal, the `isMobile` flag and its `resize` listener. These are presentational.
- `handleAddToCart`: the 1.5-second `setTimeout`, `console.log`, `alert` and the toggling of `isAddingToCart`. These are asynchronous, simulated I/O. Whether an add is in progress enters the model only as the parameter of `AddToCartDisabled`.
- `formatPrice` / `toFixed` and the star rating (`Math.floor(rating)`). These are floating-point formatting. Prices are integer cents, so the model has no float rounding.
- `options.enableQuantity` and the stepper buttons' `disabled` bounds (they only gate the rendering), `showSavings`, titles and themes.
- The product checkbox's `disabled` flag (the main card while `autoSelectMain` is on). `HandleProductToggle` models the handler and accepts every id except the locked 1. The model does not capture that the widget never calls the handler with the main product's id while `autoSelectMain` is on. With a main id other than 1, that product can never be selected through the widget.
- Product fields the core does not read: `image`, `url`, `rating`, `reviewCount`, `options`.
- Product ids and quantities are integers. JavaScript would also accept strings, fractions or `NaN` there.
- The bootstrap (`src/widget.tsx`: DOM lookup and auto-mount) and the build configuration (`vite.config.js`) are not part of this model.
