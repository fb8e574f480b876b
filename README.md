# Archive fashion storefront: catalog filter and cart

A Dafny model of the behaviour of the single storefront page of the
archive-fashion site (`src/pages/Index.tsx`). The page lists a hard-coded
catalog of six vintage garments, lets the visitor narrow the list by price,
era, style, material and size, and keeps an in-memory cart with a running
total.

The model has five modules:

- `JsArray`: `Array.prototype.filter` as a generic function `Filter`, plus an
  independent definition of an order-preserving subsequence (`IsSubsequence`).
  The page calls `filter` five times, in three roles: the catalog filter,
  cart removal, and un-ticking an era, style or material checkbox. All of
  them are built on `Filter`, and the facts about
  them come from its lemmas: membership, subsequence, maximality,
  multiplicities, concatenation and identity.
- `Catalog`: the `Product` record, the filter panel's `Criteria`, the five
  match predicates, `FilteredProducts`, the catalog constant `Products` and
  the `InitialCriteria`.
- `Cart`: `Total` (the `reduce` left fold over prices), removal by id
  (`WithoutId`), the entries a removal takes out (`WithId`), and how the total
  moves under adding and removing.
- `Selection`: the shared checkbox handler `Toggle(sel, v, checked)`.
- `Storefront`: the class `Storefront`, which holds the page's state (the
  cart and the filter panel) as fields. The handlers `AddToCart`,
  `RemoveFromCart`, `ToggleEra`, `ToggleStyle`, `ToggleMaterial`,
  `SetPriceRange` and `SetSelectedSize` replace those fields. `Shown` and
  `TotalPrice` derive the listed products and the total from them, as the
  page does on each render.

Three details of the code that the model keeps:

- Selections (eras, styles, materials) are arrays. Ticking
  appends, so the same value can appear twice, and un-ticking removes every
  copy.
- A product's sizes are an array.
- Removal from the cart drops every entry with that id, not one entry.

## Model

| member | source | states |
|---|---|---|
| `JsArray.Filter` | src/pages/Index.tsx:45 | `filter` returns no more elements than it is given, and every element it returns passes the test |
| `JsArray.FilterMembers` | src/pages/Index.tsx:48 | a value is in the filter result if and only if it is in the input and passes the test |
| `JsArray.FilterIsSubsequence` | src/pages/Index.tsx:48 | the filter result is an order-preserving subsequence of the input |
| `JsArray.FilterIsLongest` | src/pages/Index.tsx:48 | an all-passing subsequence of the input is never longer than the filter result, and one of the same length equals it, so the result is exactly the subsequence of passing elements |
| `JsArray.FilterCount` | src/pages/Index.tsx:45 | a passing value occurs in the result as often as in the input; a failing value does not occur |
| `JsArray.FilterConcat` | src/pages/Index.tsx:45 | filtering distributes over concatenation |
| `JsArray.FilterKeepsAll` | src/pages/Index.tsx:48 | a filter that passes every element returns its input unchanged |
| `Catalog.PriceMatch` | src/pages/Index.tsx:49 | a price at either end of an ordered range passes; a range whose ends are out of order admits no price |
| `Catalog.SelectionMatch` | src/pages/Index.tsx:50-52 | an empty selection accepts every value; any ticked copy of a value accepts it; a non-empty selection accepts only values it contains |
| `Catalog.SizeMatch` | src/pages/Index.tsx:53 | "all" accepts every product; any other size accepts exactly the products whose size list contains it |
| `Catalog.Matches` | src/pages/Index.tsx:49-55 | a passing product is priced inside the range; with nothing ticked and every size chosen, the price alone decides |
| `Catalog.FilteredProducts` | src/pages/Index.tsx:48-56 | the filtered list is no longer than the catalog, and every listed product passes all five tests |
| `Catalog.FilteredProductsMembers` | src/pages/Index.tsx:48-56 | a product is listed if and only if it is in the catalog and passes the price, era, style, material and size tests at once |
| `Catalog.FilteredProductsExact` | src/pages/Index.tsx:48-56 | the listed products are the order-preserving subsequence of the passing catalog products; any other subsequence of passing products is shorter, or equal to it |
| `Catalog.FilteredProductsCount` | src/pages/Index.tsx:48-56 | a passing product is listed as many times as the catalog holds it; a failing one is not listed |
| `Catalog.PriceBoundsInclusive` | src/pages/Index.tsx:49 | a price equal to either end of the slider range passes the price test |
| `Catalog.SelectionUnion` | src/pages/Index.tsx:50-52 | with two non-empty groups of ticked values, a value passes both groups together if and only if it passes one group or the other (union, not intersection) |
| `Catalog.ErasUnion` | src/pages/Index.tsx:50 | the same union rule holds for the whole filter, taken on the era dimension |
| `Catalog.EmptyErasNoConstraint` | src/pages/Index.tsx:50 | clearing the era selection never hides a product that was listed |
| `Catalog.SizeNarrows` | src/pages/Index.tsx:53 | choosing a size other than "all" lists exactly what "all" lists, then keeps the products offered in that size, in the same order |
| `Catalog.CatalogData` | src/pages/Index.tsx:22-29 | catalog ids are pairwise distinct; every price lies in 12000..28000, at most 30000 |
| `Catalog.InitialCriteriaKeepsAll` | src/pages/Index.tsx:34-38 | the initial panel (range 0..30000, nothing ticked, size "all") lists every product priced at most 30000, in order |
| `Catalog.InitialCatalog` | src/pages/Index.tsx:22-38 | on first display all six catalog products are listed |
| `Catalog.PriceScenario` | src/pages/Index.tsx:49 | the 22000 dress is hidden by the range 0..20000 and listed under 20000..30000; the 20000 jacket, on the lower boundary, is listed |
| `Catalog.SizeScenario` | src/pages/Index.tsx:53 | size "XS" lists exactly the dress and the skirt |
| `Catalog.TwoErasTail` | src/pages/Index.tsx:50 | with 1960s and 1970s ticked, the last three catalog products are narrowed to the trousers and the skirt |
| `Catalog.TwoErasScenario` | src/pages/Index.tsx:50 | ticking 1960s and 1970s lists the four products of either era, in catalog order |
| `Cart.Total` | src/pages/Index.tsx:58 | the total of an empty cart is 0; what it sums is fixed by `TotalAppend`, `TotalConcat` and `TotalBoundsEntries` |
| `Cart.TotalBoundsEntries` | src/pages/Index.tsx:58 | no entry's price exceeds the cart's total |
| `Cart.WithoutId` | src/pages/Index.tsx:45 | after removal no entry carries the removed id, and the cart is no longer than before |
| `Cart.WithId` | src/pages/Index.tsx:45 | the entries a removal takes out all carry the removed id |
| `Cart.TotalEmpty` | src/pages/Index.tsx:58 | the total of an empty cart is 0 |
| `Cart.TotalAppend` | src/pages/Index.tsx:58 | appending an entry raises the total by exactly its price |
| `Cart.TotalConcat` | src/pages/Index.tsx:58 | the total of two carts put end to end is the sum of their totals |
| `Cart.TotalCons` | src/pages/Index.tsx:58 | summing from the front gives the same total as the left fold |
| `Cart.TotalRemove` | src/pages/Index.tsx:44-46 | the old total is the new total plus the prices of the removed entries |
| `Cart.RemoveKeepsOthers` | src/pages/Index.tsx:45 | removal leaves no entry with the id; an entry with another id keeps its number of copies; the survivors keep their order |
| `Cart.RemoveSplits` | src/pages/Index.tsx:45 | every cart entry is either kept or taken out by a removal, never both: the cart's multiset is the kept entries' plus the removed entries' |
| `Cart.AddThenRemove` | src/pages/Index.tsx:40-46 | adding a product and then removing its id is the same as removing the id alone; no copy of the product survives |
| `Cart.RemoveAllCopies` | src/pages/Index.tsx:44-46 | removing an id from a cart that holds two copies of it and one other product leaves only the other product |
| `Selection.Toggle` | src/pages/Index.tsx:200-205 | ticking gives the old selection followed by the value; un-ticking gives a selection no longer than before that does not contain the value |
| `Selection.UncheckKeepsOthers` | src/pages/Index.tsx:204 | un-ticking keeps each other value, as many times and in the same order, and removes every copy of the value |
| `Selection.CheckThenUncheck` | src/pages/Index.tsx:200-205 | ticking a value that was not selected and then un-ticking it gives back the original selection |
| `Selection.UncheckIdempotent` | src/pages/Index.tsx:204 | un-ticking twice gives the same selection as un-ticking once |
| `Selection.CheckWidens` | src/pages/Index.tsx:202 | ticking a value adds exactly that value to what the dimension accepts; ticking the first box narrows "anything" down to that value |
| `Selection.UncheckLastLifts` | src/pages/Index.tsx:204 | un-ticking the only ticked value removes the constraint on that dimension |
| `Storefront.Storefront.constructor` | src/pages/Index.tsx:32-38 | the initial state is an empty cart and the initial panel, with total 0 |
| `Storefront.InitialPageShowsCatalog` | src/pages/Index.tsx:22-38 | a page whose panel is in its initial state lists the whole catalog |
| `Storefront.Storefront.Panel` | src/pages/Index.tsx:34-38 | the panel's fields form the initial criteria exactly when the range is 0..30000, nothing is ticked and the size is "all" |
| `Storefront.Storefront.TotalPrice` | src/pages/Index.tsx:58 | the total of the current cart; an empty cart totals 0 |
| `Storefront.Storefront.Shown` | src/pages/Index.tsx:48-56 | the listed products are at most the catalog and all pass the current panel |
| `Storefront.Storefront.AddToCart` | src/pages/Index.tsx:40-42 | the new cart is the old cart plus the product at the end; the total rises by its price; the panel is unchanged |
| `Storefront.Storefront.RemoveFromCart` | src/pages/Index.tsx:44-46 | the new cart is the old cart without the id's entries, none of which remain; the total falls by their prices; the panel is unchanged |
| `Storefront.Storefront.ToggleEra` | src/pages/Index.tsx:200-205 | the era selection becomes `Toggle` of the old one; nothing else changes |
| `Storefront.Storefront.ToggleStyle` | src/pages/Index.tsx:222-227 | the style selection becomes `Toggle` of the old one; nothing else changes |
| `Storefront.Storefront.ToggleMaterial` | src/pages/Index.tsx:244-249 | the material selection becomes `Toggle` of the old one; nothing else changes |
| `Storefront.Storefront.SetPriceRange` | src/pages/Index.tsx:164-166 | only the price range changes, to the slider's values |
| `Storefront.Storefront.SetSelectedSize` | src/pages/Index.tsx:179 | only the size selection changes |
| `Storefront.CartSession` | src/pages/Index.tsx:40-46 | adding a product twice and another once, then removing the first id, leaves a total equal to the second product's price |

## Left out

- Rendering, styling and the UI components (cards, sheet, badges, buttons, icons) are presentation. The `toLocaleString` price formatting is left out for the same reason.
- The `image` field of a product is display data and is not part of `Product`.
- The slider enforces its bounds (0..30000, step 1000) and the size selector limits its options. `SetPriceRange` takes the bounds as a precondition; the step and the option list are not modelled.
- React `useState` scheduling and re-rendering are not modelled. Each handler is a method that replaces its field at once, and the derived values are functions of the current fields.
- The `activeSection` navigation (lines 33, 72-76, 144) is an unconditional assignment over five section names, with no logic beyond "set means set".
- JavaScript `number` arithmetic is not modelled: prices and ids are mathematical integers, prices are `nat`, and the total cannot overflow or round.
- A checkbox may pass the value `'indeterminate'` (a truthy value) as well as a boolean. The toggle handlers take a boolean, which is all these checkboxes produce.
