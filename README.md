# Storefront core in Dafny

A model of the logic of a Next.js storefront for digital products, with proofs of what that logic promises. It covers:

- **The shopping cart.** A reducer over eight actions keeps an ordered list of lines keyed by id, the derived totals (units, subtotal, 8 % tax, total clamped at zero) and an optional coupon. A provider holds the one state cell and dispatches into the reducer.
- **The catalogue store behind the admin CMS.** Two collections, sections and products, each record carrying an `order`. The GET/POST/PUT/DELETE request handlers create, update, reorder and delete records, renumber survivors 1..N and answer 200, 400 or 404.
- **The cart panels.** Coupon lookup and the discount amount; a cart line's quantity controls; the cart button's badge and click.
- **The admin page.** Tag input, section search and status filter, the stats cards, the per-section product view and the status badge.
- **The home page.** The category section's sort orders and add-to-cart line; the hero carousel.
- **The product card and catalogue data.** The catalogue filters; the card's stars, download label, variant display rules and callback payload.
- **The product detail page.** The quantity picker and price block; the image gallery's zoom state machine.

Files and modules:

| file | module | what |
|---|---|---|
| common.dfy | Common | `Option`, `filter`, subsequences |
| sorting.dfy | Sorting | the stable sort behind `Array.prototype.sort` and `sort({order: 1})` |
| text.dfy | Text | `trim`, ASCII case mapping, `includes`, one-character `replace` |
| cart.dfy | Cart | the reducer, `calculateCartTotals` and the provider class |
| collection.dfy | Collection | records with storage key, id and order; first-match updates; the renumbering loops in closed form |
| store.dfy | TopViralStore | the route handlers as methods of a `Store` class |
| cart_summary.dfy | CartSummary | coupon table and `handleApplyCoupon` |
| cart_item.dfy | CartLine | a cart line's controls |
| cart_button.dfy | CartButton | badge and click |
| admin.dfy | AdminPage | the admin page rules |
| product_data.dfy | ProductData | the catalogue and its filters |
| product_card.dfy | ProductCard | stars, download label, variants, payload, wishlist/hover state |
| category.dfy | CategorySection | current products, sort orders, add-to-cart line |
| product_info.dfy | ProductInfo | quantity picker, price block, add-to-cart |
| gallery.dfy | Gallery | image selection and zoom |
| hero.dfy | Hero | the carousel |

Modelling choices:

- **Money** is `real`. Floating-point rounding is not modelled; in particular `toFixed(1)` is rounded on the exact quotient (see `ProductCard.Tenths` under "Left out").
- **State.** The stateful pieces are classes whose methods change their fields:
  - the cart provider;
  - the store;
  - the coupon form, tag input and admin page state;
  - the card, detail panel, gallery and carousel.
- **Pure logic** is functions.
- **Loops.** The store's reorder and renumber loops are `while` loops proved against closed-form functions, and so is the product card's `renderStars`.
- **Parameters.** Fresh ids, timestamps and storage keys are parameters or the store's own counter. So is the date parsing behind the "newest" sort, as `createdTime`.

## Model

| member | source | states |
|---|---|---|
| Cart.NonNegative | app/components/ui/Cart/CartProvider.tsx:198 | `Math.max(0, x)`: never negative, and equal to x or 0 |
| Cart.FindItem | app/components/ui/Cart/CartProvider.tsx:264 | `items.find` by id: absent exactly when no line has the id, otherwise a line with that id |
| Cart.IncreaseQuantity | app/components/ui/Cart/CartProvider.tsx:84-89 | ADD_ITEM on a present id: every line with the id gets the incoming quantity added; other lines are untouched |
| Cart.SetQuantity | app/components/ui/Cart/CartProvider.tsx:129-132 | UPDATE_QUANTITY with a positive quantity: lines with the id get exactly that quantity; others are untouched |
| Cart.WithoutId | app/components/ui/Cart/CartProvider.tsx:106-108 | the filter on id: no line with the id survives; every other line does |
| Cart.AddLine | app/components/ui/Cart/CartProvider.tsx:77-102 | after ADD_ITEM the id is present |
| Cart.CalculateCartTotals | app/components/ui/Cart/CartProvider.tsx:191-207 | units, subtotal, tax at 8 % and total = max(0, subtotal + tax − discount) are consistent with the lines; lines, open flag and coupon are kept; total never negative |
| Cart.CartReducer | app/components/ui/Cart/CartProvider.tsx:75-188 | per action, which fields change: SET_CART_OPEN only `isOpen`; APPLY_COUPON code, discount and total only; REMOVE_COUPON; CLEAR_CART keeps `isOpen`; the four line-changing actions leave consistent totals; removal leaves no line with the id |
| Cart.TotalQuantityAppend | app/components/ui/Cart/CartProvider.tsx:192-196 | the two reductions are additive over an appended line |
| Cart.NoDuplicateIdsTail | app/components/ui/Cart/CartProvider.tsx:77-102 | a duplicate-free list stays duplicate-free without its head, and the head's id is not repeated |
| Cart.FindUnique | app/components/ui/Cart/CartProvider.tsx:262-268 | with unique ids, `getItemQuantity` and the price read the line at the id's position |
| Cart.IncreaseQuantityAbsent | app/components/ui/Cart/CartProvider.tsx:84-89 | the map changes nothing when no line has the id |
| Cart.IncreaseQuantitySums | app/components/ui/Cart/CartProvider.tsx:84-93 | adding q to the unique line with the id raises the units by q and the subtotal by that line's new total minus its old one |
| Cart.WithoutIdSums | app/components/ui/Cart/CartProvider.tsx:105-114 | removing the unique line with an id lowers units and subtotal by exactly that line's share |
| Cart.WithoutIdAbsent | app/components/ui/Cart/CartProvider.tsx:105-114 | removing an absent id changes no line |
| Cart.WithoutIdKeepsUnique | app/components/ui/Cart/CartProvider.tsx:105-114 | removal keeps ids unique |
| Cart.WithoutIdSubsequence | app/components/ui/Cart/CartProvider.tsx:106-108 | the surviving lines keep their order |
| Cart.AddExistingItem | app/components/ui/Cart/CartProvider.tsx:77-93 | ADD_ITEM on a present id: same number of lines, the line's quantity rises by the incoming quantity, other lines unchanged, ids stay unique |
| Cart.AddNewItem | app/components/ui/Cart/CartProvider.tsx:94-102 | ADD_ITEM on a new id appends it at the end; earlier lines are unchanged; ids stay unique |
| Cart.AddLineSums | app/components/ui/Cart/CartProvider.tsx:77-102 | ADD_ITEM raises the units by the incoming quantity; the subtotal rises by the new line's total, or for a present id by the incoming quantity at the existing line's price (the incoming price is ignored) |
| Cart.AddItemTotals | app/components/ui/Cart/CartProvider.tsx:77-102 | after ADD_ITEM the badge count is the old count plus the incoming quantity, and the totals are consistent |
| Cart.RemoveItemEffect | app/components/ui/Cart/CartProvider.tsx:105-114 | REMOVE_ITEM drops every line with the id, keeps the others in order, changes nothing when absent, and keeps the coupon fields and open flag |
| Cart.UpdateToNonPositiveRemoves | app/components/ui/Cart/CartProvider.tsx:116-127 | UPDATE_QUANTITY with quantity ≤ 0 is exactly REMOVE_ITEM |
| Cart.UpdateToPositiveSets | app/components/ui/Cart/CartProvider.tsx:128-137 | UPDATE_QUANTITY with a positive quantity sets only the matching line's quantity; line count and other lines unchanged |
| Cart.TotalQuantity | app/components/ui/Cart/CartProvider.tsx:192 | the units reduce: when every line has a non-negative price and a positive quantity (`PricedLines`), at least one unit per line |
| Cart.LineTotal | app/components/ui/Cart/CartProvider.tsx:194 | price × quantity of one line: non-negative for non-negative inputs, 0 for no units, the price for one unit |
| Cart.Subtotal | app/components/ui/Cart/CartProvider.tsx:193-196 | the subtotal reduce: non-negative when every line has a non-negative price and a positive quantity (`PricedLines`) |
| Cart.ReducerPreservesWellFormed | app/components/ui/Cart/CartProvider.tsx:75-207 | every action the storefront dispatches (lines with non-negative price and positive quantity) keeps ids unique, quantities positive and totals consistent, so `total` is never negative |
| Cart.AddItemKeepsWellFormed | app/components/ui/Cart/CartProvider.tsx:77-102 | ADD_ITEM of a line with non-negative price and positive quantity keeps the cart well-formed |
| Cart.RemoveItemKeepsWellFormed | app/components/ui/Cart/CartProvider.tsx:105-114 | REMOVE_ITEM keeps the cart well-formed |
| Cart.UpdateQuantityKeepsWellFormed | app/components/ui/Cart/CartProvider.tsx:116-137 | UPDATE_QUANTITY keeps the cart well-formed, whatever the requested quantity |
| Cart.CalculateCartTotalsFixpoint | app/components/ui/Cart/CartProvider.tsx:191-207 | recomputing the totals changes nothing exactly when they are already consistent |
| Cart.SameIdTwice | app/components/ui/Cart/CartProvider.tsx:77-93 | adding the same product twice gives one line with the summed quantity |
| Cart.CouponSurvivesRemoval | app/components/ui/Cart/CartProvider.tsx:105-114 | an applied coupon stays after its cart's only line is removed |
| Cart.CartProvider.constructor | app/components/ui/Cart/CartProvider.tsx:63-73 | the provider starts from the initial state |
| Cart.CartProvider.AddItem | app/components/ui/Cart/CartProvider.tsx:217-220 | dispatches ADD_ITEM |
| Cart.CartProvider.RemoveItem | app/components/ui/Cart/CartProvider.tsx:222-225 | dispatches REMOVE_ITEM |
| Cart.CartProvider.UpdateQuantity | app/components/ui/Cart/CartProvider.tsx:227-230 | dispatches UPDATE_QUANTITY |
| Cart.CartProvider.ClearCart | app/components/ui/Cart/CartProvider.tsx:232-235 | dispatches CLEAR_CART: no lines, zero total, open flag kept |
| Cart.CartProvider.OpenCart | app/components/ui/Cart/CartProvider.tsx:237-240 | only `isOpen` becomes true |
| Cart.CartProvider.CloseCart | app/components/ui/Cart/CartProvider.tsx:242-245 | only `isOpen` becomes false |
| Cart.CartProvider.ToggleCart | app/components/ui/Cart/CartProvider.tsx:247-250 | only `isOpen` flips |
| Cart.CartProvider.ApplyCoupon | app/components/ui/Cart/CartProvider.tsx:252-255 | dispatches APPLY_COUPON |
| Cart.CartProvider.RemoveCoupon | app/components/ui/Cart/CartProvider.tsx:257-260 | dispatches REMOVE_COUPON |
| Cart.CartProvider.GetItemQuantity | app/components/ui/Cart/CartProvider.tsx:262-269 | 0 when no line has the id, otherwise the quantity of the first line with it |
| Cart.CartProvider.IsItemInCart | app/components/ui/Cart/CartProvider.tsx:271-276 | true exactly when some line has the id |
| Collection.FirstIndex | app/api/top-viral-products/route.ts:189 | `findOne`/`updateOne`/`deleteOne` act on the first matching record, or on none |
| Collection.SetOrder | app/api/top-viral-products/route.ts:304-307 | `updateOne(..., {$set: {order}})` changes only the first match's order |
| Collection.LastHit | app/api/top-viral-products/route.ts:303-308 | the last loop step that reaches a record, if any |
| Collection.ReorderSpec | app/api/top-viral-products/route.ts:303-308 | the reorder loop in closed form: every record keeps key, id and contents; a record reached by step i ends with order i + 1 of the last such step; the rest keep their order |
| Collection.IdLastHit | app/api/top-viral-products/route.ts:303-308 | with id selectors only the first record with a listed id is reached, by the id's last position |
| Collection.KeyLastHit | app/api/top-viral-products/route.ts:382-387 | with unique keys and key selectors, a record is reached by the last position of its key |
| Collection.ReorderByIds | app/api/top-viral-products/route.ts:298-336 | reordering by ids: listed records get their position + 1, others keep their order |
| Collection.ReorderUnlisted | app/api/top-viral-products/route.ts:303-308 | a record whose id is not listed keeps its order |
| Collection.ReorderListed | app/api/top-viral-products/route.ts:303-308 | the first record with an id listed once at position p gets order p + 1 |
| Collection.SortByOrder | app/api/top-viral-products/route.ts:128-137 | `sort({order: 1})`: ascending by order, a permutation |
| Collection.RenumberedWhereSpec | app/api/top-viral-products/route.ts:417-428 | renumbering keeps every record's key, id and contents, changes only the selected records' orders, and leaves the rest as they were |
| Collection.RenumberedDistinct | app/api/top-viral-products/route.ts:417-428 | two selected records end with different orders |
| Collection.RenumberedMonotone | app/api/top-viral-products/route.ts:417-428 | selected records keep their relative order |
| Collection.RenumberedWhereOrders | app/api/top-viral-products/route.ts:417-428 | the selected records end holding the orders 1..N, N their number |
| Collection.RenumberedOrders | app/api/top-viral-products/route.ts:376-387 | renumbering all sections gives 1..N without repeats, in the previous order |
| Collection.SameSelectionKeepsUniqueKeys | app/api/top-viral-products/route.ts:243-336 | edits that keep keys in place keep keys unique |
| Collection.FilterKeepsUniqueKeys | app/api/top-viral-products/route.ts:364 | `deleteMany` keeps keys unique |
| Collection.DeleteFirst | app/api/top-viral-products/route.ts:367 | `deleteOne` removes one record when one matches, none otherwise |
| Collection.DropKeepsUniqueKeys | app/api/top-viral-products/route.ts:396-399 | removing a record keeps keys unique |
| TopViralStore.OrElse | app/api/top-viral-products/route.ts:167-170 | `value \|\| fallback`: an absent or empty value falls back |
| TopViralStore.NewSection | app/api/top-viral-products/route.ts:161-176 | the new section: order = count + 1, empty product list, description `description \|\| ""` and status `status \|\| "active"` (so an empty string also falls back), both timestamps the request time |
| TopViralStore.NewProduct | app/api/top-viral-products/route.ts:197-206 | the new product: order = products already in the section + 1, sectionId forced to the request's, status `status \|\| "active"`, a body `id` overriding the generated one |
| TopViralStore.ApplySectionEdit | app/api/top-viral-products/route.ts:210-216 | `$push` appends the product id; `$pull` is the filter dropping every occurrence, keeping the others in order; push, pull and touch keep every other field and refresh updatedAt; a patch is `PatchSection` |
| TopViralStore.PatchSection | app/api/top-viral-products/route.ts:245-253 | `$set: {...updates, updatedAt}`: each field the update carries is set, every other field, the id and the product list kept; an empty update only refreshes updatedAt |
| TopViralStore.PatchProduct | app/api/top-viral-products/route.ts:270-278 | the same on a product: sectionId, id and createdAt kept |
| TopViralStore.EditSection | app/api/top-viral-products/route.ts:246-249 | `updateOne({id})` edits the first section with the id and no other |
| TopViralStore.ProductIndex | app/api/top-viral-products/route.ts:271-274 | the first product matching both productId and sectionId, or none |
| TopViralStore.View | app/api/top-viral-products/route.ts:120-153 | GET returns one entry per section |
| TopViralStore.ViewSpec | app/api/top-viral-products/route.ts:128-145 | GET: sections ascending by order; each carries exactly the products whose sectionId is its id, ascending by order |
| TopViralStore.Store.constructor | app/api/top-viral-products/route.ts:120-153 | an empty store |
| TopViralStore.Store.Get | app/api/top-viral-products/route.ts:120-153 | GET returns the view of the current collections |
| TopViralStore.Store.CreateSection | app/api/top-viral-products/route.ts:161-182 | appends the new section, products untouched, 200 |
| TopViralStore.Store.CreateProduct | app/api/top-viral-products/route.ts:184-222 | unknown section: 404 and no change; otherwise the product is appended and its id pushed onto the section's list |
| TopViralStore.Store.UpdateSection | app/api/top-viral-products/route.ts:243-265 | 404 when no section matches; otherwise the supplied fields are set, updatedAt refreshed and the section returned |
| TopViralStore.Store.UpdateProduct | app/api/top-viral-products/route.ts:267-296 | 404 unless a product matches both ids; otherwise it is patched, its section's updatedAt refreshed, and the first product with that id returned |
| TopViralStore.Store.ReorderProductsBy | app/api/top-viral-products/route.ts:303-308 | the product reorder loop equals its closed form; sections untouched |
| TopViralStore.Store.ReorderSectionsBy | app/api/top-viral-products/route.ts:323-328 | the section reorder loop equals its closed form; products untouched |
| TopViralStore.Store.ReorderProducts | app/api/top-viral-products/route.ts:298-316 | reorders by the id list and returns the listed products ascending by order |
| TopViralStore.Store.ReorderSections | app/api/top-viral-products/route.ts:318-336 | the same for sections |
| TopViralStore.Store.DeleteSection | app/api/top-viral-products/route.ts:359-390 | the section's products are deleted first, even on the 404 path; on success the section goes and the rest are renumbered 1..N |
| TopViralStore.Store.DeleteProduct | app/api/top-viral-products/route.ts:392-431 | 404 unless a product matches both ids; otherwise it goes, its id is pulled from the section, and that section's remaining products are renumbered |
| TopViralStore.Store.Post | app/api/top-viral-products/route.ts:156-227 | createSection appends `NewSection` and answers 200; createProduct answers 404 with no change for an unknown section, otherwise appends `NewProduct` and pushes its id onto the section; anything else is 400 with no change |
| TopViralStore.Store.Put | app/api/top-viral-products/route.ts:238-341 | updateSection and updateProduct answer 404 with no change when nothing matches, otherwise patch the first match (updateProduct also touches the section); the two reorders set the closed-form `Reorder` of the id list and answer 200; anything else is 400 with no change |
| TopViralStore.Store.Delete | app/api/top-viral-products/route.ts:352-436 | deleteSection drops the section's products even on 404, then the section, renumbering the rest 1..N; deleteProduct answers 404 with no change when nothing matches, otherwise drops it, pulls its id and renumbers the section's products; anything else is 400 with no change |
| CartSummary.CouponPercent | app/components/ui/Cart/CartSummary.tsx:38-44 | exactly the five codes are known, with their percentages 20, 10, 15, 25, 30 |
| CartSummary.ApplyCouponOutcome | app/components/ui/Cart/CartSummary.tsx:46-57 | blank input does nothing; otherwise the upper-cased, untrimmed code is looked up, and a known one is applied with subtotal × percent / 100 |
| CartSummary.DiscountWithinSubtotal | app/components/ui/Cart/CartSummary.tsx:38-52 | the discount is between 10 % and 30 % of the subtotal, so never above a non-negative subtotal |
| CartSummary.PaddedCodeRefused | app/components/ui/Cart/CartSummary.tsx:47-49 | " SAVE20" passes the blank check but is refused, as the lookup does not trim |
| CartSummary.LowerCaseCodeAccepted | app/components/ui/Cart/CartSummary.tsx:49-52 | "save20" is accepted and sent upper-cased with 20 % off |
| CartSummary.AcceptedCouponNeverClamps | app/components/ui/Cart/CartSummary.tsx:51-52 | on a well-formed cart an accepted coupon gives total = subtotal + tax − discount without the clamp, and keeps the cart well-formed |
| CartSummary.DiscountRowShown | app/components/ui/Cart/CartSummary.tsx:131 | the discount row shows exactly for a positive discount (when that is, is `DiscountRowAfterCoupon`) |
| CartSummary.DiscountRowAfterCoupon | app/components/ui/Cart/CartSummary.tsx:131-136 | the discount row shows after an accepted code exactly when the subtotal is positive, and never after the coupon is removed or the cart cleared |
| CartSummary.CouponForm.constructor | app/components/ui/Cart/CartSummary.tsx:46-57 | the field starts empty |
| CartSummary.CouponForm.SetCouponCode | app/components/ui/Cart/CartSummary.tsx:46-57 | typing sets the field |
| CartSummary.CouponForm.HandleApplyCoupon | app/components/ui/Cart/CartSummary.tsx:46-57 | an accepted code is applied to the cart once and the field cleared; otherwise neither the cart nor the field changes |
| CartLine.HandleQuantityChange | app/components/ui/Cart/CartItem.tsx:20-23 | a request below 1 dispatches nothing; otherwise UPDATE_QUANTITY with the line's own id and exactly the requested quantity |
| CartLine.HandleRemove | app/components/ui/Cart/CartItem.tsx:25-27 | REMOVE_ITEM with the line's own id |
| CartLine.Disabled | app/components/ui/Cart/CartItem.tsx:62-101 | while updating every control is disabled; otherwise only "−" at quantity 1 or below |
| CartLine.Press | app/components/ui/Cart/CartItem.tsx:87-101 | a disabled control dispatches nothing; "−" asks for quantity − 1 and "+" for quantity + 1; remove forwards the id |
| CartLine.QuantityButtonsKeepLine | app/components/ui/Cart/CartItem.tsx:87-101 | on a well-formed cart the quantity buttons never remove the line: it stays with the new quantity and the line count is unchanged |
| CartLine.DisplayedLineTotal | app/components/ui/Cart/CartItem.tsx:77 | the shown line total is price × quantity: non-negative, and the price for one unit |
| CartLine.DisplayedLinesSumToSubtotal | app/components/ui/Cart/CartSummary.tsx:123-126 | on a cart whose totals are consistent, the summary's subtotal is the `Subtotal` reduce over exactly the line totals each line shows |
| CartButton.BadgeVisible | app/components/ui/Cart/CartButton.tsx:45 | a shown badge was asked for and never reads 0 |
| CartButton.BadgeShownIffLines | app/components/ui/Cart/CartButton.tsx:45 | on a well-formed cart the badge shows exactly when the cart has a line |
| CartButton.BadgeLabel | app/components/ui/Cart/CartButton.tsx:47 | "99+" exactly above 99, otherwise the count |
| CartButton.BadgeCountsUnits | app/components/ui/Cart/CartButton.tsx:22-23 | the badge counts units: adding an existing product raises it by the quantity added without adding a line |
| CartButton.OneLineBadge | app/components/ui/Cart/CartButton.tsx:45-47 | three units of one line show "3"; a hundred show "99+" |
| CartButton.HandleClick | app/components/ui/Cart/CartButton.tsx:25-31 | the supplied handler runs and the cart is untouched, or the cart opens; never both |
| AdminPage.KeyDown | app/components/admin/TopViralProducts/index.tsx:95-111 | Enter adds the trimmed text and comma the trimmed text minus its first comma, only when non-empty and new, at the end; the input is cleared whenever the text was not blank; other keys change nothing |
| AdminPage.KeyDownKeepsDistinct | app/components/admin/TopViralProducts/index.tsx:95-111 | a duplicate-free tag list never gets a duplicate, and gains exactly one tag |
| AdminPage.RemoveTag | app/components/admin/TopViralProducts/index.tsx:113-115 | every occurrence of the tag goes and every other tag stays |
| AdminPage.RemoveTagSpec | app/components/admin/TopViralProducts/index.tsx:113-115 | removal keeps the others' order and their counts |
| AdminPage.RemoveUndoesAdd | app/components/admin/TopViralProducts/index.tsx:95-115 | removing a tag just added gives back the previous list |
| AdminPage.TagInput.constructor | app/components/admin/TopViralProducts/index.tsx:93 | the input starts empty |
| AdminPage.TagInput.SetInput | app/components/admin/TopViralProducts/index.tsx:138 | typing sets the input |
| AdminPage.TagInput.HandleKeyDown | app/components/admin/TopViralProducts/index.tsx:95-111 | the list passed to `onChange` and the new input are those of `KeyDown` |
| AdminPage.FilteredSections | app/components/admin/TopViralProducts/index.tsx:265-272 | a section is listed iff its lower-cased title or description contains the lower-cased search text and the filter is "all" or its status |
| AdminPage.EmptySearchShowsAll | app/components/admin/TopViralProducts/index.tsx:265-272 | an empty search reduces to the status filter, and with "all" every section is listed in order |
| AdminPage.EmptySearchIsStatusFilter | app/components/admin/TopViralProducts/index.tsx:265-272 | the empty search text matches every section |
| AdminPage.FetchedSections | app/components/admin/TopViralProducts/index.tsx:245-249 | fetched sections are stored ascending by order, as a permutation |
| AdminPage.FilteredStaysOrdered | app/components/admin/TopViralProducts/index.tsx:245-272 | the listed sections are ascending by order |
| AdminPage.ActiveProductView | app/components/admin/TopViralProducts/index.tsx:783-785 | a section card shows exactly the active products, ascending by order |
| AdminPage.ActiveProductViewSpec | app/components/admin/TopViralProducts/index.tsx:783-785 | each active product is shown as often as the section holds it, and an ordered, all-active list is shown unchanged |
| AdminPage.TotalProducts | app/components/admin/TopViralProducts/index.tsx:621-624 | "Total Products": zero exactly when every section's list is empty |
| AdminPage.FeaturedZeroIff | app/components/admin/TopViralProducts/index.tsx:658-662 | "Featured Products": zero exactly when no product of any section is featured |
| AdminPage.PageStats | app/components/admin/TopViralProducts/index.tsx:596-662 | the four cards: sections, the sum of product counts, active sections, featured products; active ≤ sections and featured ≤ products |
| AdminPage.FeaturedWithinTotal | app/components/admin/TopViralProducts/index.tsx:621-662 | featured products never outnumber products |
| AdminPage.TotalsAdditive | app/components/admin/TopViralProducts/index.tsx:621-662 | the product and featured sums add over any split of the section list |
| AdminPage.GetStatusConfig | app/components/admin/TopViralProducts/index.tsx:153-168 | each icon belongs to exactly one case; green only for "active", yellow only for "draft", grey for all else |
| AdminPage.AdminPageState.constructor | app/components/admin/TopViralProducts/index.tsx:184-189 | no sections, empty search, filter "all" |
| AdminPage.AdminPageState.FetchSucceeded | app/components/admin/TopViralProducts/index.tsx:237-249 | a successful fetch stores the sections in order |
| AdminPage.AdminPageState.SetSearchTerm | app/components/admin/TopViralProducts/index.tsx:188 | only the search text changes |
| AdminPage.AdminPageState.SetStatusFilter | app/components/admin/TopViralProducts/index.tsx:189 | only the status filter changes |
| AdminPage.AdminPageState.Visible | app/components/admin/TopViralProducts/index.tsx:265-272 | the listed sections are exactly the stored ones matching both the search text and the status filter, in stored order |
| ProductData.FilterExactly | app/components/ui/ProductCard/data.ts:255-269 | a filter returns exactly the passing products, as a subsequence |
| ProductData.GetProductsByCategory | app/components/ui/ProductCard/data.ts:255-257 | exactly the catalogue entries of the category, in catalogue order |
| ProductData.GetFeaturedProducts | app/components/ui/ProductCard/data.ts:259-261 | exactly the entries whose `isFeatured` is present and true (absent counts as false), in catalogue order |
| ProductData.GetNewProducts | app/components/ui/ProductCard/data.ts:263-265 | exactly the entries whose `isNew` is present and true, in catalogue order |
| ProductData.GetBestSellers | app/components/ui/ProductCard/data.ts:267-269 | exactly the entries whose `isBestSeller` is present and true, in catalogue order |
| ProductData.CategoryEmptyIff | app/components/ui/ProductCard/data.ts:255-257 | a category's list is empty exactly when no product has that category |
| ProductCard.Repeat | app/components/ui/ProductCard/index.tsx:156-175 | n copies, none for a negative n |
| ProductCard.Stars | app/components/ui/ProductCard/index.tsx:151-177 | the star row: the full stars are exactly the first floor(rating) positions, and a half star appears iff the rating is not whole |
| ProductCard.RenderStars | app/components/ui/ProductCard/index.tsx:151-177 | the push loops produce floor(rating) full stars, a half star for a non-whole rating, then 5 − ceil(rating) empty ones |
| ProductCard.CeilFloor | app/components/ui/ProductCard/index.tsx:153-171 | `Math.ceil` is floor for a whole number and floor + 1 otherwise |
| ProductCard.StarsTotalFive | app/components/ui/ProductCard/index.tsx:151-177 | for a rating in [0, 5]: five stars, floor(rating) full, a half one iff the rating is not whole |
| ProductCard.StarsExamples | app/components/ui/ProductCard/index.tsx:151-177 | 4.8 shows four full and a half; 4.0 four full and an empty |
| ProductCard.Tenths | app/components/ui/ProductCard/index.tsx:144-146 | `toFixed(1)` as tenths, rounding the exact value half-up: within half a tenth of the value (weaker than the source on ties the binary double misses, see "Left out") |
| ProductCard.FormatDownloadCount | app/components/ui/ProductCard/index.tsx:142-149 | as written: "M" from 1,000,000, "K" from 1,000, the count below; the tenths are `Tenths` of the quotient and at least 1.0 |
| ProductCard.ThousandsLabelReachesOneThousand | app/components/ui/ProductCard/index.tsx:142-149 | 999,950 is labelled "1000.0K" |
| ProductCard.FormatDownloadCountRounded | app/components/ui/ProductCard/index.tsx:142-149 | corrected: "M" from 999,950, "K" from 1,000, the count below (same `Tenths` rounding) |
| ProductCard.RoundedLabelInRange | app/components/ui/ProductCard/index.tsx:142-149 | corrected: thousands never reach 1000.0; millions show at least 1.0; otherwise equal to the written label |
| ProductCard.Take | app/components/ui/ProductCard/index.tsx:425 | `slice(0, n)`: a prefix of length min(n, length) |
| ProductCard.Render | app/components/ui/ProductCard/index.tsx:179-636 | the original price is struck through iff above the price; discount badge iff discount > 0, showing the discount; new and best-seller badges iff the flag is true; exactly the first min(3, |tags|) tags in the default variant and none otherwise; exactly the first min(4, |features|) features unless compact; the stars of `renderStars` and the download label as written, `formatDownloadCount`, in all three variants |
| ProductCard.Payload | app/components/ui/ProductCard/index.tsx:54-105 | the callbacks get the card's own fields with both dates blanked |
| ProductCard.CardState.constructor | app/components/ui/ProductCard/index.tsx:51-52 | not wishlisted, not hovered |
| ProductCard.CardState.HandleWishlist | app/components/ui/ProductCard/index.tsx:54-79 | flips the wishlist flag and sends the payload |
| ProductCard.CardState.MouseEnter | app/components/ui/ProductCard/index.tsx:183-184 | hovered |
| ProductCard.CardState.MouseLeave | app/components/ui/ProductCard/index.tsx:183-184 | not hovered |
| CategorySection.CurrentProducts | app/components/Home/Category/index.tsx:490-492 | the selected category's list, or empty for an unknown category |
| CategorySection.ProductCount | app/components/Home/Category/index.tsx:428-476 | a tile's count is its category's list length |
| CategorySection.SortedProducts | app/components/Home/Category/index.tsx:495-523 | a permutation of the category's products; price-low non-decreasing price; price-high, rating, popular and newest non-increasing; any other choice keeps the order |
| CategorySection.SortIsStable | app/components/Home/Category/index.tsx:495-523 | ties keep the category's order |
| CategorySection.CartLineFor | app/components/Home/Category/index.tsx:526-539 | id, title as name, price, quantity 1, "digital_product" |
| CategorySection.AddFromGrid | app/components/Home/Category/index.tsx:526-539 | adding from the grid adds one unit: a new line at the end, or one more on the existing line |
| ProductInfo.ClampQuantity | app/components/ui/ProductDetails/ProductInfo.tsx:87-89 | in [1, 10], the identity inside it, the nearer bound outside |
| ProductInfo.InfoLine | app/components/ui/ProductDetails/ProductInfo.tsx:66-79 | the product's line with the picked quantity |
| ProductInfo.ViewPrice | app/components/ui/ProductDetails/ProductInfo.tsx:32-236 | savings = originalPrice − price, shown iff positive; the offer banner iff discount > 0; exactly the first min(3, |tags|) tags and all the features; the panel's own `renderStars` and `formatDownloadCount` (lines 32-62) give the card's `Stars` and as-written `FormatDownloadCount` |
| ProductInfo.AddFromPanel | app/components/ui/ProductDetails/ProductInfo.tsx:66-79 | adding from the panel adds q units and keeps ids distinct; a product not yet in the cart becomes a new last line of quantity q whose line total is added to the subtotal |
| ProductInfo.PanelLineTotal | app/components/ui/ProductDetails/ProductInfo.tsx:66-79 | the panel's line costs the product's price times the picked quantity, at least the price once q >= 1 |
| ProductInfo.InfoState.constructor | app/components/ui/ProductDetails/ProductInfo.tsx:19 | quantity 1, not wishlisted |
| ProductInfo.InfoState.HandleQuantityChange | app/components/ui/ProductDetails/ProductInfo.tsx:87-89 | the quantity is the clamped request |
| ProductInfo.InfoState.PressMinus | app/components/ui/ProductDetails/ProductInfo.tsx:254-256 | disabled at 1, otherwise one less |
| ProductInfo.InfoState.PressPlus | app/components/ui/ProductDetails/ProductInfo.tsx:264-266 | disabled at 10, otherwise one more |
| ProductInfo.InfoState.HandleWishlist | app/components/ui/ProductDetails/ProductInfo.tsx:81-83 | flips the wishlist flag |
| ProductInfo.InfoState.HandleAddToCart | app/components/ui/ProductDetails/ProductInfo.tsx:275-291 | both buttons dispatch one ADD_ITEM with the picked quantity |
| Gallery.ClampZoom | app/components/ui/ProductDetails/ProductImageGallery.tsx:43-45 | in [1, 4], the identity inside it |
| Gallery.ImageGallery.constructor | app/components/ui/ProductDetails/ProductImageGallery.tsx:20-22 | first image, not zoomed, level 1 |
| Gallery.ImageGallery.HandleImageSelect | app/components/ui/ProductDetails/ProductImageGallery.tsx:25-29 | shows the chosen image and resets the zoom to (off, 1) |
| Gallery.ImageGallery.HandleZoom | app/components/ui/ProductDetails/ProductImageGallery.tsx:32-40 | toggles between (off, 1) and (on, 2) |
| Gallery.ImageGallery.HandleZoomChange | app/components/ui/ProductDetails/ProductImageGallery.tsx:43-45 | the level becomes the clamped request |
| Gallery.ImageGallery.ZoomIn | app/components/ui/ProductDetails/ProductImageGallery.tsx:103 | half a step up unless at 4; the level stays in [1, 4] |
| Gallery.ImageGallery.ZoomOut | app/components/ui/ProductDetails/ProductImageGallery.tsx:111 | half a step down unless at 1; the level stays in [1, 4] |
| Gallery.ImageGallery.ResetZoom | app/components/ui/ProductDetails/ProductImageGallery.tsx:48-51 | (off, 1) |
| Gallery.ImageGallery.ZoomIndicator | app/components/ui/ProductDetails/ProductImageGallery.tsx:138-141 | shown only while zoomed: an exact percentage, a multiple of 50 in 100..400 |
| Gallery.ImageGallery.Counter | app/components/ui/ProductDetails/ProductImageGallery.tsx:182-186 | "k of n" only for more than one image, with k = selected + 1 ≤ n |
| Hero.JsRem | app/components/Home/Hero/index.tsx:67 | JavaScript's `%`: the remainder for a non-negative dividend, within (−n, 0] otherwise |
| Hero.NextIndex | app/components/Home/Hero/index.tsx:66-69 | from a slide index, the next one is a slide index: one more, the last wrapping to the first |
| Hero.PrevIndex | app/components/Home/Hero/index.tsx:71-74 | from a slide index, the previous one is a slide index: one less, the first wrapping to the last |
| Hero.NextPrevInverse | app/components/Home/Hero/index.tsx:66-74 | next and previous undo each other |
| Hero.FullTurn | app/components/Home/Hero/index.tsx:66-69 | k forward steps land on (i + k) mod 4, so four steps come back |
| Hero.Place | app/components/Home/Hero/index.tsx:96-106 | each slide is current, left or right, by its index against the current one |
| Hero.WrapPlacesAllRight | app/components/Home/Hero/index.tsx:66-106 | wrapping from the last slide to the first puts every other slide on the right |
| Hero.Carousel.constructor | app/components/Home/Hero/index.tsx:20-22 | slide 0, not animating, not paused |
| Hero.Carousel.GoToSlide | app/components/Home/Hero/index.tsx:51-64 | ignored while animating; otherwise moves to the slide and starts the transition |
| Hero.Carousel.AnimationEnd | app/components/Home/Hero/index.tsx:59-61 | the transition timer ends the lock |
| Hero.Carousel.GoToNextSlide | app/components/Home/Hero/index.tsx:66-69 | moves to the next index unless animating |
| Hero.Carousel.GoToPrevSlide | app/components/Home/Hero/index.tsx:71-74 | moves to the previous index unless animating |
| Hero.Carousel.AutoplayTick | app/components/Home/Hero/index.tsx:77-85 | no advance while paused; otherwise a next-slide step |
| Hero.Carousel.MouseEnter | app/components/Home/Hero/index.tsx:90 | pauses |
| Hero.Carousel.MouseLeave | app/components/Home/Hero/index.tsx:91 | resumes |
| Hero.Carousel.Placements | app/components/Home/Hero/index.tsx:96-106 | exactly one slide is current, those before it left, after it right |
| Text.Trim | app/components/admin/TopViralProducts/index.tsx:96 | `trim()`: the middle slice with no whitespace at either end; empty iff all whitespace |
| Text.IsBlank | app/components/ui/Cart/CartSummary.tsx:47 | `!s.trim()`: exactly when every character is whitespace |
| Text.Includes | app/components/admin/TopViralProducts/index.tsx:267-268 | `s.includes(t)`: exactly when `t` occurs at some position of `s` |
| Text.IncludesStep | app/components/admin/TopViralProducts/index.tsx:267-268 | when `t` is not a prefix, it occurs in `s` iff it occurs in the tail |
| Text.RemoveFirst | app/components/admin/TopViralProducts/index.tsx:104 | `replace(",", "")`: only the first occurrence goes |
| Text.ToLower | app/components/admin/TopViralProducts/index.tsx:267-268 | letter by letter lower-casing |
| Text.ToUpper | app/components/ui/Cart/CartSummary.tsx:49 | letter by letter upper-casing |
| Sorting.SortBy | app/components/Home/Category/index.tsx:500 | ascending by key, a permutation |
| Sorting.SortByIsStable | app/components/Home/Category/index.tsx:500 | equal keys keep their order |
| Sorting.FilterKeepsSorted | app/api/top-viral-products/route.ts:128-137 | filtering an ordered list keeps it ordered |
| Common.Filter | app/components/ui/ProductCard/data.ts:255-257 | `filter`: exactly the passing elements |
| Common.FilterIsSubsequence | app/components/ui/ProductCard/data.ts:255-269 | filter keeps the original order |
| Common.FilterMultiset | app/components/admin/TopViralProducts/index.tsx:783-785 | filter keeps every passing element's multiplicity |
| Common.FilterAppend | app/components/admin/TopViralProducts/index.tsx:113-115 | filter distributes over concatenation |
| Common.CountZeroIff | app/components/admin/TopViralProducts/index.tsx:658-662 | `filter(p).length` is 0 exactly when no element passes |

## Left out

- I/O. The document-store calls, the HTTP envelope and `initializeDefaultData` (seed data) are not modelled. Each handler is one atomic step over in-memory sequences; concurrent requests are not modelled.
- Nondeterministic values. `generateId`, `Date.now`, `Math.random` and `new Date().toISOString()` are parameters. Storage keys come from the store's counter.
- The "newest" sort's date parsing. It is the parameter `createdTime`, so only the ordering by it is stated.
- Floating point. Money is `real`. `Intl.NumberFormat` and `Math.round(savingsPercentage)` are display formatting and are not modelled. The download label's `toFixed(1)` is approximated by `ProductCard.Tenths` on exact reals; the difference is the next line.
- ProductCard.Tenths: rounds the exact quotient half-up, while `toFixed(1)` rounds the binary double nearest to it. On a tie the double misses the two differ: 1150 / 1000 is stored as 1.149999999999999911…, so the page shows "1.1K" where the model gives `Thousands(12)`, "1.2K"; 1450, 1650, 1950, 2050 and 1,150,000 behave the same way. `FormatDownloadCount`, `FormatDownloadCountRounded` and the card's and panel's labels inherit this.
- Timers and DOM. The 300 ms animation timer is the explicit `Hero.Carousel.AnimationEnd`, and the autoplay interval is `Hero.Carousel.AutoplayTick`. The gallery's download link, the `alert` on an unknown coupon and the toasts are left out.
- Presentation. Markup, CSS classes, animation settings, the navigation bars, the cart drawer layout, the best-offer and best-product sections, the product tabs and the demo pages are not part of this model.
- React context wiring. The `useCart` error outside a provider and the memoisation are left out.
- Admin modals and forms. Opening and closing the modals and filling the forms are not modelled; the page's requests to the store are the store's handlers.
- Hero.NextIndex: the slide count is the four slides of the component, not a general n.
- Hero.PrevIndex: the same.
- Hero.Carousel.GoToSlide: requires a slide index. The indicator buttons only pass one.
- Gallery.ImageGallery.HandleImageSelect: requires an index of the image list. The thumbnails only pass one.
- CategorySection.ProductCount: requires the category in the catalogue. The tiles index the six keys of the catalogue.
- Text.ToUpper: upper-cases ASCII letters only. `toUpperCase`'s other Unicode mappings are not modelled.
- Text.ToLower: lower-cases ASCII letters only.
- ProductData.DummyProducts: the catalogue's text fields are left empty. The category data of the home page is a parameter `catalogue`.
- TopViralStore.Store: each handler states how it changes a section's product-id list, but "the list matches the products' sectionId" is not proved as an invariant. It does not hold in general: a createProduct body may carry an `id` equal to an existing product's.
- TopViralStore.PatchSection: an update sets only the modelled fields. Arbitrary extra keys in the body are not modelled.
- TopViralStore.PatchProduct: the same.
- Collection.SortByOrder: records with equal `order` stay in storage order. `sort({order: 1})` promises no order among ties, and ties do arise, for instance when a reorder lists only some ids and an unlisted record keeps an order a listed one now has. `TopViralStore.View` and `TopViralStore.Store.ReorderProducts`/`ReorderSections` inherit this choice.

## Findings

| source | as written | input that shows it | evidently intended | confidence | as-written member | corrected member |
|---|---|---|---|---|---|---|
| app/components/ui/ProductCard/index.tsx:142-149 | the "K" branch is taken for every count below 1,000,000, and `toFixed(1)` rounds 999.95 up | a download count of 999950 is labelled "1000.0K" | "1.0M" from the count where the thousands label would reach 1000.0 | not executed | ProductCard.ThousandsLabelReachesOneThousand | ProductCard.RoundedLabelInRange |

The card (`ProductCard.Render`) and the detail panel (`ProductInfo.ViewPrice`) show the label as written, `FormatDownloadCount`; `FormatDownloadCountRounded` is the corrected definition, with its property proved in `RoundedLabelInRange`.
