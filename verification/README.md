# Storefront cart, product store and checkout, modelled in Dafny

This project models the client-side state of a handmade-goods storefront app:

- the **cart store** (`cartSlice`): an ordered list of cart lines with two derived fields, `total` and `itemCount`, and the four reducers `addToCart`, `removeFromCart`, `updateQuantity` and `clearCart`;
- the **product store** (`productSlice`): the catalogue, its featured part and four browsing fields, with one setter each;
- the **cart line's quantity controls** (`CartItem` component): minus, plus and trash buttons and the handler that routes a requested quantity to removal or update;
- the **checkout decision** (`checkout` screen): form validation, the empty-cart guard, and the cart being cleared after a successful order.

Files:

- `wrappers.dfy`: `Option`, standing in for `undefined` and `null`.
- `seqs.dfy`: the array operations the reducers use (`filter`, `find`, the `reduce` sums), with their meaning proved once.
- `types.dfy`: products, cart lines and option sets.
- `cart_slice.dfy`: the cart store as a class (`CartStore`), whose methods change its fields in place. Each method's postcondition ties the new lines to a specification function (`Added`, `Removed`, `Updated`) and states that the totals agree with the lines. The lemmas prove what those functions promise.
- `product_slice.dfy`: the product store as a class (`ProductStore`). Each setter states the whole new state as the old one with its own field replaced.
- `cart_item_view.dfy`: quantity routing, and the session lemma that routed edits never leave a line with zero or fewer units.
- `checkout.dfy`: the order decision as a pure function, plus the method that empties the cart on success.

Modelling choices:

- Prices are whole cents (`int`), and quantities are `int`.
- The line id is an input (`freshId`), because the source builds it from a clock reading. It is not assumed unique. `DistinctOptionsScenario` shows two lines sharing one id.
- Option sets are `Option<seq<(string, string)>>` compared with plain equality. This matches the source's comparison of the two JSON renderings: key order matters, and an absent option set differs from an empty one. One might expect an order-independent comparison in which "absent" equals "empty". The code compares the JSON renderings instead, so the model compares ordered pairs.
- Nothing in the store keeps a line's quantity positive: `updateQuantity` stores any value (`UpdateSetsFirstMatch`). The guarantee comes from the callers routing edits of zero or less to removal (`SessionKeepsQuantitiesPositive`).
- On a merge, the line keeps its original product snapshot. So `total` grows by the *stored* price times the added quantity, not by the new product's price (`AddGrowsTotals`).
- `updateQuantity` updates only the first line with the id. `removeFromCart` drops every line with it.

## Model

| member | source | states |
|---|---|---|
| `Seqs.FirstIndex` | store/slices/cartSlice.ts:22-25 | `find`: the index returned is the first whose element satisfies the test; None exactly when no element does |
| `Seqs.Filter` | store/slices/cartSlice.ts:42 | `filter`: every element kept satisfies the test, and the result is no longer than the input |
| `Seqs.FilterCounts` | store/slices/productSlice.ts:28 | `filter` keeps each accepted element exactly as many times as it occurs, and no rejected element |
| `Seqs.FilterIsSubsequence` | store/slices/cartSlice.ts:42 | `filter` keeps relative order: its result embeds in the input at strictly increasing positions |
| `Seqs.FilterKeepsAll` | store/slices/cartSlice.ts:42 | filtering a sequence whose every element passes returns it unchanged |
| `Seqs.FilterIdempotent` | store/slices/cartSlice.ts:42 | filtering twice with one test equals filtering once |
| `Seqs.SumOfAppend` | store/slices/cartSlice.ts:38-39 | the `reduce` sum over lines plus one new line is the old sum plus that line's term |
| `Seqs.SumOfLowerBound` | store/slices/cartSlice.ts:38-39 | a `reduce` sum of terms each at least `b` is at least `b` per element |
| `Seqs.SumOfUpdate` | store/slices/cartSlice.ts:38-39 | replacing one line changes the `reduce` sum by the new term minus the old one |
| `CartSlice.SumQty` | store/slices/cartSlice.ts:38 | the `itemCount` fold: 0 for an empty cart, and at least one unit per line when every line is positive |
| `CartSlice.SumPrice` | store/slices/cartSlice.ts:39 | the `total` fold: 0 for an empty cart, and never negative when no price or quantity is |
| `CartSlice.Added` | store/slices/cartSlice.ts:22-35 | the lines after `addToCart`: either the same length or the old lines plus one new line; some line then holds the product with those options; lines that do not match are untouched |
| `CartSlice.Removed` | store/slices/cartSlice.ts:42 | the lines after `removeFromCart`: no longer than before, and no line with the id remains |
| `CartSlice.Updated` | store/slices/cartSlice.ts:48-50 | the lines after `updateQuantity`: same length; each line is unchanged or, carrying the id, has only its quantity replaced; lines with other ids are untouched |
| `CartSlice.FindLine` | store/slices/cartSlice.ts:22-25 | the line `addToCart` merges into is the first with the same product id and the same option set; None when no line matches |
| `CartSlice.FindId` | store/slices/cartSlice.ts:48 | the line `updateQuantity` edits is the first with the given id; None when no line has it |
| `CartSlice.CartStore.constructor` | store/slices/cartSlice.ts:10-14 | the initial cart has no lines, total 0 and itemCount 0, is consistent, and has no two lines for one product and option set |
| `CartSlice.CartStore.AddToCart` | store/slices/cartSlice.ts:20-40 | the new lines are `Added(old lines, …)` (merge into the first match, else append), total/itemCount are recomputed from them, and distinct lines stay distinct |
| `CartSlice.CartStore.RemoveFromCart` | store/slices/cartSlice.ts:41-45 | the new lines are the old ones without every line of that id; totals recomputed; distinct lines stay distinct |
| `CartSlice.CartStore.UpdateQuantity` | store/slices/cartSlice.ts:46-54 | the first line with the id gets the quantity and totals are recomputed; with no such line, lines, total and itemCount are all unchanged; distinct lines stay distinct |
| `CartSlice.CartStore.ClearCart` | store/slices/cartSlice.ts:55-59 | from any state: no lines, total 0, itemCount 0 (consistent, no duplicate lines) |
| `CartSlice.AddMergesIntoFirstMatch` | store/slices/cartSlice.ts:22-28 | when some line matches product id and options, only the first such line's quantity grows by the added amount; length, order and all other lines stay |
| `CartSlice.AddAppendsNewLine` | store/slices/cartSlice.ts:29-35 | when no line matches, exactly one line holding the fresh id, product, quantity and options is appended; earlier lines unchanged |
| `CartSlice.AddGrowsTotals` | store/slices/cartSlice.ts:27-39 | after an add, itemCount grows by the quantity and total by quantity times the price of the line it landed in (the stored snapshot on a merge) |
| `CartSlice.RemoveKeepsOtherLines` | store/slices/cartSlice.ts:42 | removal leaves no line with the id, keeps every other line with its multiplicity, and keeps their relative order |
| `CartSlice.RemoveIdempotent` | store/slices/cartSlice.ts:42 | removing an id twice equals removing it once |
| `CartSlice.RemoveAbsentIdChangesNothing` | store/slices/cartSlice.ts:42 | removing an id that no line carries leaves the lines unchanged |
| `CartSlice.AddKeepsUnique` | store/slices/cartSlice.ts:22-35 | an add never creates a second line for one product id and option set |
| `CartSlice.RemoveKeepsUnique` | store/slices/cartSlice.ts:42 | a removal never creates a second line for one product id and option set |
| `CartSlice.UpdateKeepsUnique` | store/slices/cartSlice.ts:48-50 | an update never creates a second line for one product id and option set |
| `CartSlice.UpdateAbsentIdChangesNothing` | store/slices/cartSlice.ts:48-53 | updating an id that no line carries leaves the lines unchanged |
| `CartSlice.UpdateSetsFirstMatch` | store/slices/cartSlice.ts:48-52 | the first line with the id gets the quantity verbatim (zero and negative included), other lines untouched, itemCount shifts by the difference |
| `CartSlice.AddKeepsPositive` | store/slices/cartSlice.ts:27-35 | an add of at least one unit keeps every line's quantity positive |
| `CartSlice.RemoveKeepsPositive` | store/slices/cartSlice.ts:42 | a removal keeps every line's quantity positive |
| `CartSlice.UpdateKeepsPositive` | store/slices/cartSlice.ts:48-50 | an update to a positive quantity keeps every line's quantity positive |
| `CartSlice.SameLineAddsMerge` | store/slices/cartSlice.ts:22-35 | any non-empty sequence of adds with one product id and one option set, into an empty cart, leaves exactly one line: the first add's id and product snapshot, holding the sum of the quantities |
| `CartSlice.DistinctAddsAppend` | store/slices/cartSlice.ts:22-35 | adds whose (product id, option set) pairs are pairwise distinct, into an empty cart, give one new line per add, in order |
| `CartSlice.MergeUpdateRemoveScenario` | store/slices/cartSlice.ts:20-54 | add 2 then 3 of a 10.00 product gives one line of 5 (total 50.00); updating to 1 gives total 10.00; removing it empties the cart |
| `CartSlice.DistinctOptionsScenario` | store/slices/cartSlice.ts:22-35 | one product added with two different option sets gives two lines (itemCount 2); with one clock reading both share an id, and removing that id drops both |
| `ProductSlice.Featured` | store/slices/productSlice.ts:28 | every featured product listed has `featured` set |
| `ProductSlice.ProductStore.constructor` | store/slices/productSlice.ts:13-20 | empty lists, not loading, no error, empty search text, category "All"; the featured list agrees with the catalogue |
| `ProductSlice.ProductStore.SetProducts` | store/slices/productSlice.ts:26-29 | products become the payload, featured products its featured filter; nothing else changes |
| `ProductSlice.ProductStore.SetLoading` | store/slices/productSlice.ts:30-32 | only `loading` changes; the featured list still agrees with the catalogue |
| `ProductSlice.ProductStore.SetError` | store/slices/productSlice.ts:33-35 | only `error` changes; the featured list still agrees with the catalogue |
| `ProductSlice.ProductStore.SetSearchQuery` | store/slices/productSlice.ts:36-38 | only `searchQuery` changes; the featured list still agrees with the catalogue |
| `ProductSlice.ProductStore.SetSelectedCategory` | store/slices/productSlice.ts:39-41 | only `selectedCategory` changes; the featured list still agrees with the catalogue |
| `ProductSlice.FeaturedIsOrderedFilter` | store/slices/productSlice.ts:28 | the featured list is a subsequence of the catalogue and holds each featured product exactly as often as the catalogue does, and no other |
| `ProductSlice.FeaturedStaysInSync` | store/slices/productSlice.ts:13-41 | record-level form of the store's invariant: the initial state and each setter's update keep the featured list equal to the catalogue's featured filter |
| `ProductSlice.SettersIdempotent` | store/slices/productSlice.ts:26-41 | record-level form of two setter calls (each setter's postcondition is the old state with one field replaced): applying an update twice with one payload equals applying it once |
| `CartItemView.HandleQuantityChange` | components/CartItem.tsx:12-18 | a requested quantity of 0 or less asks for removal of the line's id; a positive one asks for an update to exactly that quantity |
| `CartItemView.Minus` | components/CartItem.tsx:46 | minus asks about the line's own id: removal exactly when the line holds one unit or fewer, otherwise an update to one unit fewer |
| `CartItemView.Plus` | components/CartItem.tsx:55 | plus asks about the line's own id: an update to one unit more, and removal only when the line holds a negative quantity |
| `CartItemView.Trash` | components/CartItem.tsx:63 | trash asks for removal of the line's id, without going through the quantity handler |
| `CartItemView.Dispatched` | components/CartItem.tsx:5-9 | the effect of a callback as the cart screen in `app/(tabs)/cart.tsx` (lines 12-18) wires it: a removal leaves no line with the id; an update keeps the length and every line with another id |
| `CartItemView.Deliver` | components/CartItem.tsx:5-9 | the line's `onRemove` callback runs `removeFromCart` and its `onUpdateQuantity` callback runs `updateQuantity`, as `app/(tabs)/cart.tsx` lines 12-18 wire them; a consistent cart stays consistent |
| `CartItemView.MinusOnLastUnitRemoves` | components/CartItem.tsx:46 | minus on a line of one unit (or fewer) removes it, and no line with its id remains |
| `CartItemView.PlusUpdates` | components/CartItem.tsx:55 | plus on a line of zero or more units asks for an update to one more |
| `CartItemView.TrashRemovesLine` | components/CartItem.tsx:63 | the trash button removes every line with the item's id, whatever its quantity |
| `CartItemView.StepKeepsPositive` | components/CartItem.tsx:12-18 | one add of at least one unit, routed edit, trash or clear keeps every line positive |
| `CartItemView.SessionKeepsQuantitiesPositive` | components/CartItem.tsx:12-18 | over any session whose adds ask for at least one unit and whose edits go through the handler, no line ever holds zero or fewer units |
| `Checkout.InitialShipping` | app/checkout.tsx:12-19 | the shipping form starts with only the country ("United States") filled, so any submission of it meets the shipping error |
| `Checkout.InitialPayment` | app/checkout.tsx:21-26 | the payment form starts empty, so with a complete address a submission meets the payment error |
| `Checkout.PlaceOrder` | app/checkout.tsx:28-54 | the order is placed exactly when name, street, city, card number, expiry and CVV are all filled, and then shows the cart total |
| `Checkout.ScreenFor` | app/checkout.tsx:56-62 | the checkout form (and its place-order button) is shown exactly when the cart has a line |
| `Checkout.SubmitOrder` | app/checkout.tsx:40-53 | the outcome is decided from the cart total at submission; only a placed order that the shopper acknowledges empties the cart, otherwise the cart is unchanged |
| `Checkout.ShippingCheckedFirst` | app/checkout.tsx:30-33 | a missing name, street or city yields the shipping error, whatever the payment fields |
| `Checkout.PaymentCheckedSecond` | app/checkout.tsx:35-38 | with shipping complete, a missing card number, expiry or CVV yields the payment error |
| `Checkout.OptionalFieldsIgnored` | app/checkout.tsx:30-38 | state, ZIP code, country and cardholder name do not affect the outcome |
| `Checkout.InitialFormRefused` | app/checkout.tsx:12-33 | the form as first shown is refused with the shipping error |

## Left out

- Rendering, styles, icons and layout of every screen and component: these only display state.
- `ProductCard`, `SearchBar` and `CategoryFilter` components: presentation only.
- Navigation and alerts (`router.push`, `router.back`, `Alert.alert`). Only the decision and the `clearCart` effect are modelled. Whether the shopper pressed OK on the success alert is the `acknowledged` input of `SubmitOrder`.
- App layout (fonts, splash screen, store provider), store wiring (`configureStore`, typed hooks) and the framework-ready hook: framework plumbing.
- Floating-point prices and `toFixed(2)` formatting: prices are whole cents and no string is formatted.
- The clock read `Date.now()` behind line ids: the id is an input.
- The JSON rendering itself: only its equality behaviour is kept (ordered pairs, absent differs from empty). Its reordering of integer-like keys is not modelled.
- Immer's copy-on-write drafts: the reducers are in-place updates of a store object. The lines are values, so aliasing between a found line and the list is not modelled.
- Product fields other than id, title, price, category, stock and featured (description, images, seller, tags, materials, dimensions, weight, customizable, rating, review count, creation date): no modelled operation reads them.
- The auth store and the search/filter screens are not part of this model.
