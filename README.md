# OnlineStoreTCA and AmiiboTCA reducers in Dafny

This project models the feature reducers of two small SwiftUI apps built on
The Composable Architecture (TCA), and proves properties about them. OnlineStoreTCA is
an online store, including the modules of its earlier snapshot. AmiiboTCA is an Amiibo
catalogue. In TCA, each feature is a state machine. It takes a value `State`
and an `Action`, updates the state in place and returns an `Effect`. That effect can be
nothing, an action sent straight back, or a call to an injected port whose result comes
back as another action.

How the model is built:

- **The reducer itself.** Each reducer is a pure function `Reduce(s, a): Step(state, effect)`.
  Where the Swift code mutates its `inout` state step by step, a `method Apply` also does it
  field by field. `Apply` calls its children's `Apply`, and its postcondition ties it to `Reduce`.
- **Composition.** It follows the source. `Scope`, `.forEach`, `.ifLet` and the old
  `.optional().pullback` run the child reducer before the parent's closure, and their effects
  are merged child first. `RootDomain` lists the binding reducer, its own closure and then the
  two scopes, and they run in that order.
- **Runtime stand-ins.** `Identified` stands in for `IdentifiedArray`: a sequence whose
  identifiers are pairwise distinct, where removing an absent id does nothing. It also provides
  the `uuid` dependency, a counter that hands out `0, 1, 2, …` the way the tests' generator does.
  `Effects` holds the effect description and `Driver` a sequential test store. `Money` holds the
  `reduce(0.0, +)` fold that both carts use for their totals.
- **The test store.** `Driver` sends an action and then drains the `Send` effects in FIFO order.
  This lets the test sequences be stated as lemmas.
- **Key mappings.** `Json` holds an abstract JSON value and the keyed-container primitives
  (`decode`, `nestedContainer`). The key mappings themselves are in `Products`, `UserProfiles` and
  `CartItems`.

The stepper itself does not clamp at zero: minus takes it to -1, and `ProductDomain` clamps it
back afterwards (ProductDomain.swift:36-37). The model does the same.

## Model

| member | source | states |
|---|---|---|
| AddToCartDomain.Initial | OnlineStoreTCA/Products/AddToCart/AddToCartDomain.swift:12-14 | the stepper starts at count 0 |
| AddToCartDomain.Apply | OnlineStoreTCA/Products/AddToCart/AddToCartDomain.swift:26-33 | the in-place reducer yields exactly `Reduce`'s state and effect |
| AddToCartDomain.PlusAddsOne | OnlineStoreTCA/Products/AddToCart/AddToCartDomain.swift:27-29 | plus raises the count by exactly one, with no effect |
| AddToCartDomain.MinusSubtractsOne | OnlineStoreTCA/Products/AddToCart/AddToCartDomain.swift:30-32 | minus lowers the count by one with no floor; from the initial state it gives -1 |
| AddToCartDomain.MinusThenPlusRestores | OnlineStoreTCA/Products/AddToCart/Test/AddToCartDomainTest.swift:68-70 | minus then plus restores the original state |
| AddToCartDomain.NoEffect | OnlineStoreTCA/Products/AddToCart/AddToCartDomain.swift:26-33 | no action returns an effect |
| AddToCartDomain.TapsCount | OnlineStoreTCA/Products/AddToCart/AddToCartDomain.swift:27-32 | in any order, a run of taps moves the count by (#plus − #minus) |
| AddToCartDomain.TapsFromInitial | OnlineStoreTCA/Products/AddToCart/AddToCartDomain.swift:12-32 | from the initial state, the count equals #plus − #minus |
| ProductDomain.New | OnlineStoreTCA/Products/Product/ProductDomain.swift:13-16 | a new row has the given id and product and a zero count |
| ProductDomain.Apply | OnlineStoreTCA/Products/Product/ProductDomain.swift:28-41 | the scoped stepper and then the clamp, in place, yield exactly `Reduce` |
| ProductDomain.CountIsAView | OnlineStoreTCA/Products/Product/ProductDomain.swift:18-21 | setting `count` writes only the stepper's count; get after set returns the value; setting the current count changes nothing |
| ProductDomain.PlusIncrements | OnlineStoreTCA/Products/Product/ProductDomain.swift:29-35 | plus raises the count by one; the parent adds nothing |
| ProductDomain.MinusAtZeroIsNoOp | OnlineStoreTCA/Products/Product/ProductDomain.swift:29-38 | at zero the child goes to -1 and the clamp restores the state unchanged |
| ProductDomain.MinusDecrements | OnlineStoreTCA/Products/Product/ProductDomain.swift:36-37 | at a positive count, minus lowers it by one |
| ProductDomain.IdentityKept | OnlineStoreTCA/Products/Product/ProductDomain.swift:14-15 | no action changes `id` or `product`, and none returns an effect |
| ProductDomain.CountNonNegativeStep | OnlineStoreTCA/Products/Product/ProductDomain.swift:36-37 | one action keeps a non-negative count non-negative |
| ProductDomain.CountStaysNonNegative | OnlineStoreTCA/Products/Product/ProductDomain.swift:28-41 | any run of actions keeps a non-negative count non-negative |
| ProductDomain.MinusMinusPlus | OnlineStoreTCA/Products/Product/Test/ProductDomainTest.swift:134-140 | minus, minus, plus on a new row gives count 1 |
| CartItems.Sample | OnlineStoreTCA/CartList/Cart/CartItem.swift:15-31 | three items, one for each of `Product.sample[0..2]`, with quantities 3, 1, 1 |
| CartItems.Encode | OnlineStoreTCA/CartList/Cart/CartItem.swift:40-44 | writing the container entry by entry gives exactly the payload map |
| CartItems.PayloadKeys | OnlineStoreTCA/CartList/Cart/CartItem.swift:34-44 | the only keys written are `productId` and `quantity`; title, price and id are not |
| CartItems.PayloadRoundTrip | OnlineStoreTCA/CartList/Cart/CartItem.swift:42-43 | reading `productId` and `quantity` back as integers gives the product's id and the quantity |
| CartItemDomain.DeleteLeavesLine | OnlineStoreTCA/CartList/Cart/CartItemDomain.swift:23-28 | `deleteCartItem` leaves the line unchanged and returns no effect, whatever product it names |
| Identified.RemoveAt | OnlineStoreTCA/CartList/CartListDomain.swift:61 | in an identified array, `remove(id:)` removes exactly the entry with that id and keeps the rest in order |
| Identified.RemoveAbsent | OnlineStoreTCA/CartList/CartListDomain.swift:61 | removing an id that is not present changes nothing |
| Identified.RemoveKeepsUnique | OnlineStoreTCA/CartList/CartListDomain.swift:61 | removal keeps the identifiers pairwise distinct |
| CartListDomain.New | OnlineStoreTCA/CartList/CartListDomain.swift:13-20 | `State(cartItems:)`: not started, total 0, pay enabled, no alerts |
| CartListDomain.VerifyPayButtonVisibility | OnlineStoreTCA/CartList/CartListDomain.swift:46-51 | the pay button is disabled exactly when the total is 0; nothing else changes; no effect |
| CartListDomain.Apply | OnlineStoreTCA/CartList/CartListDomain.swift:53-134 | the line reducer, then the closure, both in place, yield exactly `Reduce` |
| Money.SumAppend | OnlineStoreTCA/CartList/CartListDomain.swift:66-68 | `reduce(0.0, +)` over a concatenation is the sum of the two folds |
| Money.SumNonNegative | OnlineStoreTCA/Cart/CartDomain.swift:54-56 | a fold of non-negative line prices is non-negative |
| Money.TotalOfAppend | OnlineStoreTCA/Cart/CartDomain.swift:54-56 | the total of a concatenation of lines is the sum of the two totals, for any line price |
| Money.SumPositive | OnlineStoreTCA/CartList/CartListDomain.swift:66-68 | a fold of positive line prices is ≥ 0, and it is 0 iff there are no lines |
| CartListDomain.TotalAppend | OnlineStoreTCA/CartList/CartListDomain.swift:64-68 | the left-fold total of a concatenation is the sum of the totals |
| CartListDomain.TotalWithoutLine | OnlineStoreTCA/CartList/CartListDomain.swift:58-68 | deleting line i takes exactly price × quantity of that line off the total |
| CartListDomain.TotalZeroIffEmpty | OnlineStoreTCA/CartList/CartListDomain.swift:64-69 | with positive prices and quantities, the total is ≥ 0, and it is 0 iff the cart is empty |
| CartListDomain.LinesAreInert | OnlineStoreTCA/CartList/CartListDomain.swift:131-133 | the `.forEach` pass over the lines never changes the state or returns an effect |
| CartListDomain.ReduceKeepsValid | OnlineStoreTCA/CartList/CartListDomain.swift:53-134 | every action keeps the line ids pairwise distinct |
| CartListDomain.DeleteRemovesLine | OnlineStoreTCA/CartList/CartListDomain.swift:58-62 | deleting line i removes exactly it, keeps the others in order, and sends one `getTotalPrice` |
| CartListDomain.DeleteAbsentKeepsLines | OnlineStoreTCA/CartList/CartListDomain.swift:58-62 | deleting an unknown id changes nothing but still sends `getTotalPrice` |
| CartListDomain.GetTotalPriceSetsTotal | OnlineStoreTCA/CartList/CartListDomain.swift:64-69 | the total becomes Σ price × quantity; pay is disabled iff that is 0; nothing else changes; no effect |
| CartListDomain.EmptyCartDisablesPay | OnlineStoreTCA/CartList/CartListDomain.swift:46-69 | an empty cart gets total 0 and a disabled pay button |
| CartListDomain.FilledCartEnablesPay | OnlineStoreTCA/CartList/CartListDomain.swift:46-69 | a non-empty cart with positive prices and quantities gets a positive total and an enabled pay button |
| CartListDomain.IsRequestInProcessIff | OnlineStoreTCA/CartList/CartListDomain.swift:27-29 | `isRequestInProcess` iff the status is loading |
| CartListDomain.ConfirmSubmitsCart | OnlineStoreTCA/CartList/CartListDomain.swift:117-128 | confirming only sets loading, and runs one `sendOrder` with the items captured at that step, whose result comes back as the response |
| CartListDomain.PurchaseResponseShowsAlert | OnlineStoreTCA/CartList/CartListDomain.swift:95-116 | success sets status success and the thank-you alert (button: dismissSuccessAlert); failure sets error and the oops alert (button: dismissErrorAlert); nothing else changes |
| CartListDomain.DismissalsClearOwnAlert | OnlineStoreTCA/CartList/CartListDomain.swift:86-94 | each dismissal clears only its own alert, returns no effect, and is idempotent |
| CartListDomain.PayRaisesConfirmation | OnlineStoreTCA/CartList/CartListDomain.swift:55-85 | pay sets only the confirmation alert for the current total, whose buttons send confirm and cancel; close changes nothing |
| CartListDomain.DeleteThenReceiveTotal | OnlineStoreTCA/CartList/CartListDomain.swift:58-69 | sending a delete, the store receives `getTotalPrice` only, and ends with the line gone and the total reduced by that line |
| CartListDomain.DeleteLastLineDisablesPay | OnlineStoreTCA/CartList/CartListDomain.swift:58-69 | deleting the only line ends with an empty cart, total 0 and pay disabled |
| ProductListDomain.Initial | OnlineStoreTCA/Products/ProductList/ProductListDomain.swift:14-18 | not started, cart closed and absent, no rows |
| ProductListDomain.DerivedFlags | OnlineStoreTCA/Products/ProductList/ProductListDomain.swift:20-26 | `shouldShowError` iff error; `isLoading` iff loading |
| ProductListDomain.FirstIndexOfProduct | OnlineStoreTCA/Products/ProductList/ProductListDomain.swift:94-96 | finds the first row with that product id, or reports that there is none |
| ProductListDomain.SetCount | OnlineStoreTCA/Products/ProductList/ProductListDomain.swift:100 | `productList[id:]?.count = n` changes at most the count of one row; with distinct ids, exactly the count of the row with that id and no other row |
| ProductListDomain.PositiveRows | OnlineStoreTCA/Products/ProductList/ProductListDomain.swift:109-119 | a row is kept iff its count is positive |
| ProductListDomain.RowsAreFresh | OnlineStoreTCA/Products/ProductList/ProductListDomain.swift:60-67 | one row per product, in order, each with the next uuid and count 0; the ids are distinct |
| ProductListDomain.CartLinesArePositiveRows | OnlineStoreTCA/Products/ProductList/ProductListDomain.swift:104-121 | the cart lines are exactly the rows with count > 0, in order, with quantity = count and consecutive fresh ids |
| ProductListDomain.ResetProductsToZero | OnlineStoreTCA/Products/ProductList/ProductListDomain.swift:145-151 | the loop over the ids leaves exactly the fold `ResetAll` of per-id count writes |
| ProductListDomain.ResetAllZeroesEveryRow | OnlineStoreTCA/Products/ProductList/ProductListDomain.swift:145-151 | in an identified array, every count becomes 0, with ids and products kept |
| ProductListDomain.CloseCartView | OnlineStoreTCA/Products/ProductList/ProductListDomain.swift:136-143 | the cart is closed and dropped, nothing else changes, no effect |
| ProductListDomain.Apply | OnlineStoreTCA/Products/ProductList/ProductListDomain.swift:42-134 | cart, then row, then closure, all in place, yield exactly `Reduce` |
| ProductListDomain.ChildrenIgnore | OnlineStoreTCA/Products/ProductList/ProductListDomain.swift:128-133 | actions for neither child are decided by the closure alone |
| ProductListDomain.FetchIgnoredWhileBusyOrDone | OnlineStoreTCA/Products/ProductList/ProductListDomain.swift:45-48 | a fetch while success or loading changes nothing and returns no effect |
| ProductListDomain.FetchStarts | OnlineStoreTCA/Products/ProductList/ProductListDomain.swift:50-57 | otherwise it sets loading and runs one fetch whose result comes back as the response |
| ProductListDomain.FetchSuccessReplacesRows | OnlineStoreTCA/Products/ProductList/ProductListDomain.swift:58-68 | success sets status success, replaces the rows with fresh ones, and draws one uuid per product |
| ProductListDomain.FetchFailureKeepsRows | OnlineStoreTCA/Products/ProductList/ProductListDomain.swift:69-73 | failure sets only status error (so the error shows) and keeps the rows |
| ProductListDomain.OpenCartBuildsLines | OnlineStoreTCA/Products/ProductList/ProductListDomain.swift:102-123 | `setCartView(true)` opens a default cart of the positive rows, draws one uuid per line, no effect |
| ProductListDomain.HideCartDropsIt | OnlineStoreTCA/Products/ProductList/ProductListDomain.swift:102-123 | `setCartView(false)` closes the cart and sets it to nil |
| ProductListDomain.CloseButtonsCloseCart | OnlineStoreTCA/Products/ProductList/ProductListDomain.swift:76-91 | `closeCart` and the cart's close button both close and drop the cart, with no effect |
| ProductListDomain.PaidOrderResetsCounts | OnlineStoreTCA/Products/ProductList/ProductListDomain.swift:78-81 | dismissing the success alert zeroes every count, keeps ids and products, and sends only `closeCart` |
| ProductListDomain.PaidOrderClosesCart | OnlineStoreTCA/Products/ProductList/Test/ProductListDomainTest.swift:190-197 | the store then receives `closeCart` only and ends with the cart closed and nil and every count 0 |
| ProductListDomain.ResetProductZeroesFirstMatch | OnlineStoreTCA/Products/ProductList/ProductListDomain.swift:92-101 | zeroes the count of the first row with that product id and nothing else; no match means no change |
| ProductListDomain.DeleteLineSendsTotalThenReset | OnlineStoreTCA/Products/ProductList/ProductListDomain.swift:82-86 | deleting a cart line removes it from the cart and sends `cart(getTotalPrice)`, then `resetProduct(p)` |
| ProductListDomain.DeleteLineThenReceive | OnlineStoreTCA/Products/ProductList/ProductListDomain.swift:82-101 | the store receives `cart(getTotalPrice)` and then `resetProduct(p)`, and ends with the cart re-totalled (CartListDomain.swift:64-69) and the product's first row at 0 |
| ProductListDomain.OtherCartActionsStayInCart | OnlineStoreTCA/Products/ProductList/ProductListDomain.swift:87-88 | any other cart action changes only the open cart (nothing if it is nil), and its effects are addressed to the cart |
| ProductListDomain.RowActionUpdatesRow | OnlineStoreTCA/Products/ProductList/ProductListDomain.swift:124-130 | a row action runs that row's reducer in place, touches nothing else, and returns no effect |
| ProductListDomain.UnknownRowIgnored | OnlineStoreTCA/Products/ProductList/ProductListDomain.swift:128-130 | `.forEach` drops a row action whose id no row has: nothing changes, no effect |
| ProductListDomain.ReduceKeepsValid | OnlineStoreTCA/Products/ProductList/ProductListDomain.swift:42-134 | every action keeps row ids distinct, counts ≥ 0 and an open cart's line ids distinct |
| ProfileDomain.Initial | OnlineStoreTCA/Profile/ProfileDomain.swift:13-15 | the default profile, not started |
| ProfileDomain.Apply | OnlineStoreTCA/Profile/ProfileDomain.swift:34-58 | the in-place reducer yields exactly `Reduce` |
| ProfileDomain.IsLoadingIff | OnlineStoreTCA/Profile/ProfileDomain.swift:16-18 | `isLoading` iff the data state is loading |
| ProfileDomain.FetchIgnoredWhileBusyOrDone | OnlineStoreTCA/Profile/ProfileDomain.swift:37-39 | a fetch while complete or loading changes nothing and returns no effect |
| ProfileDomain.FetchStarts | OnlineStoreTCA/Profile/ProfileDomain.swift:41-48 | from not started, a fetch sets loading and runs one fetch whose result comes back as the response |
| ProfileDomain.SuccessReplacesProfile | OnlineStoreTCA/Profile/ProfileDomain.swift:49-52 | success sets complete and replaces the profile |
| ProfileDomain.FailureKeepsProfile | OnlineStoreTCA/Profile/ProfileDomain.swift:53-56 | failure sets complete and keeps the profile |
| ProfileDomain.CompleteIsFinal | OnlineStoreTCA/Profile/ProfileDomain.swift:36-56 | once complete, any run of actions stays complete and never runs a fetch again |
| ProductDetailsDomain.New | OnlineStoreTCA/Products/ProductDetails/ProductDetailsViewDomain.swift:12-15 | the given product, not started |
| ProductDetailsDomain.Apply | OnlineStoreTCA/Products/ProductDetails/ProductDetailsViewDomain.swift:34-59 | the in-place reducer yields exactly `Reduce` |
| ProductDetailsDomain.FetchRunsIff | OnlineStoreTCA/Products/ProductDetails/ProductDetailsViewDomain.swift:36-47 | a fetch returns an effect iff the status is not started or error, and leaves the state unchanged iff the status is success or loading |
| ProductDetailsDomain.FetchIgnoredWhileBusyOrDone | OnlineStoreTCA/Products/ProductDetails/ProductDetailsViewDomain.swift:37-39 | a fetch while success or loading changes nothing and returns no effect |
| ProductDetailsDomain.FetchStarts | OnlineStoreTCA/Products/ProductDetails/ProductDetailsViewDomain.swift:41-47 | then it sets loading and runs one fetch whose result comes back as the response |
| ProductDetailsDomain.SuccessReplacesProduct | OnlineStoreTCA/Products/ProductDetails/ProductDetailsViewDomain.swift:48-51 | success sets success and replaces the product |
| ProductDetailsDomain.FailureKeepsProduct | OnlineStoreTCA/Products/ProductDetails/ProductDetailsViewDomain.swift:52-56 | failure sets error, stops loading, keeps the product and returns no effect |
| ProductDetailsDomain.CloseIsNoOp | OnlineStoreTCA/Products/ProductDetails/ProductDetailsViewDomain.swift:57-58 | close changes nothing |
| ProductDetailsDomain.RetryAfterFailure | OnlineStoreTCA/Products/ProductDetails/ProductDetailsViewDomain.swift:36-56 | after fetch and failure, a second fetch goes ahead with the product still shown |
| RootDomain.Initial | OnlineStoreTCA/Root/RootDomain.swift:14-18 | the products tab, with both children at their initial states |
| RootDomain.BodyIsInert | OnlineStoreTCA/Root/RootDomain.swift:33-42 | the root's own closure changes nothing and returns no effect |
| RootDomain.BindingWritesField | OnlineStoreTCA/Root/RootDomain.swift:26-32 | a binding writes exactly its field, with no effect |
| RootDomain.ProductListActionIsScoped | OnlineStoreTCA/Root/RootDomain.swift:43-45 | a product-list action changes only `productList` (and the uuids it draws); effects are lifted |
| RootDomain.ProfileActionIsScoped | OnlineStoreTCA/Root/RootDomain.swift:46-48 | a profile action changes only `profile`; effects are lifted |
| RootDomain.ChildSendsAreRouted | OnlineStoreTCA/Root/RootDomain.swift:43-48 | a child's follow-up actions come back to the root in order, addressed to that child |
| RootDomain.ReduceKeepsValid | OnlineStoreTCA/Root/RootDomain.swift:31-49 | root actions keep the product list's invariants |
| Products.DecodeSucceedsIff | OnlineStoreTCA/Products/Product/Product.swift:30-38 | decoding succeeds iff all six keys are present with the right types |
| Products.DecodeReadsKeys | OnlineStoreTCA/Products/Product/Product.swift:21-37 | each field comes from the key of the same name, and `imageString` from `image` |
| Products.DecodeFields | OnlineStoreTCA/Products/Product/Product.swift:30-38 | an object holding a product's six keys, whatever else it holds, decodes to that product |
| Products.DecodeNeedsEveryKey | OnlineStoreTCA/Products/Product/Product.swift:31-37 | a missing key makes decoding fail |
| Products.Sample | OnlineStoreTCA/Products/Product/Product.swift:41-69 | three products with ids 1, 2, 3 |
| Json.DecodeIntAccepts | OnlineStoreTCA/Products/Product/Product.swift:32 | `decode(Int.self)` succeeds iff the key holds an integral number within 64 bits, and returns it |
| UserProfiles.DecodeReadsKeys | OnlineStoreTCA/Profile/UserProfile.swift:26-34 | `id` and `email` come from the top level; the names come from `name.firstname` and `name.lastname` |
| UserProfiles.DecodeFields | OnlineStoreTCA/Profile/UserProfile.swift:26-34 | an object with those keys, whatever else it holds, decodes to that profile |
| UserProfiles.DecodeNeedsNameObject | OnlineStoreTCA/Profile/UserProfile.swift:31 | without a `name` object, decoding fails |
| UserProfiles.DecodeNeedsBothNames | OnlineStoreTCA/Profile/UserProfile.swift:31-33 | without either nested name key, decoding fails |
| UserProfiles.Sample | OnlineStoreTCA/Profile/UserProfile.swift:37-45 | id 1, Pedro Rojas |
| UserProfiles.Default | OnlineStoreTCA/Profile/UserProfile.swift:47-54 | id 0 with empty strings |
| Amiibos.FranchiseRoundTrip | AmiiboTCA/Amiibo/Domain/Amiibo.swift:17-22 | each franchise is recovered from its raw value |
| AmiiboDomain.Initial | AmiiboTCA/Amiibo/Domain/AmiiboDomain.swift:12-16 | an empty list, an empty selection map, the cart hidden |
| AmiiboDomain.Apply | AmiiboTCA/Amiibo/Domain/AmiiboDomain.swift:35-57 | the in-place reducer yields exactly `Reduce` |
| AmiiboDomain.OnAppearRequests | AmiiboTCA/Amiibo/Domain/AmiiboDomain.swift:37-41 | appearing changes nothing and runs one request whose result comes back as `dataLoaded` |
| AmiiboDomain.DataLoadedReplacesList | AmiiboTCA/Amiibo/Domain/AmiiboDomain.swift:42-49 | success replaces only the list and returns no effect; failure changes nothing |
| AmiiboDomain.SelectIncrements | AmiiboTCA/Amiibo/Domain/AmiiboDomain.swift:50-52 | a selection adds one to that Amiibo's counter (starting from 0), adds only that key, leaves the other counters, the list and the cart flag alone, and returns no effect |
| AmiiboDomain.ShowCartIdempotent | AmiiboTCA/Amiibo/Domain/AmiiboDomain.swift:53-55 | `showCart` sets the flag, and doing it twice is the same as once |
| AmiiboDomain.CounterCountsSelections | AmiiboTCA/Amiibo/Domain/AmiiboDomain.swift:50-52 | after any run of actions, a counter has grown by the number of times that Amiibo was selected |
| OldCatalog.Sample | OnlineStoreTCA/Cart/CartItem.swift:16-31 | two items for the first two sample products, with quantities 3 and 1 and distinct fresh ids |
| OldCartDomain.Initial | OnlineStoreTCA/Cart/CartDomain.swift:13-15 | an empty cart, total 0, no alert |
| OldCartDomain.Apply | OnlineStoreTCA/Cart/CartDomain.swift:37-81 | the in-place reducer yields exactly `Reduce` |
| OldCartDomain.TotalNonNegative | OnlineStoreTCA/Cart/CartDomain.swift:53-57 | unsigned quantities and non-negative prices give a non-negative total |
| OldCartDomain.FetchInstallsItems | OnlineStoreTCA/Cart/CartDomain.swift:42-44 | `fetchCartItems` sets the items to exactly those given |
| OldCartDomain.GetTotalPriceSetsTotal | OnlineStoreTCA/Cart/CartDomain.swift:53-57 | the total becomes Σ price × quantity, and nothing else changes; one more item adds its line price |
| OldCartDomain.PayThenCancel | OnlineStoreTCA/Cart/CartDomain.swift:58-72 | pay sets the alert (buttons: confirm, cancel); cancel clears it and is idempotent |
| OldCartDomain.ConfirmSubmitsItems | OnlineStoreTCA/Cart/CartDomain.swift:73-79 | confirming changes nothing and runs one `sendOrder` with the current items |
| OldCartDomain.ResponsesAreInert | OnlineStoreTCA/Cart/CartDomain.swift:45-52 | purchase responses and close change nothing |
| OldProductDomain.Initial | OnlineStoreTCA/Products/ProductDomain.swift:12-16 | no products, cart closed and absent |
| OldProductDomain.Apply | OnlineStoreTCA/Products/ProductDomain.swift:32-70 | the pulled-back cart, then the closure, in place, yield exactly `Reduce` |
| OldProductDomain.FetchRunsRequest | OnlineStoreTCA/Products/ProductDomain.swift:46-51 | a fetch changes nothing and runs one request whose result comes back as the response |
| OldProductDomain.FetchResponseReplacesProducts | OnlineStoreTCA/Products/ProductDomain.swift:52-57 | success replaces the products; failure changes nothing |
| OldProductDomain.SetCartViewOpensSample | OnlineStoreTCA/Products/ProductDomain.swift:60-66 | opening sets the flag and a new cart holding `CartItem.sample`; closing sets the flag false and the cart nil |
| OldProductDomain.CartActionsReachOnlyTheCart | OnlineStoreTCA/Products/ProductDomain.swift:32-59 | cart actions run the cart reducer first, only when a cart exists, and never change `products` or `shouldOpenCart` |
| OldProductDomain.ConfirmInCartSubmits | OnlineStoreTCA/Products/ProductDomain.swift:33-43 | confirming in the open cart submits its items, and the response is addressed back to the cart |

## Left out

- SwiftUI views, app bootstrapping and `APIClient`: the ports appear only as `Run` effect descriptors (`Effects.Call`), each carrying its captured arguments.
- Asynchronous execution: `.run`/`.task` are not executed, and their results arrive as ordinary actions. `@MainActor` is not modelled, and neither is the cancellation of a cart's in-flight effects when `.ifLet` state becomes nil.
- Runtime warnings raised by `.forEach`/`.ifLet`/`.optional()` for a missing child: the model only drops the action, with no state change.
- `print` side effects.
- Alert titles, messages and button styles: an alert is a tag, plus the total it quotes and the actions its buttons send.
- `totalPriceString` and its rounding: prices and totals are exact reals, so Double rounding is not modelled.
- CartListDomain.Total: states the exact sum Σ price × quantity, which is weaker than the source's Double arithmetic for totals that do not round exactly.
- AddToCartDomain.Reduce: counts are unbounded integers, so Swift's overflow trap on `Int.max + 1` is not modelled.
- AmiiboDomain.Reduce: selection counters are unbounded integers, so the trap of `selectedAmibo[amiibo.id, default: 0] += 1` at `Int.max` is not modelled.
- The JSON text behind `Decoder`/`Encoder`: the key mappings work over an abstract JSON value. Numbers are reals; an `Int` must be integral and fit in 64 bits.
- `BindingAction`: bindings are modelled as whole-field writes of `selectedTab`, `productList` or `profile`.
- `Amiibo.id`, which Swift generates with `UUID()` at construction: here it is an ordinary field.
- The earlier snapshot's `Product.sample` is not part of this model. `OldCatalog.SampleCatalog` holds the two entries that `CartItem.sample` reads.
- The `uuid` dependency is a counter, like the tests' generator. A random generator is not modelled.
- OldCatalog.Sample: the earlier snapshot's `CartItem.sample` calls `UUID()` directly (Cart/CartItem.swift:20,25) and has no `uuid` dependency. The model draws both ids from the same counter, and `OldProductDomain` advances it by two, so the ids are fresh and distinct without modelling `UUID()`.
- Driver.SendAction: a fuel bound limits how many follow-up actions it drains. The test store has no such bound.
- The test files were written against an earlier version of the reducers. Their delete and pay-button scenarios are modelled with the current names (`cartItem(id:action:)` for `deleteCartItem(id:)`, `isPayButtonDisable` for `isPayButtonHidden`, `productList` for `productListState`). The test's receive of `.cart(.deleteCartItem(id:))` (ProductListDomainTest.swift:279) is dropped, because the current `CartListDomain` never sends it.
- The Amiibo cart domain (print-only), `AmiiboEffect.swift` (a Combine mock) and `SystemEnvironment.swift` (commented out).
