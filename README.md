# Food-ordering storefront: verified model of the page logic

This project models in Dafny the logic behind five pages and components of a small
food-ordering web front end. It proves what each piece promises.

- **Cart ledger** (`cart.dfy`, module `Cart`). The cart page holds a list of line items. A
  quantity update below 1 removes every line with that id. Any other update sets the quantity
  on the matching lines. Subtotal, 8 % tax, the flat 5.00 delivery fee, the total and the
  navigation badge count are derived from the list. The page is a class `CartLedger` whose
  methods replace `items` the way the page's state setters do. What the page renders is
  modelled twice: as written, where the summary card of a non-empty cart uses a `Label`
  component that the file never imports, and with that import in place.
- **Stepper** (`stepper.dfy`, module `Stepper`). It finds the current step with a
  first-match search. It then marks each step as completed (before the current one),
  current, or future, and chooses its icon, connector colour and spinner.
- **Order tracking** (`order_tracking.dfy`, module `OrderTracking`). The tracking page
  holds the current step id. An effect arms at most one timer for the next step
  (3000 ms, 5000 ms and 7000 ms), and its cleanup clears it. The page is a class
  `OrderTracker`. Its timers are a `seq`, and a virtual clock advances by each fired delay.
  The run from mount goes confirmed, preparing, out for delivery, delivered. It skips the
  pickup step that the step list declares.
- **Checkout validator** (`checkout.dfy`, module `Checkout`). These are the per-field
  rules of the checkout schema:
  - minimum lengths;
  - the US ZIP / ZIP+4 pattern;
  - the closed payment-method enum;
  - the terms flag.

  It also covers the form's default values and, on a valid submit, the order id
  `ORD-<timestamp>` and its `/order-tracking/…` route.
- **Menu page** (`restaurant_menu.dfy`, module `RestaurantMenu`). The page looks up a
  restaurant by route parameter, falling back to a not-found view. Its add-to-cart list only
  appends, and the list's length is the badge.
- `wrappers.dfy` (module `Wrappers`) holds the `Option` and `Result` types.

Prices are exact `real`s, and quantities are `int`s. The timestamp is an input. Timer
delays are data.

The cart totals follow the code (`src/pages/CartPage.tsx:45-49`): tax is `subtotal * 0.08`
with no rounding.

## Model

| member | source | states |
|---|---|---|
| Cart.Filtered | src/pages/CartPage.tsx:33 | Filtering never grows the cart. No line with the id is left. A cart without the id comes back unchanged. |
| Cart.FilteredMembers | src/pages/CartPage.tsx:42 | A line survives the filter iff it was in the cart and its id differs from the removed id. |
| Cart.FilteredAppend | src/pages/CartPage.tsx:33 | Filtering distributes over concatenation, so the remaining lines keep their original order. |
| Cart.FilteredSplits | src/pages/CartPage.tsx:33 | Removed lines plus kept lines are exactly the original cart, as a multiset and by count. |
| Cart.Selected | src/pages/CartPage.tsx:36 | The lines picked out for an id all carry that id. |
| Cart.WithQuantity | src/pages/CartPage.tsx:35-37 | Setting a quantity preserves the cart's length. |
| Cart.Updated | src/pages/CartPage.tsx:31-39 | An update never grows the cart. Below 1 no line with the id is left. From 1 up the length is kept. |
| Cart.UpdatedAbsent | src/pages/CartPage.tsx:31-39 | An update for an id that no line has leaves the cart unchanged, whatever the quantity. |
| Cart.WithQuantityAt | src/pages/CartPage.tsx:36 | Pointwise: a line with the id gets the new quantity and keeps its other fields. Every other line is unchanged. |
| Cart.UpdatedCases | src/pages/CartPage.tsx:31-39 | Below 1, an update is the filter. Otherwise it keeps length and order, sets the quantity on matching lines only, and keeps name, price and image. |
| Cart.UpdatedKeepsPositive | src/pages/CartPage.tsx:31-39 | If every quantity is at least 1 before an update, every quantity is at least 1 after it. |
| Cart.FilteredKeepsUnique | src/pages/CartPage.tsx:42 | Removing lines from a cart with distinct ids leaves the ids distinct. |
| Cart.UpdatedKeepsUnique | src/pages/CartPage.tsx:31-39 | Distinct ids stay distinct after any update: the filter keeps a sub-list and the map keeps every id in place. |
| Cart.CartLedger.constructor | src/pages/CartPage.tsx:19-26 | The page starts on the three-line seed. The invariant holds: all quantities are positive and the ids are distinct. |
| Cart.CartLedger.UpdateQuantity | src/pages/CartPage.tsx:31-39 | The new cart is the update of the old one. Below 1 the id is gone. Otherwise the length is kept. Positive quantities and distinct ids are preserved. |
| Cart.CartLedger.RemoveItem | src/pages/CartPage.tsx:41-43 | Exactly the lines with the id are removed. If the id was absent, the cart is unchanged and nothing fails. The invariant is preserved. |
| Cart.CartLedger.Minus | src/pages/CartPage.tsx:99 | The minus button updates to quantity - 1. From 1 it removes the line. The invariant is preserved. |
| Cart.CartLedger.Plus | src/pages/CartPage.tsx:101 | The plus button raises that line's quantity by exactly one and keeps the length. The badge count rises by 1 and the subtotal by the line's unit price. The invariant is preserved. |
| Cart.Subtotal | src/pages/CartPage.tsx:45 | The fold starts at 0, so the empty cart's subtotal is 0. |
| Cart.ItemCount | src/pages/CartPage.tsx:56 | The empty cart's badge count is 0. With quantities of at least 1, the count is at least the number of lines. |
| Cart.Taxes | src/pages/CartPage.tsx:47 | For a non-negative subtotal the tax lies between 0 and the subtotal. It is positive iff the subtotal is. |
| Cart.DeliveryFee | src/pages/CartPage.tsx:48 | The fee is either 0 or 5.00, and it is charged iff the subtotal is positive. |
| Cart.ComputeTotals | src/pages/CartPage.tsx:45-49 | Subtotal is the sum of price times quantity. Tax is 8 % of it. The fee is 5.00 iff the subtotal is positive. The total is subtotal * 1.08 plus the fee. |
| Cart.SubtotalAppend | src/pages/CartPage.tsx:45 | The subtotal of two concatenated carts is the sum of their subtotals, so line order does not matter. |
| Cart.ItemCountAppend | src/pages/CartPage.tsx:56 | The badge count of two concatenated carts is the sum of their counts. |
| Cart.SubtotalCons | src/pages/CartPage.tsx:45 | Subtotal of a leading line plus the rest is that line's total plus the rest's subtotal. |
| Cart.ItemCountCons | src/pages/CartPage.tsx:56 | Badge count of a leading line plus the rest is its quantity plus the rest's count. |
| Cart.SubtotalBounds | src/pages/CartPage.tsx:45-56 | With non-negative prices and positive quantities, the subtotal is non-negative and the badge count is at least the number of lines. |
| Cart.FilteredTotals | src/pages/CartPage.tsx:45-56 | Subtotal and badge count split exactly into the kept lines and the lines with the id. |
| Cart.WithQuantitySubtotal | src/pages/CartPage.tsx:36-45 | After a quantity change, the subtotal is the other lines' subtotal plus that of the changed lines. |
| Cart.WithQuantityItemCount | src/pages/CartPage.tsx:36-56 | After a quantity change, the badge count is the other lines' count plus that of the changed lines. |
| Cart.CountWithoutLine | src/pages/CartPage.tsx:42-56 | With distinct ids, removing a line's id takes exactly that line's quantity off the badge count. |
| Cart.CountAfterPlus | src/pages/CartPage.tsx:36-56 | With distinct ids, after one more unit on a line the badge count is the other lines' count plus the new quantity. |
| Cart.SubtotalWithoutLine | src/pages/CartPage.tsx:42-45 | With distinct ids, removing a line's id takes exactly that line's total off the subtotal. |
| Cart.SubtotalAfterPlus | src/pages/CartPage.tsx:36-45 | With distinct ids, after one more unit on a line the subtotal is the other lines' subtotal plus that line at its new quantity. |
| Cart.PlusAddsOne | src/pages/CartPage.tsx:101 | With distinct ids, one click on plus raises the badge count by exactly 1. |
| Cart.PlusAddsUnitPrice | src/pages/CartPage.tsx:101 | With distinct ids, one click on plus raises the subtotal by exactly that line's unit price. |
| Cart.PlusEffect | src/pages/CartPage.tsx:101 | The plus button's update is the quantity map. It keeps the length, raises that line by one, the badge by 1 and the subtotal by the unit price. |
| Cart.LineTotalPlusOne | src/pages/CartPage.tsx:45 | One more unit adds the unit price to the line total. |
| Cart.SelectedUnique | src/pages/CartPage.tsx:36 | With distinct ids, the lines matching a line's id are that line alone. |
| Cart.NoneSelected | src/pages/CartPage.tsx:36 | No line matches an id that is not in the cart. |
| Cart.EmptyCartTotalsZero | src/pages/CartPage.tsx:45-49 | An empty cart has subtotal, tax, fee and total all 0. |
| Cart.NonEmptyCartTotal | src/pages/CartPage.tsx:48-49 | A positive subtotal always pays the 5.00 fee on top of subtotal * 1.08. |
| Cart.InitialTotals | src/pages/CartPage.tsx:19-56 | The seed cart has subtotal 44.98, tax 3.5984, fee 5.00, total 53.5784 and badge count 4. |
| Cart.RenderCartPageAsWritten | src/pages/CartPage.tsx:65-143 | As written, the page throws iff the cart is non-empty. Otherwise it is the empty-cart message with badge 0. |
| Cart.RenderCartPage | src/pages/CartPage.tsx:60-163 | With the label imported the page never throws. It shows the empty-cart message iff the cart is empty, and otherwise every line in order with the four summary figures. The badge is the unit count in both branches. |
| Cart.SeedCartCrashes | src/pages/CartPage.tsx:19-143 | The page as written throws on the seed cart at mount. With the label imported, it shows the seed's lines, totals 44.98 / 3.5984 / 5.00 / 53.5784 and badge 4. |
| Cart.AsWrittenCartAgrees | src/pages/CartPage.tsx:65-143 | The page as written and the corrected page agree iff the cart is empty. |
| Stepper.StepsOrDefault | src/components/OrderStatusStepper.tsx:27 | A left-out step list becomes the four default steps, confirmed to delivered. A list that is passed, even an empty one, is used as is. |
| Stepper.PaletteOf | src/components/OrderStatusStepper.tsx:29-31 | Each icon prop that is passed is used. When all three are left out, the palette is check, loader and circle. |
| Stepper.FindIndex | src/components/OrderStatusStepper.tsx:34 | The index of the first step with the id, or -1 iff no step has it. |
| Stepper.Render | src/components/OrderStatusStepper.tsx:38-71 | One view per step, in step order, each the classification of that index. |
| Stepper.ViewOf | src/components/OrderStatusStepper.tsx:39-67 | No step is both completed and current. A current step carries the current id. Only a current step spins. A connector follows iff the step is not the last. The icon is one of the three props or the step's own. |
| Stepper.RenderProps | src/components/OrderStatusStepper.tsx:26-71 | One view per step, four with the default list. No view is both completed and current, and only the last view has no connector. |
| Stepper.ViewMeaning | src/components/OrderStatusStepper.tsx:39-40 | A step is current iff it is the first match. It is completed iff a match exists later in the list and none at or before it. It is never both. |
| Stepper.IconChoice | src/components/OrderStatusStepper.tsx:29-41 | Completed steps use the completed icon and the current step the current icon. A future step uses its own icon, or the future icon when it has none. |
| Stepper.ConnectorAndSpin | src/components/OrderStatusStepper.tsx:54-67 | Every step but the last has a connector, which is highlighted iff the step is completed or current. Only a current `preparing` step spins. |
| Stepper.CurrentCountAt | src/components/OrderStatusStepper.tsx:40 | If exactly index p is current, the number of current views is 1 when p is in range and 0 otherwise. |
| Stepper.CompletedCountBelow | src/components/OrderStatusStepper.tsx:39 | If exactly the indices below c are completed, c views are completed. |
| Stepper.StepperCounts | src/components/OrderStatusStepper.tsx:34-41 | A present id gives one current step and as many completed steps as its index. An absent id gives none of either. |
| Stepper.DefaultPropsPreparing | src/components/OrderStatusStepper.tsx:19-41 | With every prop left out, the four default steps render with the default icons. With `preparing` current: step one is completed, step two is current with the spinning loader, and the last two show their own icons. |
| Stepper.AbsentIdMarksNothing | src/components/OrderStatusStepper.tsx:34-41 | With an unknown current id, no step is completed or current. |
| OrderTracking.Position | src/pages/OrderTrackingPage.tsx:10-16 | Every step id has a place in the step list. |
| OrderTracking.StepSequence | src/pages/OrderTrackingPage.tsx:10-22 | Five steps in the declared order, with distinct ids. The page starts on `confirmed`. |
| OrderTracking.StepperFindsEachStep | src/pages/OrderTrackingPage.tsx:10-16 | The stepper's search finds each id at its position in the step list. |
| OrderTracking.ArmedTimers | src/pages/OrderTrackingPage.tsx:26-37 | The effect arms at most one timer. It arms none iff the step is pickup or delivered. A timer always targets a later step. |
| OrderTracking.NextTransition | src/pages/OrderTrackingPage.tsx:26-37 | There is no next transition iff the step is pickup or delivered. A transition goes to a later step other than pickup, after a positive delay. |
| OrderTracking.Progress | src/pages/OrderTrackingPage.tsx:26-39 | The step never moves backwards. It is unchanged iff no time has elapsed. |
| OrderTracking.Trace | src/pages/OrderTrackingPage.tsx:26-39 | A run of at most n firings visits between 1 and n+1 steps. It starts at the current step and ends where the progression ends. |
| OrderTracking.TransitionTable | src/pages/OrderTrackingPage.tsx:29-37 | confirmed goes to preparing after 3000 ms, preparing to delivery after 5000 ms, and delivery to delivered after 7000 ms. Pickup and delivered stay put. |
| OrderTracking.OrderTracker.constructor | src/pages/OrderTrackingPage.tsx:22-31 | Mount starts on confirmed, with the 3000 ms timer to preparing pending. |
| OrderTracking.OrderTracker.Fire | src/pages/OrderTrackingPage.tsx:30-38 | A pending timer sets its target and advances the clock by its delay. The step strictly advances, and exactly the new step's timers are pending. With no pending timer nothing changes. |
| OrderTracking.OrderTracker.Teardown | src/pages/OrderTrackingPage.tsx:38 | Cleanup clears every pending timer and leaves the step unchanged. |
| OrderTracking.ProgressStops | src/pages/OrderTrackingPage.tsx:29-37 | A step with no armed timer never changes again. |
| OrderTracking.FullRun | src/pages/OrderTrackingPage.tsx:26-39 | From mount, three firings reach delivered at 15000 ms via confirmed, preparing, delivery, delivered. |
| OrderTracking.TraceFromMount | src/pages/OrderTrackingPage.tsx:26-39 | After n firings, the visited steps are the first min(n+1, 4) entries of that run. |
| OrderTracking.TraceIncreases | src/pages/OrderTrackingPage.tsx:33 | The visited steps strictly advance through the list and never include pickup. |
| OrderTracking.FullTraceIncreases | src/pages/OrderTrackingPage.tsx:29-37 | The full run's steps sit at strictly increasing positions, and pickup is not among them. |
| Checkout.ParsePaymentMethod | src/pages/CheckoutPage.tsx:24 | A value is accepted iff it is one of creditCard, paypal, cod. It parses to the method of that name. |
| Checkout.PaymentMethodRoundTrip | src/pages/CheckoutPage.tsx:24 | Every method's name parses back to that method. |
| Checkout.MatchDigits | src/pages/CheckoutPage.tsx:22 | Matching `\d{n}` succeeds iff the first n characters exist and are ASCII digits. It leaves the rest of the input. |
| Checkout.DigitsPrefixCons | src/pages/CheckoutPage.tsx:22 | An n-digit prefix is a leading digit followed by an (n-1)-digit prefix. |
| Checkout.PostalCodeMatches | src/pages/CheckoutPage.tsx:22 | An accepted postal code has 5 or 10 characters and starts with five digits. |
| Checkout.PostalCodeShape | src/pages/CheckoutPage.tsx:22 | The postal code matches iff it is five digits, or five digits, `-` and four digits. Its length is 5 or 10. |
| Checkout.FieldValid | src/pages/CheckoutPage.tsx:19-28 | A passing postal code has 5 or 10 characters. A passing payment method is present and one of the three names. |
| Checkout.IsValid | src/pages/CheckoutPage.tsx:18-29 | A valid form has accepted terms, a payment method, a name of at least 2 characters, an address of at least 5 and a matching postal code. |
| Checkout.FailingFieldsMembers | src/pages/CheckoutPage.tsx:18-29 | A field is reported iff it is checked and its rule fails. |
| Checkout.EveryFieldInSchema | src/pages/CheckoutPage.tsx:18-29 | Every validated field appears in the schema order. |
| Checkout.Validate | src/pages/CheckoutPage.tsx:18-36 | The errors name exactly the fields whose rule fails. They are empty iff the form is valid. |
| Checkout.CardFieldsUnconstrained | src/pages/CheckoutPage.tsx:25-27 | The card number, expiry and CVC never affect validity. |
| Checkout.TermsRequired | src/pages/CheckoutPage.tsx:28 | A form with unaccepted terms is invalid and reports the terms field. |
| Checkout.DefaultsTail | src/pages/CheckoutPage.tsx:37-45 | On the default form, of country, payment method and terms only country passes. |
| Checkout.DefaultsInvalid | src/pages/CheckoutPage.tsx:37-45 | The default form fails name, address, city, postal code, payment method and terms, in that order. The preset country passes. |
| Checkout.DecimalString | src/pages/CheckoutPage.tsx:53 | The printed timestamp is non-empty, all digits, with no leading zero. |
| Checkout.DigitChar | src/pages/CheckoutPage.tsx:53 | A digit value prints as an ASCII digit. |
| Checkout.DecimalRoundTrip | src/pages/CheckoutPage.tsx:53 | Reading the printed timestamp back gives the timestamp. |
| Checkout.OrderId | src/pages/CheckoutPage.tsx:53 | The id is `ORD-` followed by digits only, and those digits read back as the submission time. |
| Checkout.Submit | src/pages/CheckoutPage.tsx:50-56 | A submit navigates iff the form is valid. Otherwise it yields the non-empty list of failing fields. |
| Checkout.RouteCarriesTimestamp | src/pages/CheckoutPage.tsx:53-55 | The route is `/order-tracking/ORD-` followed by the digits of the timestamp, which read back as the timestamp. |
| RestaurantMenu.ConstructorIdCrashes | src/pages/RestaurantMenuPage.tsx:56-108 | As written, the id `constructor` is not a restaurant, yet the page crashes instead of showing not found. |
| RestaurantMenu.AddToCartPayload | src/components/MenuItem.tsx:27 | The payload carries the item's id, name and price. |
| RestaurantMenu.PropertyLookup | src/pages/RestaurantMenuPage.tsx:56 | An own key yields its record. Otherwise an inherited member name yields that member, and any other key yields undefined. |
| RestaurantMenu.RenderPageAsWritten | src/pages/RestaurantMenuPage.tsx:56-108 | As written, the page crashes iff the id names a member that every object inherits. Otherwise the badge is the number of entries. |
| RestaurantMenu.LookupRestaurant | src/pages/RestaurantMenuPage.tsx:13-56 | Only `r1` finds a restaurant, and it finds The Gourmet Place. A missing or unknown id finds none. |
| RestaurantMenu.RenderPage | src/pages/RestaurantMenuPage.tsx:56-79 | The page never crashes. It is the not-found view iff the lookup finds nothing. The badge is the number of entries in both branches. |
| RestaurantMenu.AsWrittenAgrees | src/pages/RestaurantMenuPage.tsx:56-79 | For any id that is not an inherited member name, the page as written equals the corrected page. |
| RestaurantMenu.GourmetPlacePage | src/pages/RestaurantMenuPage.tsx:13-43 | `r1` shows The Gourmet Place with Appetizers, Main Courses and Desserts open. |
| RestaurantMenu.AfterAdds | src/pages/RestaurantMenuPage.tsx:59 | Each click adds exactly one entry, and the earlier entries stay as a prefix. |
| RestaurantMenu.AfterAddsAppends | src/pages/RestaurantMenuPage.tsx:58-59 | A run of clicks appends the items in click order and leaves earlier entries unchanged. |
| RestaurantMenu.BadgeCountsClicks | src/pages/RestaurantMenuPage.tsx:52-79 | The badge equals the number of clicks since mount, whether or not the restaurant is found. |
| RestaurantMenu.NoMerging | src/pages/RestaurantMenuPage.tsx:52-59 | Adding the same item twice gives two more entries and two more copies of it. Nothing is merged and there is no quantity. |
| RestaurantMenu.MenuPageState.constructor | src/pages/RestaurantMenuPage.tsx:52 | The add-to-cart list starts empty. |
| RestaurantMenu.MenuPageState.HandleAddToCart | src/pages/RestaurantMenuPage.tsx:58-59 | The item is appended at the end. The earlier entries are unchanged. |
| RestaurantMenu.MenuPageState.ClickAdd | src/components/MenuItem.tsx:26-27 | A click appends exactly the item's id, name and price. |
| RestaurantMenu.MenuPageState.Page | src/pages/RestaurantMenuPage.tsx:56-108 | The page as written crashes iff the id is an inherited member name. Otherwise it is the corrected page and its badge is the list's length. |

## Findings

| source | as written | input that shows it | evidently intended | confidence | as-written member | corrected member |
|---|---|---|---|---|---|---|
| src/pages/CartPage.tsx:143 | The order summary card renders `<Label>`, but the file's imports (lines 1-9) never bring `Label` in. A type check reports an unknown name. Without one, rendering throws a ReferenceError, and no error boundary catches it. | the seed cart at mount (any non-empty cart; the empty cart never renders the card) | Import `Label` from the UI kit, so that a non-empty cart shows its table and summary. | not executed | Cart.SeedCartCrashes | Cart.RenderCartPage |
| src/pages/RestaurantMenuPage.tsx:56 | `(placeholderRestaurantDetails as any)[id]` also returns the properties that every object inherits. The result is truthy, so the page takes the found branch. It then calls `.map` on a `menu` that does not exist, and rendering throws. | route `/restaurant-menu/constructor` (likewise `toString` and the other inherited functions; for `__proto__` the lookup yields the prototype object itself, which has no `name`, so rendering throws earlier, at `restaurant.name.substring`) | Any id that is not an own key of the table shows the not-found view. | not executed | RestaurantMenu.ConstructorIdCrashes | RestaurantMenu.RenderPage |

## Left out

- Cart.CartLedger: the quantity buttons and the remove button exist only in the rendered table, which as written throws for every non-empty cart. The handlers are modelled as they behave once `Label` is imported.
- Cart.Subtotal: its own contract states only the empty case. Its sign and additivity are the lemmas SubtotalBounds and SubtotalAppend, kept apart so that they do not weigh on every proof that mentions a subtotal.
- Floating point is left out. Prices and totals are exact reals: IEEE-754 drift and `toFixed(2)` display formatting are not modelled. The code applies no internal rounding, and neither does the model.
- Quantities are unbounded integers. The buttons only ever add or subtract 1 from integers, so JavaScript's number type adds nothing here.
- Numeric item ids are integers. A JavaScript `number` id could also be a fraction or NaN, and NaN is never `===` to itself. Every id in the page's data is a string, so nothing depends on this.
- Cart.ComputeTotals: states the total as `subtotal * 1.08 + fee`. Exact arithmetic makes that equal to `subtotal + taxes + fee`; the floating-point evaluation order is not modelled.
- JSX layout, styling, CSS classes and routing are not modelled. Only the values the pages compute and pass down are.
- React hook semantics (state batching, effect scheduling) and the form library internals are not modelled. The schema rules they apply are modelled. A submit is modelled as validate-then-navigate.
- `Date.now()` is a parameter. `navigate` and `console.log` are effects and appear only as the route string they would receive.
- Checkout.DecimalString: prints every natural number in plain decimal. JavaScript switches to exponent notation from 1e21, which no clock reading reaches.
- String lengths are counted in characters. JavaScript counts UTF-16 code units, which differ only outside the basic plane.
- Real timer delays are not modelled. They are constants, and a fired timer advances a virtual clock by its delay.
- The tracking page's state is modelled as one of the five step ids. The page only ever stores one of them.
- The tracking page's order details, the status messages and the map placeholder are not modelled.
- The promo-code input and its button have no logic behind them.
- The checkout page's order summary is literal data that is not computed from any cart.
- The carousel wraps a third-party component that is not part of this model.
- The navigation bar is presentational. Its search box calls a callback only on a trimmed non-empty query; that guard is not modelled.
- The home page, restaurant cards and app routing are not part of this model.
- RestaurantMenu.MenuPageState.Page: the rendered menu view records the restaurant and the open categories, not the item cards. A crash is one `RenderError` value, whichever expression throws first.
