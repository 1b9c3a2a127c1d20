# SuperMas storefront cart: a Dafny model

This project models the ordering logic of the SuperMas restaurant storefront, a
single-page React shop with a static menu. It covers:

- the cart engine of the top-level `App` component: add, update quantity,
  remove, checkout confirmation and the item count;
- the logic the views compute around the engine. The cart drawer computes the
  subtotal, the line totals and the keys its buttons pass back. The checkout
  form holds the draft, the total and the submit → timer → confirm state
  machine. The item detail view holds the default size, the displayed price,
  the option captions and add-then-close. The menu grid holds the category
  filter.

The modules:

- `Types`: the records of `types.ts`. Prices are integer cents, so 5.50 is
  `550`. An option name is an `Option<string>`, and the empty string `""` is
  `Some("")`, which is not the same key as `None` (`undefined`).
- `CartEngine`: the pure transforms `App.tsx` hands to `setCart`. Each is a
  function from the previous cart to the next one, with lemmas about counts,
  keys, order and the invariant that every quantity is at least 1.
- `CartDrawer`, `Checkout`, `ItemDetail`, `Menu`: one module per view.
  Whatever a view computes is written as a function. The state cells it
  updates (`details`/`isSuccess`, `selectedSize`, `activeCategory`) become
  fields of a class, and each handler becomes a method that assigns them.
- `AppShell`: the class `App` with the state cells `cart`, `isCartOpen`,
  `isCheckoutOpen` and `selectedItem`, plus the three stateful views it keeps
  mounted. Its methods compose the handlers in the order the source calls
  them.
- `Catalog`: three catalog entries (p1, k1, c2) used as fixtures for concrete
  scenarios.

Behaviour worth knowing:

- The detail view always passes its `selectedSize` string to add, and that
  string is `''` for an item without options. The option-less line is stored
  without an option, so its key name is `undefined`. `undefined === ''` is
  false, so the second add from the detail view finds no line and appends one:
  the Doner Kebab added twice gives two lines of quantity 1
  (`OptionlessItemFromDetailViewTwice`). Adding under no name gives one line of
  quantity 2. `AddTwice` states the general rule. A second add merges exactly
  when the name is one of the item's option names, or when the name is absent
  and the item has no options. An unknown name resolves to the first option
  and never merges.
- At most one line per key is not an invariant of the code. `AddToCart`,
  `UpdateQuantity` and `RemoveItem` act on every line that carries the key.

Two consequences of the code as written:

- The add handler merges a repeated add into the existing line
  (App.tsx:26-30), and the drawer keys each row by
  `` `${item.id}-${item.selectedOption?.name || 'default'}` ``
  (components/CartDrawer.tsx:62). That row key is unique only while each key
  has at most one line. Adding an option-less item twice from the detail view
  appends a second line with the same key (see above).
- The checkout form stays mounted inside `App`, and nothing in
  components/CheckoutModal.tsx:15-33 resets `details`. The draft therefore
  survives closing and reopening the form, and it survives the timer step
  (`CheckoutModal.TimerFires`, `App.CloseCheckout`).

## Model

| member | source | states |
|---|---|---|
| `CartEngine.CartCount` | App.tsx:22 | The left fold of the quantities equals their plain sum. It is 0 for the empty cart. When every quantity is at least 1, it is at least the number of lines, so it is positive exactly when the cart is non-empty. |
| `CartEngine.PositiveSumAtLeastLength` | App.tsx:22 | When every quantity is at least 1, the quantities sum to at least the number of lines. |
| `CartEngine.MatchCount` | App.tsx:26 | The number of lines carrying a key is at most the length, and it is zero exactly when no line carries the key. |
| `CartEngine.Find` | App.tsx:26 | `find` returns a line exactly when some line carries `(id, name)`, and the line it returns is in the cart and carries that key. |
| `CartEngine.FindOption` | App.tsx:32 | Returns the first option whose name equals the given name. It returns none when no option has that name, which is always the case for an absent name. |
| `CartEngine.Matches` | App.tsx:26-49 | The key test of find, map, update and filter. A line without an option matches only the absent name. A line with an option matches only that option's name. In both cases the id must match too. |
| `CartEngine.ResolveOption` | App.tsx:32 | A new line gets the first option named `name` when one exists, else the item's first option, else no option. It has no option exactly when the item has none. |
| `CartEngine.NewLine` | App.tsx:32-33 | An appended line holds one unit of the item. Its option is one of the item's own options, absent exactly when the item has none, and it carries `name` whenever some option has that name. |
| `CartEngine.IncrementMatching` | App.tsx:28-30 | Same length. Every matching line gains exactly one unit, and every other line is unchanged. |
| `CartEngine.AddToCart` | App.tsx:24-34 | When some line matches `(item.id, name)`, the length is kept, every matching line gains exactly 1 and the rest are unchanged. Otherwise exactly one line is appended after the untouched earlier lines, holding the item, quantity 1 and the resolved option. |
| `CartEngine.AddToCartCount` | App.tsx:22-34 | Add raises the item count by the number of matching lines, or by 1 when it appends a line. |
| `CartEngine.NewLineKeyIff` | App.tsx:26-33 | An appended line carries the key it was added under exactly when the name is one of the item's option names, or it is absent and the item has no options. |
| `CartEngine.AddTwice` | App.tsx:26-33 | Start from a cart with no line of the key and add the same item with the same name twice. If the key resolves to itself, the result is one new line of quantity 2. Otherwise (an empty or unknown name, or no name for an item with options) it is two identical new lines of quantity 1. |
| `CartEngine.UpdateQuantity` | App.tsx:38-46 | Same length. Each matching line becomes `max(1, quantity + delta)`, so it is at least 1. Non-matching lines are unchanged. |
| `CartEngine.UpdateWithoutMatchIsIdentity` | App.tsx:39-45 | An update whose key matches no line leaves the cart unchanged. |
| `CartEngine.RemoveItem` | App.tsx:48-50 | No remaining line carries the key, and every non-matching line is kept. The result is a subsequence of the cart, shorter by exactly the number of matching lines. |
| `CartEngine.RemoveWithoutMatchIsIdentity` | App.tsx:49 | Removing a key no line carries leaves the cart unchanged. |
| `CartEngine.RemoveIsIdempotent` | App.tsx:49 | Removing the same key twice gives the same cart as removing it once. |
| `CartEngine.RemoveItemCount` | App.tsx:22-49 | Remove lowers the item count by exactly the summed quantity of the matching lines. |
| `CartEngine.RemoveDistributes` | App.tsx:49 | Removing from a concatenation equals concatenating the removals, so relative order is kept. |
| `CartEngine.ConfirmCheckout` | App.tsx:52-55 | Confirming leaves the empty cart, whose count is 0. |
| `CartEngine.ApplyKeepsPositive` | App.tsx:24-55 | Each of add, update, remove and confirm keeps every quantity at least 1. |
| `CartEngine.RunKeepsPositive` | App.tsx:24-55 | Any sequence of these actions keeps every quantity at least 1. |
| `CartEngine.ReachableCartsArePositive` | App.tsx:13 | Start from the initial empty cart and apply any sequence of actions: every line of the result has quantity at least 1. |
| `CartDrawer.UnitPrice` | components/CartDrawer.tsx:92 | A unit costs the base price when the line has no option, and the base price plus the option's price otherwise. |
| `CartDrawer.LineTotalTracksQuantity` | components/CartDrawer.tsx:77-92 | Changing a line's quantity by `delta` changes its displayed total by exactly `delta` unit prices. |
| `CartDrawer.RowFor` | components/CartDrawer.tsx:62-95 | A row shows its own line and that line's total. Its minus button is an update by -1, its plus button an update by +1, and its remove button a removal, and each targets a key that this line carries. |
| `CartDrawer.Subtotal` | components/CartDrawer.tsx:24 | The left fold of `(price + option price) * quantity` equals the plain sum of the line totals. It is 0 for the empty cart. |
| `CartDrawer.Rows` | components/CartDrawer.tsx:60-104 | One row per line, in cart order. Each row holds its line's total and the minus (-1), plus (+1) and remove actions keyed by that line's own `(id, selectedOption?.name)`. |
| `CartDrawer.Render` | components/CartDrawer.tsx:54-121 | The empty notice shows exactly when the cart has no line. Otherwise the rows, the subtotal and the checkout action are shown. |
| `CartDrawer.SubtotalIsSumOfDisplayedTotals` | components/CartDrawer.tsx:24-92 | The subtotal equals the sum of the line totals the rows display. |
| `CartDrawer.MinusButtonClampsItsLine` | components/CartDrawer.tsx:77 | After line k's minus button, the cart has the same length and line k is at `max(1, quantity - 1)`. A line of quantity 1 is left unchanged. |
| `CartDrawer.MinusButtonLowersItsTotal` | components/CartDrawer.tsx:77-92 | Above quantity 1, line k's minus button lowers that line's shown total by exactly one unit price. |
| `CartDrawer.PlusButtonIncrementsItsLine` | components/CartDrawer.tsx:84 | After line k's plus button, the cart has the same length and line k has exactly one more unit, for any line whose quantity is not negative (every line of a reachable cart). |
| `CartDrawer.PlusButtonRaisesItsTotal` | components/CartDrawer.tsx:84-92 | Line k's plus button raises that line's shown total by exactly one unit price, for any line whose quantity is not negative. |
| `CartDrawer.RemoveButtonDeletesItsLine` | components/CartDrawer.tsx:95 | After line k's remove button, no line equal to line k is left and the cart is shorter. |
| `Checkout.Total` | components/CheckoutModal.tsx:23 | The amount on the pay button, the form's own fold of the same formula, equals the drawer's subtotal for the same cart. It is 0 for the empty cart. |
| `Checkout.Submittable` | components/CheckoutModal.tsx:78-99 | The `required` name, phone and address inputs must be non-empty, so the initial draft can never be submitted. |
| `Checkout.PaymentMethodIsNotRequired` | components/CheckoutModal.tsx:108-123 | The payment buttons carry no `required`, so switching between cash and card never changes whether the form can submit. |
| `Checkout.CheckoutModal.constructor` | components/CheckoutModal.tsx:15-21 | The draft starts with empty name, phone and address and payment by cash, and the form starts outside the success view. |
| `Checkout.CheckoutModal.SetCustomerName` | components/CheckoutModal.tsx:82 | Changes the name field and nothing else. |
| `Checkout.CheckoutModal.SetPhone` | components/CheckoutModal.tsx:92 | Changes the phone field and nothing else. |
| `Checkout.CheckoutModal.SetAddress` | components/CheckoutModal.tsx:103 | Changes the address field and nothing else. |
| `Checkout.CheckoutModal.ChooseCash` | components/CheckoutModal.tsx:111 | Sets the payment method to cash and changes nothing else. |
| `Checkout.CheckoutModal.ChooseCard` | components/CheckoutModal.tsx:123 | Sets the payment method to card and changes nothing else. |
| `Checkout.CheckoutModal.Submit` | components/CheckoutModal.tsx:25-28 | Requires non-empty name, phone and address, which the `required` inputs enforce (components/CheckoutModal.tsx:78, 88, 99). Turns on the success view and keeps the draft. |
| `Checkout.CheckoutModal.TimerFires` | components/CheckoutModal.tsx:29-33 | Hands the submitted draft to the confirmation and leaves the success view. The draft is not reset. |
| `ItemDetail.DefaultSize` | components/ItemDetailModal.tsx:16-22 | When the item changes, the size becomes the first option's name if it has options. With no item, or no options, it becomes `""`. |
| `ItemDetail.CurrentPrice` | components/ItemDetailModal.tsx:26 | The base price plus the price of the first option whose name is the selected size. It is the base price alone when no option has that name. |
| `ItemDetail.OptionLabel` | components/ItemDetailModal.tsx:117 | An option's caption is 'Base' exactly when its price is 0, and otherwise shows its price. |
| `ItemDetail.Choices` | components/ItemDetailModal.tsx:105-120 | One button per option, in order. A button is highlighted exactly when its option's name equals the selected size, and it carries that option's caption. |
| `ItemDetail.Render` | components/ItemDetailModal.tsx:24-26 | Nothing is drawn without an item. With one, the view shows the current price and highlights exactly the options named by the selected size. |
| `ItemDetail.DefaultSelectionIsFirstOption` | components/ItemDetailModal.tsx:16-26 | Right after an item with options is shown, its first option is highlighted and the price is the base price plus that option's surcharge. |
| `ItemDetail.ItemDetailModal.constructor` | components/ItemDetailModal.tsx:14 | The selected size starts as `""`. |
| `ItemDetail.ItemDetailModal.ItemChanged` | components/ItemDetailModal.tsx:16-22 | The effect stores the item's default size. |
| `ItemDetail.ItemDetailModal.ChooseOption` | components/ItemDetailModal.tsx:108 | A click on an option button selects that option's name. |
| `ItemDetail.ItemDetailModal.AddToOrder` | components/ItemDetailModal.tsx:129 | The name handed to add is the selected size, always a string, even `""`. |
| `Menu.CategoriesListEachOnce` | components/MenuGrid.tsx:15 | The category buttons are 'ALL' followed by every category, eight buttons with no repeats. |
| `Menu.FilterCategory` | components/MenuGrid.tsx:19 | Every item kept has the chosen category, and every item of that category is kept. The result is a subsequence of the input, as long as the number of items of that category. |
| `Menu.FilteredItems` | components/MenuGrid.tsx:17-19 | With 'ALL' the input list is returned unchanged. Otherwise exactly the items of the chosen category are returned, in input order. |
| `Menu.MenuGrid.constructor` | components/MenuGrid.tsx:13 | The grid starts on 'ALL'. |
| `Menu.MenuGrid.SelectCategory` | components/MenuGrid.tsx:28 | A click on a category button makes that category active. |
| `Menu.MenuGrid.ClickCard` | components/MenuGrid.tsx:46-53 | The item handed to `onViewDetails` is the clicked card's own item: an input item, of the active category when one is chosen. |
| `AppShell.App.constructor` | App.tsx:13-16 | Starts with an empty cart, every overlay closed and no item shown. The child views are in their initial states. |
| `AppShell.App.Badge` | App.tsx:83-87 | The badge shows `cartCount`, and it is shown exactly when the cart has a line. |
| `AppShell.App.AddToCart` | App.tsx:24-36 | The cart becomes the engine's add of the old cart, the drawer is open afterwards whatever it was before, and the other state is unchanged. |
| `AppShell.App.UpdateQuantity` | App.tsx:38-46 | The cart becomes the engine's update, every quantity stays at least 1, and nothing else changes. |
| `AppShell.App.RemoveItem` | App.tsx:48-50 | The cart becomes the engine's removal and nothing else changes. |
| `AppShell.App.CheckoutConfirm` | App.tsx:52-55 | The cart becomes empty, so the count is 0. Nothing else changes. |
| `AppShell.App.OpenCart` | App.tsx:79 | The navigation cart button opens the drawer. |
| `AppShell.App.CloseCart` | App.tsx:239 | The drawer's close hides the drawer and keeps the cart. |
| `AppShell.App.OpenCheckout` | App.tsx:243 | The drawer's checkout action opens the checkout form. |
| `AppShell.App.CloseCheckout` | App.tsx:248 | The form's close hides the form. |
| `AppShell.App.ViewDetails` | App.tsx:182 | `setSelectedItem(item)` for a given item: that item is shown, and the detail view selects its default size. |
| `AppShell.App.ClickMenuCard` | components/MenuGrid.tsx:46-53 | A click on the k-th visible card shows that card's item, which is one of the menu's items and of the active category. The detail view then selects that item's default size, and the cart and the other overlays are unchanged. |
| `AppShell.App.CloseDetails` | App.tsx:255 | The detail view is hidden, and its size resets to `""`. |
| `AppShell.App.AddFromDetails` | components/ItemDetailModal.tsx:128-131 | Add runs under `Some(selectedSize)` and then the view closes. The drawer is open, no item is shown and every quantity is still at least 1. |
| `AppShell.App.CheckoutTimerFires` | components/CheckoutModal.tsx:29-33 | In the callback's order, the submitted draft is confirmed and the cart becomes empty, the form closes, and the form leaves its success view. The draft is kept. |
| `Catalog.ThreeTwelveInchMargheritas` | constants.tsx:9-20 | Three 12 inch Margheritas (11.00 + 2.00) come to 39.00. |
| `Catalog.CountTwoOneThree` | App.tsx:22 | Lines of quantities 2, 1 and 3 count 6. |
| `Catalog.LargeDecrementClampsToOne` | App.tsx:41 | An update by -100 on a line of quantity 3 leaves quantity 1. |
| `Catalog.AddAddMinusScenario` | App.tsx:24-45 | From the empty cart, add a 12 inch Margherita (13.00, count 1). Add it again (26.00, count 2). Minus once (13.00, count 1). |
| `Catalog.OptionlessItemFromDetailViewTwice` | components/ItemDetailModal.tsx:20 | Adding the option-less Doner Kebab twice from the detail view (name `""`) gives two lines of quantity 1. |
| `Catalog.OptionlessItemWithoutNameTwice` | App.tsx:26-33 | Adding the Doner Kebab twice under no name gives one line of quantity 2. |
| `Catalog.TwoGarlicChips` | constants.tsx:114-119 | Two Garlic Chips at 5.50 come to 11.00. |
| `Catalog.RemoveAbsentSize` | App.tsx:49 | Removing a 14 inch Margherita from a cart holding only a 12 inch one leaves the cart unchanged. |

## Left out

- Markup, CSS, animations and the scroll-driven navigation colours are presentation only and are not modelled.
- Floating-point money and the `toFixed(2)` formatting are not modelled. Prices are integer cents, so the amounts are the exact values the float arithmetic approximates.
- The 2500 ms delay is not modelled as time. The timer is an explicit step, `CheckoutModal.TimerFires`, that the caller takes after `Submit`, and no other timing or concurrency is modelled.
- Browser validation behind `required` is not modelled. It appears only as the `Submittable` precondition of `Submit`.
- The console log of the confirmed order, the footer year from the clock, image URLs, external links and the business contact details are not modelled.
- React hook machinery is not modelled. Each state cell is a field, each setter call an assignment, and the size-selection effect a method that App's item changes call. State batching between setter calls is not modelled, so the handlers' assignments are ordered as written.
- `options?` and `allergens?` are sequences, with an absent list modelled as `[]`. The cart and price logic treats both alike. They differ only in whether the empty "Choose Size" heading is drawn, which is presentation.
- Only three catalog entries (p1, k1, c2) are transcribed as fixtures. The rest of the static catalog has no behaviour.
- The React keys of the drawer rows and grid cards (components/CartDrawer.tsx:62) are not modelled. They affect rendering identity only.
- `Checkout.CheckoutModal.SetCustomerName`, `SetPhone`, `SetAddress`, `ChooseCash`, `ChooseCard` and `Submit` require that the form is outside its success view (`!isSuccess`), because the inputs and buttons are drawn only then (components/CheckoutModal.tsx:53). The form's `isOpen` prop is not part of these preconditions.
