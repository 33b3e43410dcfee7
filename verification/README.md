# Campus canteen cart and order store, in Dafny

This project models the ordering core of a campus-canteen web application:

- the cart/order store (`src/store/useCartStore.ts`), which holds the cart lines
  `items` and the order history `orders`;
- the pricing and selection logic of the customization dialog
  (`src/components/CustomizationModal.tsx`), which feeds the store;
- the quantity and remove buttons of the cart drawer
  (`src/components/CartDrawer.tsx`), for the finding below.

The store is the class `CartStore.Store`. Its fields `items` and `orders` are
replaced by each operation, as the source's `set(...)` calls do. Each method is
specified by a pure function on the cart:

- `AddPlain` for `addItem`;
- `AddCustomized` for `addItemWithCustomization`;
- `SetQuantity` and `RemoveKey` for `updateQuantity` and `removeItem`;
- `WithStatus` for `updateOrderStatus`.

Lemmas about these functions then state what the store promises:

- merge versus append;
- the absolute quantity;
- removal that keeps order and is idempotent;
- the totals;
- the snapshot taken when an order is placed;
- distinct line keys, which every operation preserves, except `addItem` after a
  line stored with the empty mapping `{}` (see below).

A cart line's identity is the pair (menu item id, customizations). An absent
mapping reads as `{}`. The customization mapping is a record of sixteen
optional fields, so key equality is structural equality. The serialised JSON
text is not modelled.

The dialog's price delta `calculateExtraPrice` is the method
`Customization.CalculateExtraPrice`. It accumulates step by step, as the
source does, and is proved equal to the function `Customization.ExtraPrice`.
Per-category bounds, the free options and the effect of toggling a sauce are
proved about that function. `handleArrayToggle` is `Customization.Toggle`.
`handleAddToCart` is the method `Customization.HandleAddToCart`. Its
projection onto the item's category, `RelevantCustomizations`, is shown to keep
exactly that category's fields with the values chosen in the dialog.

Order status follows the store as written: `Preparing | Ready | Completed`.
Some order screens refer to other statuses and to delivery fields, but the
store does not have them. The scheduled move to `ready` is the explicit step
`Store.ReadyTimerFires`. Like the source's timer, it is unguarded: it also
overwrites `Completed`.

Known behaviours of the code as written, which the model keeps:

- `addItem` merges only into a line with no mapping at all. A line stored with
  the empty mapping `{}` has the same key but is not merged into, so a second
  line with that key can appear (`CartScenarios.EmptyMappingThenPlainAdd`).
  The dialog never stores an empty mapping (`Customization.DialogMappingNotEmpty`),
  so this happens only when another caller passes `{}`.
- The dialog labels the main-course "Half" portion as −₹20 and lemon as +₹5.
  Neither is charged (`Customization.MainCoursePortionIsFree`,
  `Customization.LemonIsFree`).

## Model

| member | source | states |
|---|---|---|
| CartStore.Substr | src/store/useCartStore.ts:68 | `substr(start, length)` for non-negative arguments: `length` characters when the text is long enough, what is left after `start` when it is shorter, none when `start` is past the end; character `i` of the result is character `start + i` of the text |
| CartStore.UpperChar | src/store/useCartStore.ts:68 | upper-casing maps `a`–`z` onto `A`–`Z` with the same offset and leaves every other character alone |
| CartStore.Upper | src/store/useCartStore.ts:68 | upper-casing keeps the length and works character by character |
| CartStore.GenerateOrderId | src/store/useCartStore.ts:67-69 | an order id starts with `ORD`, has 3 + min(9, max(0, n − 2)) characters for random text of length n (12 when n is at least 11), and continues with characters 2 to 10 of the random text, upper-cased |
| CartStore.KeyOf | src/store/useCartStore.ts:71-73 | `getCartItemKey`: the key carries the id, and the mapping given, or `{}` when none is given |
| CartStore.LineKey | src/store/useCartStore.ts:105 | a stored line's key is its item id with its own mapping, `{}` when it has none |
| CartStore.KeyIdentity | src/store/useCartStore.ts:71-73 | two line keys are equal exactly when ids and customizations agree with an absent mapping read as `{}`, so absent and `{}` give the same key |
| CartStore.Matches | src/store/useCartStore.ts:83-85 | the plain search of `addItem` matches a line exactly when the line has the key (id, `{}`) and no mapping at all, so a line stored with `{}` is skipped although its key matches |
| CartStore.FindIndex | src/store/useCartStore.ts:83-85 | the result is the first index whose line matches, and is -1 exactly when no line matches |
| CartStore.Bumped | src/store/useCartStore.ts:89-93 | the chosen line gains one unit and keeps every other field; every other line, every key and the length are unchanged; items total +1; price total + the line's unit price; distinct keys stay distinct |
| CartStore.BumpedTotals | src/store/useCartStore.ts:89-93 | one more unit on a line adds one to the item count and the line's unit price to the total price |
| CartStore.AddPlain | src/store/useCartStore.ts:81-98 | when a line of the id with no customizations exists, the first one gains one unit and nothing else changes; otherwise a plain line of quantity 1 is appended; items total +1; price total + that unit price; positive quantities kept; distinct keys kept when no line holds `{}` |
| CartStore.AddCustomized | src/store/useCartStore.ts:100-126 | when a line with the key (id, customizations) exists, the first one gains one unit and the length is unchanged; otherwise a line of quantity 1 with these customizations and customization price `extraPrice` (0 when not given) is appended; totals move by one unit; distinct keys kept; afterwards a line with that key exists |
| CartStore.DifferentCustomizationsStaySeparate | src/store/useCartStore.ts:100-126 | adding with customizations other than an existing line's leaves that line untouched, and another line carries the new key |
| CartStore.SetQuantity | src/store/useCartStore.ts:134-140 | every line with the key gets the absolute quantity; other lines, length and order are unchanged; with no matching line the cart is unchanged |
| CartStore.SetQuantityOfDistinct | src/store/useCartStore.ts:134-140 | with distinct keys, setting a line's quantity by its own key changes that line alone, and the totals move by the quantity difference |
| CartStore.RemoveKey | src/store/useCartStore.ts:143-151 | no line with the key remains; every remaining line was in the cart; with no matching line the cart is unchanged |
| CartStore.RemoveKeyKeeps | src/store/useCartStore.ts:146-149 | every line with another key survives removal |
| CartStore.RemoveKeyAppend | src/store/useCartStore.ts:145-150 | removal distributes over concatenation, so the surviving lines keep their order |
| CartStore.RemoveKeyIdempotent | src/store/useCartStore.ts:143-151 | removing the same key twice is the same as removing it once |
| CartStore.RemoveKeyKeepsDistinct | src/store/useCartStore.ts:143-151 | removal keeps keys distinct |
| CartStore.RemoveKeyOfDistinct | src/store/useCartStore.ts:143-151 | removing a line's own unique key takes out exactly that line and keeps the rest in order |
| CartStore.RemovedTotals | src/store/useCartStore.ts:143-151 | with distinct keys, removing a line lowers the items total by its quantity and the price total by its line total |
| CartStore.LineTotal | src/store/useCartStore.ts:197-200 | a line contributes (price + customization price, 0 when absent) × quantity |
| CartStore.TotalItems | src/store/useCartStore.ts:192-194 | the sum of quantities; at least the number of lines when every quantity is positive |
| CartStore.TotalPrice | src/store/useCartStore.ts:196-202 | the sum of line totals; not negative when no quantity or unit price is |
| CartStore.TotalsAppend | src/store/useCartStore.ts:192-202 | both totals are additive over concatenation of carts |
| CartStore.TotalsAt | src/store/useCartStore.ts:192-202 | replacing one line moves both totals by the difference between the new and old line |
| CartStore.AppendTotals | src/store/useCartStore.ts:192-202 | appending a line adds its quantity and its line total (its unit price for quantity 1) |
| CartStore.WithStatus | src/store/useCartStore.ts:184-190 | every order with the id gets the status; no other field and no other order changes; the length is kept; with no matching order nothing changes |
| CartStore.WithStatusLastWins | src/store/useCartStore.ts:184-190 | of two status updates to the same order, only the second survives |
| CartStore.Store.constructor | src/store/useCartStore.ts:78-79 | the store starts with an empty cart and no orders |
| CartStore.Store.AddItem | src/store/useCartStore.ts:81-98 | the cart becomes `AddPlain` of the old cart; orders unchanged; positive quantities kept |
| CartStore.Store.AddItemWithCustomization | src/store/useCartStore.ts:100-126 | the cart becomes `AddCustomized` of the old cart; orders unchanged |
| CartStore.Store.RemoveItem | src/store/useCartStore.ts:143-151 | the cart becomes `RemoveKey` of the old cart by (id, customizations); orders unchanged; distinct keys kept |
| CartStore.Store.UpdateQuantity | src/store/useCartStore.ts:128-141 | a quantity of 0 or less has exactly the effect of `RemoveItem` with the same arguments; otherwise the cart becomes `SetQuantity` of the old cart; orders unchanged; distinct keys kept |
| CartStore.Store.ClearCart | src/store/useCartStore.ts:153-155 | the cart is empty, with both totals 0; orders unchanged |
| CartStore.Store.PlaceOrder | src/store/useCartStore.ts:157-182 | the returned id is the generated `ORD` id; a new order is placed at the head of the history, holding the old cart, the old total price, status `Preparing` and that id; the older orders follow unchanged; the cart is empty |
| CartStore.Store.UpdateOrderStatus | src/store/useCartStore.ts:184-190 | the orders become `WithStatus` of the old orders; the cart is unchanged |
| CartStore.Store.ReadyTimerFires | src/store/useCartStore.ts:176-179 | the scheduled step sets every order with the id to `Ready`, whatever its status was; the cart is unchanged |
| Customization.ExtraPrice | src/components/CustomizationModal.tsx:79-100 | no item gives 0; the delta is at least -5 and negative only for a small-cup beverage; snacks pay at least 3 per sauce; main courses pay at least 8 per add-on and 12 per raita/papad |
| Customization.CalculateExtraPrice | src/components/CustomizationModal.tsx:79-100 | the step-by-step accumulation returns `ExtraPrice` |
| Customization.DefaultsCostNothing | src/components/CustomizationModal.tsx:48-77 | the dialog's default options (the constant `DefaultOptions`) cost nothing extra in every category |
| Customization.MainCoursePortionIsFree | src/components/CustomizationModal.tsx:88-91 | for a main course the portion size does not change the delta (no discount for Half) |
| Customization.LemonIsFree | src/components/CustomizationModal.tsx:92-97 | adding lemon never changes the delta |
| Customization.RemoveAll | src/components/CustomizationModal.tsx:103-104 | no occurrence of the element remains; a list without it comes back unchanged |
| Customization.RemoveAllCounts | src/components/CustomizationModal.tsx:103-104 | every other element keeps its count, and the length drops by exactly the number of occurrences removed |
| Customization.RemoveAllAppend | src/components/CustomizationModal.tsx:104 | removal distributes over concatenation, so the remaining elements keep their order |
| Customization.Toggle | src/components/CustomizationModal.tsx:102-108 | the element is in the result exactly when it was not in the list; other elements keep their counts (and, by `RemoveAllAppend`, their order); when absent it is appended at the end; when present all its occurrences go |
| Customization.RemoveAllAppended | src/components/CustomizationModal.tsx:102-108 | removing an element just appended to a list without it gives the list back |
| Customization.ToggleTwice | src/components/CustomizationModal.tsx:102-108 | toggling an element twice on a list without it gives the list back |
| Customization.ToggleSaucePrice | src/components/CustomizationModal.tsx:83-87 | for a snack, toggling a new sauce on adds 3 to the delta, and toggling a present sauce off subtracts 3 per occurrence |
| Customization.RelevantCustomizations | src/components/CustomizationModal.tsx:113-137 | the stored mapping holds exactly the item category's fields, each with the value chosen in the dialog |
| Customization.DialogMappingNotEmpty | src/components/CustomizationModal.tsx:113-137 | a mapping built by the dialog is never `{}`, so its key differs from the plain key of the same id |
| Customization.SameMappingSamePrice | src/components/CustomizationModal.tsx:110-139 | two dialog states that store the same mapping are priced the same, so a merged line never mixes two prices |
| Customization.HandleAddToCart | src/components/CustomizationModal.tsx:110-142 | with no item nothing changes; otherwise the cart becomes `AddCustomized` with the projected mapping and the delta `ExtraPrice` |
| CartDrawer.ChangeQuantityAsWritten | src/components/CartDrawer.tsx:87-98 | the -/+ buttons as written act on the key (id, `{}`), not on the displayed line's key |
| CartDrawer.RemoveAsWritten | src/components/CartDrawer.tsx:104-106 | the remove button as written removes by the key (id, `{}`) |
| CartDrawer.CustomizedLineUnreachedAsWritten | src/components/CartDrawer.tsx:87-106 | a line with a non-empty mapping is neither re-quantified nor removed by the buttons as written |
| CartDrawer.PlainLineHitInstead | src/components/CartDrawer.tsx:87-106 | the buttons as written act on a plain line of the same id instead: it gets the new quantity, or is removed |
| CartDrawer.ChangeQuantity | src/components/CartDrawer.tsx:87-98 | corrected: the buttons act on the displayed line's own key |
| CartDrawer.Remove | src/components/CartDrawer.tsx:104-106 | corrected: removal by the displayed line's own key |
| CartDrawer.OwnKeyReachesLine | src/components/CartDrawer.tsx:87-106 | with a line's own key, the new quantity lands on that line and removal takes it out (exactly it, with distinct keys) |
| CartScenarios.SameItemTwiceThenCustomized | src/store/useCartStore.ts:81-126 | a ₹25 item added twice is one line of quantity 2 costing 50; adding it again with a spice level and a delta of 5 makes a second line, 3 units, total 80 |
| CartScenarios.EmptyMappingThenPlainAdd | src/store/useCartStore.ts:83-85 | after a line stored with `{}`, a plain add appends a second line with the same key |

## Left out

- Persistence: the `persist` middleware and browser storage are I/O and are not modelled.
- Time: the two-minute `setTimeout` is the explicit step `Store.ReadyTimerFires`. Whether and when it fires is up to the caller.
- Nondeterminism: `Date.now()`, `toISOString()` and the base-36 text of `Math.random()` are parameters of `Store.PlaceOrder`. The model does not check that the base-36 text is well formed.
- CartStore.Upper: only ASCII letters are upper-cased. Base-36 text contains nothing else.
- Keys: the JSON text is not modelled. Key equality is structural. The model therefore does not capture:
  - keys that differ only in field insertion order;
  - collisions through the `_` separator.
- Numbers: prices and deltas are integers, as in the catalog. JavaScript floating point is not modelled.
- `Store.AddItemWithCustomization` always receives a mapping, as its only caller passes one. An `undefined` mapping is not modelled.
- Desserts: the dialog's dessert options are left out. There is no dessert category, and nothing prices or stores those options.
- Customization.ExtraPrice: the exact per-category sum is the function's body. Its contract states bounds, and the lemmas state the effect of single options.
- Rendering: toasts, animations, routing and every other component are not modelled, apart from the drawer buttons above.
- Other screens: analytics, ratings, search and mock data are not modelled.
- Order actions the store does not have (cancel, reorder, rate, mark as received) are not modelled.
- The store's `Valid` invariant asks every line to have a positive quantity. Every operation keeps this. A cart loaded from storage is not checked against it.

## Findings

| source | as written | input that shows it | evidently intended | confidence | as-written member | corrected member |
|---|---|---|---|---|---|---|
| src/components/CartDrawer.tsx:87-106 | the -, + and remove buttons call the store with the line's id only, so the store looks for the key (id, `{}`) | a cart holding one line added through the customization dialog (its mapping is never `{}`), then pressing +, - or remove on it; if the cart also holds a plain line of the same item, that plain line is changed or removed instead (- on a customized line of quantity 1 removes the plain line) | the buttons act on the displayed line, passing its customizations along with its id | high, not executed | CartDrawer.CustomizedLineUnreachedAsWritten | CartDrawer.OwnKeyReachesLine |
