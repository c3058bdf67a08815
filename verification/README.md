# Recoil cart demo: cart, shipping and totals

This project models the state logic of a small single-page shop. The shop has
a fixed inventory of three items and a fixed table of three shipping
destinations. A session holds two state cells:

- `cartState` maps item ids to quantities and starts empty.
- `shippingState` holds the selected destination and starts at `"US"`.

The "add" and "rem" buttons next to each item replace the cart with an edited
copy. The destination buttons overwrite the selection. A derived `totalsState`
selector folds the cart into a subtotal, looks up the shipping price and adds
the two.

Modules, one per concern of `src/App.js`:

- `Catalog` (`catalog.dfy`): the inventory and destination tables. Amounts are
  integer cents: 1000, 1500 and 750 for items `a`, `b`, `c`, and 2500, 3500 and
  4500 for `US`, `CA`, `CO`. The program itself stores dollars (10, 15, 7.5;
  25, 35, 45).
- `CartState` (`cart.dfy`): the cart as `map<string, nat>`. It holds the cart
  invariant `Valid` (every key is catalogued, no quantity below 1) and the two
  handlers `Add` and `Remove` as functions from the old copy to the new one.
  It also holds click sequences (`Step`, `Run`) and `Subtotal`, an
  order-free sum over the map, with the lemmas about all of these.
- `TotalsState` (`totals.dfy`): the selector's `get`. `ComputeTotals` is a
  loop that takes the cart's entries one at a time in any order, as the
  `reduce` over `Object.entries` does. It is proved equal to `TotalsOf`, the
  order-free specification.
- `Store` (`store.dfy`): the class `Session`, whose fields `cart` and
  `shipping` are the two state cells. Its methods are the click handlers. They
  keep the session invariant: a valid cart, and a selection that is always a
  known destination.

The handlers are reachable only from rendered buttons, and the model's
preconditions say exactly that:

- An "add" button exists for every inventory id (line 48).
- A "rem" button is drawn in the same list of inventory ids (line 48), and
  only while `cart[id]` is truthy, that is, present and non-zero (line 58).
- A destination button exists for every destination key (line 113).

The code has no branch for removing an absent item (no no-op) or for adding
an unknown item (no error): it simply never offers those clicks. The model follows the code. In a click sequence (`CartState.Run`), a
click on a button that is not rendered leaves the cart unchanged, because such
a click cannot happen.

## Model

| member | source | states |
|---|---|---|
| `Catalog.Price` | src/App.js:10-14 | every catalogued item has a positive unit price (cents) |
| `Catalog.ShippingPrice` | src/App.js:16-20 | every destination's flat shipping price lies between 25.00 and 45.00 |
| `CartState.Valid` | src/App.js:61-67 | the cart invariant (catalogued keys, no quantity below 1) means a key is stored exactly when its item's quantity is positive: zero is never stored |
| `CartState.Offered` | src/App.js:58 | the `cart[id] &&` guard holds exactly when the item's quantity (`cart[id]` or 0) is positive |
| `CartState.Quantity` | src/App.js:53 | `cart[id]` or 0: the stored quantity when the item is present, 0 otherwise, and positive only for present items |
| `CartState.Add` | src/App.js:53 | the new cart has the item at its old quantity plus 1 (1 when absent), gains no key but `id`, and leaves every other entry unchanged |
| `CartState.Remove` | src/App.js:58-67 | only callable when "rem" is offered; quantity 1 deletes the key, so it is not stored as 0; otherwise the key stays and its quantity drops by exactly 1; no other entry changes |
| `CartState.AddKeepsValid` | src/App.js:53 | "add" on a catalogued item keeps the cart invariant (catalogued keys, quantities at least 1) |
| `CartState.RemoveKeepsValid` | src/App.js:61-67 | "rem" keeps the cart invariant, because quantity 1 deletes instead of storing 0 |
| `CartState.OfferedIffInCart` | src/App.js:58 | on a valid cart, the "rem" button is offered for an item exactly when the item is in the cart |
| `CartState.RemoveAfterAdd` | src/App.js:53-67 | on a valid cart, "rem" is offered after "add", and "rem" right after "add" gives back the original cart |
| `CartState.AddAfterRemove` | src/App.js:53-67 | "add" right after an offered "rem" gives back the original cart |
| `CartState.Rendered` | src/App.js:48-72 | a click lands on a drawn button only for an inventory id; every inventory id has an "add" button, and "rem" needs the item offered as well |
| `CartState.Step` | src/App.js:51-68 | one click keeps the cart invariant and changes no quantity but that of the clicked item |
| `CartState.Run` | src/App.js:48-74 | after a sequence of clicks, every item that was never clicked keeps its quantity |
| `CartState.RunKeepsValid` | src/App.js:48-74 | every sequence of add/rem clicks on rendered buttons keeps the cart invariant |
| `CartState.NoZeroQuantities` | src/App.js:22-25 | from the empty default cart, no click sequence stores an unknown item or a quantity below 1 |
| `CartState.ThreeAddsTwoRemoves` | src/App.js:51-72 | three "add" clicks on `a` then two "rem" clicks leave the cart `{a: 1}` |
| `CartState.Subtotal` | src/App.js:132-135 | the sum of price times quantity over all cart lines, in no order; on a valid cart it is 0 exactly when the cart is empty |
| `CartState.SubtotalSplit` | src/App.js:132-135 | any cart line can be split off the subtotal, so the sum does not depend on the order the entries are visited in |
| `CartState.SubtotalEmpty` | src/App.js:132-135 | the empty cart's subtotal is the fold's initial value 0 |
| `CartState.AddRaisesSubtotal` | src/App.js:133 | adding an item raises the subtotal by exactly that item's unit price |
| `CartState.RemoveLowersSubtotal` | src/App.js:132-135 | an offered "rem" lowers the subtotal by exactly that item's unit price |
| `CartState.SubtotalExample` | src/App.js:132-135 | two `a` and one `c` have subtotal 27.50 |
| `TotalsState.ComputeTotals` | src/App.js:127-144 | the fold over the cart entries, visited in any order, yields the order-free subtotal; shipping is the selected destination's price; total is their sum |
| `TotalsState.TotalsOf` | src/App.js:136-142 | the selector's result: the total is subtotal plus the selected destination's price, never below that price, and on a valid cart equal to it exactly when the cart is empty |
| `TotalsState.AddRaisesTotal` | src/App.js:141 | adding an item leaves the shipping price alone and raises the total by exactly the item's unit price |
| `TotalsState.DefaultTotals` | src/App.js:27-30 | the empty cart shipped to the default destination has subtotal 0, shipping 25.00 and total 25.00 |
| `TotalsState.EmptyCartToCO` | src/App.js:17-19 | an empty cart shipped to `CO` totals 45.00 |
| `TotalsState.TotalsExample` | src/App.js:129-142 | `{a: 2, c: 1}` shipped to `CA` gives subtotal 27.50, shipping 35.00 and total 62.50 |
| `Store.Session.Valid` | src/App.js:22-30 | the session invariant: the selection is a destination key (so its price is at least 25.00), and the "rem" button is offered exactly for the items in the cart |
| `Store.Session.constructor` | src/App.js:22-30 | a new session has the empty cart and the `"US"` selection, and satisfies the session invariant |
| `Store.Session.AddItem` | src/App.js:51-54 | the cart cell becomes `Add` of the old cart, the selection is unchanged, and the invariant is kept |
| `Store.Session.RemoveItem` | src/App.js:58-68 | only callable while "rem" is offered; the cart cell becomes `Remove` of the old cart, the selection is unchanged, and the invariant is kept |
| `Store.Session.SelectShipping` | src/App.js:113-117 | only a destination key can be selected; the selection becomes that key, the cart is unchanged, and the invariant is kept |
| `Store.Session.CurrentTotals` | src/App.js:146-147 | reading the totals of the current state gives `TotalsOf(cart, shipping)`, whose total is subtotal plus the selected shipping price |
| `Store.NewSessionTotals` | src/App.js:22-30 | a fresh session read straight away has subtotal 0 and total 25.00 |
| `Store.ShipToCOTotals` | src/App.js:113-117 | a fresh session switched to `CO` and read totals 45.00 |

## Left out

- React components, JSX rendering and `RecoilRoot` are not modelled. Neither are the `useRecoilState`/`useRecoilValue` hooks or reactive recomputation. The cells are fields of `Store.Session`, and totals are recomputed by an explicit call.
- JavaScript numbers (IEEE doubles) are not modelled. Prices are exact integer cents, and quantities, subtotal and total are unbounded integers; the program's quantities and sums are exact only below 2^53, and its dollar sums with 7.5 are floating point. With exact arithmetic the fold's result does not depend on the order of `Object.entries`, so that order is left unspecified: `ComputeTotals` may take the entries in any order.
- `toFixed(2)` formatting and the emoji display names are left out; they are presentation only.
- The `CartItems` listing and its "No items." message are left out; they render the cart and hold no logic.
- Copy-on-write aliasing is not modelled. The handlers build a fresh object with spread syntax, and `delete` only touches that local copy. The model works on `map` values, so no earlier snapshot can be changed by a handler.
- Handler calls that no rendered button can make are not modelled: "add" on an unknown id, "rem" on an id outside the inventory or on an absent or zero entry, and selection of an unknown code. In the program, "add" on an unknown id makes the totals selector throw a `TypeError`; "rem" on an absent entry stores `NaN` (`undefined - 1`); "rem" on a zero entry stores -1, which makes the subtotal negative; an unknown code makes the shipping price `undefined` and the total `NaN`. The model excludes these calls by precondition, and `CartState.Step` treats such a click as impossible.
