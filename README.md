# Shopping cart reducer

A model of the cart state of a small React shopping-cart client. The cart is
an ordered list of lines; each line is a catalog entry (id, title,
description, category, image, price) plus the number of units of it in the
cart. Two pure updaters in the application component change it, and one
reader counts its items:

- `handleAddToCart` — if a line already carries the clicked entry's id, that
  line's amount goes up by one in place (keeping the line's own fields);
  otherwise the entry is appended with amount 1.
- `handleRemoveToCart` — a `reduce` that rebuilds the list: a matching line
  with amount 1 is dropped, a matching line with any other amount is
  decremented in place, other lines are copied through in order.
- `getTotalItems` — the `reduce` that sums the amounts, shown on the cart badge.

Files:

- `cart_item.dfy` (module `CartItem`): the `Line` datatype, the descriptive
  `Details` payload, and the cart invariant `Valid` (unique ids, every
  amount at least 1).
- `app.dfy` (module `App`): the updaters and the item count as functions over `seq<Line>`:
  `Find` (`Array.prototype.find`), `IncrementMatching` (the `map` of the add
  updater), `Add`, `RemoveStep`/`RemoveFold`/`RemoveOne` (the remove
  `reduce`, written as a left fold with its accumulator), and
  `SumFold`/`TotalItems`.
- `cart_laws.dfy` (module `CartLaws`): what the updaters promise, proved.

The code keeps the existing line's fields when an entry already in the cart
is added again (the spread is of the existing line, src/App.tsx:32); it does
not refresh them from the clicked entry. The model follows the code:
`AddExisting` and `AddIncrementsLine` state that only the amount changes.

## Model

| member | source | states |
|---|---|---|
| `App.Find` | src/App.tsx:27 | finds nothing exactly when no line carries the id; otherwise returns the first line carrying it |
| `App.IncrementMatching` | src/App.tsx:30-34 | same length; each line carrying the id has its amount raised by one and keeps its other fields; every other line is unchanged |
| `CartLaws.AddNew` | src/App.tsx:37-38 | adding an entry whose id is not in the cart returns the old cart with exactly one line, the entry with amount 1, appended at the end |
| `CartLaws.AddExisting` | src/App.tsx:27-35 | adding an entry whose id is in the cart keeps the length, raises the amount of the matching line by one at the same position keeping its existing fields, and leaves every other line unchanged |
| `CartLaws.AddIncrementsLine` | src/App.tsx:29-34 | with unique ids, adding equals the old cart with only line k's amount raised by one |
| `CartLaws.RemoveOneSingle` | src/App.tsx:51-58 | one line goes through exactly one step of the remove reducer |
| `CartLaws.RemoveFoldFrom` | src/App.tsx:49-60 | the remove reduce keeps its accumulator in front of what it produces |
| `CartLaws.RemoveOneConcat` | src/App.tsx:49-60 | removing from a concatenation is the concatenation of the removals, so the order of lines is preserved |
| `CartLaws.RemoveAbsent` | src/App.tsx:49-60 | removing an id no line carries returns the cart unchanged |
| `CartLaws.RemoveAt` | src/App.tsx:49-60 | with unique ids, removal touches only the matching line, by one reducer step, and keeps the lines before and after it in order |
| `CartLaws.RemoveDeletesLine` | src/App.tsx:51-55 | a matching line with amount 1 is deleted; the others keep their values and relative order |
| `CartLaws.RemoveDecrementsLine` | src/App.tsx:56-58 | a matching line with any amount other than 1 keeps its position with amount lowered by one; all other lines unchanged |
| `CartLaws.SumFoldFrom` | src/App.tsx:69-70 | the sum reduce started from any accumulator adds the cart's item count to it |
| `CartLaws.TotalItemsConcat` | src/App.tsx:69-70 | the item count of two carts joined is the sum of their counts |
| `CartLaws.TotalItemsSingle` | src/App.tsx:69-70 | a single line contributes its amount |
| `CartLaws.TotalItemsAround` | src/App.tsx:69-70 | the item count is the count before line k, plus line k's amount, plus the count after it |
| `CartLaws.TotalItemsBounds` | src/App.tsx:69-70 | the item count of an empty cart is 0; with every amount at least 1 it is at least the number of lines |
| `CartLaws.AddPreservesValid` | src/App.tsx:24-40 | adding keeps ids unique and every amount at least 1 |
| `CartLaws.RemovePreservesValid` | src/App.tsx:47-62 | removing keeps ids unique and every amount at least 1, so no line ever reaches 0 |
| `CartLaws.TotalAfterAdd` | src/App.tsx:24-70 | with unique ids, every add raises the badge count by exactly 1 |
| `CartLaws.TotalAfterRemove` | src/App.tsx:47-70 | with unique ids, a remove lowers the badge count by exactly 1 when the id is in the cart and leaves it unchanged otherwise |
| `CartLaws.RemoveUndoesAdd` | src/App.tsx:24-62 | on a valid cart, removing the id just added gives back the original cart |
| `CartLaws.AddUndoesRemove` | src/App.tsx:24-62 | with unique ids, when the matching line's amount is not 1, adding the entry back after a remove gives back the original cart |
| `CartLaws.Session` | src/App.tsx:24-70 | a full session: add entry 1 twice and entry 2 once (badge 3), then remove entry 1 three times: amount 1, line deleted, then a no-op; the amount an entry carries before it is added is ignored |

## Left out

- The catalog fetch (`getProducts`, src/services/StoreService.ts:6-7) and its `useQuery` loading and error states (src/App.tsx:14-17, 75-80): network I/O and framework plumbing around an asynchronous request.
- The `useState` binding that stores each updater's result and triggers a re-render (src/App.tsx:13, 25, 48): the updaters are modelled as functions from the old cart to the new one.
- The cart drawer's open/closed state (src/App.tsx:12, 84, 91): UI visibility only.
- The price totals (`calculateTotal`, src/Cart/Cart.tsx:16-17, and the per-line total, src/CartItem/CartItem.tsx:21): floating-point products formatted with `toFixed(2)`; the price is carried as an uninterpreted field of `Details`.
- The presentational components (src/Item/Item.tsx, src/Cart/Cart.tsx, src/CartItem/CartItem.tsx): they render props and forward clicks to the updaters.
- src/interfaces/CartItem, which declares `CartItemType`, is not part of this model; `Line` and `Details` take `id`, `amount`, `title`, `description`, `image` and `price` from their uses (src/App.tsx, src/Item/Item.tsx, src/CartItem/CartItem.tsx, src/Cart/Cart.tsx) and `category` from the fields of the catalog's JSON entries.
- Ids and amounts are JavaScript numbers; they are modelled as unbounded integers, so precision loss above 2^53 is not modelled.
