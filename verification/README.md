# Shopping cart: line items, edits and the converted total

A Dafny model of the cart component of a single-page shopping-cart form. The
cart holds an ordered list of line items (name, quantity, currency), a
settlement currency chosen by the user, and the total string last displayed.
"Add Item" appends a blank row in the settlement currency; each field edit
overwrites one field of one row; "Save" multiplies every row's quantity by a
fixed rate keyed on the row's own currency (EUR 0.91, JPY 132.87, and 1 for
USD, the default), sums the rows in order, formats the sum in the settlement
currency, stores it as the displayed total and bundles it with the rows into the payload that is logged.

Files:

- `line_items.dfy` (module `LineItems`): the `Currency` and `Item` values, the
  typed `Edit` that replaces the dynamic field-keyed update, `Apply`, and the
  rate table `Rate`.
- `totals.dfy` (module `Totals`): `TotalOf`, the recursive specification of
  the accumulation loop, and what it does under concatenation, appending a
  blank row and each kind of edit.
- `cart.dfy` (module `CartComponent`): class `Cart`, whose fields are the
  component's three pieces of state and whose methods are its handlers.
  `CalculateTotal` keeps the source's loop and rate switch and is proved
  against `TotalOf`.

Modelling decisions:

- Quantities and rates are exact `real`s; `0.91` and `132.87` are the exact
  rationals 91/100 and 13287/100.
- The currency formatter of the host platform is a function-valued parameter
  `format: (real, Currency) -> string` of `CalculateTotal` and `Save`. Their
  contracts show that the settlement currency reaches only the formatter, while
  the number handed to it, `TotalOf(items)`, depends only on the rows.
- The source updates a row with `updatedCart[index][field] = value` and no
  bounds check. When `index` names no row, reading `updatedCart[index]` gives
  `undefined` and the assignment throws before the new cart is stored. The
  model therefore returns `ok == false` and leaves the cart unchanged, instead
  of demanding a valid index from the caller.
- The field key plus loosely typed value becomes `Edit`, with one constructor
  per field, so an edit can only put a value of the field's own type.
- The quantity may be any number, including a negative one. Nothing in the
  code keeps a quantity non-negative: the quantity field converts its text with
  `Number` (src/components/Cart/Cart.tsx:109). The model follows the code, and
  `TotalOfNonNegative` states what holds when no quantity is negative.
- The switch's `default` branch is reached only by `USD`, because `Currency`
  is the closed three-value union and every value written into it comes from a
  selector offering those three.
- A new cart displays `"0.00"`, with no currency symbol. Any string produced by
  `CalculateTotal` comes from the formatter instead. The model keeps the
  literal.

## Model

| member | source | states |
|---|---|---|
| `LineItems.Apply` | src/components/Cart/Cart.tsx:38-42 | the edited field takes the new value and the other two fields keep theirs, for each of name, quantity and currency |
| `LineItems.ApplyIdempotent` | src/components/Cart/Cart.tsx:40 | writing the same value into a field twice is the same as writing it once |
| `LineItems.ApplyLastWins` | src/components/Cart/Cart.tsx:40 | after two writes to the same field only the second is seen |
| `LineItems.ApplyCommutes` | src/components/Cart/Cart.tsx:40 | writes to different fields of a row are independent of their order |
| `LineItems.Rate` | src/components/Cart/Cart.tsx:49-61 | every rate is positive; EUR is 0.91, JPY is 132.87, and the rate is 1 exactly for USD, the default branch |
| `Totals.TotalOfSingle` | src/components/Cart/Cart.tsx:62-63 | a one-row cart totals that row's quantity times the rate of its own currency |
| `Totals.TotalOfAppend` | src/components/Cart/Cart.tsx:46-64 | the total of two carts joined is the sum of their totals |
| `Totals.TotalOfAddBlank` | src/components/Cart/Cart.tsx:29-35 | appending the blank row, in any currency, does not change the total |
| `Totals.TotalOfUpdate` | src/components/Cart/Cart.tsx:46-64 | replacing one row changes the total by the new row's amount minus the old row's |
| `Totals.TotalOfRename` | src/components/Cart/Cart.tsx:102 | renaming a row never changes the total |
| `Totals.TotalOfRequantify` | src/components/Cart/Cart.tsx:109 | setting a row's quantity changes the total by the quantity difference times that row's rate |
| `Totals.TotalOfRecurrency` | src/components/Cart/Cart.tsx:116 | switching a row's currency changes the total by its quantity times the difference of the two rates |
| `Totals.TotalOfIgnoresNames` | src/components/Cart/Cart.tsx:48 | carts that agree row by row on quantity and currency have equal totals: names play no part |
| `Totals.TotalOfAllUsd` | src/components/Cart/Cart.tsx:58-63 | when every row is in USD the total is the plain sum of the quantities |
| `Totals.TotalOfNonNegative` | src/components/Cart/Cart.tsx:46-64 | if no quantity is negative the total is not negative |
| `Totals.SampleTotals` | src/components/Cart/Cart.tsx:46-64 | an empty cart totals 0, one row of 100 EUR totals 91 and one row of 1 JPY totals 132.87 |
| `CartComponent.Cart.constructor` | src/components/Cart/Cart.tsx:18-26 | the initial state is one row with empty name, quantity 0 and currency USD, settlement currency USD, and displayed total "0.00" |
| `CartComponent.Cart.AddItem` | src/components/Cart/Cart.tsx:29-35 | the cart grows by exactly one row, the new last row is blank in the settlement currency, earlier rows are unchanged, the total is unchanged, and nothing else is modified |
| `CartComponent.Cart.UpdateCartItem` | src/components/Cart/Cart.tsx:38-42 | succeeds exactly when the index names a row; then only that row changes, by `Apply`; the length and every other row stay as they were; on failure the cart is unchanged |
| `CartComponent.Cart.SetSelectedCurrency` | src/components/Cart/Cart.tsx:126 | sets the settlement currency and modifies nothing else, so no row's own currency changes |
| `CartComponent.Cart.CalculateTotal` | src/components/Cart/Cart.tsx:45-73 | the loop's sum equals `TotalOf(items)`; the result is that sum formatted in the settlement currency and is stored as the displayed total; rows and settlement currency are not modified |
| `CartComponent.Cart.Save` | src/components/Cart/Cart.tsx:76-82 | the payload carries the current rows and exactly the total string that the calculation returned and stored |

## Left out

- Rendering: the table, text fields, selectors, buttons and layout (src/components/Cart/Cart.tsx:92-135), and the option list shown by the selectors (src/components/Cart/Cart.tsx:85-89). They are presentation; the model keeps the handlers they call.
- src/App.tsx is not part of this model: it only places the cart inside the UI library's provider and page component.
- The log call in "Save" (src/components/Cart/Cart.tsx:81) is output to the console; `Save` returns the payload it would log.
- Currency formatting with the platform's number-formatting library (symbol, grouping, rounding to two fraction digits): it is the `format` parameter, about which nothing is assumed.
- Floating point: the source computes in IEEE-754 doubles, where 0.91 and 132.87 are not exact and sums round. The model uses exact reals.
- The not-a-number value that the quantity field produces from text that is not a number (src/components/Cart/Cart.tsx:109): exact reals have no such value.
- The UI framework's state semantics: asynchronous state updates, stale closures and re-rendering. The model is one object updated in sequence.
- The shallow copy `[...cart]` (src/components/Cart/Cart.tsx:39): the edited row object is shared with the previous cart array. Rows are values in the model, so this aliasing is not captured.
