# Happy Orange Donuts storefront: cart, payment form and item counter

This project is a Dafny model of the state logic of the Happy Orange Donuts
grocery app, a React Native storefront. It covers three parts.

- **The cart provider** (`CartContext`). It holds the cart as an ordered
  sequence of line objects and keeps it in step with a remote cart store
  through four operations: fetch the whole cart, add an item, remove an id,
  and update a quantity. The remote store is a ghost map from store key to
  stored fields. Each awaited HTTP call is one atomic step whose outcome
  (`Replied(status, data)` or `Threw`) is a parameter. As axios does by
  default, only a reply with a 2xx status resolves the call (`Accepted()`);
  a reply with any other status rejects it, exactly as a thrown network
  error does. `CartProvider` is a class
  with a `cart` field that its methods reassign. The transformations they
  hand to `setCart` are functions: the entries-to-lines map, the spread
  append, the `filter` and the `map`.
- **The payment screen** (`PaymentScreen`). It holds the selected payment
  method and four card inputs. Each input's `onChangeText` replaces one
  field. `HandleConfirmOrder` pushes the label of each empty input in a
  fixed order, then either shows an error alert listing those labels or
  navigates to `OrderConfirmed`.
- **The item details screen** (`DetailsScreen`). It holds a quantity
  counter: a minus button floored at 1, a plus button, and a text input that
  stores `Number(text)` unclamped. It also builds the cart line from the
  catalog item, overriding `price` and `quantity`. Its add-to-cart handler
  navigates to the cart only when `addToCart` resolved truthy.

`JsValues` models the JavaScript semantics these parts rely on:

- values and plain objects;
- object spread, as right-biased map union;
- truthiness and `Math.max`;
- `parseFloat`, `Number(...)` and `isNaN` on decimal numerals;
- the alert and navigation effects of a handler.

A JavaScript number is `NaN` or a finite real.

Some behaviour of the code is easy to miss, and the model keeps it as the
code has it:

- A price that `parseFloat` cannot read, such as `"abc"`, becomes `NaN` in
  the cart, not 0. The `price ? parseFloat(price) : 0` guard only catches
  absent or falsy prices.
- A field set that carries its own `id` overrides the store key, because
  the spread comes after `id`. Removing that line by the store key then
  leaves it in the cart.
- `handleUpdateQuantity` writes the new quantity into the line object held
  by the cart before the PUT settles. When the PUT throws, no `setCart`
  runs, yet the cart held in state still holds the new quantity on the
  first line with that id; it appears on screen at the next render.
- The code checks no status after the PUT: any reply axios accepts (2xx)
  applies the `map`. A reply outside 2xx makes axios reject, which the code
  rethrows, so no `map` runs and only the in-place write remains.
- The text input bypasses the floor of the minus button. Typing `"0"`
  gives quantity 0. Text that is no number gives `NaN`, and neither button
  turns `NaN` back into a number.
- A price string like the home screen's `"Rs.2500"` is not a number, so
  `itemPrice` would replace it with 0. The home screen never opens the
  details screen for those items, so none of them actually reaches it.
- A stored price of white space only, such as `" "`, is truthy, so
  `fetchCart` calls `parseFloat(" ")`, which finds no numeral: the fetched
  line reaches the cart with price NaN. On the details screen the same
  price would slip past `isNaN` too (`Number(" ")` is 0, so `itemPrice`
  keeps the string), but there the render throws at `itemPrice.toFixed(2)`
  before Add to Cart can be pressed.
- `Number(text)` follows ECMAScript's StringToNumber. The empty string
  gives 0. A numeral must be surrounded only by white space.

## Model

| member | source | states |
|---|---|---|
| JsValues.Max | happy-orange-donuts/components/DetailsScreen.js:52 | `Math.max` is NaN exactly when an argument is NaN; otherwise it is one of its arguments and at least both |
| JsValues.NatToStringValue | happy-orange-donuts/components/DetailsScreen.js:57 | the decimal digits `String(n)` shows for a whole quantity have value `n` |
| JsValues.NatNumeralRoundTrip | happy-orange-donuts/components/DetailsScreen.js:57-58 | reading the shown numeral of a whole quantity back with `Number` (or `parseFloat`) gives the same quantity |
| JsValues.ReadDigits | happy-orange-donuts/components/CartContext.js:19 | `parseFloat` and `Number` read a nonempty string of digits as its decimal value |
| JsValues.ScanDigits | happy-orange-donuts/components/CartContext.js:19 | a string of digits is scanned whole as one unsigned numeral |
| JsValues.ScanPointNumeral | happy-orange-donuts/components/CartContext.js:19 | a numeral `ip.fp` is scanned whole, with its integer and fraction digits |
| JsValues.ParseFloatAgreesWithNumber | happy-orange-donuts/components/CartContext.js:19 | wherever `Number(s)` finds a numeral, `parseFloat(s)` yields the same number |
| JsValues.ParseFloatReadsPrefix | happy-orange-donuts/components/CartContext.js:19 | a numeral followed by more than white space is a number to `parseFloat` (the prefix) and NaN to `Number` |
| JsValues.IsNaNIsNumberNaN | happy-orange-donuts/components/DetailsScreen.js:10 | `isNaN(v)`, decided by whether a numeral is found, holds exactly when `Number(v)` is NaN |
| JsValues.ParseFloat | happy-orange-donuts/components/CartContext.js:19 | `parseFloat` keeps a number, gives NaN for undefined, null and booleans, and NaN for text of white space only |
| JsValues.StringToNumber | happy-orange-donuts/components/DetailsScreen.js:58 | `Number(s)` is NaN exactly when, after leading white space, the text is nonempty and either no numeral starts it or more than white space follows the numeral; text of white space only is 0 |
| JsValues.IsNaN | happy-orange-donuts/components/DetailsScreen.js:10 | `isNaN` of a number is whether it is NaN; text of white space only is not NaN |
| JsValues.ZeroNumeral | happy-orange-donuts/components/DetailsScreen.js:58 | `Number("0")` is 0 |
| JsValues.NoNumeral | happy-orange-donuts/components/DetailsScreen.js:10 | text starting with a character that begins neither white space nor a numeral is NaN to both `parseFloat` and `Number` |
| JsValues.ParseFloatExamples | happy-orange-donuts/components/CartContext.js:40 | `parseFloat("12.5")` is 12.5 and `parseFloat("abc")` is NaN |
| JsValues.StringToNumberExamples | happy-orange-donuts/components/DetailsScreen.js:58 | `Number("")` is 0 and `Number("abc")` is NaN |
| CartContext.CoercedPrice | happy-orange-donuts/components/CartContext.js:19 | the coerced price is always a number value |
| CartContext.KeyedLine | happy-orange-donuts/components/CartContext.js:37-41 | the built line's `id` is the fields' own `id` if any, else the store key; its `price` is the coerced price; every other field is the item's; its keys are the item's plus `id` and `price` |
| CartContext.HasId | happy-orange-donuts/components/CartContext.js:55 | a line matches an id only when it has an `id` field |
| CartContext.WithoutId | happy-orange-donuts/components/CartContext.js:55 | a line is in the filtered cart if and only if it was in the cart and does not carry the id |
| CartContext.WithQuantity | happy-orange-donuts/components/CartContext.js:75-77 | same length; each line with the id has its `quantity` replaced, every other line is unchanged |
| CartContext.MutateFirst | happy-orange-donuts/components/CartContext.js:73 | the in-place write keeps the cart's length; when no line has the id the cart is unchanged, otherwise only the first line with the id changes, to that line with the new `quantity` |
| CartContext.FindIndex | happy-orange-donuts/components/CartContext.js:71 | `find` returns the first line with the id, or none when no line has it |
| CartContext.CartProvider.constructor | happy-orange-donuts/components/CartContext.js:9 | the cart starts empty |
| CartContext.CartProvider.FetchCart | happy-orange-donuts/components/CartContext.js:11-29 | on status 200 with non-null data the cart mirrors the store the reply lists: every stored key has a line built from its fields, and each line is built from the entry stored under the key listed in its place; otherwise, including a throw, the cart is unchanged; the store is not changed |
| CartContext.CartProvider.AddToCart | happy-orange-donuts/components/CartContext.js:31-49 | status 200: the item is stored under the returned key, exactly the new line is appended and the result is `true`; another 2xx status: stored, cart unchanged, result `undefined`; a throw or a non-2xx reply: cart and store unchanged, rejected |
| CartContext.CartProvider.RemoveFromCart | happy-orange-donuts/components/CartContext.js:51-62 | status 200: the key is deleted, the cart is filtered by id and the result is `true`; another 2xx status: deleted, cart unchanged; a throw or a non-2xx reply: cart and store unchanged, rejected |
| CartContext.CartProvider.HandleUpdateQuantity | happy-orange-donuts/components/CartContext.js:64-83 | q <= 0 is exactly a removal; an absent id changes nothing and makes no call; otherwise the PUT body is the first such line with the new quantity, and after a 2xx reply every line with the id gets the quantity, while a throw or a non-2xx reply leaves only the in-place write to the first such line and rejects |
| CartContext.QuantityKeepsWellFormed | happy-orange-donuts/components/CartContext.js:73-77 | setting a quantity keeps every line with an `id` and a numeric `price` |
| CartContext.WithoutIdAppend | happy-orange-donuts/components/CartContext.js:55 | the `filter` keeps the relative order of the remaining lines (it distributes over concatenation) |
| CartContext.WithoutAbsentId | happy-orange-donuts/components/CartContext.js:55 | removing an id no line carries leaves the cart unchanged |
| CartContext.RemoveTwice | happy-orange-donuts/components/CartContext.js:55 | removing the same id twice is removing it once |
| CartContext.AddThenRemove | happy-orange-donuts/components/CartContext.js:35-42 | adding an item without its own `id` under a fresh key, then removing that key, restores the cart |
| CartContext.AddedOwnIdSurvivesRemove | happy-orange-donuts/components/CartContext.js:37-40 | an item that carries its own `id` keeps it, so removing by the store key leaves its line in place |
| CartContext.MutateThenMap | happy-orange-donuts/components/CartContext.js:73-77 | once the PUT replies, the earlier in-place mutation makes no difference to the mapped cart |
| CartContext.FailedUpdateChangesCart | happy-orange-donuts/components/CartContext.js:73-74 | when the PUT throws, the cart differs from before exactly at the first line with the id |
| CartContext.RemoveAfterUpdate | happy-orange-donuts/components/CartContext.js:75-77 | an update keeps every id, so removing after updating equals updating after removing |
| CartContext.FetchedLines | happy-orange-donuts/components/CartContext.js:16-20 | one well-formed line per entry, carrying the entry's key as id unless the fields have an `id` |
| CartContext.AfterFetch | happy-orange-donuts/components/CartContext.js:15-22 | unless the GET replied 200 with non-null data (a throw, another status, or null data) the cart is unchanged; on 200 with data the cart is exactly one line per entry, in order, each built from the entry's key and fields; well-formed lines stay well-formed |
| CartContext.FetchedMirrorsStore | happy-orange-donuts/components/CartContext.js:16-21 | when the reply lists the store's entries, every stored key has a fetched line built from its fields, and each fetched line is built from the fields stored under its entry's key |
| CartContext.FetchedIdsDistinct | happy-orange-donuts/components/CartContext.js:16-20 | distinct store keys without stored `id` fields give a cart with distinct ids |
| CartContext.RefetchAfterAdd | happy-orange-donuts/components/CartContext.js:33-41 | the line `addToCart` appends is the line a later fetch builds for the stored entry |
| CartContext.RefetchAfterUpdate | happy-orange-donuts/components/CartContext.js:74 | a cart line with a finite price, stored back by the PUT, is rebuilt unchanged by a later fetch |
| CartContext.PriceCoercionExamples | happy-orange-donuts/components/CartContext.js:19 | `"12.5"` gives 12.5, `"abc"` gives NaN, and an absent or empty price gives 0 |
| CartContext.FetchedBlankPriceIsNaN | happy-orange-donuts/components/CartContext.js:19 | a stored price of white space only reaches the fetched cart as NaN |
| PaymentScreen.WithField | happy-orange-donuts/screens/PaymentScreen.js:108-137 | an edit sets the edited field to the text and leaves the other three unchanged |
| PaymentScreen.Screen.constructor | happy-orange-donuts/screens/PaymentScreen.js:23-29 | no method is selected and all four card fields are empty |
| PaymentScreen.Screen.HandlePaymentMethodSelect | happy-orange-donuts/screens/PaymentScreen.js:31-33 | the selection becomes the method's id; the card details are unchanged |
| PaymentScreen.Screen.OnChangeText | happy-orange-donuts/screens/PaymentScreen.js:108-137 | the card details become the single-field edit; the selection is unchanged |
| PaymentScreen.Screen.HandleConfirmOrder | happy-orange-donuts/screens/PaymentScreen.js:35-50 | the labels pushed step by step are the missing-field list, and the effect is the alert or navigation that list calls for |
| PaymentScreen.MethodMissing | happy-orange-donuts/screens/PaymentScreen.js:38 | `!selectedMethod` holds exactly when the selection is falsy: none (null) or an empty id |
| PaymentScreen.MissingFields | happy-orange-donuts/screens/PaymentScreen.js:36-42 | the missing-field list holds at most the five labels and nothing but labels |
| PaymentScreen.ConfirmEffect | happy-orange-donuts/screens/PaymentScreen.js:44-49 | confirming either navigates or alerts; it navigates, to `OrderConfirmed`, exactly when no field is missing; the alert is titled `Error` and its text starts with the fixed prefix |
| PaymentScreen.MissingFieldsUnfold | happy-orange-donuts/screens/PaymentScreen.js:38-42 | the missing-field list is the five checks' labels, in order, each kept only when its input is empty |
| PaymentScreen.MissingExactlyBlank | happy-orange-donuts/screens/PaymentScreen.js:38-42 | a label is listed if and only if its input is empty |
| PaymentScreen.NavigatesIffComplete | happy-orange-donuts/screens/PaymentScreen.js:44-49 | confirming navigates, to `OrderConfirmed`, if and only if a method is selected and all four fields are filled |
| PaymentScreen.InitialConfirmListsAll | happy-orange-donuts/screens/PaymentScreen.js:23-42 | in the initial state all five labels are missing, in order, and the error alert lists them |
| PaymentScreen.Join | happy-orange-donuts/screens/PaymentScreen.js:45 | `join` of no labels is empty; otherwise the text starts with the first label, followed by the separator when there is a second |
| PaymentScreen.SplitJoin | happy-orange-donuts/screens/PaymentScreen.js:45 | joining lines without breaks by `'\n'` and splitting the text at line breaks gives the lines back |
| PaymentScreen.ErrorTextListsMissing | happy-orange-donuts/screens/PaymentScreen.js:45 | the alert text is the fixed prefix followed by lines that are exactly the missing labels |
| PaymentScreen.IsSelected | happy-orange-donuts/screens/PaymentScreen.js:53 | a method with a nonempty id renders as selected only when a method is selected, so confirming does not report the method missing |
| PaymentScreen.SelectionIsExclusive | happy-orange-donuts/screens/PaymentScreen.js:53 | at most one offered method renders as selected, and after selecting one exactly that one does |
| DetailsScreen.ItemPrice | happy-orange-donuts/components/DetailsScreen.js:10 | the price is never NaN: 0 where `isNaN(item.price)`, the item's price otherwise |
| DetailsScreen.CartItem | happy-orange-donuts/components/DetailsScreen.js:14-18 | the cart item has the item's keys plus `price` and `quantity`, those two overridden and every other field kept |
| DetailsScreen.Decremented | happy-orange-donuts/components/DetailsScreen.js:52 | the minus button subtracts 1 from 2 or more, gives exactly 1 below 2 (so minus at 1 stays 1), and keeps NaN |
| DetailsScreen.Incremented | happy-orange-donuts/components/DetailsScreen.js:64 | the plus button adds 1 to a number and keeps NaN; from 1 or more, the minus button undoes it |
| DetailsScreen.Typed | happy-orange-donuts/components/DetailsScreen.js:58 | a nonempty string of digits is read as its decimal value |
| DetailsScreen.Screen.constructor | happy-orange-donuts/components/DetailsScreen.js:8 | the quantity starts at 1 |
| DetailsScreen.Screen.OnMinus | happy-orange-donuts/components/DetailsScreen.js:52 | the quantity becomes `max(1, q - 1)` |
| DetailsScreen.Screen.OnPlus | happy-orange-donuts/components/DetailsScreen.js:64 | the quantity becomes `q + 1` |
| DetailsScreen.Screen.OnChangeText | happy-orange-donuts/components/DetailsScreen.js:58 | the quantity becomes `Number(text)`, unclamped |
| DetailsScreen.Screen.HandleAddToCart | happy-orange-donuts/components/DetailsScreen.js:13-30 | it navigates to `Cart` after the success alert if and only if the POST replied 200; a throw or a non-2xx reply gives the error alert; the cart gains exactly the built line on success, and the store holds the built item under the returned key after any 2xx reply and is unchanged otherwise |
| DetailsScreen.ButtonsKeepQuantityPositive | happy-orange-donuts/components/DetailsScreen.js:52-64 | from a whole quantity of at least 1, the buttons alone keep it a whole number of at least 1 |
| DetailsScreen.ButtonsFromStart | happy-orange-donuts/components/DetailsScreen.js:8 | from the initial quantity, the buttons alone never take it below 1 |
| DetailsScreen.SingleKeystroke | happy-orange-donuts/components/DetailsScreen.js:58 | a text entry replaces the quantity whatever it was |
| DetailsScreen.TypingZeroBypassesFloor | happy-orange-donuts/components/DetailsScreen.js:58 | typing `"0"` sets the quantity to 0, below the buttons' floor |
| DetailsScreen.TypedZero | happy-orange-donuts/components/DetailsScreen.js:58 | the text input reads `"0"` as 0 |
| DetailsScreen.TypedLetters | happy-orange-donuts/components/DetailsScreen.js:58 | the text input reads `"abc"` as NaN |
| DetailsScreen.NaNStaysNaN | happy-orange-donuts/components/DetailsScreen.js:52-64 | neither button turns a NaN quantity into a number |
| DetailsScreen.NaNQuantityIsStuck | happy-orange-donuts/components/DetailsScreen.js:52-64 | after typing any text that `Number` reads as NaN, the quantity stays NaN whatever buttons follow |
| DetailsScreen.CatalogPriceBecomesZero | happy-orange-donuts/components/DetailsScreen.js:10 | a price string such as `"Rs.2500"` would become 0 |
| DetailsScreen.AddedLine | happy-orange-donuts/components/DetailsScreen.js:14-18 | the line reaching the cart carries the counter's quantity, and the item's own `id` if it has one, else the store key |
| DetailsScreen.AddedLinePriceIs | happy-orange-donuts/components/DetailsScreen.js:14-18 | the line's price is the screen's price passed through the provider's coercion |
| DetailsScreen.NumberPriceKept | happy-orange-donuts/components/DetailsScreen.js:10 | a finite numeric catalog price reaches the cart unchanged |
| DetailsScreen.NumericStringPriceParsed | happy-orange-donuts/components/DetailsScreen.js:10 | taken in isolation, `itemPrice`, the cart item and the provider's coercion turn a numeric string price into the number it denotes (the screen's render throws on a string price first) |
| DetailsScreen.SpacePriceBecomesNaN | happy-orange-donuts/components/DetailsScreen.js:10 | taken in isolation, a price of white space only passes `isNaN`, is kept by `itemPrice`, and becomes NaN in the built line (the screen's render throws on it first) |
| DetailsScreen.NaNPriceZeroed | happy-orange-donuts/components/DetailsScreen.js:10 | a price `isNaN` rejects reaches the cart as 0 |

## Left out

- The HTTP calls, the store's URL and JSON transport are not modelled. Each call is an outcome parameter.
- The remote store is updated on any 2xx reply to a POST, DELETE or PUT. It is left unchanged when the call throws or gets a reply outside 2xx. The source cannot observe this, so it is an assumption.
- Statuses are distinguished only as 200, another 2xx status, or outside 2xx. A reply whose `data` lacks `name` is not modelled, and neither is an axios configuration with a different `validateStatus`.
- The store holds exactly the object that was sent. JSON encoding is not modelled: it turns a NaN quantity into `null` and drops `undefined` fields. CartContext.RefetchAfterAdd and CartContext.RefetchAfterUpdate therefore hold only for lines that JSON carries unchanged. For example, after non-numeric text is typed into the quantity, a later fetch does not rebuild the line.
- The GET reply is assumed to list exactly the store's entries, each with the fields stored under its key. CartContext.CartProvider.FetchCart requires this of its reply, since the model has no server behind the store.
- The model follows `Object.entries` order: the fetch reply carries its entries as a sequence in the order they are enumerated.
- Concurrency is not modelled: interleaved operations, stale closures across awaits, and `cart` versus `prevCart` when calls overlap. Each operation is one atomic step.
- React context, `useState` plumbing, rendering, styles, `console.error` and the navigation stack are left out. Alerts and navigation are returned as an `Effect` value.
- Floating point is not modelled: finite numbers are reals. Infinity, `-0`, exponents, hexadecimal and other radix prefixes, the `"Infinity"` literal and rounding are left out.
- JsValues.IsSpace: only space, tab, line feed and carriage return count as white space, not the other Unicode space characters that `parseFloat` and `Number` skip.
- JsValues.DigitValue: it is total and maps non-digits to 0. The scanner applies it only to digits.
- Ids and keys are strings. A non-string `id` field never matches `item.id === id`, which the model reflects, but ids of other types are not reasoned about.
- CartContext.CoercedPrice: its own contract only says the price is a number. What number it is stands in PriceCoercionExamples and in the JsValues lemmas.
- `toFixed` in the price display is not modelled. It matters: `itemPrice.toFixed(2)` at DetailsScreen.js:46 throws a TypeError for any `itemPrice` that is not a number (a string, `null`, a boolean), so the screen does not render and `handleAddToCart` cannot run with such a price. Screen.HandleAddToCart does not require a number price; the string-price lemmas describe the handler's functions in isolation. The cart screen (`CartScreen.js`) and the static home screen (`HomeScreen.js`) are not part of this model.
- Duplicate ids in the cart are not prevented by the source, and the model does not prevent them either. `WithoutId` and `WithQuantity` act on every line with the id.
