# QR menu ordering: the business logic, in Dafny

This project models the core of a single-file Streamlit app (`nza3.py`) that
restaurants use as a QR-code menu. Customers order from their table and the
counter staff work the orders on a dashboard. Firestore is replaced by
in-memory maps, and Streamlit's session state by explicit objects. Today's
date, order ids, category document ids, timestamps and the entered password
are parameters.

Modules, one per area of the program:

- `Prices` (`prices.dfy`): `parse_price`, which maps Myanmar digits to ASCII,
  keeps only the digits and reads them in base 10 (0 when none remain).
  `format_price`, which is `f"{n:,}"`. `str(n)`.
- `Menu` (`menu.dfy`): menu items, `str.strip`, the guard on the "add
  category" button, the items of a category, and the menu page's grouping of
  items under category names.
- `Cart` (`cart.dfy`): the customer's cart, a list of
  `{item_id, name, price, qty}` entries. It is modelled as a spec on sequences
  and as a class `CustomerCart` whose methods change the list in place: the
  "Order", "➖" and "➕" buttons, the sidebar total and "clear". It also holds
  the items text an order is saved with.
- `DailySales` (`sales.dfy`): the date-keyed `(total, order_count)`
  aggregate.
- `Orders` (`orders.dfy`): order documents and their life cycle
  (pending → preparing → completed). It covers the dashboard's "Preparing",
  "Complete" and "clear history" buttons and the dashboard's status and date
  filters over the order listing.
- `StoreState` (`store.dfy`): class `Store`, holding one store's categories,
  menu items, orders and daily sales. Its methods are the writes the pages
  make: add/delete category, `save_order`, `update_order_status`,
  `delete_order`, `add_to_daily_sales`, `get_daily_sales`, order submission
  from the cart, and the dashboard buttons.
- `Admin` (`admin.dfy`): the login decision, and login/logout on the session
  flags.
- `Wrappers` (`wrappers.dfy`): `Option`.

A click on a Streamlit button takes effect only if the rerun draws that
button again. The dashboard draws "Preparing" only on pending orders and
"Complete" only on active ones. So `StartPreparing` and `Complete` are total
functions that leave everything unchanged for any other order.

This version of the app has no unavailable-item handling, no adjusted totals
and no parser for order items, so the model has none either.

## Model

| member | source | states |
|---|---|---|
| Prices.DigitValue | nza3.py:272-278 | a digit character of either script stands for a value below 10 |
| Prices.AsciiDigit | nza3.py:273 | the ASCII digit written for a value below 10 has that value |
| Prices.DigitTables | nza3.py:272-273 | the two digit tables have ten entries each, position k holding U+1040+k and the ASCII digit k |
| Prices.Replace | nza3.py:278 | `s.replace(m, e)` keeps the length and swaps exactly the positions holding `m` |
| Prices.ReplaceFrom | nza3.py:277-278 | the `zip`/`replace` loop from pair `k` on; its effect is stated by `ReplaceFromAt` and `TransliterateAt` |
| Prices.Transliterate | nza3.py:275-278 | `result` after the whole replacement loop; `TransliterateAt` states it maps every Myanmar digit to its ASCII twin and keeps every other character |
| Prices.TransliterateAt | nza3.py:276-278 | after the replacement loop every Myanmar digit is the ASCII digit of equal value and every other character is unchanged |
| Prices.KeepDigits | nza3.py:281 | `filter(str.isdigit, ...)` leaves only digits |
| Prices.DigitsOfKeepDigits | nza3.py:281 | filtering out the non-digits does not change the digit values read |
| Prices.DigitsOfTransliterate | nza3.py:276-278 | transliterating does not change the digit values read |
| Prices.ParsePrice | nza3.py:270-282 | `parse_price` as a total function to the naturals (up to the 4300-digit limit, see "Left out"): transliterate, keep the digits, read them in base 10, 0 when none remain; its meaning is stated by `ParsePriceIsDigitValue`, `ParsePriceScriptBlind` and the round trips |
| Prices.ParsePriceIsDigitValue | nza3.py:270-282 | up to the 4300-digit limit, `parse_price(s)` is the base-10 value of the digit subsequence of `s`, Myanmar digits counting as their ASCII twins; 0 when `s` has no digit |
| Prices.ParsePriceScriptBlind | nza3.py:270-282 | a price written with Myanmar digits parses to the same number as its ASCII spelling |
| Prices.Decimal | nza3.py:516 | `str(n)` is a non-empty run of ASCII digits, with no leading zero, whose value is `n` |
| Prices.FormatPrice | nza3.py:284-286 | `f"{n:,}"`, a minus sign before the grouped digits of a negative number; its shape is stated by `FormatPriceShape` and its inverse by `ParseFormatRoundTrip` |
| Prices.Grouped | nza3.py:286 | the `,` grouping of `f"{n:,}"` on a run of digits; stated by `GroupedShape` |
| Prices.GroupedShape | nza3.py:284-286 | grouping a digit run puts a comma exactly every fourth place from the right, digits elsewhere, and removing the commas gives the digits back |
| Prices.FormatPriceShape | nza3.py:284-286 | `format_price(n)` for `n >= 0` is `str(n)` with a comma before every group of three digits from the right |
| Prices.ParseFormatRoundTrip | nza3.py:270-286 | `parse_price(format_price(n)) == n` for `n >= 0`, and `-n` for negative `n` (the sign is not a digit) |
| Prices.ParseDecimalRoundTrip | nza3.py:270-282 | `parse_price(str(n)) == n` |
| Menu.IsSpace | nza3.py:623 | the `str.isspace` characters `strip()` removes; its use is stated by `StripIsTrimmedSlice` and `StripBlankIffAllSpace` |
| Menu.TrimLeft | nza3.py:623 | the left strip cuts only white space and leaves a non-space first character |
| Menu.TrimRight | nza3.py:623 | the right strip cuts only white space and leaves a non-space last character |
| Menu.Strip | nza3.py:623 | `s.strip()`; stated by `StripIsTrimmedSlice`, `StripEnds`, `StripBlankIffAllSpace` and `StripIdempotent` |
| Menu.StripIsTrimmedSlice | nza3.py:623 | `s.strip()` is a slice of `s` with only white space removed at both ends |
| Menu.StripEnds | nza3.py:623 | a non-empty stripped name neither starts nor ends with white space |
| Menu.StripBlankIffAllSpace | nza3.py:623 | `s.strip()` is empty exactly when `s` is all white space |
| Menu.StripIdempotent | nza3.py:623-625 | stripping a stripped name changes nothing |
| Menu.AdmitCategory | nza3.py:622-627 | a typed category is added iff its stripped form is non-empty and not among the names, and what is added is the stripped form; it is refused as blank iff its stripped form is empty, and as a duplicate of the stripped name iff that name is already present |
| Menu.AdmittedIsStripped | nza3.py:623-625 | an admitted name is non-empty, has no white space at its ends and is its own strip |
| Menu.ItemsIn | nza3.py:640 | the items of a category are exactly the listed items with that category |
| Menu.ItemsInConcat | nza3.py:944-947 | filtering by category keeps the menu order |
| Menu.ItemsInCounts | nza3.py:640 | each item of the category appears as often as on the menu; no other item appears |
| Menu.GroupByCategory | nza3.py:942-947 | one group per category name, each holding exactly that category's items in menu order; an item with an unknown category is in no group |
| Cart.LineTotal | nza3.py:479-480 | `parse_price(item['price']) * item['qty']`; stated by `LineTotalStep` and summed by `CartTotal` |
| Cart.CartTotal | nza3.py:477-480 | the sum of `parse_price(price) * qty` over the entries; how the buttons change it is stated by `AddItemTotal`, `DecrementEffect` and `IncrementEffect`, and the sidebar loop is proved to compute it by `CustomerCart.Total` |
| Cart.SumByConcat | nza3.py:477-480 | the sum over a cart is the sum of its parts |
| Cart.SumBySplit | nza3.py:477-480 | the sum over a cart splits around any entry |
| Cart.SumByUpdate | nza3.py:477-480 | replacing one entry changes the sum by the difference of the two weights |
| Cart.SumByRemove | nza3.py:477-480 | removing one entry takes its weight off the sum |
| Cart.LineTotalStep | nza3.py:480 | one more unit adds one unit price to the line total |
| Cart.CountOfEntry | nza3.py:997-1010 | in a well-formed cart the number of units of an item is its entry's quantity |
| Cart.NoCount | nza3.py:997-1010 | an item with no entry has no units in the cart |
| Cart.Find | nza3.py:998-1002 | the loop stops at the first entry with the item id, or runs off the end when there is none |
| Cart.AddItem | nza3.py:997-1010 | "Order" on the cart as a value: bump the first entry with the item id, else append; stated by `AddItemShape`, `AddItemCount` and `AddItemTotal` |
| Cart.AddItemShape | nza3.py:997-1010 | "Order" keeps ids unique and quantities at least 1 and grows the cart by at most one entry; when the item is present its entry only gains one unit (same id, name and price) and every other entry is unchanged; when absent it is appended with quantity 1 |
| Cart.AddItemCount | nza3.py:997-1010 | "Order" adds exactly one unit of the item and none of any other |
| Cart.AddItemTotal | nza3.py:997-1010 | "Order" raises the cart total by the parsed price of the entry it bumps or appends (a bumped entry keeps the price it was first ordered at) |
| Cart.Decrement | nza3.py:487-491 | "➖" on the cart as a value; stated by `DecrementShape` and `DecrementEffect` |
| Cart.Increment | nza3.py:493-495 | "➕" on the cart as a value; stated by `IncrementEffect` |
| Cart.DecrementShape | nza3.py:487-491 | "➖" lowers the entry's quantity by one and changes nothing else in it, or removes the entry at quantity 1; the other entries keep their contents and order, and the cart stays well-formed |
| Cart.DecrementEffect | nza3.py:487-491 | "➖" removes exactly one unit of that item and one unit price from the total |
| Cart.IncrementEffect | nza3.py:493-495 | "➕" keeps the cart's length, raises entry `i` by one unit and changes nothing else in it or in any other entry, adds one unit price to the total and keeps the cart well-formed |
| Cart.EntryText | nza3.py:510 | `f"{name} x{qty}"` for one entry |
| Cart.Join | nza3.py:510 | `sep.join(parts)`; stated by `JoinConcat` and `JoinFirst` |
| Cart.ItemsText | nza3.py:510 | the order's `items` field, the entries' texts joined by `" \| "`; stated by `ItemsTextConcat` and `ItemsTextShape` |
| Cart.EntryTexts | nza3.py:510 | one `"name xqty"` text per entry, in cart order |
| Cart.JoinConcat | nza3.py:510 | joining two non-empty lists is joining each and putting the separator between |
| Cart.ItemsTextConcat | nza3.py:510 | the items text of two carts is their texts joined by `" \| "` |
| Cart.ItemsTextShape | nza3.py:510 | the items text is empty iff the cart is, and is the entry's text for one entry |
| Cart.JoinFirst | nza3.py:510 | a joined text is at least as long as its first part |
| Cart.CustomerCart.constructor | nza3.py:303-304 | a new session's cart is empty |
| Cart.CustomerCart.Order | nza3.py:997-1010 | the in-place loop leaves the cart equal to `AddItem` of the old cart and keeps it well-formed |
| Cart.CustomerCart.Minus | nza3.py:487-491 | the in-place "➖" leaves `Decrement` of the old cart |
| Cart.CustomerCart.Plus | nza3.py:493-495 | the in-place "➕" leaves `Increment` of the old cart |
| Cart.CustomerCart.Total | nza3.py:477-480 | the sidebar loop computes the sum of `parse_price(price) * qty` over the entries |
| Cart.CustomerCart.Clear | nza3.py:529-531 | "clear cart" leaves an empty cart |
| DailySales.Lookup | nza3.py:256-265 | the day's `(total, order_count)`, or `(0, 0)` without a record; `Store.GetDailySales` is proved to return it |
| DailySales.RecordSale | nza3.py:234-254 | the aggregate after one `add_to_daily_sales`; stated by `RecordSaleEffect`, and `Store.AddToDailySales` is proved to produce it |
| DailySales.RecordAll | nza3.py:234-254 | several bookings on one day in turn; stated by `RecordAllEffect` |
| DailySales.RecordSaleEffect | nza3.py:234-254 | one booking creates `(amount, 1)` on a day without a record, adds `(amount, 1)` to an existing one, and leaves every other day alone |
| DailySales.RecordAllEffect | nza3.py:234-265 | `k` bookings on one day add `k` to its count and the sum of the amounts to its total, `(sum, k)` from no record; other days unchanged |
| Orders.IntOf | nza3.py:766 | `int(total)` succeeds exactly on non-empty runs of ASCII digits |
| Orders.IntOfDecimal | nza3.py:516 | `int(str(n)) == n`: the total the customer page stores as text is read back exactly, which is why orders hold their total as a number |
| Orders.Submit | nza3.py:209-220 | `save_order` on the order map; stated by `SubmitEffect`, and `Store.SaveOrder` is proved to produce it |
| Orders.SubmitEffect | nza3.py:209-220 | a saved order under a fresh id is pending, is one more active order, and moves no other order |
| Orders.StartPreparing | nza3.py:769-772 | the "Preparing" button on the order map; stated by `StartPreparingEffect` |
| Orders.Complete | nza3.py:774-783 | the "Complete" button on orders and sales together; stated by `CompleteEffect`, `CompleteOnce` and `CompleteConserves` |
| Orders.StartPreparingEffect | nza3.py:769-772 | "Preparing" moves only a pending order, to preparing; every other order and the set of active orders stay as they were |
| Orders.CompleteEffect | nza3.py:774-783 | "Complete" on an active order marks it completed and books its total and one order on today; no other order or day changes, and no order moves backwards |
| Orders.CompleteOnce | nza3.py:751-783 | a completed order is no longer offered "Complete", so a second click books nothing |
| Orders.CompleteConserves | nza3.py:774-783 | today's completed count plus the number of active orders is the same before and after "Complete" |
| Orders.ClearHistory | nza3.py:829-831 | confirmed "clear history" on the order map; stated by `ClearHistoryEffect`, and `Store.ClearOrderHistory` is proved to produce it |
| Orders.ClearHistoryEffect | nza3.py:829-831 | clearing the history deletes exactly the completed orders, keeps the active ones unchanged, and is idempotent |
| Orders.Shows | nza3.py:692-800 | the conditions of the dashboard comprehensions (status equal to one value, status pending or preparing, timestamp starting with today); their use is stated by `Select` and `HistoryOfToday` |
| Orders.Select | nza3.py:713-716 | a dashboard filter keeps exactly the listed orders it matches |
| Orders.SelectConcat | nza3.py:713-800 | a dashboard filter keeps the listing order: the orders shown from a longer listing are those of its first part followed by those of its second |
| Orders.SelectCounts | nza3.py:713-716 | each matched order appears as often as in the listing |
| Orders.BoardPartition | nza3.py:713-792 | every listed order is on the active board or in the history, and the pending and preparing counters add up to the board |
| Orders.HistoryOfToday | nza3.py:792-800 | today's history is exactly the completed orders whose timestamp starts with today's date, and no completed order is on the board |
| Orders.ListedIds | nza3.py:106-115 | on a snapshot of the collection, the history holds exactly the completed order ids and the board exactly the active ones |
| StoreState.SubmittedOrderBooksCartTotal | nza3.py:510-516 | completing a submitted order books exactly the cart total on the day and keeps its items text |
| StoreState.Store.AddCategory | nza3.py:620-627 | the "add" button stores the admitted stripped name under a fresh id, or changes nothing; names stay unique |
| StoreState.Store.DeleteCategory | nza3.py:636-646 | deletion is refused, with the item count, iff a menu item is filed under the name; otherwise a document with that name is deleted and, with unique names, the name is gone |
| StoreState.Store.SaveOrder | nza3.py:209-220 | `save_order` writes a pending order under the given id and returns that id |
| StoreState.Store.UpdateOrderStatus | nza3.py:222-227 | the status of an existing order is set; a missing order is an error and nothing changes |
| StoreState.Store.DeleteOrder | nza3.py:229-232 | the order is removed and nothing else changes |
| StoreState.Store.AddToDailySales | nza3.py:234-254 | the read-then-update-or-create leaves exactly `RecordSale` of the old aggregate |
| StoreState.Store.GetDailySales | nza3.py:256-265 | returns the day's `(total, order_count)`, or `(0, 0)` for a day without a record |
| StoreState.Store.SubmitOrder | nza3.py:505-527 | on a non-empty cart (the only time the button is drawn): without a table number nothing changes; otherwise one pending order carries the cart's items text and total, and the cart is then empty |
| StoreState.Store.MarkPreparing | nza3.py:769-772 | the button leaves exactly `StartPreparing` of the old orders |
| StoreState.Store.CompleteOrder | nza3.py:774-783 | booking then status update leave exactly `Complete` of the old orders and sales |
| StoreState.Store.ClearOrderHistory | nza3.py:829-831 | deleting the listed completed orders one by one leaves exactly `ClearHistory` of the old orders |
| Admin.Authenticate | nza3.py:426-435 | the super admin key always wins; otherwise the store key grants store admin; anything else is refused |
| Admin.StoreKeyScope | nza3.py:426-435 | only the super admin key grants super admin; without a store key only the super admin gets in; a store's own key admits |
| Admin.Session.constructor | nza3.py:291-306 | a new session is not admin and shows the menu |
| Admin.Session.Login | nza3.py:438-448 | a right password sets both flags from the role; a wrong one changes nothing |
| Admin.Session.Logout | nza3.py:465-470 | logout clears both flags and the edited item and returns to the menu view |

## Left out

- Firestore itself, the `@st.cache_data` loaders and their expiry: storage is plain maps read and written in sequence. A stale cached listing, and two sessions completing the same order at once (which could book a sale twice), are not modelled.
- Listing order: Firestore returns categories and menu items in document-id order and orders newest first. The model takes a listing as a given sequence and does not state its order.
- All rendering: columns, HTML and CSS, toasts, balloons, `st.rerun`, the error and warning messages, the two-click confirmation before clearing the history, and the skipping of empty categories when the menu is drawn.
- The notification sound and the pending-count comparison that triggers it, and the auto-refresh controls: these are presentation only.
- QR code generation, store management (create, edit, delete stores), and menu item add, edit and delete: these are outside the ordering core. The `search_query` session key is set but never used.
- `str(uuid.uuid4())[:8]`, `datetime.now()` and Firestore's `add()` id: the order id, timestamp, today's date and the new category id are parameters. An order id that collides with an existing one overwrites it, as `set()` does; `Orders.SubmitEffect` assumes a fresh id.
- `Prices.ParsePrice`: CPython's 4300-digit limit on converting between integers and decimal text is not modelled. A price whose digits run past 4300 makes `int(...)` raise, and `parse_price` returns 0; the model returns the digits' value.
- `Prices.FormatPrice`: `f"{n:,}"` raises for a number of more than 4300 digits under that limit; the model always returns the grouped text.
- `Prices.Decimal`: `str(n)` raises for a number of more than 4300 digits under that limit; the model always returns the digits.
- `Prices.ParsePriceIsDigitValue`: stated for every string, so it does not hold past the 4300-digit limit, where the program returns 0. Also, the digit alphabet is ASCII and Myanmar only. Other characters for which `str.isdigit` holds, such as superscripts or other scripts' digits, are not modelled.
- Order totals are held as numbers, not as the text `str(total)` the app stores: `Orders.IntOfDecimal` shows that the dashboard's `int(...)` reads back exactly that number. A document with a total that does not parse, which the app never writes, would make the dashboard stop while drawing its card (nza3.py:766); the model has no such documents, so the `except` around the booking is not modelled.
- `Orders.IntOf`: Python's `int` also accepts surrounding white space, a sign, underscores and non-ASCII decimal digits. The model treats such texts as unparsable. It also does not model the 4300-digit limit, past which `int` raises and the model returns a number.
- `DailySales.RecordSaleEffect`: the `date` and `created_at` fields written with a new day record are not kept; only `total` and `order_count` are.
- Negative prices and totals: the cart's quantities and parsed prices are naturals, so no total is negative.
