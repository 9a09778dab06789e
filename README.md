# GoldWax salon app: a Dafny model of its core

GoldWax is a salon-management app written in React Native and TypeScript. The staff use it on a
phone or tablet. It sells services through a cart, records the payments, keeps a client register,
keeps a stock of consumables (restocked and used by hand or through a barcode scanner), manages the
service catalogue and its categories, shows revenue reports, and lets an administrator manage the
staff accounts. The backend offers one list query for the service catalogue.

This project models the core of that app in Dafny:

- the four state hooks: `use-cart`, `use-inventory`, `use-clients` and `use-auth`;
- the seven screens built on them: inventory, service management, reports, barcode scanner, cart,
  clients and admin;
- the backend's `services.list` route.

It proves properties of that model.

## Structure

- Each hook is a `class` whose fields are the hook's state: `Cart.CartStore`,
  `Inventory.InventoryStore`, `Clients.ClientStore` and `Auth.AuthStore`.
  - Every list operation the hook performs (a `map`, `filter`, `find` or `reduce`) is a recursive
    function with its own contract, plus lemmas about what it keeps and what it changes.
  - Each method of a store states its new state in terms of those functions.
  - The cart keeps one line per service, each with a quantity of at least one; this is
    `CartStore.Valid()`, and every cart method preserves it.
  - The auth store has no such invariant, because the source keeps none: `deleteUser` lets an
    admin remove any other account, `admin-1` included, and `addUser` checks emails, not ids.
    What is proved instead is that loading keeps the three built-in ids first and every id once
    (`Auth.LoadedUsersKeepDefaults`), and that `addUser` never admits a second account with the
    same email (`Auth.AddUserKeepsEmailsUnique`).
  - The service-management screen keeps every service's category in its category list and every
    price and duration positive (`ServiceManagementScreen.Valid()`). The shipped catalogue of
    `constants/services.ts` meets this (`Catalogue.CatalogueValid`), and every handler keeps it.
- Each screen is a module holding three kinds of member:
  - the screen's decisions, as functions over the form texts (guards, parsing, the alerts they
    raise);
  - lemmas about those decisions;
  - a `class` holding the screen's React state, whose handlers call the store methods.
- The source has loops in a few places: the stored-user merge in `use-auth`, the grouping loop of
  the service screen, and the aggregations of the reports screen. Each of those is a `method`
  with a `while` loop, proved against a recursive specification function.
- Shared modules:
  - `Common` holds `Option` and `slice`.
  - `Text` holds `trim`, `toLowerCase`, `includes`, `toString`, `parseInt` and JavaScript's `%`.
  - `Sorting` holds a descending sort with its permutation and order proofs.
  - `Salon` holds the records of `types/salon.ts`.
  - `Catalogue` holds the shipped service catalogue of `constants/services.ts`, which the
    service-management screen opens on.
- Money is in whole forints (`int`). Times are milliseconds (`nat`/`int`); ids taken from the clock
  are the decimal form of that parameter.

## Model

| member | source | states |
|---|---|---|
| Common.Prefix | hooks/use-clients.ts:93-97 | `slice(0, k)` gives a prefix of the list, of length `min(k, n)` for a `k` that is not negative |
| Text.TrimStart | app/barcode-scanner.tsx:42-47 | the leading run of white space is dropped, and nothing else; the result is empty or starts with a character that is not white space |
| Text.TrimEnd | app/barcode-scanner.tsx:42-47 | the trailing run of white space is dropped, and nothing else; the result is empty or ends with a character that is not white space |
| Text.Trim | app/clients.tsx:72 | `trim()` gives a result no longer than its input; the result is empty or has no white space at either end |
| Text.TrimCutsOnlySpace | app/service-management.tsx:138 | what `trim()` cuts away on either side of its result is white space only, and the rest of the text is untouched |
| Text.TrimmedCompose | app/service-management.tsx:138 | trimming in two stages still cuts only white space from the ends |
| Text.BlankIsAllSpace | app/cart.tsx:47 | `!s.trim()` holds exactly when every character of `s` is white space |
| Text.TrimOfTrimmed | app/barcode-scanner.tsx:47 | a text without white space at either end is its own trim |
| Text.TrimIdempotent | app/barcode-scanner.tsx:128-132 | trimming twice gives the same text as trimming once |
| Text.TrimmedBlank | app/barcode-scanner.tsx:128-132 | trimming again changes neither the text nor whether it counts as blank |
| Text.Lower | hooks/use-auth.ts:271-275 | `toLowerCase()` keeps the length and folds each character on its own |
| Text.LowerIdempotent | hooks/use-auth.ts:271-275 | lower-casing twice gives the same text as lower-casing once |
| Text.Contains | hooks/use-inventory.ts:118-125 | `includes(q)` holds exactly when `q` occurs in the text as a contiguous piece |
| Text.ContainsTrivial | hooks/use-clients.ts:73-80 | every text includes the empty text and includes itself |
| Text.JsLength | app/barcode-scanner.tsx:42 | `.length` counts UTF-16 code units: at least the number of characters and at most twice it, equal exactly when no character lies outside the Basic Multilingual Plane |
| Text.JsLengthAppend | app/barcode-scanner.tsx:42 | the code units of two joined texts add up |
| Text.JsLengthOfPiece | app/barcode-scanner.tsx:42 | a piece cut from either end of a text has no more code units than the text |
| Text.TrimShortens | app/barcode-scanner.tsx:42-50 | `trim()` never lengthens a text in code units |
| Text.JsLengthOfEmojiPair | app/admin.tsx:51 | two emoji are two characters but four code units, so they pass the PIN length check as in JavaScript |
| Text.DigitValue | app/inventory.tsx:160 | a decimal digit character and its value convert back and forth |
| Text.NatToString | hooks/use-cart.ts:104-106 | the decimal form of a non-negative number is made of digits, with no leading zero |
| Text.NatToStringValue | hooks/use-cart.ts:104-106 | the decimal digits of `n` read back as `n` |
| Text.IntToString | app/service-management.tsx:317-318 | the decimal form of an integer is not empty, and it starts with `-` exactly when the integer is negative |
| Text.JsRemainder | app/cart.tsx:32 | JavaScript's `%` by a positive divisor: in `[0, b)` for a non-negative dividend and in `(-b, 0]` for a negative one |
| Text.LastChars | hooks/use-cart.ts:104 | `slice(-k)` gives the last `k` characters, or the whole text when it is shorter |
| Text.DigitsValueBound | hooks/use-cart.ts:104 | a digit string of length `k` denotes a number below `10^k` |
| Text.DigitsValueAppend | hooks/use-cart.ts:104 | the value of two digit strings joined is the first one's value shifted left by the second one's length, plus the second one's value |
| Text.LastDigitsValue | hooks/use-cart.ts:104 | a digit string's value splits into the rest shifted by the last `k` digits plus the last `k` digits, which denote less than `10^k` |
| Text.DigitRun | app/inventory.tsx:199 | the leading run of digits is all digits and is followed by the end of the text or by a character that is not a digit |
| Text.ParseInt | app/inventory.tsx:199 | `parseInt` gives NaN exactly when, once leading white space and one sign are skipped, no digit follows |
| Text.ParseIntReads | app/barcode-scanner.tsx:72 | `parseInt` on an optional minus sign, then digits, then a tail that does not start with a digit, gives the signed value of the digits |
| Text.ParseIntSigned | app/barcode-scanner.tsx:72 | once trimming, the sign and the digit run are known, `parseInt` gives the signed value of the digit run |
| Text.DigitsThenTail | app/barcode-scanner.tsx:72 | when digits are followed by a tail that does not start with a digit, the digit run is exactly those digits |
| Text.DigitRunOfDigits | app/barcode-scanner.tsx:72 | the digit run of digits followed by a tail that does not start with a digit has the length of those digits |
| Text.SignedStart | app/barcode-scanner.tsx:72 | a text made of an optional minus sign and then a digit has no white space to skip and exactly one sign to read |
| Text.ParseIntOfIntToString | app/service-management.tsx:317-318 | `parseInt` reads back a printed integer, whatever tail follows that does not start with a digit |
| Text.PrintedNumberParses | app/inventory.tsx:132-135 | `parseInt(n.toString())` gives back `n`, and the printed text is not empty |
| Text.NonNumericIsNaN | app/inventory.tsx:199 | a text whose first character is not white space, a sign or a digit parses to NaN |
| Text.ParseIntOne | app/barcode-scanner.tsx:72 | `parseInt('1')` is 1, the scanner's default quantity |
| Sorting.Insert | hooks/use-clients.ts:95 | inserting adds exactly one element |
| Sorting.InsertPermutes | hooks/use-clients.ts:95 | inserting adds exactly `x` to the multiset of elements |
| Sorting.InsertSorted | hooks/use-clients.ts:95 | inserting into a list in descending key order keeps it in that order |
| Sorting.SortDesc | hooks/use-clients.ts:95 | sorting by `b.key - a.key` gives a permutation of the list in non-increasing key order |
| Sorting.ConsPermutes | hooks/use-clients.ts:95 | adding the head to a permutation of the tail gives a permutation of the whole list |
| Sorting.WithKey | hooks/use-clients.ts:95 | the elements of one key, in order, never more than the list and all of that key |
| Sorting.InsertStable | hooks/use-clients.ts:95 | insertion puts the new element in front of the elements of its own key and keeps their order |
| Sorting.SortDescStable | hooks/use-clients.ts:95 | the sort is stable, as JavaScript's `sort` is: the elements of each key come out in the order they went in |
| Sorting.PrefixSorted | hooks/use-clients.ts:95-96 | a contiguous piece of a sorted list is sorted |
| Sorting.SortedSplit | hooks/use-clients.ts:95-96 | in a sorted list, every element before a cut has a key at least that of every element after it |
| Sorting.PrefixKeepsLargest | hooks/use-clients.ts:95-96 | `slice(0, m)` of the sorted list keeps the largest keys: nothing left out has a greater key than anything kept |
| Sorting.PrefixOfSorted | hooks/use-clients.ts:95-96 | `slice(0, m)` of the sorted list is itself sorted, and its elements are drawn from the input |
| Sorting.PrefixSubMultiset | hooks/use-clients.ts:95-96 | the elements of a prefix are drawn from the list |
| Sorting.MultisetOfSuffix | hooks/use-clients.ts:95-96 | what a prefix leaves of a list's elements is the elements of the rest of the list |
| Cart.TotalsAppend | hooks/use-cart.ts:40-46 | `total` and `totalDuration` split over two lists joined together |
| Cart.TotalsReplaceAt | hooks/use-cart.ts:40-46 | replacing one line changes each sum by the difference between the new line and the old one alone |
| Cart.TotalsRemoveAt | hooks/use-cart.ts:40-46 | removing one line lowers each sum by exactly that line |
| Cart.Incremented | hooks/use-cart.ts:48-55 | the `map` of `addToCart` adds one unit to every line of the service, and leaves every other line as it was |
| Cart.WithAdded | hooks/use-cart.ts:48-60 | a service already in the cart gets one more unit on its line; otherwise one unit of it is appended as the last line |
| Cart.AddExistingAt | hooks/use-cart.ts:48-55 | on a well-formed cart, adding a service already present changes only its line, to one more unit |
| Cart.AddExistingTotals | hooks/use-cart.ts:40-55 | adding a service already present raises `total` by its price and `totalDuration` by its duration |
| Cart.AddNewTotals | hooks/use-cart.ts:40-60 | adding a new service appends one unit of it, and raises `total` by its price and `totalDuration` by its duration |
| Cart.AddKeepsWellFormed | hooks/use-cart.ts:48-60 | `addToCart` keeps one line per service, each with at least one unit, and the service is in the cart afterwards |
| Cart.Without | hooks/use-cart.ts:62-64 | the filter of `removeFromCart` never makes the list longer |
| Cart.WithoutMembers | hooks/use-cart.ts:62-64 | the lines `removeFromCart` keeps are exactly the lines of other services |
| Cart.WithoutAppend | hooks/use-cart.ts:62-64 | the filter of `removeFromCart` splits over two lists joined together, which keeps the order of the lines |
| Cart.WithoutUnknown | hooks/use-cart.ts:62-64 | removing a service that is not in the cart changes nothing |
| Cart.RemoveAt | hooks/use-cart.ts:62-64 | on a well-formed cart, removing a service drops exactly its line and keeps the other lines in order |
| Cart.RemoveOnlyAt | hooks/use-cart.ts:62-64 | when only one line has the service, removing it drops exactly that line |
| Cart.RemoveTotals | hooks/use-cart.ts:40-46 | removing a service lowers `total` and `totalDuration` by its line |
| Cart.WithoutKeepsWellFormed | hooks/use-cart.ts:62-64 | removing a service keeps the cart well formed |
| Cart.RemoveKeepsWellFormed | hooks/use-cart.ts:62-64 | `removeFromCart` keeps the cart well formed, and no line of the service is left |
| Cart.WithQuantitySet | hooks/use-cart.ts:72-77 | the `map` of `updateQuantity` sets the quantity of every line of the service, and leaves every other line as it was |
| Cart.WithQuantity | hooks/use-cart.ts:66-78 | a quantity of zero or less removes the service, as `removeFromCart` does; a positive one is set on its lines |
| Cart.UpdateQuantityKeepsWellFormed | hooks/use-cart.ts:66-78 | `updateQuantity` keeps the cart well formed for every quantity, including zero and negative ones |
| Cart.UpdateQuantityAt | hooks/use-cart.ts:66-78 | on a well-formed cart, a positive quantity changes only the quantity of the service's line |
| Cart.UpdateQuantityTotals | hooks/use-cart.ts:40-46 | a positive quantity changes each sum by the difference between the line with its new quantity and the line as it was |
| Cart.UpdateQuantityUnknown | hooks/use-cart.ts:66-78 | setting the quantity of a service that is not in the cart changes nothing |
| Cart.OneMoreUnit | hooks/use-cart.ts:40-46 | one more unit on a line adds one unit's price and duration to that line |
| Cart.QuantityChange | hooks/use-cart.ts:40-46 | a new quantity on a line changes it by the price (and the duration) times the change in quantity |
| Cart.OrDefault | hooks/use-cart.ts:113-114 | `s \|\| fallback`: a missing or empty text gives the fallback, any other text gives itself |
| Cart.ReceiptNumberDigits | hooks/use-cart.ts:104 | the receipt number is `GYS-` and at most six digits, exactly six from timestamp 100000 on, and those digits read as the timestamp modulo 1000000 |
| Cart.SixDigitsFromHundredThousand | hooks/use-cart.ts:104 | a timestamp of at least 100000 prints with at least six digits |
| Cart.LastSixValue | hooks/use-cart.ts:104 | the last six digits of the timestamp read as the timestamp modulo 1000000 |
| Cart.NewPayment | hooks/use-cart.ts:103-115 | the payment snapshots the customer and lines, its total is the cart's total, its id is the timestamp, and a missing or empty employee becomes `unknown` / `Ismeretlen` |
| Cart.Count | hooks/use-cart.ts:151-160 | the number of payments in a window is at most the number of payments |
| Cart.WindowAppend | hooks/use-cart.ts:129-173 | recording one more payment changes each window's revenue and count by that payment alone, and only when it falls in the window |
| Cart.RevenueBounded | hooks/use-cart.ts:129-173 | with non-negative totals, any window's revenue lies between zero and the revenue of all payments |
| Cart.WindowMonotone | hooks/use-cart.ts:129-173 | a wider window never has less revenue (for non-negative totals), nor fewer payments |
| Cart.CartStore.constructor | hooks/use-cart.ts:35-37 | the cart starts empty, with an empty customer and no payments |
| Cart.CartStore.LoadPayments | hooks/use-cart.ts:85-101 | the payments found in storage replace the list, and nothing else changes |
| Cart.CartStore.AddToCart | hooks/use-cart.ts:48-60 | the lines become `WithAdded` of the old lines; the customer and the payments are kept, and the cart stays well formed |
| Cart.CartStore.RemoveFromCart | hooks/use-cart.ts:62-64 | the lines become `Without` of the old lines; the customer and the payments are kept, and the cart stays well formed |
| Cart.CartStore.UpdateQuantity | hooks/use-cart.ts:66-78 | the lines become `WithQuantity` of the old lines; the customer and the payments are kept, and the cart stays well formed |
| Cart.CartStore.ClearCart | hooks/use-cart.ts:80-83 | no lines and an empty customer remain; the payments are kept |
| Cart.CartStore.SetCustomer | hooks/use-cart.ts:36 | the customer is replaced, and the lines and the payments are kept |
| Cart.CartStore.ProcessPayment | hooks/use-cart.ts:103-127 | the returned payment snapshots the cart as it was; the payments grow by exactly that record at their end; then the cart is cleared |
| CartScreen.CheckoutErrorMeaning | app/cart.tsx:39-50 | checkout goes ahead exactly when the cart has a line and the customer's name is not blank; an empty cart is reported first, whatever the name |
| CartScreen.SpacesAreNoName | app/cart.tsx:47-50 | a customer name made only of white space is refused like an empty one |
| CartScreen.MinusAtOneRemoves | app/cart.tsx:124 | the minus button on a line with one unit removes that line, keeps the others in order, and lowers the total by one unit's price |
| CartScreen.MinusTakesOneUnit | app/cart.tsx:124 | above one unit, the minus button takes one unit off that line only, and one unit's price off the total |
| CartScreen.PlusAddsOneUnit | app/cart.tsx:131 | the plus button adds one unit to that line only, and one unit's price to the total |
| CartScreen.FormatDurationSplits | app/cart.tsx:30-37 | from an hour on, the label shows whole hours and the minutes left over (`{h}ó {m}p`); below an hour, and not negative, it shows the minutes (`{d} perc`) |
| CartScreen.FormattersAgree | app/cart.tsx:30-37 | the cart's duration label and the service screen's label (service-management.tsx:336-343) agree on every duration above -60 minutes |
| CartScreen.CartScreen.constructor | app/cart.tsx:21-22 | the screen starts with cash as the payment method and no error line |
| CartScreen.CartScreen.SelectPaymentMethod | app/cart.tsx:151-169 | the chosen payment method is recorded |
| CartScreen.CartScreen.HandlePayment | app/cart.tsx:39-64 | the error line shows the first failed check, or is empty; without an error, the payment of the old cart (with the signed-in user as employee) is appended and the cart is cleared; with an error, the cart and the payments are untouched |
| CartScreen.CartScreen.PressMinus | app/cart.tsx:124 | the lines become `updateQuantity(id, quantity - 1)` of the old lines; the customer and the payments are kept |
| CartScreen.CartScreen.PressPlus | app/cart.tsx:131 | the lines become `updateQuantity(id, quantity + 1)` of the old lines; the customer and the payments are kept |
| CartScreen.CartScreen.PressRemove | app/cart.tsx:137 | the lines become `removeFromCart(id)` of the old lines; the customer and the payments are kept |
| CartScreen.CartScreen.EditCustomerName | app/cart.tsx:91 | the customer's name is replaced, and the other fields, the lines and the payments are kept |
| CartScreen.CartScreen.EditCustomerPhone | app/cart.tsx:98 | the customer's phone is replaced, and the other fields, the lines and the payments are kept |
| CartScreen.CartScreen.EditCustomerEmail | app/cart.tsx:106 | the customer's email is replaced, and the other fields, the lines and the payments are kept |
| Inventory.Updated | hooks/use-inventory.ts:52-57 | `updateItem`'s `map`: every item holding the id is merged with the patch, every other item is kept, and the length never changes |
| Inventory.Deleted | hooks/use-inventory.ts:59-62 | `deleteItem`'s filter keeps exactly the items holding other ids |
| Inventory.DeletedAppend | hooks/use-inventory.ts:59-62 | deleting splits over two lists joined together, so the items left keep their relative order |
| Inventory.DeletedUniqueAt | hooks/use-inventory.ts:59-62 | with unique ids, deleting an id removes exactly its one position |
| Inventory.NotPresentUnchanged | hooks/use-inventory.ts:59-62 | deleting an id no item holds changes nothing |
| Inventory.FindById | hooks/use-inventory.ts:65 | `find` by id gives an item of the list holding that id, or nothing exactly when no item holds it |
| Inventory.FindByIdFirst | hooks/use-inventory.ts:65 | the item found is the one at the first position holding the id |
| Inventory.FindUniqueAt | hooks/use-inventory.ts:65 | with unique ids, the item found is the one at the id's only position |
| Inventory.UpdatedUniqueAt | hooks/use-inventory.ts:52-57 | with unique ids, updating an id present rewrites exactly its position with the merged item |
| Inventory.KeepIdKeepsUnique | hooks/use-inventory.ts:52-57 | a patch that leaves the id alone keeps the ids unique |
| Inventory.LowStock | hooks/use-inventory.ts:85-87 | the low-stock list is exactly the items whose quantity is at most their minimum |
| Inventory.LowStockAppend | hooks/use-inventory.ts:85-87 | the low-stock filter splits over concatenation, so it keeps the items' order and repeats |
| Inventory.ByCategory | hooks/use-inventory.ts:89-91 | the category list is exactly the items of that category |
| Inventory.ByCategoryAppend | hooks/use-inventory.ts:89-91 | the category filter splits over concatenation, so it keeps the items' order and repeats |
| Inventory.TotalValueAppend | hooks/use-inventory.ts:93-95 | the total stock value splits over two lists joined together |
| Inventory.TotalValueReplaceAt | hooks/use-inventory.ts:93-95 | replacing one item changes the total value by the difference between the new item's value and the old one's |
| Inventory.ValueShift | hooks/use-inventory.ts:93-95 | raising a quantity by `n` raises the item's value by its price times `n` |
| Inventory.FindByBarcode | hooks/use-inventory.ts:97-99 | `find` by barcode gives an item of the list carrying that barcode, or nothing exactly when no item carries it; an item without a barcode never matches |
| Inventory.FindByBarcodeFirst | hooks/use-inventory.ts:97-99 | the item found is the one at the first position carrying the barcode |
| Inventory.Search | hooks/use-inventory.ts:118-125 | the search keeps exactly the items whose name or supplier includes the query ignoring case, or whose barcode includes it as typed |
| Inventory.SearchAppend | hooks/use-inventory.ts:118-125 | the search splits over concatenation, so it keeps the items' order and repeats |
| Inventory.SearchEmptyKeepsAll | hooks/use-inventory.ts:118-125 | an empty query keeps every item |
| Inventory.QuantityPatchKeepsNonNegative | hooks/use-inventory.ts:52-57 | setting quantities to a non-negative value keeps every quantity non-negative |
| Inventory.RestockedAt | hooks/use-inventory.ts:64-72 | with unique ids, `restockItem(id, n)` changes only the item holding the id: its quantity grows by `n` and it is stamped with the time |
| Inventory.RestockedIsUpdate | hooks/use-inventory.ts:64-72 | a restock of a present id is `updateItem` with the new quantity and the time stamp |
| Inventory.RestockKeepsUnique | hooks/use-inventory.ts:64-72 | restocking never touches ids, so unique ids stay unique |
| Inventory.MergeRestock | hooks/use-inventory.ts:66-69 | the restock patch sets the quantity and the restock time, and keeps every other field |
| Inventory.MergeUse | hooks/use-inventory.ts:77-79 | the use patch sets the quantity, and keeps every other field |
| Inventory.RestockedValue | hooks/use-inventory.ts:64-72 | a restock of `n` raises the total stock value by the item's price times `n` |
| Inventory.UsedAt | hooks/use-inventory.ts:74-83 | with unique ids, `useItem(id, n)` succeeds exactly when the item has at least `n` in stock, and then only that item changes, by `n` less stock |
| Inventory.UsedEffectAt | hooks/use-inventory.ts:74-83 | a successful use lowers only the item's quantity, by `n` |
| Inventory.UsedIsUpdate | hooks/use-inventory.ts:74-83 | a successful use is `updateItem` with the lowered quantity |
| Inventory.UsedValue | hooks/use-inventory.ts:74-83 | a successful use of `n` lowers the total stock value by the item's price times `n` |
| Inventory.UnknownIdUnchanged | hooks/use-inventory.ts:64-83 | for an id no item holds, a restock changes nothing, and a use fails and changes nothing |
| Inventory.UseKeepsNonNegative | hooks/use-inventory.ts:74-83 | stock never goes negative through `useItem`, whatever the amount |
| Inventory.RestockKeepsNonNegative | hooks/use-inventory.ts:64-72 | a restock by a non-negative amount keeps stock non-negative |
| Inventory.InventoryStore.constructor | hooks/use-inventory.ts:9 | the store starts with no items |
| Inventory.InventoryStore.LoadInventory | hooks/use-inventory.ts:16-31 | stored items replace the list when there are any |
| Inventory.InventoryStore.AddItem | hooks/use-inventory.ts:42-50 | exactly one item is appended: the draft with the new id, which is returned |
| Inventory.InventoryStore.UpdateItem | hooks/use-inventory.ts:52-57 | the items become `Updated` of the old items |
| Inventory.InventoryStore.DeleteItem | hooks/use-inventory.ts:59-62 | the items become `Deleted` of the old items |
| Inventory.InventoryStore.RestockItem | hooks/use-inventory.ts:64-72 | the items become `Restocked` of the old items; an unknown id changes nothing |
| Inventory.InventoryStore.UseItem | hooks/use-inventory.ts:74-83 | the result is true exactly when the item exists and has enough stock, and only then does the stock fall |
| Inventory.InventoryStore.RestockByBarcode | hooks/use-inventory.ts:101-108 | returns the item found by the barcode, as it was before the restock, and restocks its id; an unknown barcode returns nothing and changes nothing |
| Inventory.InventoryStore.UseItemByBarcode | hooks/use-inventory.ts:110-116 | an unknown barcode gives false and no change; otherwise `useItem` on the found id |
| Clients.NewClient | hooks/use-clients.ts:44-55 | the new record keeps the draft's fields, takes its id and creation time from the clock, and starts with no spending and no visits |
| Clients.Updated | hooks/use-clients.ts:57-62 | `updateClient`'s `map`: every client holding the id is merged with the patch, every other client is kept, and the length never changes |
| Clients.UpdatedUniqueAt | hooks/use-clients.ts:57-62 | with unique ids, updating an id present rewrites exactly its position with the merged client |
| Clients.Deleted | hooks/use-clients.ts:64-67 | `deleteClient`'s filter keeps exactly the clients holding other ids |
| Clients.DeleteUnknown | hooks/use-clients.ts:64-67 | deleting an id no client holds changes nothing |
| Clients.Find | hooks/use-clients.ts:69-71 | `getClient` gives a client of the register holding the id, or nothing exactly when no client holds it |
| Clients.FindFirst | hooks/use-clients.ts:69-71 | `getClient` gives the client at the first position holding the id |
| Clients.FindUniqueAt | hooks/use-clients.ts:69-71 | with unique ids, `getClient` gives the client at the id's only position |
| Clients.Search | hooks/use-clients.ts:73-80 | the search keeps exactly the clients whose name or email includes the query ignoring case, or whose phone includes it as typed |
| Clients.SearchAppend | hooks/use-clients.ts:73-80 | the search splits over concatenation, so it keeps the clients' order and repeats |
| Clients.SearchByPhoneFinds | hooks/use-clients.ts:73-80 | searching for a client's phone number finds that client |
| Clients.TotalRevenueAppend | hooks/use-clients.ts:117 | the sum of spending splits over two lists joined together |
| Clients.TotalRevenueReplaceAt | hooks/use-clients.ts:117 | replacing one client changes the sum of spending by the difference in that client's spending alone |
| Clients.AddClientStats | hooks/use-clients.ts:44-55 | a new client adds nothing to the sum of spending |
| Clients.VisitAt | hooks/use-clients.ts:82-91 | with unique ids, a visit changes only the visiting client: one more visit, `amount` more spent, and the last visit stamped with the time |
| Clients.VisitRevenue | hooks/use-clients.ts:82-91 | a visit of `amount` raises the sum of spending by exactly `amount` |
| Clients.VisitUnknown | hooks/use-clients.ts:82-91 | a visit by an id no client holds changes nothing |
| Clients.TopClientsSize | hooks/use-clients.ts:93-97 | the top list has `min(limit, n)` entries, all drawn from the register |
| Clients.TopClientsOrdered | hooks/use-clients.ts:93-97 | the top list is in non-increasing order of spending |
| Clients.TopClientsKeepLargest | hooks/use-clients.ts:93-97 | no client left out of the top list spent more than any client on it |
| Clients.CreatedSince | hooks/use-clients.ts:122-124 | the number of clients created since the start of the month is at most the number of clients |
| Clients.Stats | hooks/use-clients.ts:112-132 | the statistics count the clients and sum their spending; the average times the count is the sum, or the average is 0 with no clients; the new clients of the month are at most all clients |
| Clients.ClientStore.constructor | hooks/use-clients.ts:9 | the register starts empty |
| Clients.ClientStore.LoadClients | hooks/use-clients.ts:16-33 | a stored list replaces the register |
| Clients.ClientStore.AddClient | hooks/use-clients.ts:44-55 | exactly the new record is appended, and it is returned |
| Clients.ClientStore.UpdateClient | hooks/use-clients.ts:57-62 | the register becomes `Updated` of the old register |
| Clients.ClientStore.DeleteClient | hooks/use-clients.ts:64-67 | the register becomes `Deleted` of the old register |
| Clients.ClientStore.UpdateClientVisit | hooks/use-clients.ts:82-91 | the register becomes `AfterVisit` of the old register; an unknown id changes nothing |
| Auth.FindIndex | hooks/use-auth.ts:230 | `findIndex` gives the first position holding the id, or -1 exactly when no user holds it |
| Auth.MergeOneKeepsPositions | hooks/use-auth.ts:229-236 | one round of the merge loop keeps the id at every earlier position, and only grows the list |
| Auth.MergeOneKeepsOthers | hooks/use-auth.ts:229-236 | after one round the merged user is on the list, and so is every user with another id |
| Auth.MergeOneIds | hooks/use-auth.ts:229-236 | one round adds exactly the merged user's id to the set of ids |
| Auth.MergeOneUnique | hooks/use-auth.ts:229-236 | one round never creates two users with the same id |
| Auth.MergeAllIds | hooks/use-auth.ts:228-237 | the ids after the merge are those of the built-in list and those of the stored list |
| Auth.MergeAllKeepsPositions | hooks/use-auth.ts:228-237 | the merge keeps the ids of the starting list at their positions; it only overwrites or appends |
| Auth.MergeAllUnique | hooks/use-auth.ts:228-237 | the merge keeps ids unique when the starting list has unique ids |
| Auth.MergeAllStoredWins | hooks/use-auth.ts:228-237 | a stored user whose id does not come again later in the stored list ends up on the merged list exactly as stored |
| Auth.MergeAllKeepsUser | hooks/use-auth.ts:228-237 | a user on the list stays there through merges of other ids |
| Auth.DefaultUsersUnique | hooks/use-auth.ts:10-33 | the three built-in accounts have distinct ids |
| Auth.LoadedUsersKeepDefaults | hooks/use-auth.ts:222-248 | whatever is stored, the loaded list starts with `admin-1`, `emp-1` and `emp-2` at their positions, holds exactly their ids and the stored ones, and has no id twice |
| Auth.FindLogin | hooks/use-auth.ts:274-277 | the account `login` finds has matching credentials, and none is found exactly when no account matches |
| Auth.FindLoginFirst | hooks/use-auth.ts:274-277 | `login` picks the first account that matches |
| Auth.LowerCharSpace | hooks/use-auth.ts:271 | lower-casing never turns a character into white space, nor white space into anything else |
| Auth.LowerKeepsTrimmed | hooks/use-auth.ts:271 | lower-casing keeps a trimmed text trimmed |
| Auth.NormalEmailIdempotent | hooks/use-auth.ts:271 | normalising an already normalised email changes nothing, so typing it back in reaches the same account |
| Auth.RestoreOnlyKnownUsers | hooks/use-auth.ts:197-220 | from the signed-out start, a restored session's user is always on the list; a stored session whose user is gone is refused and removed from storage |
| Auth.AddUserKeepsEmailsUnique | hooks/use-auth.ts:318-332 | `addUser`'s email check keeps emails unique, under the exact comparison that check uses |
| Auth.UpdatedUsers | hooks/use-auth.ts:339-341 | `updateUser`'s `map`: every user holding the id is merged with the patch, every other user is kept, and the length never changes |
| Auth.FindUser | hooks/use-auth.ts:346 | `find` by id gives a user of the list holding the id, or nothing exactly when no user holds it |
| Auth.FindUserFirst | hooks/use-auth.ts:346 | `find` by id gives the first user holding the id |
| Auth.UpdateOwnAccount | hooks/use-auth.ts:345-352 | when the signed-in account is the one edited and its id is kept, the session then holds the merged record; any other edit leaves the session as it was |
| Auth.WithoutUser | hooks/use-auth.ts:363 | `deleteUser`'s filter never makes the list longer |
| Auth.WithoutUserMembers | hooks/use-auth.ts:363 | the users that `deleteUser`'s filter keeps are exactly those with another id |
| Auth.DeleteKeepsCaller | hooks/use-auth.ts:357-374 | a permitted delete removes every account with the id and never the signed-in admin's own account, so the admin's session still finds its user |
| Auth.AuthStore.constructor | hooks/use-auth.ts:190-195 | the hook starts signed out, loading, with the built-in accounts |
| Auth.AuthStore.LoadUsers | hooks/use-auth.ts:222-248 | the stored list is merged over a copy of the built-in accounts one user at a time, and the result is saved; the loop's result is the recursive `MergeAll` |
| Auth.AuthStore.LoadAuthState | hooks/use-auth.ts:197-220 | the stored session is restored only while its user is on the list, and is removed from storage otherwise; loading ends |
| Auth.Mount | hooks/use-auth.ts:197-262 | start-up with a stored session of an account that is not built in: the first session check runs against the built-in list, refuses the session and removes it, so after the stored list is loaded and the check re-runs no one is signed in and no session is stored, even when the loaded list holds that account (an observation about the source, not executed) |
| Auth.AuthStore.Login | hooks/use-auth.ts:266-300 | succeeds exactly when an account matches the normalised email and the trimmed password; then that account is signed in and the session saved; a failure changes nothing |
| Auth.AuthStore.Logout | hooks/use-auth.ts:302-316 | back to the signed-out state, and the stored session is removed |
| Auth.AuthStore.AddUser | hooks/use-auth.ts:318-332 | succeeds exactly for an admin caller and an email not yet in use; then the user is appended and the list saved; a refusal changes nothing |
| Auth.AuthStore.UpdateUser | hooks/use-auth.ts:334-355 | succeeds exactly for an admin caller; then the users become `UpdatedUsers` and the session is refreshed when it holds the edited account |
| Auth.AuthStore.DeleteUser | hooks/use-auth.ts:357-374 | succeeds exactly for an admin caller who does not target their own account; then every user with the id is removed |
| InventoryScreen.Filtered | app/inventory.tsx:96-107 | the list shows exactly the items of the selected category that match the search (every item of it with an empty search), and with no category and no search the whole stock |
| InventoryScreen.FilteredAppend | app/inventory.tsx:96-107 | the screen's filter splits over concatenation, so the rows keep the store's order |
| InventoryScreen.LowStockFlagAgrees | app/inventory.tsx:392 | the rows drawn in the warning colour are exactly the items `getLowStockItems` reports (use-inventory.ts:85-87) |
| InventoryScreen.SavedBarcode | app/inventory.tsx:165 | a barcode that trims to nothing is stored as absent; any other is stored trimmed |
| InventoryScreen.SavedSupplier | app/inventory.tsx:164 | an empty supplier is stored as absent |
| InventoryScreen.NewItemBarcodeClash | app/inventory.tsx:149-155 | a new item cannot take a barcode some item already has |
| InventoryScreen.SameBarcodeSameIndex | app/inventory.tsx:149-155 | when barcodes are unique, two positions with the same barcode are one position |
| InventoryScreen.NoOtherHasCode | app/inventory.tsx:149-155 | when the first item with a barcode belongs to the edited id, no item with another id has that barcode |
| InventoryScreen.OwnBarcodeAllowed | app/inventory.tsx:149-155 | re-saving an item with its own barcode passes the barcode check |
| InventoryScreen.SavedChecks | app/inventory.tsx:142-155 | a successful save has passed the required-field check and the barcode check |
| InventoryScreen.SavedNumbersParse | app/inventory.tsx:158-166 | corrected save (see the first two Findings rows): a save stores exactly the values `parseInt` reads from the three number fields, and goes through only when all three parse; the source also saves a field that reads as NaN |
| InventoryScreen.AppendKeepsBarcodesUnique | app/inventory.tsx:149-172 | appending an item whose barcode no item has keeps barcodes unique |
| InventoryScreen.SaveKeepsBarcodesUnique | app/inventory.tsx:142-175 | no save, new or edit, ever lets two items share a barcode |
| InventoryScreen.UpdateKeepsBarcodesUnique | app/inventory.tsx:149-170 | an edit that passed the barcode check keeps barcodes unique |
| InventoryScreen.SaveAcceptsNaN | app/inventory.tsx:143-161 | as written, a form whose quantity is a word passes every check, and `parseInt` gives NaN for it |
| InventoryScreen.SaveRefusesNaN | app/inventory.tsx:143-161 | the corrected save refuses that form and leaves the stock as it was |
| InventoryScreen.FormNumbersParse | app/inventory.tsx:127-140 | the numbers the edit form prints parse back to the item's numbers |
| InventoryScreen.FormTextsSurvive | app/inventory.tsx:127-140 | the edit form of an item whose texts survive the form passes the required-field check and writes back the item's own supplier and barcode |
| InventoryScreen.FormPatchIdentity | app/inventory.tsx:127-170 | writing such an item's edit form back over it changes nothing |
| InventoryScreen.ResaveDecision | app/inventory.tsx:142-166 | a form that passes every check is saved with its parsed numbers |
| InventoryScreen.ResaveUnchanged | app/inventory.tsx:142-175 | a save that writes the edited item back unchanged leaves the stock as it was |
| InventoryScreen.EditResaveUnchanged | app/inventory.tsx:127-175 | opening an item and saving the form untouched is accepted and leaves the stock as it was, when the item's texts survive the form |
| InventoryScreen.NaNQuantityAccepted | app/inventory.tsx:199 | as written, the text `abc` passes the quantity check, and `parseInt` gives NaN for it |
| InventoryScreen.ValidQuantityMeaning | app/inventory.tsx:199-205 | the corrected check accepts a positive number, which is what `parseInt` reads, and refuses exactly the texts that give NaN or at most zero |
| InventoryScreen.QuantityChecksAgreeOnNumbers | app/inventory.tsx:199 | the check as written and the corrected one agree on every text that parses; they differ only where `parseInt` gives NaN |
| InventoryScreen.ValidQuantityOfPrinted | app/inventory.tsx:199 | a printed positive number is accepted with its value, and a printed number that is not positive is refused |
| InventoryScreen.SubmitSteps | app/inventory.tsx:216-253 | once both input checks pass, the dialog's outcome and effect are the store's `restockByBarcode` / `useItemByBarcode` on the trimmed barcode |
| InventoryScreen.SubmitRestockAt | app/inventory.tsx:216-253 | a restock by barcode reports the first item with that barcode and raises exactly its quantity by the amount |
| InventoryScreen.SubmitUseAt | app/inventory.tsx:216-253 | a use by barcode succeeds exactly when the first item with that barcode holds enough, and then lowers exactly its quantity; otherwise it reports too little stock |
| InventoryScreen.SubmitUnknownBarcode | app/inventory.tsx:216-253 | a barcode no item carries is reported as not found, whatever the action, and nothing changes |
| InventoryScreen.BarcodeAbsent | app/inventory.tsx:236 | when no item carries the barcode, the lookup finds nothing |
| InventoryScreen.QuickUseAt | app/inventory.tsx:255-259 | the quick-use button lowers exactly the pressed item's quantity by one, or does nothing at zero |
| InventoryScreen.QuickUseKeepsNonNegative | app/inventory.tsx:255-259 | the quick-use button never drives stock below zero |
| InventoryScreen.CameraRoute | app/inventory.tsx:261-270 | corrected check (first Findings row): the scanner is opened exactly for a quantity that parses positive, with the dialog's action; the source also opens it for a quantity that reads as NaN |
| InventoryScreen.InventoryScreen.constructor | app/inventory.tsx:69-94 | every dialog starts closed, with an empty form, no search, all categories, and restock as the action |
| InventoryScreen.InventoryScreen.SetSearchQuery | app/inventory.tsx:325 | the search text is recorded |
| InventoryScreen.InventoryScreen.SelectCategory | app/inventory.tsx:357-371 | the chosen category chip is recorded |
| InventoryScreen.InventoryScreen.EditName | app/inventory.tsx:510 | the form's name is replaced and the other fields are kept |
| InventoryScreen.InventoryScreen.EditCategory | app/inventory.tsx:527 | the form's category is replaced and the other fields are kept |
| InventoryScreen.InventoryScreen.EditQuantity | app/inventory.tsx:546 | the form's quantity text is replaced and the other fields are kept |
| InventoryScreen.InventoryScreen.EditUnit | app/inventory.tsx:557 | the form's unit is replaced and the other fields are kept |
| InventoryScreen.InventoryScreen.EditMinQuantity | app/inventory.tsx:570 | the form's minimum text is replaced and the other fields are kept |
| InventoryScreen.InventoryScreen.EditPrice | app/inventory.tsx:581 | the form's price text is replaced and the other fields are kept |
| InventoryScreen.InventoryScreen.EditSupplier | app/inventory.tsx:594 | the form's supplier is replaced and the other fields are kept |
| InventoryScreen.InventoryScreen.EditBarcode | app/inventory.tsx:605 | the form's barcode is replaced and the other fields are kept |
| InventoryScreen.InventoryScreen.CloseModal | app/inventory.tsx:488-499 | the item form closes |
| InventoryScreen.InventoryScreen.CloseRestockModal | app/inventory.tsx:635-661 | the restock dialog closes |
| InventoryScreen.InventoryScreen.CloseBarcodeModal | app/inventory.tsx:681-722 | the barcode dialog closes |
| InventoryScreen.InventoryScreen.CloseCameraModal | app/inventory.tsx:748-776 | the camera dialog closes |
| InventoryScreen.InventoryScreen.HandleAddItem | app/inventory.tsx:112-125 | an empty form for a new item is opened |
| InventoryScreen.InventoryScreen.HandleEditItem | app/inventory.tsx:127-140 | the form is filled from the item and opened for editing it |
| InventoryScreen.InventoryScreen.HandleSaveItem | app/inventory.tsx:142-175 | corrected save (second Findings row): the outcome is `SaveDecision`, which also refuses a number field that reads as NaN, the stock becomes `AfterSave`, and the form closes only on a save |
| InventoryScreen.InventoryScreen.HandleDeleteItem | app/inventory.tsx:177-190 | once confirmed, `deleteItem` removes the item and no item with its id is left; otherwise nothing changes |
| InventoryScreen.InventoryScreen.HandleRestockItem | app/inventory.tsx:192-196 | the restock dialog opens for the item with an empty quantity |
| InventoryScreen.InventoryScreen.SetRestockQuantity | app/inventory.tsx:651 | the restock quantity text is recorded |
| InventoryScreen.InventoryScreen.HandleConfirmRestock | app/inventory.tsx:198-208 | corrected check (first Findings row): with a quantity that parses positive and an item chosen, that item is restocked by the quantity and the dialog closes; otherwise nothing changes |
| InventoryScreen.InventoryScreen.OpenBarcodeDialog | app/inventory.tsx:210-214 | the barcode dialog opens empty, with restock as its action |
| InventoryScreen.InventoryScreen.SetBarcodeInput | app/inventory.tsx:700 | the barcode text is recorded |
| InventoryScreen.InventoryScreen.SetBarcodeQuantity | app/inventory.tsx:712 | the barcode dialog's quantity text is recorded |
| InventoryScreen.InventoryScreen.HandleBarcodeSubmit | app/inventory.tsx:216-253 | corrected check (first Findings row): the outcome is `SubmitOutcome`, which refuses a quantity that reads as NaN, the stock becomes `SubmitEffect`, and the dialog closes only on success |
| InventoryScreen.InventoryScreen.HandleUseItem | app/inventory.tsx:255-259 | the stock becomes `AfterQuickUse` of the old stock |
| InventoryScreen.InventoryScreen.OpenCameraDialog | app/inventory.tsx:343-347 | the camera dialog opens with the button's action and the quantity `1` |
| InventoryScreen.InventoryScreen.SetCameraQuantity | app/inventory.tsx:763 | the camera dialog's quantity text is recorded |
| InventoryScreen.InventoryScreen.HandleCameraSubmit | app/inventory.tsx:261-270 | corrected check (first Findings row): the route is `CameraRoute` of the dialog's action and quantity, and the dialog closes only when the route is opened |
| BarcodeScanner.RejectedCodeUnchanged | app/barcode-scanner.tsx:41-45 | a code that is blank or longer than 100 UTF-16 code units (`data.length`) is reported as invalid, and nothing is looked up or changed |
| BarcodeScanner.ScanIgnoresSurroundingSpace | app/barcode-scanner.tsx:41-50 | a code of at most 100 UTF-16 code units is read as its trimmed text |
| BarcodeScanner.ScanEffectIgnoresSurroundingSpace | app/barcode-scanner.tsx:41-50 | such a code changes the stock exactly as its trimmed text does |
| BarcodeScanner.DefaultQuantityIsOne | app/barcode-scanner.tsx:72 | a missing or empty quantity parameter means one unit |
| BarcodeScanner.PrintedQuantityParses | app/barcode-scanner.tsx:72 | a quantity parameter printed from a number reads back as that number |
| BarcodeScanner.CameraRouteReadsBack | app/barcode-scanner.tsx:23-72 | for the corrected `CameraRoute` (first Findings row), what the inventory screen's camera dialog passes (inventory.tsx:261-270) is read back here as the same action and the same positive quantity |
| BarcodeScanner.ScanUnknownBarcode | app/barcode-scanner.tsx:50-69 | a code no item carries is reported as not found, and nothing changes |
| BarcodeScanner.ScanRestockAt | app/barcode-scanner.tsx:72-78 | a restock of the first item with the code by a number `n` reports that item, and raises exactly its quantity by `n` with the time stamp |
| BarcodeScanner.ScanUseAt | app/barcode-scanner.tsx:72-119 | any other action uses the first item with the code: it succeeds exactly when that item holds enough, and then lowers exactly its quantity; a failure reads "not enough stock" only when the action is `use` |
| BarcodeScanner.ScanUseOfNaNFails | app/barcode-scanner.tsx:72-80 | a use whose quantity does not parse fails without touching the stock, in the source as in the model |
| BarcodeScanner.ScanSuccessAgrees | app/barcode-scanner.tsx:72-81 | the model reports success exactly when the source's `success` flag is set, except for a restock by NaN |
| BarcodeScanner.ScanSteps | app/barcode-scanner.tsx:41-119 | corrected scan (third Findings row): a restock by NaN is refused with no change, where the source reports success; otherwise, for a code that passes the check and is found, the outcome and the effect are those of `restockByBarcode` / `useItemByBarcode` on the trimmed code |
| BarcodeScanner.WordQuantityIsNaN | app/barcode-scanner.tsx:72 | the quantity parameter `abc` parses to NaN |
| BarcodeScanner.RestockByNaNAsWritten | app/barcode-scanner.tsx:72-78 | as written, a restock whose quantity parameter is `abc` counts as a success for a known code; the model reports an error and leaves the stock alone |
| BarcodeScanner.ScanRestockOfNaNRefused | app/barcode-scanner.tsx:72-80 | a restock whose quantity does not parse is never reported as a success and leaves the stock unchanged |
| BarcodeScanner.ScannerScreen.constructor | app/barcode-scanner.tsx:23-31 | the screen opens unlatched, with no typed text, in manual mode on the web and in camera mode elsewhere |
| BarcodeScanner.ScannerScreen.ProcessBarcode | app/barcode-scanner.tsx:41-119 | corrected scan (third Findings row): the outcome is `ScanDecision`, which refuses a restock by NaN, and the stock becomes `ScanEffect` of the old stock |
| BarcodeScanner.ScannerScreen.HandleBarcodeScanned | app/barcode-scanner.tsx:121-125 | only the first scan is processed: the latch is set, and a latched screen ignores further scans |
| BarcodeScanner.ScannerScreen.HandleManualSubmit | app/barcode-scanner.tsx:127-133 | blank typed text is refused before any lookup; otherwise its trimmed form is processed |
| BarcodeScanner.ScannerScreen.SetManualInput | app/barcode-scanner.tsx:218 | the typed text is recorded |
| BarcodeScanner.ScannerScreen.ToggleInputMode | app/barcode-scanner.tsx:135-139 | camera and manual mode swap, and the latch and the typed text are cleared |
| BarcodeScanner.ScannerScreen.Retry | app/barcode-scanner.tsx:57-61 | the alert buttons that stay on the screen clear the latch and the typed text |
| ServiceManagement.ViewFor | app/service-management.tsx:95-106 | the catalogue is shown exactly to a signed-in admin; everyone else gets the no-access notice |
| ServiceManagement.FilteredServices | app/service-management.tsx:61-68 | the listed services are exactly the services of the selected category (or any, for `all`) whose name or description contains the query, ignoring case |
| ServiceManagement.FilteredServicesAppend | app/service-management.tsx:61-68 | the listing filter splits over concatenation, so it keeps the catalogue's order |
| ServiceManagement.UnfilteredListsAll | app/service-management.tsx:61-68 | with `all` selected and no query the whole catalogue is listed, in order |
| ServiceManagement.FindCategory | app/service-management.tsx:83 | a found category is in the list and has the id; not found means no category has it |
| ServiceManagement.InCategory | app/service-management.tsx:70-81 | a section never holds more services than the listing |
| ServiceManagement.InCategoryAppend | app/service-management.tsx:70-81 | a section's filter splits over concatenation, so a section keeps the listing's order |
| ServiceManagement.InCategoryMembers | app/service-management.tsx:70-81 | a section holds exactly the listed services of its category |
| ServiceManagement.CategoryKeysDistinct | app/service-management.tsx:72-81 | the map's keys, in first-seen order, never repeat a category id |
| ServiceManagement.CategoryKeysMember | app/service-management.tsx:72-81 | the keys are exactly the category ids of the listed services |
| ServiceManagement.GroupsForMember | app/service-management.tsx:82-91 | the sections are exactly those of the keys whose category exists, titled by icon and name |
| ServiceManagement.ServiceInItsGroup | app/service-management.tsx:70-93 | a listed service whose category exists is in that category's section |
| ServiceManagement.UnknownCategoryHidden | app/service-management.tsx:82-91 | a listed service whose category is not in the category list is in no section |
| ServiceManagement.GroupServices | app/service-management.tsx:70-93 | the two loops of `groupedServices` build exactly `Grouped` of the listing |
| ServiceManagement.CheckServiceMeaning | app/service-management.tsx:108-134 | a form passes exactly when the name is not blank, the price and duration are present positive numbers and the category id is listed; a missing field is reported first |
| ServiceManagement.CheckServiceReads | app/service-management.tsx:114-115 | a passed check carries the numbers read from the price and duration fields |
| ServiceManagement.SavedDescription | app/service-management.tsx:142 | a description that trims to nothing is stored as missing, any other as its trimmed text |
| ServiceManagement.ReplaceService | app/service-management.tsx:191 | every service with the id becomes the updated one, each other keeps its place |
| ServiceManagement.RemoveService | app/service-management.tsx:209 | exactly the services without the id remain |
| ServiceManagement.RemoveUnknownService | app/service-management.tsx:209 | deleting an id no service has changes nothing |
| ServiceManagement.EditedCategory | app/service-management.tsx:264-268 | an edited category keeps its id |
| ServiceManagement.RenameCategory | app/service-management.tsx:270 | the categories with the id become the updated record, the others keep their place |
| ServiceManagement.Recategorize | app/service-management.tsx:272-277 | every service of the renamed category gets the new record, every other service is unchanged |
| ServiceManagement.RemoveCategory | app/service-management.tsx:305 | exactly the categories without the id remain |
| ServiceManagement.CategoryInUseIff | app/service-management.tsx:286-287 | a category is in use exactly when some service carries its id |
| ServiceManagement.AddServiceKeeps | app/service-management.tsx:136-145 | appending a service that passed the checks keeps every service's category listed and every price and duration positive |
| ServiceManagement.UpdateServiceKeeps | app/service-management.tsx:182-191 | replacing a service by one that passed the checks keeps the same two invariants |
| ServiceManagement.AddServiceAppends | app/service-management.tsx:108-150 | add appends exactly one service, with the new id and trimmed name, after the untouched list; a refused form changes nothing |
| ServiceManagement.UpdateServiceOnlyThatId | app/service-management.tsx:152-196 | update rewrites only the services with the edited id, into the edited service; a refused form changes nothing |
| ServiceManagement.AfterAddServiceKeeps | app/service-management.tsx:108-150 | `handleAddService` keeps both catalogue invariants |
| ServiceManagement.AfterUpdateServiceKeeps | app/service-management.tsx:152-196 | `handleUpdateService` keeps both catalogue invariants |
| ServiceManagement.DeleteServiceKeeps | app/service-management.tsx:198-214 | deleting a service keeps both invariants |
| ServiceManagement.AddCategoryKeeps | app/service-management.tsx:233-252 | adding a category keeps every service's category listed |
| ServiceManagement.UpdateCategoryKeeps | app/service-management.tsx:254-283 | the rename cascade keeps every service's category record in the renamed list, and keeps prices and durations |
| ServiceManagement.DeleteCategoryKeeps | app/service-management.tsx:285-311 | deleting an unused category keeps every service's category listed |
| ServiceManagement.RecategorizeOnlyThatCategory | app/service-management.tsx:272-277 | the cascade changes only the category field, and only of the services of that id |
| ServiceManagement.ServiceNumbersParse | app/service-management.tsx:313-322 | the edit form's price and duration, printed from the service, read back as its numbers |
| ServiceManagement.ServiceTextsSurvive | app/service-management.tsx:313-322 | the edit form of a service with a trimmed name and description writes them back unchanged |
| ServiceManagement.EditResaveUnchanged | app/service-management.tsx:152-196 | opening a valid service and saving the form untouched passes every check and gives the service back |
| ServiceManagement.FormatDurationSplits | app/service-management.tsx:336-343 | from an hour on the label shows whole hours and the leftover minutes; below an hour, the minutes |
| ServiceManagement.ServiceManagementScreen.constructor | app/service-management.tsx:37-59 | given a catalogue whose services have listed categories and positive numbers, the screen opens `Valid()` on it, with empty forms, `all` selected and no query |
| Catalogue.Block | constants/services.ts:14-100 | a category's block lists its entries in order, each as a service of that category with the entry's id, name, price, duration and description |
| Catalogue.ValidAppend | app/service-management.tsx:37-38 | both screen invariants hold for a concatenation when they hold for each part |
| Catalogue.BlockValid | constants/services.ts:14-100 | a block of a listed category meets both screen invariants |
| Catalogue.BlocksValid | constants/services.ts:14-100 | eight blocks of the eight listed categories meet both screen invariants together |
| Catalogue.CatalogueValid | constants/services.ts:3-101 | every shipped service's category is one of `serviceCategories`, and every price and duration is positive |
| Catalogue.OpenScreen | app/service-management.tsx:37-38 | the screen opened on the shipped catalogue is valid and holds exactly that catalogue |
| ServiceManagement.ServiceManagementScreen.Sections | app/service-management.tsx:61-93 | the sections shown are `Grouped` of the filtered listing |
| ServiceManagement.ServiceManagementScreen.HandleAddService | app/service-management.tsx:108-150 | the check is `CheckService`, the list becomes `AfterAddService`, the dialog closes and the form resets only on success, and the invariants are kept |
| ServiceManagement.ServiceManagementScreen.HandleUpdateService | app/service-management.tsx:152-196 | nothing without an edited service; otherwise the list becomes `AfterUpdateService` and the edit ends only on success; invariants kept |
| ServiceManagement.ServiceManagementScreen.HandleDeleteService | app/service-management.tsx:198-214 | once confirmed, the services with the id are removed; invariants kept |
| ServiceManagement.ServiceManagementScreen.HandleAddCategory | app/service-management.tsx:233-252 | a filled form appends one category and closes the dialog; otherwise nothing changes |
| ServiceManagement.ServiceManagementScreen.HandleUpdateCategory | app/service-management.tsx:254-283 | nothing without an edited category; a filled form renames it in the list and in every service using it |
| ServiceManagement.ServiceManagementScreen.HandleDeleteCategory | app/service-management.tsx:285-311 | a category in use is never deleted; an unused one is removed once confirmed |
| ServiceManagement.ServiceManagementScreen.OpenEditModal | app/service-management.tsx:313-322 | the edited service is set and the form filled from it |
| ServiceManagement.ServiceManagementScreen.OpenEditCategoryModal | app/service-management.tsx:324-330 | the edited category is set and its form holds its name and icon |
| ServiceManagement.ServiceManagementScreen.SetSearchQuery | app/service-management.tsx:397 | the query is recorded |
| ServiceManagement.ServiceManagementScreen.SelectCategory | app/service-management.tsx:405-415 | the selected filter is recorded |
| ServiceManagement.ServiceManagementScreen.OpenAddModal | app/service-management.tsx:362 | the plus button on the services tab opens the service dialog |
| ServiceManagement.ServiceManagementScreen.OpenCategoryModal | app/service-management.tsx:362 | the plus button on the categories tab opens the category dialog |
| ServiceManagement.ServiceManagementScreen.EditName | app/service-management.tsx:493 | only the name field changes |
| ServiceManagement.ServiceManagementScreen.ChooseFormCategory | app/service-management.tsx:506 | only the chosen category id changes |
| ServiceManagement.ServiceManagementScreen.EditPrice | app/service-management.tsx:527 | only the price field changes |
| ServiceManagement.ServiceManagementScreen.EditDuration | app/service-management.tsx:538 | only the duration field changes |
| ServiceManagement.ServiceManagementScreen.EditDescription | app/service-management.tsx:550 | only the description field changes |
| ServiceManagement.ServiceManagementScreen.EditCategoryName | app/service-management.tsx:605 | only the category name field changes |
| ServiceManagement.ServiceManagementScreen.EditCategoryIcon | app/service-management.tsx:614 | only the icon field changes |
| ServiceManagement.ServiceManagementScreen.CloseServiceModal | app/service-management.tsx:477-481 | the service dialog closes in both modes and its form resets |
| ServiceManagement.ServiceManagementScreen.CloseCategoryModal | app/service-management.tsx:589-593 | the category dialog closes in both modes and its form clears |
| Reports.PeriodReportStep | app/reports.tsx:28-58 | each card's count and revenue cover the same payments: one more payment raises the count by one exactly when it raises the revenue by its total, for the day, the week and the month |
| Reports.PeriodReportBounds | app/reports.tsx:28-58 | a card never counts more than all payments and, for non-negative totals, its revenue lies between 0 and all revenue; when the current day lies within the last week, the week card covers the day card |
| Reports.AverageRounds | app/reports.tsx:152-154 | the average card is 0 without payments, else the integer nearest to revenue per payment, halves rounding up |
| Reports.ServiceIds | app/reports.tsx:60-77 | the key order never has more keys than lines |
| Reports.StatsFor | app/reports.tsx:79 | the map's values, in key order, are the full tallies of the keys |
| Reports.ValuesInOrder | app/reports.tsx:79 | one value per key |
| Reports.ValuesAreStats | app/reports.tsx:79 | a table holding each key's full tally yields exactly `StatsFor` in key order |
| Reports.Tally | app/reports.tsx:60-77 | the two nested loops leave the keys in first-seen order, exactly the sold service ids as keys, and each key's entry its latest name, units sold and revenue |
| Reports.TallyLines | app/reports.tsx:63-76 | the inner loop extends the tally of the lines seen by the lines of one payment |
| Reports.TallyStep | app/reports.tsx:64-75 | one line adds its quantity and price times quantity to its service's entry (a fresh one when absent) |
| Reports.AllLinesStep | app/reports.tsx:63 | the lines of one more payment come after the lines before it |
| Reports.ComputeTopServices | app/reports.tsx:60-82 | the memo computes `TopServices` of the payments |
| Reports.ServiceIdsExact | app/reports.tsx:60-77 | each sold service id is a key exactly once, and nothing else is |
| Reports.TopFiveShape | app/reports.tsx:79-81 | the cut list has min(5, n) entries, in non-increasing order of revenue, drawn from the full list |
| Reports.TopFiveKeepsLargest | app/reports.tsx:79-81 | no entry cut off earned more than any entry kept |
| Reports.TopServicesEntries | app/reports.tsx:60-82 | every shown entry is the full tally of a service some payment sold |
| Reports.NoSalesNoTop | app/reports.tsx:60-82 | without sold lines the list is empty |
| Reports.NoLinesAtAll | app/reports.tsx:63 | payments with empty carts contribute no lines |
| Reports.UnsoldEarnsNothing | app/reports.tsx:60-77 | a service no line sells has earned nothing |
| Reports.RevenueColumnIsEarned | app/reports.tsx:60-79 | the revenue column sums the earnings of its keys |
| Reports.EarnedStep | app/reports.tsx:72 | one more line adds its price times quantity to its own service only |
| Reports.EarnedOverStep | app/reports.tsx:72 | over distinct keys, one more line adds its price times quantity once when its service is a key |
| Reports.RevenueColumnTotal | app/reports.tsx:60-79 | before the cut, the revenue column adds up to price times quantity over all lines |
| Reports.EarnedOverIdsTotal | app/reports.tsx:60-79 | the earnings over the sold ids add up to the total of all lines |
| Reports.AllLinesTotal | app/reports.tsx:63 | when each payment's total is its cart's total, all lines together cost the sum of the payment totals |
| Reports.MethodTotals.Add | app/reports.tsx:87 | one bucket grows by the amount and the other two are unchanged |
| Reports.PaymentMethodStats | app/reports.tsx:84-90 | each payment method's bucket holds the sum of the totals paid with it |
| Reports.MethodsPartitionRevenue | app/reports.tsx:84-90 | the three buckets together hold all revenue |
| Reports.ReportsAgree | app/reports.tsx:60-90 | for payments recorded at checkout, the revenue column before the cut and the three buckets add up to the same overall revenue |
| ClientsScreen.LastVisitLabel | app/clients.tsx:102-105 | a client never seen reads "Még nem járt itt"; otherwise the locale date of the last visit |
| ClientsScreen.FilteredMeaning | app/clients.tsx:47-52 | in top mode at most ten clients from the register in order of spending; with a query exactly the matching clients; with none the whole register |
| ClientsScreen.TopModeIgnoresQuery | app/clients.tsx:47-52 | top mode shows the top ten whatever the search text |
| ClientsScreen.SaveNewClient | app/clients.tsx:71-85 | a new client is appended after the untouched register with the form's fields, no spending and no visits, and a search by its phone finds it |
| ClientsScreen.SaveEditAt | app/clients.tsx:71-85 | saving an edit rewrites only the edited client's four form fields and keeps its id, dates and spending |
| ClientsScreen.SaveEditOfDeleted | app/clients.tsx:71-85 | saving an edit of a client no longer in the register changes nothing |
| ClientsScreen.UnchangedEditKeepsMatches | app/clients.tsx:60-85 | opening a client and saving untouched turns a missing e-mail or note into empty text and changes nothing a search sees |
| ClientsScreen.SaveKeepsNamedClients | app/clients.tsx:71-75 | the form never stores a client whose name or phone is blank |
| ClientsScreen.ClientsScreen.constructor | app/clients.tsx:33-45 | the screen opens on the register with no query, everyone listed, no dialog and an empty form |
| ClientsScreen.ClientsScreen.SetSearchQuery | app/clients.tsx:136 | the query is recorded |
| ClientsScreen.ClientsScreen.SetShowTop | app/clients.tsx:144-152 | the two toggles choose between everyone and the top ten |
| ClientsScreen.ClientsScreen.HandleAddClient | app/clients.tsx:54-58 | the dialog opens on an empty form for a new client |
| ClientsScreen.ClientsScreen.HandleEditClient | app/clients.tsx:60-69 | the dialog opens on the client's fields, missing ones as empty text |
| ClientsScreen.ClientsScreen.EditName | app/clients.tsx:252 | only the name field changes |
| ClientsScreen.ClientsScreen.EditPhone | app/clients.tsx:263 | only the phone field changes |
| ClientsScreen.ClientsScreen.EditEmail | app/clients.tsx:275 | only the e-mail field changes |
| ClientsScreen.ClientsScreen.EditNotes | app/clients.tsx:288 | only the notes field changes |
| ClientsScreen.ClientsScreen.CloseModal | app/clients.tsx:242 | the dialog closes and the form is kept |
| ClientsScreen.ClientsScreen.HandleSaveClient | app/clients.tsx:71-85 | a form without a name or a phone is refused with the alert and nothing changes; otherwise the register becomes `AfterSave` and the dialog closes on an empty form |
| ClientsScreen.ClientsScreen.HandleDeleteClient | app/clients.tsx:87-100 | once confirmed, no client with that id remains; otherwise nothing changes |
| AdminScreen.FormErrorMeaning | app/admin.tsx:46-54 | a form passes exactly when name and email are not empty and the PIN is four UTF-16 code units long (`pin.length`); an empty field is reported before the PIN length |
| AdminScreen.FindLoginAppend | hooks/use-auth.ts:266-276 | an account added last signs in only when no earlier account matches the credentials |
| AdminScreen.AdminCreatedCannotLogIn | app/admin.tsx:57-63 | as written, adding an account through the screen changes no login outcome: it can never sign in |
| AdminScreen.UpdateAsWrittenKeepsPassword | app/admin.tsx:91-96 | as written, an edit leaves the password unchanged whatever PIN is typed |
| AdminScreen.CreatedUserCanLogIn | app/admin.tsx:57-63 | with the PIN stored as the password, the new account signs in with the typed email and PIN, and is the account signed in when its email is new |
| AdminScreen.UpdateSetsPassword | app/admin.tsx:91-96 | with the corrected patch, an edit sets the password to the typed PIN and the name, email and role to the form's, keeping the id |
| AdminScreen.DeleteButtonAgreesWithStore | app/admin.tsx:214 | for an admin, the delete button shows exactly on the rows `deleteUser` would delete |
| AdminScreen.AdminScreen.constructor | app/admin.tsx:20-29 | the screen opens with no dialog and an empty employee form |
| AdminScreen.AdminScreen.OpenAddModal | app/admin.tsx:155 | the add dialog opens |
| AdminScreen.AdminScreen.OpenEditModal | app/admin.tsx:139-147 | the edited account is set and the form filled from it |
| AdminScreen.AdminScreen.CloseModal | app/admin.tsx:239-243 | both dialog modes end and the form resets |
| AdminScreen.AdminScreen.EditName | app/admin.tsx:253 | only the name field changes |
| AdminScreen.AdminScreen.EditEmail | app/admin.tsx:261 | only the email field changes |
| AdminScreen.AdminScreen.EditPin | app/admin.tsx:271 | only the PIN field changes |
| AdminScreen.AdminScreen.SetRole | app/admin.tsx:284-299 | only the role changes |
| AdminScreen.AdminScreen.HandleAddUser | app/admin.tsx:45-75 | a form error is reported and nothing changes; otherwise the account is offered to `addUser`, which appends it exactly when it may; success closes the dialog and resets the form, a refusal reports the email in use |
| AdminScreen.AdminScreen.HandleUpdateUser | app/admin.tsx:77-106 | nothing without an edited account; a form error changes nothing; otherwise `updateUser` merges the corrected patch (fifth Findings row: the PIN becomes the password) into the account when the signed-in user is an admin, and success ends the edit |
| AdminScreen.AdminScreen.HandleDeleteUser | app/admin.tsx:108-128 | once confirmed, `deleteUser` removes the account exactly when it may, with the matching alert; otherwise nothing changes |
| ServiceList.InCategory | backend/trpc/routes/services/list/route.ts:57 | the filter never lengthens the list |
| ServiceList.InCategoryMembers | backend/trpc/routes/services/list/route.ts:57 | the filter keeps exactly the services of the category |
| ServiceList.InCategoryAppend | backend/trpc/routes/services/list/route.ts:57 | the filter keeps the catalogue's order |
| ServiceList.ListServices | backend/trpc/routes/services/list/route.ts:54-65 | the answer's total is the number of services returned and the category list is the fixed one |
| ServiceList.ListServicesMeaning | backend/trpc/routes/services/list/route.ts:47-65 | without a category, or with an empty one, the whole catalogue; with one, exactly its services |
| ServiceList.CatalogueWellFormed | backend/trpc/routes/services/list/route.ts:5-46 | the catalogue's ids are distinct, its prices and durations positive and its categories on the fixed list |
| ServiceList.InCategoryStep | backend/trpc/routes/services/list/route.ts:57 | one step of the filter |
| ServiceList.NoneInCategory | backend/trpc/routes/services/list/route.ts:57 | a category no service has filters everything out |
| ServiceList.CatalogueCategories | backend/trpc/routes/services/list/route.ts:5-46 | the first three services are hair services, the last two nail services, and the two categories differ |
| ServiceList.AllInCategory | backend/trpc/routes/services/list/route.ts:57 | a block within the category passes whole |
| ServiceList.FilterBlocks | backend/trpc/routes/services/list/route.ts:57 | a block in the category followed by one outside it filters to the first block |
| ServiceList.NoneThenAll | backend/trpc/routes/services/list/route.ts:57 | a block outside followed by one inside filters to the second block |
| ServiceList.FilterBlocksAfter | backend/trpc/routes/services/list/route.ts:57 | the same, split at a position |
| ServiceList.HairServices | backend/trpc/routes/services/list/route.ts:54-65 | the hair category answers the first three services, total 3 |
| ServiceList.NailServices | backend/trpc/routes/services/list/route.ts:54-65 | the nail category answers the last two services, total 2 |
| ServiceList.UnknownCategoryIsEmpty | backend/trpc/routes/services/list/route.ts:54-65 | a category no service has answers an empty list with total 0 |
| ServiceList.EmptyListedCategories | backend/trpc/routes/services/list/route.ts:63 | the two listed categories no service has answer empty lists |

## Left out

- Storage: AsyncStorage, the `safeStorage` wrapper with its localStorage and sessionStorage fallbacks, `useStorage`, and JSON encoding are I/O. A store's state is its class fields, and a write is taken to store exactly the new state. The error paths of storage (a failed read or write, a corrupt JSON value) are not modelled.
- Loading flags: the `isLoading` spinners and the loading branches of the hooks are display only.
- Rendering: layout, styles, icons, `Alert` dialogs and router navigation (`router.push`, `router.back`) are UI. Each alert becomes a returned message or outcome. Each confirmation dialog becomes a `confirmed: bool` parameter. The alert buttons that navigate away are not modelled.
- Camera: the camera, its permission request, the torch and the facing switch are platform calls. A scan arrives as a text parameter.
- Clock and ids: `Date.now()` and `new Date()` are `now` parameters. Ids built from the clock are taken as given and are not assumed unique.
- Calendar windows: "same day" and "same month" are given predicates on time stamps, because `setHours`, `getMonth` and `getFullYear` are calendar arithmetic.
- Locale formatting: `toLocaleString('hu-HU')`, `toLocaleDateString('hu-HU')` and `toLocaleTimeString` are either parameters (`LastVisitLabel`) or not modelled.
- Number parsing: `Text.ParseInt` models `parseInt` as a decimal prefix with an optional sign after leading white space. Hexadecimal prefixes, fractions, exponents and `Infinity` are not modelled.
- Prices: `parseFloat` of a price is modelled by the same parser, so money is whole forints. Fractional prices are not modelled.
- Floats: `avgSpentPerClient` is a `real`, exact where JavaScript rounds. The reports average is the integer quotient that equals `Math.round` of the exact quotient.
- Text: `Text.Lower` models `toLowerCase` for ASCII, the Latin-1 capitals, Ő and Ű only. Characters are Unicode scalar values, and `includes` agrees with JavaScript on them. Where the source reads `.length` (the 100-unit barcode limit and the four-unit PIN), the model counts UTF-16 code units with `Text.JsLength`, so an emoji counts twice as in JavaScript. `slice(-k)` counts characters; it is only applied to digit strings. No Unicode normalisation is done.
- Refresh: the inventory screen's refresh button and its "last sync" label are not modelled. They use `lastSync` and `refreshInventory`, which `use-inventory` does not provide.
- Barcode dialog: in `InventoryScreen.OpenBarcodeDialog`, the dialog's action is always `restock`, because the screen never sets it otherwise. The `use` branch of `handleBarcodeSubmit` is still modelled.
- Checkout: the `catch` branch of `handlePayment` is not modelled, because `processPayment` only fails when storage fails. Neither is the navigation to the receipt screen.
- Tabs and periods: `activeTab` of the service screen is display state. The reports screen's `selectedPeriod` is the `period` parameter of `Reports.Selected`.
- Receipt screen: `app/receipt.tsx` is not part of this model. It loads a stored payment and displays it.
- Login screen: `app/login.tsx` is not part of this model. Its quick-login PINs do not match the default passwords of `use-auth`, and the model follows the hook's `password` semantics.
- Auth.AuthStore.LoadAuthState: models one run of `loadAuthState` against the current `users`. The source runs it on mount while `users` is still the built-in list and `loadUsers` runs beside it, and again after every change to `users` (hooks/use-auth.ts:250-262). `Auth.Mount` models the interleaving in which the first check completes before the stored list is set; a later re-run is one more call of the method. The other orders of the two asynchronous loads are not modelled.
- AdminScreen.FormOf: the edit form shows the account's password as its PIN, the corrected reading; the source shows a `pin` field, absent from every account but those the screen itself adds.
- AdminScreen.AdminScreen.OpenEditModal: fills the form through the corrected `AdminScreen.FormOf`, so the PIN field shows the account's password. The source fills it from `userToEdit.pin`, a field that only the accounts this screen added have.
- AdminScreen.AdminScreen.HandleAddUser: models the corrected record (the PIN as the password); the record as written is `AdminScreen.NewUserAsWritten`.
- InventoryScreen.SavedNumbersParse: states the corrected save, which refuses a number field that reads as NaN. The source stores NaN; that half is `InventoryScreen.SaveAcceptsNaN`.
- InventoryScreen.InventoryScreen.HandleSaveItem: goes through the corrected `InventoryScreen.SaveDecision`, which refuses a number field that reads as NaN. The source stores NaN; that half is `InventoryScreen.SaveAcceptsNaN`.
- InventoryScreen.CameraRoute: uses the corrected quantity check `InventoryScreen.ValidQuantity`. For a typed quantity such as `abc`, the source opens the scanner with `quantity=NaN`, since it prints `parseInt` of the text into the route; that check is `InventoryScreen.QuantityAcceptedAsWritten`.
- InventoryScreen.InventoryScreen.HandleCameraSubmit: goes through the corrected `InventoryScreen.CameraRoute`. The source's check is `InventoryScreen.QuantityAcceptedAsWritten`.
- InventoryScreen.InventoryScreen.HandleConfirmRestock: uses the corrected `InventoryScreen.ValidQuantity`. The source restocks by NaN for a quantity such as `abc`; its check is `InventoryScreen.QuantityAcceptedAsWritten`.
- InventoryScreen.InventoryScreen.HandleBarcodeSubmit: goes through `InventoryScreen.SubmitOutcome`, which uses the corrected `InventoryScreen.ValidQuantity`. The source calls `restockByBarcode(code, NaN)` or `useItemByBarcode(code, NaN)` for a quantity such as `abc`; its check is `InventoryScreen.QuantityAcceptedAsWritten`.
- BarcodeScanner.CameraRouteReadsBack: holds for the corrected `InventoryScreen.CameraRoute` only. For a typed quantity such as `abc`, the source opens the scanner with `quantity=NaN`, which the scanner reads back as NaN.
- BarcodeScanner.ScanSteps: states the corrected `BarcodeScanner.Decide`, where a restock by NaN is an error with no change. The source reports success; that flag is `BarcodeScanner.ScanSuccessAsWritten`.
- BarcodeScanner.ScannerScreen.ProcessBarcode: built on the corrected `BarcodeScanner.Decide`. The source reports success for a restock by NaN and changes the stock by NaN; that flag is `BarcodeScanner.ScanSuccessAsWritten`.
- AdminScreen.AdminScreen.HandleUpdateUser: merges the corrected `AdminScreen.UpdatePatch`, which sets the password to the PIN. The source sends `pin` and keeps the password; that patch is `AdminScreen.UpdatePatchAsWritten`.
- Salon.Client: leaves out the optional `favoriteServices` field, because no operation of the core reads or writes it.
- AdminScreen.AdminScreen.Accessible: the no-access view of the admin screen has no ensures of its own; it is the same test as `ServiceManagement.ViewFor`.
- CartScreen.FormatDuration: this label differs from the service screen's for durations of -60 minutes or less. `CartScreen.FormattersAgree` holds only above that.
- ServiceList.ListServices: the copy of the mock list before filtering is implicit, because Dafny sequences are values and the catalogue constant cannot be changed.

## Findings

| source | as written | input that shows it | evidently intended | confidence | as-written member | corrected member |
|---|---|---|---|---|---|---|
| app/inventory.tsx:199 | the quantity check `!s \|\| parseInt(s) <= 0` refuses an empty or non-positive quantity, but `NaN <= 0` is false, so a word passes; the same check is at lines 222 and 262 | restock quantity `abc` | refuse anything that does not parse to a positive number | not executed | InventoryScreen.NaNQuantityAccepted | InventoryScreen.ValidQuantityMeaning |
| app/inventory.tsx:143-161 | `handleSaveItem` only checks that the number fields are not empty and stores `parseInt` of them, so a word stores NaN as the quantity | quantity `sok` in an otherwise complete form | refuse a quantity, minimum or price that does not parse | not executed | InventoryScreen.SaveAcceptsNaN | InventoryScreen.SaveRefusesNaN |
| app/barcode-scanner.tsx:72-78 | a restock whose quantity parameter does not parse calls `restockByBarcode` with NaN and reports success | scanner opened with `quantity=abc` and a known code | report an error and leave the stock alone | not executed | BarcodeScanner.RestockByNaNAsWritten | BarcodeScanner.ScanRestockOfNaNRefused |
| app/admin.tsx:57-63 | the new account's PIN goes to a `pin` field, but `login` compares `password`, so an account added on the admin screen can never sign in | any completed add form | store the PIN as the account's password | not executed | AdminScreen.AdminCreatedCannotLogIn | AdminScreen.CreatedUserCanLogIn |
| app/admin.tsx:91-96 | an edit sends the PIN as `pin`, so the password never changes | editing any account with a new PIN | set the password to the PIN typed | not executed | AdminScreen.UpdateAsWrittenKeepsPassword | AdminScreen.UpdateSetsPassword |
