# SmartShop core, modelled in Dafny

SmartShop is a single-screen shop app that runs in the browser. It keeps a
catalog of products and a ledger of sales. Staff sell from the catalog and see
the sales report. An administrator unlocks, with a PIN, product editing,
the report's profit figure and backups.
This project models the logic of the main screen (`App.tsx`) and of the
product form (`ProductForm.tsx`):

- **Reports** (`reports.dfy`, module `Reports`). The sales report is a pure
  function of the ledger and the filters: a date window, a customer query and
  a product id. It lists the matching sales newest first and totals revenue,
  cost, profit and the number of orders.
- **Inventory** (`inventory.dfy`, module `Inventory`). This covers the
  inventory statistics, the dashboard search, the stock decrement of a sale,
  the edit-or-add of the product form's `onSave`, and the list of products
  that were ever sold. That list is built by a method whose loop fills a map
  in ledger order, as `soldProductsList` does. The method is proved equal to
  a recursive reference definition.
- **Product form** (`product_form.dfy`, module `ProductForm`). This covers
  the initial form state, whether for a new product or an existing one, and
  `handleSubmit`, which refuses a form without a name or an image. It reads
  prices and the signed stock adjustment with `Number(...) || 0`.
- **App state** (`shop.dfy`, module `App`). The class `Shop` holds the
  component's state as fields. Its methods are the event handlers: start a
  sale, the quantity stepper, the customer field, confirm a sale, save a
  product, the PIN pad, the role buttons and restoring a backup. The
  invariant `Valid` records two facts:
  - while the sale dialog is open, the quantity lies between 1 and the
    selected product's stock;
  - the PIN never holds four digits between key presses.
- **Support modules**:
  - `types.dfy` (`Types`) holds the product, sale, customer and role records.
  - `seqs.dfy` (`Seqs`) holds order-preserving filtering and summation over
    sequences, with their algebra.
  - `text.dfy` (`Text`) holds JavaScript's `trim`, a substring test for
    `includes`, and the integer parts of `Number(...)` and `toString()`.

Four things become parameters:
- The accent-stripping normaliser is a parameter `normalize: string -> string`.
  Every property holds for any normaliser.
- Identifiers from `crypto.randomUUID` are parameters.
- Timestamps from `Date.now` are parameters.
- The user's answer to `window.confirm` is a parameter.

Two constraints that a reader might expect are absent from the code, and the
model follows the code:

- `handleConfirmSale` (App.tsx:121-145) checks for no product and for a blank
  customer name, and checks no quantity. The bound comes only from the rest
  of the screen:
  - the `+` key clamps the quantity at the selected product's stock;
  - a sell button is disabled when the stock is 0 or less.
  `App.Shop.ConfirmSale` therefore has no quantity error. It proves the
  bound from the class invariant instead.
- `reportData` (App.tsx:103-112) returns revenue, cost, profit and count, and
  computes no margin, so `Reports.Report` has no margin field.

## Model

| member | source | states |
|---|---|---|
| Reports.EndOfDay | App.tsx:86-87 | The end bound is the last millisecond of the day that starts at the given midnight: one millisecond before the next midnight. |
| Reports.DayWindow | App.tsx:86-89 | With the end bound taken from `EndOfDay`, a sale is in the window exactly when its timestamp is at or after the start midnight and before the midnight that follows the end day. |
| Reports.Filtered | App.tsx:88-101 | The filtered sales are no more than the ledger's. Each is a ledger sale that lies in the window, and each carries the chosen product id when one is chosen. |
| Reports.FilteredIsOnePass | App.tsx:88-101 | The three successive filters (window, customer query when not blank, product id when not empty) select exactly the ledger sales that meet the single condition `Selected`, in ledger order. |
| Reports.InsertNewest | App.tsx:107 | Inserting into a newest-first list keeps it newest first, and adds exactly that one sale to the multiset of sales. |
| Reports.SortNewestFirst | App.tsx:107 | The sort's result is newest first and a permutation of its input. |
| Reports.InsertKeepsTies | App.tsx:107 | Among the sales of one timestamp, the inserted sale comes before those already in the list, just as it does in the input order `[x] + sorted`. |
| Reports.SortKeepsTies | App.tsx:107 | The sort is stable: among the sales of any one timestamp it keeps the input order. |
| Reports.SortSum | App.tsx:103-107 | Sorting does not change a sum over the sales, so totals taken before the sort describe the sorted list. |
| Reports.BuildReport | App.tsx:85-113 | The report lists a permutation of the selected ledger sales, newest first. Revenue is the sum of `totalAmount` over them. Cost is the sum of `purchasePrice * quantity`. Profit is revenue minus cost, and the count is the number of listed sales. |
| Reports.ReportContents | App.tsx:88-101 | A sale is listed exactly when it is in the ledger and meets every active filter (both directions). |
| Reports.ReportRespectsFilters | App.tsx:88-101 | Every listed sale lies in the window and carries the chosen product id when one is chosen. With a non-blank query it has a customer with a non-empty name or id card. |
| Reports.NoFiltersKeepWindow | App.tsx:88-101 | With a blank customer query and no product id, the report lists exactly the sales of the window. |
| Reports.ReportEmpty | App.tsx:103-112 | When no sale is selected, the report is empty and every total is zero. |
| Reports.ReportKeepsTies | App.tsx:107 | Among the listed sales of one timestamp, the report keeps ledger order. |
| Reports.ReportAfterNewSale | App.tsx:138 | Putting a new sale at the front of the ledger adds its amount, its cost and 1 to the report's revenue, cost and count exactly when it meets the filters. Otherwise the totals stay the same. |
| Seqs.Filter | App.tsx:89 | The filtered list is no longer than its input, and holds only input elements that the test accepts. |
| Seqs.FilterMembership | App.tsx:74 | An element is in the filtered list exactly when it is in the input and accepted. |
| Seqs.SumOf | App.tsx:66-67 | `reduce((acc, x) => acc + f(x), 0)`: the sum over an empty list is 0, and over a one-element list it is that element's term. |
| Seqs.SumNonNegative | App.tsx:66-67 | A sum whose terms are all non-negative is non-negative. |
| Seqs.SumConcat | App.tsx:103-104 | The sum over a concatenation is the sum of the two parts. |
| Text.TrimStart | App.tsx:72 | The result is a suffix of the input and does not start with JavaScript whitespace. Every character removed in front of it is whitespace. |
| Text.TrimEnd | App.tsx:72 | The result is a prefix of the input and does not end with JavaScript whitespace. Every character removed after it is whitespace. |
| Text.Trim | App.tsx:72 | `trim` gives a part of the input that sits between a run of whitespace before it and a run after it. The part neither starts nor ends with whitespace. |
| Text.BlankIffAllWhitespace | App.tsx:123 | A string is blank (`!s.trim()`) exactly when every one of its characters is whitespace. |
| Text.TrimNoPadding | App.tsx:123 | A string with no whitespace at either end is its own trim. |
| Text.Contains | App.tsx:74 | `includes` holds exactly when the needle occurs at some position of the text. |
| Text.StrayIffNotLiteral | ProductForm.tsx:36-38 | A trimmed text has a character that cannot belong to an integer exactly when it is neither all digits nor a sign followed by digits. |
| Text.ParseNumber | ProductForm.tsx:36-38 | `Number(s)` for integer text: blank text reads as 0, digits read as their decimal value, a `-` or `+` sign in front of digits negates or keeps it, and the result is NaN exactly when the trimmed text has a stray character. |
| Text.NumberOrZero | ProductForm.tsx:36-38 | `Number(s) \|\| 0`: blank text reads as 0, digits as their decimal value, a minus sign in front of digits as the negated value, and text with a stray character as 0. |
| Text.NatToDigits | ProductForm.tsx:19-20 | Printing a natural number gives a non-empty string of decimal digits. |
| Text.IntToStringShape | ProductForm.tsx:19-20 | `toString()` of an integer price, `IntToString`, starts with a minus sign exactly when the price is negative, and the rest is a non-empty string of decimal digits. |
| Text.DigitsRoundTrip | ProductForm.tsx:19-20 | Reading back the printed digits of a natural number gives that number. |
| Text.ParseNumberRoundTrip | ProductForm.tsx:36-37 | `Number(n.toString())` is `n` for every integer, negative ones included, so a price field that was filled from a product submits the same price. |
| ProductForm.InitialForm | ProductForm.tsx:15-23 | A new product's form starts with empty fields, stock 0, adjustment "0" and the default category. An existing product's form takes its name, description, image and stock. Its brand is the product's brand, or "" when there is none. Its category is the product's category, or the default one when that is missing or empty. Its price texts read back as its prices. |
| ProductForm.Submit | ProductForm.tsx:27-41 | The form is refused exactly when the name or the image is empty. Otherwise the text fields are passed on, and each saved price is its text read by `Number(...) \|\| 0`. The saved stock is the current stock plus the adjustment, and an adjustment that is not a number keeps the stock. A price that is not a number is saved as 0. |
| ProductForm.BlankPricesSaveZero | ProductForm.tsx:36-37 | A form whose price fields are blank saves both prices as 0. |
| ProductForm.BlankFormIsRefused | ProductForm.tsx:15-29 | A freshly opened form for a new product cannot be saved as it is. |
| ProductForm.AdjustmentCanGoNegative | ProductForm.tsx:38 | The adjustment has no lower bound: an adjustment of "-n" saves the stock minus n, which is negative when the stock is smaller than n. |
| Inventory.Stats | App.tsx:64-67 | The product count is the length of the catalog, and an empty catalog has all-zero statistics. |
| Inventory.StatsNonNegative | App.tsx:66-67 | When no stock and no purchase price is negative, the item total and the investment are not negative. |
| Inventory.StatsAfterAdd | App.tsx:446 | Appending a product adds 1 to the count, its stock to the item total, and `purchasePrice * stock` to the investment. |
| Inventory.DecrementStock | App.tsx:139 | Each catalog entry with the sold id loses the sold quantity from its stock. Every other entry, and every other field, is unchanged. The length is kept. |
| Inventory.StockAfterSale | App.tsx:139 | After a sale, the total stock falls by the quantity times the number of entries with the sold id. |
| Inventory.InvestmentAfterSale | App.tsx:139 | After a sale, the investment falls by the quantity times the purchase prices of the entries with the sold id. |
| Inventory.StatsAfterSale | App.tsx:64-67 | After a sale, the statistics show the lower item total and investment, and the product count is unchanged. |
| Inventory.FilteredProducts | App.tsx:71-75 | A blank search shows the whole catalog unchanged, and a search never shows more products than the catalog has. |
| Inventory.FilteredProductsContents | App.tsx:71-75 | A product is shown exactly when it is in the catalog and, for a non-blank search, its normalised "name id" contains the normalised query. |
| Inventory.Merge | App.tsx:445 | `{ ...p, ...data }` keeps the product's id, creation time, sku and unit, and takes every field the form supplies: name, description, brand, category, prices, stock and image. |
| Inventory.MergeIdempotent | App.tsx:445 | Saving the same form data twice gives the same product as saving it once. |
| Inventory.NewProduct | App.tsx:446 | A new product carries the given id and creation time, has no sku or unit, and is already up to date with the form data it was made from. |
| Inventory.ApplyEdit | App.tsx:445 | Saving an edit keeps the catalog's length and every entry's id and creation time. It leaves entries with other ids untouched. Entries with the edited id take the form's name, description, brand, category, prices, stock and image, and keep their sku and unit. |
| Inventory.UntouchedEditKeepsProduct | ProductForm.tsx:15-41 | Saving an edit form that was opened on a product and left unchanged gives the product back. The only changes are that a missing brand becomes "" and a missing or empty category becomes the default one. |
| Inventory.EditAdjustsStock | ProductForm.tsx:15-41 | Saving an edit form with adjustment text `delta` sets the stock to the old stock plus the number in `delta`, and keeps it when `delta` is not a number. |
| Inventory.SoldCoversLedger | App.tsx:77-83 | The sold-products list has an entry for every product id in the ledger and for no other id. |
| Inventory.SoldIdsDistinct | App.tsx:77-83 | No product id appears twice in the sold-products list. |
| Inventory.SoldEntryOrigin | App.tsx:79-80 | Each entry of the sold-products list is made from the id and name of a ledger sale that is the first sale of its product. |
| Inventory.SoldNamesFromFirstSale | App.tsx:79-80 | Each entry carries the id and name of the first ledger sale of its product. |
| Inventory.SoldProductsList | App.tsx:77-83 | The loop over the ledger, with its map from id to name, returns exactly the reference list: one entry per product id, in the order that its first sale appears, with that first sale's name. |
| App.Shop.constructor | App.tsx:22-40 | The initial state: empty catalog and ledger, staff role, no product selected, dialogs closed, quantity 1, empty customer and empty PIN. |
| App.Shop.StartSelling | App.tsx:115-119 | A sale starts exactly when the product's stock is positive: it selects the product, sets the quantity to 1 and opens the dialog. Otherwise nothing changes, because the button is disabled. |
| App.Shop.DecreaseQuantity | App.tsx:389 | `-` sets the quantity to `max(1, q - 1)`, so it never goes below 1 and keeps the invariant. |
| App.Shop.IncreaseQuantity | App.tsx:391 | `+` sets the quantity to `min(stock, q + 1)`, so it never exceeds the selected product's stock. |
| App.Shop.EnterCustomerName | App.tsx:399 | Typing in the name field replaces the customer's full name and nothing else. |
| App.Shop.CancelSale | App.tsx:383 | Closing the sale dialog closes it and changes nothing else. |
| App.Shop.ConfirmSale | App.tsx:121-145 | Without a selected product, or with a blank customer name, nothing changes; each of these outcomes happens exactly in its case. On success, one sale goes at the front of the ledger. It records the product's name and prices, the quantity, the total `sellingPrice * quantity`, the time and the customer. The catalog is decremented for that id, the dialog closes and the customer is cleared. When the dialog was open, the quantity sold lies between 1 and the product's stock. |
| App.Shop.SelectProduct | App.tsx:237 | Opening a product's detail selects it. |
| App.Shop.BeginAdd | App.tsx:230-231 | The new-product button, which only the admin sees, leaves edit mode. |
| App.Shop.BeginEdit | App.tsx:471-472 | The edit button, which only the admin sees, enters edit mode. |
| App.Shop.SaveProduct | App.tsx:444-447 | In edit mode with a selected product, the entries with its id take the form's data and edit mode ends. Otherwise exactly one new product, with the given id and creation time, is appended. |
| App.Shop.SubmitProductForm | ProductForm.tsx:27-41 | `onSave` runs exactly when the form has a name and an image. A refused form leaves the catalog and the edit mode as they were. |
| App.Shop.PinInput | App.tsx:147-163 | A key that would make the PIN longer than four digits is ignored. A PIN shorter than four digits is stored. At four digits the PIN is cleared, and the role becomes admin and the pad closes exactly when the digits are 1234. |
| App.Shop.CancelLogin | App.tsx:411 | Closing the PIN pad clears the PIN. |
| App.Shop.RequestAdmin | App.tsx:326 | The admin button opens the PIN pad exactly when the role is not admin already. |
| App.Shop.SwitchToUser | App.tsx:325 | The staff button sets the role to staff. |
| App.UnlockAdmin | App.tsx:147-163 | Opening the PIN pad and keying 1, 2, 3, 4 makes the role admin, closes the pad and clears the PIN. It changes no other field of the shop. |
| App.OpenSaleOfThree | App.tsx:115-119 | After the admin restores a catalog holding one product with 10 in stock, opening its sale dialog and pressing `+` twice gives a dialog on that product with quantity 3 and an empty ledger. |
| App.SellThreeOfTen | App.tsx:121-145 | Selling 3 of a product with 10 in stock at 100 each to a named customer records one sale of quantity 3 and total 300 for that product at the given time, closes the dialog, and leaves the product with stock 7. |
| App.Shop.Restore | App.tsx:169-190 | Restoring is only reachable by the admin (App.tsx:330). The outcomes are no file, unreadable, malformed, declined and restored; each happens exactly in its case. The catalog and ledger are replaced wholesale only when the document has both a `products` and a `sales` field and the user confirms. Otherwise both stay as they were. |

## Left out

- Persistence is not modelled: the durable store (`storageService.ts`), `localStorage` for the role, and the initial load from the store are left out, because they are I/O. The model's state starts from the constructor with an empty catalog and ledger. A loaded catalog and ledger are reachable only through `App.Shop.Restore`.
- The image recognition service (`geminiService.ts`), the camera (`CameraView.tsx`) and the scan flow are not modelled. Only the selection of a found product is modelled, as `App.Shop.SelectProduct`.
- Backup export, the cloud-upload stub, `FileReader` and `JSON.parse` are left out. A backup file reaches `App.Shop.Restore` already classified as `BackupFile`. A `products` or `sales` field that is present and JSON-truthy is modelled as a list of records; other truthy values are not represented.
- The alerts and the confirmation dialog are not modelled. Their messages are I/O, and the confirmation's answer is a parameter.
- The storage-size figure of `stats` (`calculateStorageSize`) is left out because it measures serialised bytes, which are I/O.
- Dates are not modelled. Turning the report's date fields into instants (`new Date`, `setHours`) uses time zones, so the window starts are inputs. `Reports.EndOfDay` assumes a day of 24 hours and so does not model daylight-saving transitions.
- `removeAccents` is not modelled: it relies on Unicode normalisation, which is not available. It is the parameter `normalize`.
- Number formatting (`Intl.NumberFormat`, dates in Vietnamese) is display only and is left out.
- JavaScript numbers are doubles. The model uses unbounded integers, so it does not capture rounding or loss of precision in sums and products, and `toString` of numbers large enough to print in exponent form.
- Text.ParseNumber / Text.NumberOrZero: read only optionally signed decimal integers (after trimming). Fractions, exponents, hexadecimal and `Infinity` count as not a number, so they are read as 0 rather than as the value JavaScript would give.
- Reports.BuildReport computes the profit for every role. Hiding the profit card from staff (App.tsx:292) happens only in the display, and is not modelled.
- The view switching (`view`), the logo-tap counter, the loading flag, the search text fields and the form's camera and AI fill-in are not modelled: they are presentation state. The search and filter texts enter the model as arguments.
- Concurrency between React state updates is not modelled. Each handler runs to completion on the state it reads.
