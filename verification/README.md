# Impressa admin console: client-side state logic

This project models the browser-side logic of the Impressa admin console's screens and proves properties about it:

- **Add Product form.** The editable size list, the item-type and category lists that the operator can extend, and the category to size-preset lookup. Also the submit handler. It validates, uploads the selected images one at a time and posts one product. It then either resets the draft or keeps it and shows an error.
- **Orders table.** The search and status filter. "Completed" is read as "delivered". Also the local updates after a status change, a tracking change or a delete, and the pending tracking inputs kept for each order.
- **Products table.** The title and category filter, the selection of product ids, the stock flip, delete, and the edit dialog.
- **Customers table.** The search and status filter over the fixed customer list, the style for each status, and the expandable row.
- **Recent orders panel.** Sorts newest first and keeps the first five. Also the badge style for each status.
- **Sales chart.** The month-label fallback.

Every remote call is an input to the model:

- a `Reply` (`Ok` or `Failed(message)`);
- a `Result` carrying the fetched data;
- for image uploads, a function from file to `Result`.

The browser's `confirm` dialog becomes a boolean. Each screen whose handlers update component state is a class. Its fields mirror the state slots, and each handler's contract gives the whole new state. Pure filters, sorts and mappings are functions with lemmas.

The product form posts one product per submit. Its validation checks only the images, the item type and the category (`components/admin/add-product.tsx:155-233`).

The form's size section (`AddProduct.AddProductForm.SizeSectionShown`) is rendered with the own-entry preset lookup `AddProduct.SizeSectionFor`. That is the corrected lookup of the one finding below. The as-written lookup, which crashes on inherited names, is modelled beside it as `AddProduct.SizeSectionAsWritten`.

Files:
- `text.dfy`: the JavaScript string operations used: `trim`, `toLowerCase`, `includes`, `split`, `join`.
- `seqs.dfy`: `Array.prototype.filter` and the order-preserving sub-list relation.
- `outcomes.dfy`: `Option`, `Result` and `Reply`.
- One file per screen: `add_product.dfy`, `orders_table.dfy`, `products_table.dfy`, `customers_table.dfy`, `recent_orders.dfy`, `sales_chart.dfy`.

## Model

| member | source | states |
|---|---|---|
| Text.TrimSpec | components/admin/add-product.tsx:119-122 | `trim` leaves no white space at either end. Its result is a contiguous piece of the input, and it is empty exactly when the input is all white space |
| Text.LowerSpec | components/admin/orders-table.tsx:122-123 | `toLowerCase` keeps the length and turns each capital into the lower-case letter at the same place in the alphabet, keeping every other character. So no upper-case letter is left, and a string without one is unchanged |
| Text.Contains | components/admin/orders-table.tsx:122-123 | `includes` holds exactly when the needle occurs at some position of the haystack |
| Text.Split | components/admin/add-product.tsx:122 | `split` on one character yields at least one piece, and no piece holds the separator |
| Text.JoinSplit | components/admin/add-product.tsx:193-194 | joining the pieces of a split with the separator gives back the original string |
| Text.SplitJoin | components/admin/add-product.tsx:193-194 | splitting a join of separator-free pieces gives back the pieces |
| Seqs.FilterSpec | components/admin/orders-table.tsx:117-127 | `filter` yields an order-preserving sub-list holding exactly the elements that pass the test. Each passing element occurs as often as in the input |
| Seqs.RemoveAllSpec | components/admin/add-product.tsx:133-135 | removing a value drops every occurrence of it and no other element. Every other element keeps its number of occurrences. It keeps the order and keeps a duplicate-free list duplicate-free |
| AddProduct.SizeSectionByCategory | components/admin/add-product.tsx:365-404 | size section for each category: "clothing" and "luxury dress" give XS to 3XL; "shorts" gives 28 to 40; "bags" gives Small/Medium/Large; "accessories" gives One Size; "shoes" gives the numeric hint; any other category gives no checkboxes; no category gives the generic list |
| AddProduct.SizeSectionAsWrittenAgrees | components/admin/add-product.tsx:365-372 | the preset lookup as written fails to render exactly when the category is the name of an inherited `Object.prototype` member. Everywhere else it agrees with the own-entry lookup |
| AddProduct.ConstructorCategoryBreaksSizes | components/admin/add-product.tsx:146-153 | saving the custom category "Constructor" selects "constructor", whose size section fails to render as written and shows no presets when looked up among own entries |
| AddProduct.NormalizeOptionSpec | components/admin/add-product.tsx:138-139 | a custom option is trimmed and lower-case, and it is empty exactly when the box holds only white space |
| AddProduct.SizeTokensSpec | components/admin/add-product.tsx:119-122 | every custom size token is non-empty, trimmed and free of commas |
| AddProduct.ParseListValues | components/admin/add-product.tsx:193-194 | every parsed color or tag is non-empty, trimmed, lower-case and comma-free |
| AddProduct.ParseListJoin | components/admin/add-product.tsx:193-194 | typing back a list of such values, comma-separated, parses to the same list |
| AddProduct.AppendNewSpec | components/admin/add-product.tsx:123-129 | adding sizes keeps the old list as a prefix. Only values not already present are appended, each once and in first-seen order. Every token ends up present, and a duplicate-free list stays duplicate-free |
| AddProduct.AppendEach | components/admin/add-product.tsx:123-129 | the handler's loop over the tokens yields exactly AppendNew of the old list and the tokens |
| AddProduct.FirstFailure | components/admin/add-product.tsx:176-179 | the position of the first file whose upload fails: every earlier upload succeeded |
| AddProduct.UploadAll | components/admin/add-product.tsx:175-179 | uploads run one at a time in selection order. On success there is one URL per file, in order. On failure the loop stops at the first rejected file with its error, after exactly that many requests |
| AddProduct.PayloadShape | components/admin/add-product.tsx:186-198 | the payload carries the uploaded URLs and the draft's title, item type, category, price text, sizes, customizable and featured flags. Colors and tags hold only normalised values, and an empty box gives []. An empty description is sent as null |
| AddProduct.FailureMessageSpec | components/admin/add-product.tsx:224-228 | the error always starts with "Failed to create product.". It is exactly that without a server message, and otherwise carries a trimmed message verbatim |
| AddProduct.AddProductForm.constructor | components/admin/add-product.tsx:21-88 | the form starts with an empty draft, the default option lists, closed custom boxes and no error |
| AddProduct.AddProductForm.SelectItemType | components/admin/add-product.tsx:276-286 | picking a listed item type selects it and keeps the form consistent |
| AddProduct.AddProductForm.SelectCategory | components/admin/add-product.tsx:314-324 | picking a listed category selects it and keeps the form consistent |
| AddProduct.AddProductForm.ToggleSize | components/admin/add-product.tsx:114-116 | checking appends the size at the end. Unchecking removes every occurrence |
| AddProduct.AddProductForm.RemoveSize | components/admin/add-product.tsx:133-135 | removes every occurrence of the size |
| AddProduct.AddProductForm.AddCustomSize | components/admin/add-product.tsx:118-131 | a blank box changes nothing. Otherwise the sizes become the old list with the new tokens appended as AppendNew gives them, and the box is cleared |
| AddProduct.AddProductForm.AddCustomItemType | components/admin/add-product.tsx:137-144 | a blank box changes nothing. Otherwise the normalised value is appended (even if listed), selected, and the box is cleared and hidden |
| AddProduct.AddProductForm.AddCustomCategory | components/admin/add-product.tsx:146-153 | the same as for item types, for categories |
| AddProduct.AddProductForm.HandleImageChange | components/admin/add-product.tsx:106-112 | an empty selection is ignored. Otherwise the files are replaced, not appended to, with one preview per file |
| AddProduct.AddProductForm.HandleSubmit | components/admin/add-product.tsx:155-233 | validation order is images first, then item type and category, with nothing uploaded or posted on either failure. An upload failure keeps the draft and shows the error. After a successful upload, one payload is posted. Success notifies the parent and resets the draft. Failure keeps the draft and shows the error. The busy flags end false |
| AddProduct.AddProductForm.ResetDraft | components/admin/add-product.tsx:210-222 | every draft field and the image selection are cleared |
| OrdersTable.FilteredOrdersSpec | components/admin/orders-table.tsx:117-127 | the shown orders are an order-preserving sub-list holding exactly those that match the search and the status filter, each as often as in the list |
| OrdersTable.StatusFilterSpec | components/admin/orders-table.tsx:124-125 | "all" filters on the search alone. "completed" shows exactly what "delivered" shows. Any other filter shows only orders with that status |
| OrdersTable.SearchIgnoresCase | components/admin/orders-table.tsx:121-123 | the search result does not depend on the case of the term |
| OrdersTable.EmptySearchShowsAll | components/admin/orders-table.tsx:118-125 | an empty search with "all" shows every order |
| OrdersTable.SetStatusSpec | components/admin/orders-table.tsx:81-83 | a status update keeps the length and the ids. Exactly the orders with that id get the new status and nothing else about them changes, and repeating it changes nothing more |
| OrdersTable.SetTrackingSpec | components/admin/orders-table.tsx:98 | a tracking update replaces only the matching orders' tracking and keeps the length and the ids |
| OrdersTable.RemoveOrdersSpec | components/admin/orders-table.tsx:111 | a delete removes every order with that id and keeps the rest in order, each as often as before |
| OrdersTable.PendingEditSpec | components/admin/orders-table.tsx:187-200 | editing one pending field of an order keeps its other pending field and every other order's entry |
| OrdersTable.TrackingToSendSpec | components/admin/orders-table.tsx:202 | each tracking field sent comes from the pending input when present, else from the stored tracking. Editing one field changes only that field of what is sent |
| OrdersTable.OrdersTableState.constructor | components/admin/orders-table.tsx:45-53 | no orders and no pending inputs; empty search, filter "all" |
| OrdersTable.OrdersTableState.FetchOrders | components/admin/orders-table.tsx:59-71 | the fetched list replaces the orders. A failure keeps them, and loading ends false |
| OrdersTable.OrdersTableState.UpdateOrderStatus | components/admin/orders-table.tsx:73-87 | on success the orders become SetStatus of the old ones. On failure they are untouched. The handler is defined but never called from the rendered table |
| OrdersTable.OrdersTableState.UpdateTracking | components/admin/orders-table.tsx:90-102 | on success the orders become SetTracking of the old ones. On failure they are untouched |
| OrdersTable.OrdersTableState.SaveTracking | components/admin/orders-table.tsx:202 | the row's Update button sends the merged pending and stored tracking |
| OrdersTable.OrdersTableState.DeleteOrder | components/admin/orders-table.tsx:104-115 | only a confirmed, successful delete removes the orders with that id |
| OrdersTable.OrdersTableState.EditPendingStatus | components/admin/orders-table.tsx:187 | the pending status of that order is set, keeping its pending code |
| OrdersTable.OrdersTableState.EditPendingCode | components/admin/orders-table.tsx:200 | the pending code of that order is set, keeping its pending status |
| ProductsTable.FilteredProductsSpec | components/admin/products-table.tsx:116-120 | a product is shown iff its title contains the term ignoring case and the category filter is "all" or equal, as often as it occurs. Order is preserved, and "" with "all" shows everything |
| ProductsTable.ToggleIdSpec | components/admin/products-table.tsx:128-130 | a toggle flips that id's membership only and never creates a duplicate. Toggling twice restores the members, and restores the exact list when the id was absent |
| ProductsTable.SelectAllSpec | components/admin/products-table.tsx:123-126 | the header click ticks the box exactly when it was unticked with rows shown, and then selects every shown id. When ticked it clears the selection. Only lengths are compared |
| ProductsTable.FirstWithId | components/admin/products-table.tsx:65-66 | the first product with that id, or none exactly when no product has it |
| ProductsTable.StockToggledSpec | components/admin/products-table.tsx:64-76 | an unknown id changes nothing. With unique ids only the matching product changes, and only its stock, which is negated. Flipping twice restores the list |
| ProductsTable.RemoveProductsSpec | components/admin/products-table.tsx:97 | a delete removes every product with that id and keeps the others in order, each as often as before |
| ProductsTable.ProductsTableState.constructor | components/admin/products-table.tsx:27-33 | no products, no selection, loading, dialog closed |
| ProductsTable.ProductsTableState.LoadProducts | components/admin/products-table.tsx:46-56 | the fetched list replaces the products. A failure keeps them, and loading ends false |
| ProductsTable.ProductsTableState.HandleToggleStock | components/admin/products-table.tsx:64-83 | an unknown id or a declined confirm does nothing. Otherwise a successful request flips the stock, and loading ends false |
| ProductsTable.ProductsTableState.HandleEdit | components/admin/products-table.tsx:86-91 | a fetched product becomes the edit data, the preview is cleared and the dialog opens |
| ProductsTable.ProductsTableState.HandleDelete | components/admin/products-table.tsx:94-98 | only a confirmed, successful delete removes the products with that id |
| ProductsTable.ProductsTableState.SaveEdit | components/admin/products-table.tsx:101-113 | without an id nothing changes. Otherwise a successful save reloads the catalogue and closes the dialog, and a failed one keeps both. Loading ends false |
| ProductsTable.ProductsTableState.ToggleSelect | components/admin/products-table.tsx:128-130 | the selection becomes ToggleId of the old one |
| ProductsTable.ProductsTableState.ToggleSelectAll | components/admin/products-table.tsx:123-126 | the selection becomes SelectAllResult for the rows shown |
| CustomersTable.FilterCustomersSpec | components/admin/customers-table.tsx:69-76 | a customer is shown iff the name or email contains the term ignoring case, or the phone contains it verbatim, and the filter is "all" or the lower-cased status. Each shown customer occurs as often as in the list, and order is preserved |
| CustomersTable.UpperCaseFilterMatchesNobody | components/admin/customers-table.tsx:74 | a filter other than "all" that holds an upper-case letter matches nobody |
| CustomersTable.EmptySearchShowsAll | components/admin/customers-table.tsx:8-76 | an empty search with "all" lists all five customers in order |
| CustomersTable.VipButton | components/admin/customers-table.tsx:8-76 | with an empty search the "vip" button lists customers 1 and 4, in that order |
| CustomersTable.RegularButton | components/admin/customers-table.tsx:8-76 | with an empty search the "regular" button lists customers 2 and 5, in that order |
| CustomersTable.NewButton | components/admin/customers-table.tsx:8-76 | with an empty search the "new" button lists customer 3 alone |
| CustomersTable.EmptyMessageSpec | components/admin/customers-table.tsx:133-135 | the empty-state message shows exactly when no customer matches |
| CustomersTable.StatusColorSpec | components/admin/customers-table.tsx:78-89 | VIP, Regular and New get three different styles. Any other status gets New's |
| CustomersTable.NextExpandedSpec | components/admin/customers-table.tsx:121 | clicking collapses the customer's own open row and otherwise expands that row, switching directly from another |
| CustomersTable.CustomersTableState.constructor | components/admin/customers-table.tsx:67 | no row is expanded |
| CustomersTable.CustomersTableState.ToggleExpanded | components/admin/customers-table.tsx:121 | the expanded row becomes NextExpanded of the old one |
| RecentOrders.InsertSpec | components/admin/recent-orders.tsx:40-42 | inserting into a newest-first list keeps it newest first and adds exactly that order |
| RecentOrders.SortNewestFirstSpec | components/admin/recent-orders.tsx:40-42 | the sorted list is newest first and a permutation of the fetched list |
| RecentOrders.SortKeepsSorted | components/admin/recent-orders.tsx:40-42 | a list already newest first, ties included, is left as it is |
| RecentOrders.LatestSpec | components/admin/recent-orders.tsx:40-43 | the panel holds min(5, n) orders, newest first, all from the fetched list and none older than an omitted one. Shown and omitted together are exactly the fetched orders |
| RecentOrders.StatusBadgeSpec | components/admin/recent-orders.tsx:88-91 | paid, pending, shipped and delivered get their own style. Any other status gets the gray fallback |
| RecentOrders.RecentOrdersPanel.constructor | components/admin/recent-orders.tsx:27-28 | no orders and loading |
| RecentOrders.RecentOrdersPanel.FetchOrders | components/admin/recent-orders.tsx:31-49 | on success the five newest are kept. On failure the orders stay as they were (empty on the first load), and loading ends false |
| SalesChart.Decimal | components/admin/sales-chart.tsx:14 | a position is rendered as decimal digits, exactly one below ten, which read back most significant first (`DigitsValue`) give the position |
| SalesChart.DecimalInjective | components/admin/sales-chart.tsx:14 | different positions are rendered differently |
| SalesChart.ChartDataSpec | components/admin/sales-chart.tsx:13-17 | one chart point per data point, with sales and orders copied. An explicit month wins; otherwise the first twelve positions take their calendar month and later ones "Month n" with the one-based position. No label is empty |
| SalesChart.CalendarLabels | components/admin/sales-chart.tsx:12-14 | twelve points without a month are labelled Jan to Dec in order |
| SalesChart.FallbackLabelsDistinct | components/admin/sales-chart.tsx:12-14 | when no point has a month, no two points share a label |

## Left out

- Network and browser I/O: axios calls to the back end and the image host, `localStorage`, `confirm`/`alert`/toasts and the console. Each request is an input outcome. The edit dialog's image upload (`components/admin/products-table.tsx:284-319`) and its field setters are not modelled.
- The server message of a failed submit (`err?.response?.data?.error || err?.message || ""`) is taken as the given failure text. Error objects are not modelled.
- Text.Lower: upper-case to lower-case mapping covers ASCII letters only, not the full Unicode case mapping of `toLowerCase`.
- AddProduct.MakePayload: `price` is the typed text. The numeric coercion `Number(price)` (floating point) is left out.
- RecentOrders.RecentOrder: `createdAt` is an integer timestamp. Date parsing, and its NaN for malformed dates, are left out.
- RecentOrders.SortNewestFirstSpec: stability is shown only as SortKeepsSorted (an already sorted list is unchanged). The general tie order of equal timestamps is not stated.
- RecentOrders.StatusBadgeClass looks up own entries only. A status named like an `Object.prototype` member would read that member in the source. Statuses come from the back end's fixed set.
- The orders table's badge map (`components/admin/orders-table.tsx:129-134`, used at line 171 with no fallback) is not part of this model.
- OrdersTable.OrdersTableState.UpdateOrderStatus: the source defines `updateOrderStatus` (`components/admin/orders-table.tsx:73-87`), but nothing in the table calls it. It is modelled as written, yet no user action reaches it. The row's Update button sends only the tracking, through `updateTracking`.
- The orders table declares its search term and status filter (`components/admin/orders-table.tsx:52-53`) but never sets them, so it always shows every order. `OrdersTable.FilteredOrders` and its lemmas model the filter for any term and filter. `OrdersTable.OrdersTableState` keeps the initial "" and "all", and no method changes them.
- Object URLs are opaque `ObjectUrl(file)` tokens. Revoking them is not modelled.
- Busy flags (`loading`, `uploadingImg`) are modelled only by their values after a handler completes. Interleaving of concurrent handlers is not modelled.
- Plain text-field setters (title, price, colors, tags, description, custom boxes and their show/hide buttons) are direct field assignments and are not modelled as separate methods.
- The products and customers tables receive their search term and filter as props from their pages. The model takes them as parameters, and the pages' search boxes are not part of this model.
- ProductsTable.ProductsTableState.HandleEdit and ProductsTable.ProductsTableState.HandleDelete: the source has no error handling there (`components/admin/products-table.tsx:86-98`). A failed fetch or delete ends in an unhandled promise rejection. The model leaves the state unchanged, which is the state the source leaves, but it does not model the rejection itself.
- Text: a `char` is a Unicode scalar value, whereas JavaScript strings are UTF-16 code units. A character outside the Basic Multilingual Plane counts as one `char` here and as two units in JavaScript.
- The orders table's "view items" dialog, its `updatingId` slot (never set), and all rendering, locale and currency formatting are left out.
- The dashboard, login, layout, sidebar, header, stats cards, toolbar and page shells are not part of this model. The customers page's own filtered list is never used.

## Findings

| source | as written | input that shows it | evidently intended | confidence | as-written member | corrected member |
|---|---|---|---|---|---|---|
| components/admin/add-product.tsx:365-372 | `SIZE_PRESETS[category]` reads a plain object, so a category named like an inherited `Object.prototype` member passes the truthiness guard. The code then calls `.map` on a function or on the prototype object, and rendering throws | save the custom category "Constructor", which is stored and selected as "constructor" | only the table's own entries are presets; any other category shows no preset checkboxes | not executed | AddProduct.SizeSectionAsWritten, AddProduct.ConstructorCategoryBreaksSizes | AddProduct.SizeSectionFor, AddProduct.SizeSectionByCategory |
