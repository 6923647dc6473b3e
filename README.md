# APITable admin front end in Dafny

This project models the logic of the APITable admin front end, a React app:

- **The app shell (`App`):** its tabs, the Add User modal with its eight-field form, and the append-only list of users. It also covers the projection of users into rows for the users table.
- **The generic user table (`UserTable`):**
  - It adds an Actions column once, when handlers are given.
  - Its Edit and Delete buttons stop the click event. Delete asks for confirmation.
  - It shows the "Showing x to y of z" summary and the page buttons.
- **The user column list (`getColumns`):** eight fixed columns, plus an actions column when any handler is given. It also covers the role badge and the View, Edit and Delete clicks.
- **The small generic table (`ShadcnTable`).**
- **The product column list:** the brand fallback, the discounted price, the stock colour and the rating stars. It also covers the message that the View button builds line by line.
- **The dashboard:** its state, and the product-loading effect with its two-second timer. It also covers the revenue fold, the five-row previews and the routing of tab changes.

Each source file becomes one module:

| module | file | source |
|---|---|---|
| `AppState` | `app.dfy` | `src/App.tsx` |
| `UserTable` | `user_table.dfy` | `src/components/UserTable.tsx` |
| `UsersColumns` | `users_columns.dfy` | `src/users-columns.tsx` |
| `ShadcnTable` | `shadcn_table.dfy` | `src/components/ShadcnTable.tsx` |
| `ProductsColumns` | `products_columns.dfy` | `src/products-columns.tsx` |
| `Dashboard` | `dashboard.dfy` | `src/components/Dashboard.tsx` |

Four helper modules support them:

- `Wrappers`: `Option`.
- `Text`: decimal digits and ASCII lower-casing.
- `Events`: the trace of effects a click produces.
- `Entities`: the `User`, `UserRow`, `Product` and `Review` records.

**State and effects:**

- Component state that event handlers update becomes a class with `modifies` clauses: `AppState.App` and `Dashboard.DashboardState`.
- Pure projections are functions.
- Code that builds a value step by step is a method.
  - `getColumns` uses `push`. Its `ensures` states the resulting column list directly.
  - `handleView` uses `+=` inside `forEach`. It is proved equal to the specification function `ViewMessage`, and lemmas about that function state which lines appear.

**Browser effects** are a sequence of `Effect` values: `StopPropagation`, `PreventDefault`, `AskConfirm` and `Invoke(action)`. The answer to `window.confirm` is a parameter.

**Other inputs as parameters:**

- The outcome of `fetch`.
- `Date.now()`, as a natural number.
- `new Date().toISOString()`, as a string.

## Model

| member | source | states |
|---|---|---|
| AppState.App.constructor | src/App.tsx:28-43 | The tab is "dashboard", the user list is empty and the modal is closed. All eight draft fields are "". |
| AppState.RequiredInputsGate | src/App.tsx:229-324 | The form submits only when every `required` input is non-empty and the age input holds a whole number of at least 1 (`Submittable`). Clearing any one input blocks the submit, and so does an age of "0". The blank draft of a freshly opened form cannot be submitted. |
| AppState.WithField | src/App.tsx:78-81 | The named field takes the new value. The other seven fields keep theirs. |
| AppState.App.HandleInputChange | src/App.tsx:78-81 | The draft becomes the old draft with only the named field replaced. The tab, the users and the modal flag are unchanged. |
| AppState.NewUser | src/App.tsx:86-97 | The new user's string fields equal the draft's. `age` is the decimal value of the age text, and it is at least 1. `id` is exactly the decimal text of the submit instant (`Date.now().toString()`, no leading zero), and it parses back to that instant. There is no image. |
| AppState.DistinctInstantsDistinctIds | src/App.tsx:88 | Two submitted users have equal ids exactly when they were submitted at the same instant. |
| AppState.App.HandleSubmit | src/App.tsx:83-114 | The new user is appended at the end and every earlier user is kept, in order. The draft is blank and the modal is closed. The "came through the form" invariant `Valid` (every stored user has an age of at least 1, a non-empty all-digit id and a non-empty date of birth) is preserved. |
| AppState.App.UserTableRows | src/App.tsx:67-76 | Under `Valid`, the users table has one row per stored user. Every row's id is a non-empty digit string, and every row's `createdAt` is the user's date of birth, never the clock. |
| AppState.App.OpenUserForm | src/App.tsx:192 | The modal opens. The draft, the users and the tab are untouched. |
| AppState.App.CloseUserForm | src/App.tsx:211 | The × button (and Cancel, line 336) closes the modal. The draft is kept, and the users and the tab are untouched. |
| AppState.App.SetActiveTab | src/App.tsx:137-166 | Only the tab changes. |
| AppState.ScreenFor | src/App.tsx:170-202 | The dashboard is shown iff the tab is "dashboard", and the products view iff it is "products". Any other value shows the users view. |
| AppState.TransformUsersForUserTable | src/App.tsx:67-76 | There is one row per user, in order. Each row copies `id`, `email` and `role`, and `name` is first name, a space and last name. `status` is active. `createdAt` is the date of birth when it is non-empty, otherwise the current time. |
| AppState.TransformAppend | src/App.tsx:67-76 | Adding a user to the end adds exactly that user's row to the end of the rows. |
| AppState.RowsIgnoreClock | src/App.tsx:67-76 | When every user has a date of birth, the rows are the same whatever `new Date().toISOString()` returns. |
| AppState.SubmitAddsOneRow | src/App.tsx:100 | A submit grows the users table by exactly the new user's row, at the end, even though the tables before and after the submit are rendered at different clock readings (App.tsx:74, 199). |
| AppState.AddLovelace | src/App.tsx:83-114 | Filling in the form for "Ada" "Lovelace", age "30", and submitting leaves one user whose age is the number 30. The modal is closed and the draft is blank. |
| AppState.DashboardUserCellsAsWritten | src/App.tsx:171-175 | As written, the dashboard receives the raw users. If its user preview were rendered, the rows would copy id, email and role, and the name cell would always be empty. |
| AppState.NameMissingAsWritten | src/components/Dashboard.tsx:485 | As written, the first row of the dashboard's user preview, if rendered, does not carry the stored user's full name. |
| AppState.DashboardUsers | src/App.tsx:171-175 | The corrected wiring gives one row per user, and each row's name is the user's full name. |
| AppState.PreviewShowsNames | src/components/Dashboard.tsx:482-486 | With the corrected wiring, every previewed user shows its full name. |
| AppState.StandaloneUsersTab | src/components/Dashboard.tsx:264-278 | A dashboard without a parent setter, given the corrected rows, renders the user preview after a click on "Users", and every previewed row carries the user's full name. |
| Text.DecimalString | src/App.tsx:88 | `toString()` of a count or timestamp gives a non-empty string of digits with no leading zero. |
| Text.ParseDecimalString | src/App.tsx:88-91 | Parsing the decimal text of a number gives the number back. |
| Text.DecimalStringInjective | src/App.tsx:88 | Two numbers have the same decimal text iff they are equal. |
| Text.ToLower | src/users-columns.tsx:92 | Each character is lower-cased and nothing else changes. No upper-case letter is left. |
| Text.ToLowerIdempotent | src/users-columns.tsx:92 | Lower-casing twice is the same as lower-casing once. |
| Dashboard.DashboardState.constructor | src/components/Dashboard.tsx:117-174 | The tab is "products" and the headline figures start at their fixed values. Products are the caller's, or none. Users are the caller's, or the five sample rows. Loading is on exactly when no products were passed, and there is no error. |
| Dashboard.DashboardState.LoadProducts | src/components/Dashboard.tsx:176-244 | With products passed in, nothing changes. Otherwise loading ends. A successful fetch stores the list and sets the product count and revenue, and the product-count text parses back to the number of products. A failure sets the fallback error and the one sample product and keeps the figures. |
| Dashboard.DashboardState.TimerFires | src/components/Dashboard.tsx:246-258 | With products passed in, there is no timer. Otherwise the revenue card becomes "$12,432" and the trend 13.2. Without users from the caller, the user count is set to the number of users. |
| Dashboard.RevenueAfterBoth | src/components/Dashboard.tsx:176-262 | The fetch and the timer race: a fetch that lands after the timer leaves the computed revenue, and one that lands before it is overwritten by "$12,432". |
| Dashboard.ScaledPriceFoldSum | src/components/Dashboard.tsx:193 | The `reduce` that adds `price * 100` to an accumulator gives the accumulator plus 100 times the sum of prices. |
| Dashboard.TotalRevenueIsSumOfPrices | src/components/Dashboard.tsx:193 | Revenue is the plain sum of prices: the scaling by 100 cancels. |
| Dashboard.RevenueIgnoresStock | src/components/Dashboard.tsx:193 | Two product lists with the same prices have the same revenue, whatever their stock. |
| Dashboard.SamePricesSameSum | src/components/Dashboard.tsx:193 | Lists with equal prices, position by position, have equal price sums. |
| Dashboard.Preview | src/components/Dashboard.tsx:456 | `slice(0, 5)` keeps min(5, n) items, and they are the first ones in order. |
| Dashboard.PreviewIdempotent | src/components/Dashboard.tsx:456 | Previewing a preview changes nothing. |
| Dashboard.RouteTabChange | src/components/Dashboard.tsx:264-270 | The tab goes to the parent's setter iff one was supplied, and to the local state otherwise. The tab value is unchanged. |
| Dashboard.DashboardState.HandleTabChange | src/components/Dashboard.tsx:264-270 | With a parent setter, the tab is forwarded and the local tab is kept. Without one, the local tab changes. Nothing else changes. |
| Dashboard.UserPreviewTable | src/components/Dashboard.tsx:482-490 | There is one row per previewed user, with its id, name, email and role. |
| Dashboard.EmbeddedDashboard | src/App.tsx:171-175 | Mounted as `App` mounts it (products, users and the tab setter), and after any sequence of tab clicks, fetch outcomes and timer firings: every click goes to the parent in order, the local tab stays "products", and the view is the products preview of the passed list. The user preview is never rendered. |
| Dashboard.DashboardState.View | src/components/Dashboard.tsx:272-494 | The spinner (lines 272-278) shows iff the component is loading its own products. Otherwise, by the choice at lines 442-494, the products preview shows iff the tab is "products", and the users preview otherwise. |
| UserTable.ProcessedColumns | src/components/UserTable.tsx:49-101 | The caller's columns come first, unchanged. One `actions` column is added exactly when a handler is given and no column has id "actions". |
| UserTable.ActionsCountPositive | src/components/UserTable.tsx:56 | Some column has id "actions" iff the count of such columns is positive. |
| UserTable.ActionsColumnOnce | src/components/UserTable.tsx:49-101 | With a handler, the result has an actions column: exactly one when the caller had none, and the caller's count otherwise. |
| UserTable.ProcessedColumnsIdempotent | src/components/UserTable.tsx:49-101 | Processing already processed columns changes nothing. |
| UserTable.ActionsCellButtons | src/components/UserTable.tsx:73-95 | Edit shows iff its handler is given. Delete shows iff its handler is given and the row's id is truthy. Edit comes first. |
| UserTable.ActionButtonClick | src/components/UserTable.tsx:18-31 | A button click stops propagation, then prevents the default, then runs the callback. It calls exactly what the callback calls. |
| UserTable.EditCallsOnce | src/components/UserTable.tsx:75-82 | Edit stops the event, then calls its handler exactly once, with the row's user. |
| UserTable.DeleteGatedByConfirm | src/components/UserTable.tsx:83-94 | Delete asks for confirmation. It calls the handler with the id exactly once when confirmed, and never when declined. |
| UserTable.PaginationSummary | src/components/UserTable.tsx:176-185 | The first row is pageIndex·pageSize+1. The last row is the smaller of (pageIndex+1)·pageSize and the total. |
| UserTable.SummaryMatchesPage | src/components/UserTable.tsx:176-185 | On a page that holds rows, the summary names exactly that page's rows. |
| UserTable.EmptySummary | src/components/UserTable.tsx:177-184 | An empty table reads "Showing 1 to 0 of 0". |
| UserTable.PageButtons | src/components/UserTable.tsx:199-211 | There is one button per page, labelled from 1. A button is highlighted iff its index is the current page. |
| UserTable.OneCurrentPage | src/components/UserTable.tsx:199-211 | Exactly one button is highlighted when the page index is in range, and none otherwise. |
| UsersColumns.GetColumns | src/users-columns.tsx:40-167 | The eight fixed columns come in order, with their headers. The actions column, with an empty header, is pushed last iff any handler is given. No earlier column is an actions column. |
| UsersColumns.RenderCell | src/users-columns.tsx:45-160 | First name, last name, gender, email and phone cells copy the user's field. The age cell is the number. The date cell carries the raw date. The role cell is the role badge. The actions cell holds the action icons, and it is non-empty iff any handler is given. |
| UsersColumns.RoleVariant | src/users-columns.tsx:91-98 | The variant is destructive iff the lower-cased role is "admin", warning iff it is "manager", and secondary otherwise. |
| UsersColumns.RoleVariantIgnoresCase | src/users-columns.tsx:92 | The variant does not depend on letter case. |
| UsersColumns.AdminInCapitals | src/users-columns.tsx:92-98 | "ADMIN" gives destructive and "Manager" gives warning. |
| UsersColumns.RoleBadge | src/users-columns.tsx:99-103 | The badge shows the role as given, with the variant of its lower-cased form. |
| UsersColumns.ActionIcons | src/users-columns.tsx:122-160 | Each of View, Edit and Delete shows iff its handler is given, with no repeats. The cell is empty iff no handler is given. |
| UsersColumns.HandleDelete | src/users-columns.tsx:113-120 | The confirmation is asked iff the delete handler exists, and it comes first. The handler is called once, with the user's id, after it, iff the user also confirms. Nothing else happens. |
| UsersColumns.ClickContract | src/users-columns.tsx:124-159 | Every shown button stops propagation first. View and Edit call their handler once. Delete calls it once iff confirmed. |
| UsersColumns.PlainClickContract | src/users-columns.tsx:124-147 | View and Edit stop the event and call their handler exactly once. |
| UsersColumns.DeleteClickContract | src/users-columns.tsx:148-159 | Delete stops the event, then asks for confirmation. It calls the handler with the user's id iff confirmed, and otherwise calls nothing. |
| ShadcnTable.Render | src/components/ShadcnTable.tsx:15-64 | No data gives "No data available". Otherwise there is one header cell per column and one row per item. Each cell is the column's renderer applied to the item, or the item's field named by the key. |
| ShadcnTable.RowOf | src/components/ShadcnTable.tsx:49-56 | A row has one cell per column. |
| ShadcnTable.RenderAppend | src/components/ShadcnTable.tsx:44-58 | Adding an item to non-empty data adds exactly its row at the end. The header is unchanged. |
| ProductsColumns.Columns | src/products-columns.tsx:30-198 | There are eight columns, in order, with distinct ids: seven bound to product properties, and a display-only "actions" column last. |
| ProductsColumns.BrandText | src/products-columns.tsx:53 | The brand shows as given when present and non-empty, and as "N/A" otherwise. |
| ProductsColumns.PriceCell | src/products-columns.tsx:59-76 | The original price is struck through iff the discount is positive. Without a discount, the shown price is the price. For a discount between 0 and 100, the shown price lies between 0 and the price. |
| ProductsColumns.StatusColor | src/products-columns.tsx:97-101 | Green iff "In Stock", yellow iff "Low Stock", and red otherwise. |
| ProductsColumns.Stars | src/products-columns.tsx:120-133 | There are five stars, and star i is filled iff i < floor(rating). |
| ProductsColumns.ThresholdCount | src/products-columns.tsx:124 | A row of stars filled below a threshold k has k filled stars, clamped to the row's length. |
| ProductsColumns.FilledStars | src/products-columns.tsx:120-127 | floor(rating), clamped to 0..5, stars are filled, and they are the first ones. |
| ProductsColumns.HandleView | src/products-columns.tsx:145-186 | The message built line by line equals `ViewMessage`: the header and the fixed lines, the discount lines, stock/status/rating/description, the truthy extras, then the reviews. |
| ProductsColumns.AppendDiscount | src/products-columns.tsx:152-156 | The discount and discounted-price lines are added iff the discount is positive. |
| ProductsColumns.AppendExtras | src/products-columns.tsx:162-173 | The warranty, shipping, return-policy and minimum-order lines are added, in order, each iff its property is truthy. |
| ProductsColumns.AppendReviewBlocks | src/products-columns.tsx:177-182 | The `forEach` loop adds one four-line block per review, in order. |
| ProductsColumns.ReviewBlocksShape | src/products-columns.tsx:177-182 | Block k holds review k, numbered k+1: its rating, reviewer and comment, at lines 4k to 4k+3. |
| ProductsColumns.FixedSectionsKinds | src/products-columns.tsx:146-160 | The always-present lines hold no optional kind of line. |
| ProductsColumns.OptionalLine | src/products-columns.tsx:145-183 | Each optional kind of line is in the message iff its condition holds. |
| ProductsColumns.DiscountShown | src/products-columns.tsx:152-156 | The discount and discounted-price lines appear iff the discount is positive. |
| ProductsColumns.WarrantyShippingShown | src/products-columns.tsx:162-167 | The warranty and shipping lines each appear iff their property is truthy. |
| ProductsColumns.ReturnMinimumShown | src/products-columns.tsx:168-173 | The return-policy and minimum-order lines each appear iff their property is truthy. A minimum of 0 counts as absent. |
| ProductsColumns.ReviewsHeaderShown | src/products-columns.tsx:175-176 | The reviews header appears iff there is at least one review, and it carries their count. |

## Left out

- **Network I/O:** `fetch`, `response.json` and the `setTimeout`/`clearTimeout` scheduling are not modelled. The fetch outcome is a parameter of `Dashboard.DashboardState.LoadProducts`. The timer is the event `Dashboard.DashboardState.TimerFires`, without its delay or cancellation on unmount.
- **App's own product fetch** (`src/App.tsx:46-64`), with its loading spinner and error page (`src/App.tsx:116-132`), is not modelled. While that fetch is loading, `App` renders only a spinner, and once it fails, only the error page, so none of the tabs or handlers can run. The `AppState` model begins after a successful product fetch, and `App` hands the product list on unchanged.
- **The `loading` flag:** `LoadProducts` sets it for the whole fetch. The model runs the effect to completion, so only its final value is observable.
- **Number and date formatting** are not modelled: `toFixed`, the `$` and thousands separators, `toLocaleDateString`, "Invalid Date" and `toISOString`. Amounts stay `real` values and dates stay their raw strings. The current time is a parameter.
- **Floating point:** prices, discounts and ratings are exact reals. Rounding in `price * 100` and in the division by 100 is not modelled.
- `Text.ToLower`: only ASCII letters are lower-cased. Unicode case mapping is not modelled.
- `Text.DecimalString` and `Text.ParseDecimal`: exact decimal text of unbounded naturals. JavaScript numbers lose precision above 2^53 and `toString` switches to exponent form from 1e21. The timestamps, counts and ages the app formats stay far below both limits.
- `AppState.Submittable`: the age text must be all digits. The browser's numeric input also accepts forms such as `1.0` or `2e1`, where `parseInt` stops at the first non-digit. Those forms are not modelled.
- `AppState.App.HandleSubmit`: requires the modal open and a draft that passes `Submittable` (every `required` input filled and age ≥ 1). The handler itself checks nothing; the form's `required` and `min="1"` attributes block submission otherwise. `Submittable` is necessary for submission but is not the whole browser check: the browser also rejects a malformed address in the `type="email"` input (`src/App.tsx:281`), and the model does not check email syntax.
- **`AppState.ToRow`:** one `new Date().toISOString()` value is used for the whole transform, not one per user.
- **The table library:** sorting, row selection and the internal page state of `useReactTable` are not modelled. The page index, page size and page count are inputs to the pagination members.
- **Product fields not modelled:** `meta`, `dimensions`, `tags`, `sku` and `weight` are dropped from `Product` and from the sample product. No modelled operation reads them.
- **`src/components/ProductTable.tsx` is not part of this model.** It is the table the products tab renders.
- **Charts and static markup:** the sales chart data, the stat-card layout and the search box have no behaviour.
- **The users tab's column list:** `src/App.tsx:7` imports a `columns` export that `src/users-columns.tsx` does not have; it exports only `getColumns` (line 40). No member wires a column list into the users table; `UsersColumns` models `getColumns` on its own.
- **Closing the modal keeps the draft.** Forms like this often clear their fields when closed, but the × and Cancel handlers here only flip the flag. `AppState.App.CloseUserForm` follows the code.
- **Revenue is the sum of prices.** One might expect revenue to be the sum of price × stock, but the code's `reduce` adds prices only. `Dashboard.TotalRevenue` follows the code, and `Dashboard.RevenueIgnoresStock` states the consequence.

## Findings

| source | as written | input that shows it | evidently intended | confidence | as-written member | corrected member |
|---|---|---|---|---|---|---|
| src/App.tsx:171-175 | `App` passes its raw `users` to `Dashboard`. Those records have `firstName`/`lastName` but no `name`, and the dashboard's user preview prints `user.name` (src/components/Dashboard.tsx:485). | None from `App` itself: the mismatch is latent. `App` always passes its tab setter, so the dashboard forwards every tab click, its local tab stays "products", and the user preview is never rendered (`Dashboard.EmbeddedDashboard`). The empty name cells appear for any caller that renders the dashboard with these records and no setter, then clicks "Users". | Pass the rows that the users tab shows (`transformUsersForUserTable(users)`), whose `name` is the full name. Names then appear wherever this preview is rendered, which is when the dashboard has no parent setter (`AppState.StandaloneUsersTab`). | medium (latent, unreachable from `App`), not executed | AppState.DashboardUserCellsAsWritten (exhibited by AppState.NameMissingAsWritten; unreachable from `App` by Dashboard.EmbeddedDashboard) | AppState.DashboardUsers (proved by AppState.PreviewShowsNames) |
