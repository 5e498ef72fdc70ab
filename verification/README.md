# ClaudStore front-end rules, modelled in Dafny

ClaudStore is a small shop front-end built from three React views:

- **product list** (`ListaProductos.jsx`): shows the catalogue and sells one unit at a time.
- **registration form** (`Registrar.jsx`): creates, edits and lists products.
- **reports** (`Reportes.jsx`): charts sales over a date range.

This project models the deterministic rules inside these views as pure Dafny functions over immutable datatypes, and proves properties about them.

- The **product list** model covers:
  - the derived filtered list: a case-insensitive name search, then a stock tier "todos" / "bajo" / "agotado";
  - the image-path resolver;
  - the sell guard and the per-product in-flight map;
  - the stock badges;
  - the throttle on refreshing when the user returns to the product section.
- The **registration form** model covers:
  - the aggregating validator;
  - the stock class of a table row;
  - the list of active products;
  - the edit / cancel / submit state machine, including the create-versus-update target;
  - the lifetime of the preview's object URL, kept as a registry of live handles inside the form state.
- The **reports** model covers:
  - the `YYYY-MM-DD` key of each series point;
  - the stable chronological sort;
  - the all-zero fallback report;
  - the guard that skips loading while a date of the range is missing.

Files:

- `wrappers.dfy`: `Option`.
- `seqs.dfy`: `Filter`, subsequences and `Join`.
- `text.dfy`: the JavaScript string operations the views use, namely `trim`, `toLowerCase`, `includes`, `String(n)` and `padStart`.
- `catalog.dfy`: the product record and `getImgSrc`.
- `product_list.dfy`, `product_form.dfy`, `reports.dfy`: the three views.

Modelling conventions:

- **Numbers** are integers.
- **Form fields** (`Field`) are either text the user typed, together with the number it parses to (`None` for NaN), or a number copied from a product. This keeps JavaScript truthiness (`!0` is true, `!"0"` is false) and NaN comparisons apart.
- **The API base URL** is a parameter (`apiBase`). `Registrar.jsx` hard-codes its own address at line 4, while the product list reads `src/config/apiBase.js`, so the two views can disagree.
- **Clocks** are plain integers passed in.
- **Outcomes of requests** (ok or failure) are passed in as values.

## Model

| member | source | states |
|---|---|---|
| Text.Trim | src/components/ListaProductos.jsx:72 | the trimmed search is empty exactly when the search is only white space; otherwise it starts and ends with a non-space; it is a slice of the search with only white space cut from either end |
| Text.ToLower | src/components/ListaProductos.jsx:74 | lower-casing keeps the length and maps every character by the ASCII/Latin-1 lower-case rule |
| Text.Contains | src/components/ListaProductos.jsx:74 | `includes` holds exactly when the needle occurs at some position of the text |
| Text.PadStart | src/components/Reportes.jsx:43-46 | the padded text has length max(original, width), ends with the original, and is fill characters before it |
| Text.NatToString | src/components/Reportes.jsx:43 | the decimal text of a number is digits only, has no leading zero, reads back as the number, and has 4 digits for years 1000..9999 |
| Seqs.FilterCount | src/components/Registrar.jsx:236 | `filter` keeps every occurrence of a kept element and none of a dropped one |
| Seqs.Join | src/components/Registrar.jsx:79 | the joined messages start with the first message, are non-empty when it is, and a single message is itself |
| Seqs.JoinSnoc | src/components/Registrar.jsx:79 | joining two or more messages is joining all but the last, then the separator, then the last message |
| Catalog.StripLeadingSlash | src/components/ListaProductos.jsx:46 | at most one leading "/" is removed and nothing else changes |
| Catalog.ImgSrc | src/components/ListaProductos.jsx:42-47 | no source exactly for a null or empty path; an "http" path is kept; any other becomes `apiBase + "/"` followed by the path, its one leading "/" dropped when it has one and kept whole otherwise |
| Catalog.ImgSrcIdempotent | src/components/Registrar.jsx:182-185 | with an absolute base, resolving a resolved source again changes nothing |
| ProductList.FilterProducts | src/components/ListaProductos.jsx:68-90 | the two-stage pipeline (name filter only for a non-blank trimmed search, then the tier filter) equals one filter by "meets the search and the tier" |
| ProductList.FilterProductsSelects | src/components/ListaProductos.jsx:68-89 | the result is an order-preserving subsequence of the products, holds exactly the shown products (completeness and soundness), and is the whole list for "todos" with a blank search |
| ProductList.SearchStageIsFilter | src/components/ListaProductos.jsx:71-76 | the optional name stage is a filter by "blank search or name matches" |
| ProductList.TierBounds | src/components/ListaProductos.jsx:78-87 | with "bajo" every result has 0 < stock <= 5; with "agotado" every result has stock 0 |
| ProductList.SearchIgnoresCase | src/components/ListaProductos.jsx:72-75 | a product that fits the tier is shown iff its lower-cased name contains the lower-cased search; lower-casing either side first changes nothing |
| ProductList.SearchKeepsSpaces | src/components/ListaProductos.jsx:72-75 | the search is matched untrimmed, so a non-blank search containing a space never finds a name without spaces |
| ProductList.ClearFilters | src/components/ListaProductos.jsx:173-176 | after clearing, every product list is shown in full and the clear button (line 234) is hidden |
| ProductList.Badges | src/components/ListaProductos.jsx:271-279 | "Stock Bajo" iff 0 < stock <= 3, "Sin Stock" iff stock is 0, never both |
| ProductList.BadgesAgreeWithTiers | src/components/ListaProductos.jsx:271-279 | a "Stock Bajo" card passes the "bajo" filter, "Sin Stock" iff the "agotado" filter, and 4 units is "bajo" without the badge |
| ProductList.BeginSale | src/components/ListaProductos.jsx:125-143 | without stock only the alert, no request and no map change; otherwise this product's flag is raised (its button disabled), other flags unchanged, one unit requested |
| ProductList.FinishSale | src/components/ListaProductos.jsx:159-161 | the product's flag is lowered and every other flag keeps its value |
| ProductList.Sell | src/components/ListaProductos.jsx:125-162 | a request is made iff stock > 0, and it is `{id_producto, cantidad: 1}` for this product; without one the map is unchanged; with one the flag ends false on success and on failure, and a silent reload follows only a success |
| ProductList.OverlappingSalesIndependent | src/components/ListaProductos.jsx:319-321 | finishing one product's sale leaves another product's sale in flight and its button disabled, and re-enables the first |
| ProductList.SellEnabled | src/components/ListaProductos.jsx:319-321 | the sell button is enabled iff the product has stock and no sale of it is in flight |
| ProductList.SellGuardsDoubleClick | src/components/ListaProductos.jsx:125-161 | an enabled button starts a sale, is disabled while that sale is in flight, and is enabled again once it finishes |
| ProductList.Mount | src/components/ListaProductos.jsx:37-39 | the throttle is stamped with the mount time: for 1000 ms after it, entering the product section does not refetch, and entering it from another section later does |
| ProductList.RecordLoad | src/components/ListaProductos.jsx:102-123 | a load stamps the throttle with its own time: no re-entry within the next 1000 ms refetches, and a re-entry from another section after that does |
| ProductList.ChangeSection | src/components/ListaProductos.jsx:54-65 | a silent refetch happens iff the section changes to "productos" and more than 1000 ms passed; it stamps the new time; otherwise nothing changes |
| ProductList.NoRefetchWithinGap | src/components/ListaProductos.jsx:54-65 | after a refetching re-entry, no re-entry within 1000 ms refetches again |
| ProductForm.FailedChecks | src/components/Registrar.jsx:72-76 | the pushed errors are exactly the failing checks, in the order name, cost, sale price, stock |
| ProductForm.FailedChecksAgree | src/components/Registrar.jsx:73-76 | presence rules that agree on every check produce the same error list |
| ProductForm.Validate | src/components/Registrar.jsx:71-83 | accepted iff no check fails; on rejection the message is all failing messages joined by ". ", non-empty, starting with the first failure's message |
| ProductForm.AcceptedIff | src/components/Registrar.jsx:71-83 | accepted iff each of the four checks passes |
| ProductForm.AcceptedIffFields | src/components/Registrar.jsx:71-76 | accepted iff the name is not blank, cost and price are present and not <= 0, and the stock is present and not < 0 |
| ProductForm.ValidateFormAsWritten | src/components/Registrar.jsx:71-83 | with truthiness as presence: accepted iff trimmed name non-empty, cost and price truthy and not <= 0, stock truthy and not < 0; the rejection message lists every failure in order |
| ProductForm.ValidateForm | src/components/Registrar.jsx:71-83 | the same validator with "not an empty input" as presence; accepted iff the four conditions hold, messages as above |
| ProductForm.ValidatorsDifferOnlyOnCopiedZeroStock | src/components/Registrar.jsx:76 | the two validators agree on every form whose stock is not a copied number 0 |
| ProductForm.EditedValidProductAccepted | src/components/Registrar.jsx:119-129 | a product with a non-blank name, positive cost and price and stock >= 0, loaded for editing, passes the corrected validator |
| ProductForm.EditedSoldOutProductRejectedAsWritten | src/components/Registrar.jsx:121-129 | such a product with stock 0, loaded for editing, is rejected by the view's validator with "El stock no puede ser negativo" |
| ProductForm.EmptyFormRejected | src/components/Registrar.jsx:14-22 | the initial empty form is rejected with all four messages in order |
| ProductForm.StockClassOf | src/components/Registrar.jsx:189-194 | exactly one class: "alto" iff > 20, "medio" iff 6..20, "bajo" iff <= 5 |
| ProductForm.StockClassMonotone | src/components/Registrar.jsx:189-194 | more stock never gives a lower class |
| ProductForm.ClassName | src/components/Registrar.jsx:191-193 | each class has its own CSS name: "stock-alto", "stock-medio", "stock-bajo" |
| ProductForm.StockClassNameOf | src/components/Registrar.jsx:189-194 | `getStockClass` end to end: "stock-alto" iff > 20, "stock-medio" iff 6..20, "stock-bajo" iff <= 5 |
| ProductForm.ActiveProducts | src/components/Registrar.jsx:236-238 | the listed products are an order-preserving subsequence holding exactly those with `activo !== false`, each as many times as in the input, so the count at line 238 is right; all of them when none is deactivated |
| ProductForm.ListPanelOf | src/components/Registrar.jsx:236-280 | the table shows iff some product is active, with exactly the active ones; the warning shows iff none is active and nothing is loading |
| ProductForm.DeactivatedNotListed | src/components/Registrar.jsx:252 | a product with `activo === false` is never a table row |
| ProductForm.Initial | src/components/Registrar.jsx:8-22 | the mounted view is in create mode with the empty form, no preview, no live handle, both banners empty, and keeps the preview discipline |
| ProductForm.ReleasePreview | src/components/Registrar.jsx:167 | the current preview, if any, is no longer live; nothing else in the registry changes |
| ProductForm.PreviewEffect | src/components/Registrar.jsx:198-200 | when the preview changed, the cleanup for the old one leaves it not live; otherwise the state is untouched |
| ProductForm.ChooseImage | src/components/Registrar.jsx:53-69 | the file is stored, a preview exists iff a file was chosen, banners clear, the old preview is revoked, and at most one handle stays live |
| ProductForm.ChangeText | src/components/Registrar.jsx:63-68 | the named field (name, cost, sale price or stock) takes the typed text and every other field is unchanged; the banners clear; mode, preview and registry are unchanged |
| ProductForm.FieldFrom | src/components/Registrar.jsx:124-126 | `?? ""`: a missing number becomes the empty input; a present one keeps its value and text, and is truthy exactly when it is not 0 |
| ProductForm.Edit | src/components/Registrar.jsx:119-139 | edit mode, the product's id, name and stock copied, cost and sale price copied with a missing one as the empty input, no file, the preview revoked and cleared, banners cleared, no handle live |
| ProductForm.Cancel | src/components/Registrar.jsx:165-180 | create mode, the empty form, no preview, banners cleared, no handle live |
| ProductForm.CancelIdempotent | src/components/Registrar.jsx:165-180 | cancelling twice is cancelling once |
| ProductForm.CancelForgetsEdit | src/components/Registrar.jsx:119-180 | editing then cancelling ends where cancelling alone ends |
| ProductForm.Unmount | src/components/Registrar.jsx:198-200 | after unmounting no preview handle stays live |
| ProductForm.SubmitBody | src/components/Registrar.jsx:89-94 | the parts "nombre" (trimmed), "costo", "precio_venta" and "stock" with the fields' texts, in that order, plus an "imagen" part last and only when a file was chosen |
| ProductForm.IdText | src/components/Registrar.jsx:98 | a missing id interpolates as "null"; a present one as its canonical decimal text (digits with no leading zero, after a "-" when negative) that reads back as the id |
| ProductForm.Submit | src/components/Registrar.jsx:85-99 | under a presence rule (truthiness is the view as written, "not an empty input" the corrected one): nothing is sent iff that validator rejects, which sets the error; otherwise PUT to `/productos/{id}` in edit mode, POST to `/productos` otherwise, with the form body and a non-empty name |
| ProductForm.EditThenSubmitUpdates | src/components/Registrar.jsx:98-99 | under either validator, submitting an edited product that passes it sends PUT to that product's own URL |
| ProductForm.EditedSoldOutSubmit | src/components/Registrar.jsx:76-99 | a valid sold-out product, edited and submitted, is blocked with the stock message by the view as written and sent as an update by the corrected validator |
| ProductForm.SubmitResolved | src/components/Registrar.jsx:101-113 | on success the form is cancelled and the banner names the operation the mode chose; on failure only the error banner is set |
| ProductForm.PreviewZoneOf | src/components/Registrar.jsx:222-226 | the new preview wins; without one, a non-empty current image is always shown, resolved by `getImgSrc`; no image exactly when there is neither |
| Reports.DayOrOne | src/components/Reportes.jsx:46 | the day default: a missing or zero day is 1, any other day is kept |
| Reports.Pad2Digits | src/components/Reportes.jsx:43-46 | a 0..99 number padded to two digits is two digits that read back as it |
| Reports.FechaText | src/components/Reportes.jsx:43-46 | the key of a calendar date is ten characters: four digits of the year, a dash, two of the month, a dash, two of the day, each reading back as that part |
| Reports.FechaTextRoundTrip | src/components/Reportes.jsx:43-51 | the key of a calendar date is ten characters and parses back as that date, so sorting the parsed texts sorts the dates |
| Reports.FechaTextInjective | src/components/Reportes.jsx:43-46 | distinct calendar dates get distinct keys |
| Reports.ToPoint | src/components/Reportes.jsx:42-50 | a point has its bucket's year and month, the day defaulting to 1, and the three amounts unchanged |
| Reports.MissingDayIsFirst | src/components/Reportes.jsx:46 | a bucket without a day (or with day 0) gets a key ending in "-01" |
| Reports.MapPoints | src/components/Reportes.jsx:41-50 | one point per item, position by position |
| Reports.Insert | src/components/Reportes.jsx:51 | inserting adds exactly the one point |
| Reports.InsertSorted | src/components/Reportes.jsx:51 | inserting into a date-sorted series keeps it sorted |
| Reports.InsertWithDate | src/components/Reportes.jsx:51 | the inserted point goes before the points of its own date; other dates are unaffected |
| Reports.SortByDate | src/components/Reportes.jsx:51 | the sorted series is a permutation of the input, ascending by date, and equal dates keep their input order |
| Reports.StableSortUnique | src/components/Reportes.jsx:51 | two date-sorted series with the same points per date, in the same order, are equal |
| Reports.StableSortCharacterized | src/components/Reportes.jsx:51 | every stable chronological sort of a series, the browser's included, gives `SortByDate` |
| Reports.TransformSeries | src/components/Reportes.jsx:41-51 | same length, a permutation of the mapped items, ascending by date, equal dates in input order |
| Reports.ApplyResponse | src/components/Reportes.jsx:53-64 | a good response is stored with only the series replaced by its transformation; a failure or missing series gives totals 0, no top sellers, an empty series |
| Reports.LoadReports | src/components/Reportes.jsx:29-34 | nothing is requested, and nothing changes, iff either date is missing; otherwise the range and period are requested and the response is stored |
| Reports.LoadedSeriesSorted | src/components/Reportes.jsx:41-64 | whatever the server answers, a stored series is in date order |

## Left out

- All `fetch` calls, response parsing, `alert`, `window.confirm` and `window.scrollTo` are left out. They are I/O, so a request becomes a value and its result an outcome parameter.
- React state, effects, memoisation and rendering are left out. The effect order that matters is modelled explicitly: the preview cleanup, and the re-entry effect keyed on the section.
- The loading flags and spinners are left out, except where the "no active products" warning depends on `loading`.
- The 5-second timer that clears the banners (`Registrar.jsx:28-36`) is left out, because it is a clock effect.
- The sell button's label is left out, because it is presentation. Its enablement is modelled.
- The product list's initial and silent loads (`ListaProductos.jsx:94-123`) are left out beyond stamping the throttle. They only store the fetched list.
- `handleDesactivar` (`Registrar.jsx:141-163`) is left out. It is a confirm dialog followed by a DELETE request and a reload; the deactivation itself happens on the server.
- `reiniciarReportes` (`Reportes.jsx:74-95`) is left out. It is a confirm dialog, a DELETE request and a reload.
- The default 30-day range and `toISOString` are left out. Dates enter as abstract instants, because `Date` is not modelled.
- `cargarProductos` in `Registrar.jsx` and its error banner are left out, because they are I/O.
- `parseFloat`, `parseInt` and `Number` are not modelled as floating point. A typed field carries its parse result as an optional integer, so fractional amounts are not represented.
- Text.ToLower: maps ASCII and Latin-1 capitals only, not the full Unicode case mapping of `toLowerCase`.
- Reports.SortByDate: sorts by the date each key denotes. It does not model what `new Date` does with keys that are not calendar dates (`Invalid Date` makes the comparator return NaN), nor years outside 1000..9999, nor days past the end of their month (such as "2024-02-30"), which browsers read differently.
- Product names and stock are taken to be present. With a null name and a non-blank search, the list filter's `nombre.toLowerCase()` (`ListaProductos.jsx:74`) would throw; that case is not modelled. `handleEditar` turns a null name or stock into "" (`Registrar.jsx:123`, `Registrar.jsx:126`), which `ProductForm.Edit` does not represent, because its product always has a number for the stock.
- ProductForm.Submit: the browser's own constraint validation of the inputs (`required`, `min`, `step` at `Registrar.jsx:211-215`, on a form without `noValidate`) is not modelled. The browser refuses, before `handleSubmit` runs and without setting a banner, a form with an empty field, a cost or sale price below 0.01 or not a multiple of 0.01, or a stock below 0 or not a whole number. The validator's banner is therefore only reached for forms that pass those checks. A copied stock of 0 passes them (value "0" with `min="0"`), so the finding below is unaffected.
- `Intl.NumberFormat` currency formatting, recharts and react-datepicker are left out, because they are foreign UI libraries.
- `src/App.js` and `Navbar.jsx` are left out. They hold routing and a menu toggle, with no rules.
- `src/config/apiBase.js` is not modelled; its base URL is the `apiBase` parameter.
- Server-side behaviour (stock decrement, soft delete, aggregation, top five) is not part of this model.

## Findings

| source | as written | input that shows it | evidently intended | confidence | as-written member | corrected member |
|---|---|---|---|---|---|---|
| src/components/Registrar.jsx:76 | `!formData.stock` treats the number 0 that `handleEditar` copies from a product (line 126) as a missing stock. Editing a sold-out product therefore fails with "El stock no puede ser negativo". | Edit a product with name "Agua", cost 10, sale price 15 and stock 0, then submit without retyping the stock. | Only an empty stock input counts as missing, so a stock of 0 is accepted, as the input's `min="0"` and a typed "0" already allow. | not executed | ProductForm.EditedSoldOutProductRejectedAsWritten | ProductForm.EditedValidProductAccepted |

`ProductForm.ValidateFormAsWritten` is the view's validator as written. `ProductForm.ValidateForm` is the corrected validator. `ProductForm.Submit` takes the presence rule as a parameter: with truthiness it is `handleSubmit` as written, with "not an empty input" it is the corrected form. `ProductForm.EditedSoldOutSubmit` shows the two side by side.
