# FrontEnd-Sercon list pages and forms, in Dafny

This project models the small amount of real logic in the Sercon inventory
dashboard. Everything else in that dashboard is React/Next.js UI glue.

**The list synchronisation controller.** The insumos, proveedores and
almacenes pages do not share code. Each repeats the same state, effects,
`reloadTable` and `applyPagination` (src/app/dashboard/customers/page.tsx:203-256
and 512-514, src/app/dashboard/proveedores/page.tsx:33-99 and 133-135,
src/app/dashboard/almacenes/page.tsx:28-77 and 115-117). The model factors
that repeated logic into one class, `ListController<R>`, parameterised by
the page's name field. Each page holds:

- a snapshot of the collection fetched from the backend;
- a filtered copy of it. The copy keeps the records whose name field,
  lower-cased, contains the lower-cased filter text. The name fields are
  `nombre`, `nombre_empresa` and `nombre_almacen`.
- `page` and `rowsPerPage`, which choose the slice of the filtered copy the
  table shows.

`reloadTable` replaces the snapshot and the filtered copy on success and
changes nothing when it throws. A React effect keyed on the filter text and
on the snapshot re-derives the filtered copy.

**The form validator and submit state machines.**

- `AddAlmacenModal` checks its draft against `AlmacenSchema`. On a failed
  parse, a `forEach` loop folds the Zod issues into a field → message
  dictionary. Otherwise the modal POSTs the draft. The submit has four
  outcomes: invalid, HTTP ok, HTTP not ok, exception.
- `NombreModal` does the same for one name field.
- The insumos page also has a `FechaModal` guard, which needs both dates.
- The proveedores page has a role gate.
- The almacenes page shows either its add button or a link home, depending
  on the stored role.

Modules:

- `JsText` (js_text.dfy) holds the JavaScript built-ins the code relies on:
  ASCII `toLowerCase`, `includes`, `Array.prototype.slice` with its
  negative and clamped arguments, and `join`.
- `ListSync` (list_sync.dfy) holds the pure `Filter` and `ApplyPagination`
  with their lemmas, and the class `ListController<R>` that is
  parameterised by the page's name projection.
- `Validation` (validation.dfy) holds the schema issue model, the fixed
  code → message table, the fold specified as `ErrorMap`, and the loop
  `FoldErrors` proved equal to it.
- `AlmacenForm` (almacen_form.dfy) holds `AlmacenSchema`,
  `initialFormData`, the field rules stated independently of the schema,
  and the class `AddAlmacenModal`.
- `CustomersPage`, `ProveedoresPage` and `AlmacenesPage` (one file each)
  hold each page's record, name projection and page-specific state.
  `AlmacenesPage.AlmacenesPage.SubmitModal` connects the modal's callbacks
  to the list controller.

The backend is not modelled. These inputs become parameters instead:

- what `fetch`/`response.json()` produced: `FetchOutcome`;
- how the POST ended: `HttpOutcome`;
- what `localStorage.getItem('rol')` returned: `Option<string>`;
- whether Zod's e-mail regex accepts a string: `emailOk`.

Callbacks a component invokes (`reloadTable`, `notify`, `onClose`,
`onSubmit`) are returned as an ordered sequence of calls.

**What a reload does to the filtered copy.** A successful `reloadTable`
does not recompute the filtered copy itself:

- it sets the filtered copy to the raw fetched data
  (src/app/dashboard/customers/page.tsx:251-252);
- the filter effect recomputes it on the next render, because the
  snapshot changed.

The model keeps these two steps apart. `ListController.ReloadTable` sets both views
to the data. `ListController.FilterEffect` is a separate step, and
`ReloadThenFilter` composes the two.

**The validation library assumption.** Zod's issue order is an assumption
about the library, not something the repository shows:

- A non-string value gives exactly one `invalid_type` issue.
- A string is run through `min`, `max`, `regex` or `email` in declaration
  order, one issue per failing check.
- The `refine` predicate then runs even when an earlier check failed.
- Fields report in declaration order, each with the path `[key]`.

## Model

Paths are relative to the repository root.

| member | source | states |
|---|---|---|
| JsText.LowerChar | src/app/dashboard/customers/page.tsx:232 | One character's lower-case form: never an upper-case letter, a letter exactly when the input is, upper-case letters shifted to their lower-case partner, everything else unchanged |
| JsText.ToLower | src/app/dashboard/customers/page.tsx:232 | Lower-casing keeps the length and maps each character through ASCII case mapping; non-letters are unchanged |
| JsText.ToLowerIdempotent | src/app/dashboard/customers/page.tsx:232 | Lower-casing an already lower-cased string changes nothing |
| JsText.Includes | src/app/dashboard/customers/page.tsx:232 | The empty needle is always included; an included needle is no longer than the haystack |
| JsText.IncludesIff | src/app/dashboard/customers/page.tsx:232 | `includes` holds exactly when the needle occurs at some index of the haystack (both directions) |
| JsText.RelativeIndex | src/app/dashboard/customers/page.tsx:513 | A `slice` argument becomes a position in `[0, len]`: in-range values stay, larger ones clamp to `len`, negative ones count from the end and clamp to 0 |
| JsText.Slice | src/app/dashboard/customers/page.tsx:513 | `slice` never fails and returns the contiguous run of the array from the resolved start to the resolved end, empty when the end does not lie past the start |
| JsText.Join | src/app/dashboard/customers/page.tsx:58 | Joining a one-element path gives that element; joining no parts gives the empty string |
| ListSync.Matches | src/app/dashboard/customers/page.tsx:232 | The filter predicate: the empty text matches every record, and a matching text is never longer than the record's name |
| ListSync.Filter | src/app/dashboard/customers/page.tsx:231-233 | The filtered view is no longer than the snapshot and every record in it matches the filter text |
| ListSync.FilterPositions | src/app/dashboard/customers/page.tsx:231-233 | Gives the strictly increasing positions in the snapshot at which the kept records stand |
| ListSync.FilterIsSubsequence | src/app/dashboard/customers/page.tsx:231-234 | The filtered view is an order-preserving subsequence of the snapshot |
| ListSync.FilterMembership | src/app/dashboard/customers/page.tsx:231-233 | A record is in the filtered view exactly when it is in the snapshot and matches |
| ListSync.FilterAppend | src/app/dashboard/customers/page.tsx:231-233 | Filtering decides record by record: the filter of a concatenation is the concatenation of the filters |
| ListSync.FilterKeepsMatching | src/app/dashboard/customers/page.tsx:231-233 | A list whose records all match passes through the filter unchanged |
| ListSync.FilterEmptyText | src/app/dashboard/customers/page.tsx:231-233 | An empty filter text keeps every record |
| ListSync.FilterIdempotent | src/app/dashboard/customers/page.tsx:231-233 | Filtering the filtered view again with the same text gives the same view |
| ListSync.FilterIgnoresCase | src/app/dashboard/customers/page.tsx:232 | The filter text's case does not matter |
| ListSync.ApplyPagination | src/app/dashboard/customers/page.tsx:512-514 | The page is never longer than the rows and is the run from the resolved `page*rowsPerPage` to the resolved `page*rowsPerPage + rowsPerPage`, for any integers |
| ListSync.PaginationIsClippedSlice | src/app/dashboard/customers/page.tsx:512-514 | For non-negative arguments the page is `rows[p*n .. p*n+n]` clipped to the length of `rows`: at most `n` records, record `k` is `rows[p*n+k]`, and (for `n > 0`) it is empty exactly when `p*n` is at or past the end |
| ListSync.SecondPageOfSeven | src/app/dashboard/almacenes/page.tsx:115-117 | Seven records shown five per page: page 1 holds records 5 and 6 |
| ListSync.PagesTile | src/app/dashboard/proveedores/page.tsx:133-135 | Consecutive pages laid end to end are the prefix of the view, with no record skipped or repeated |
| ListSync.ListController.constructor | src/app/dashboard/proveedores/page.tsx:33-37 | Initial state: empty snapshot and view, `page = 0`, `rowsPerPage = 5`, empty filter text, view settled |
| ListSync.ListController.ReloadTable | src/app/dashboard/customers/page.tsx:247-256 | On success both snapshot and filtered view become the data; on an exception neither changes; filter text and paging untouched |
| ListSync.ListController.FilterEffect | src/app/dashboard/customers/page.tsx:229-235 | The filtered view becomes the filter of the snapshot; nothing else changes |
| ListSync.ListController.ChangeFilter | src/app/dashboard/customers/page.tsx:229-237 | A new filter text leaves the view settled on it and does not change `page`, `rowsPerPage` or the snapshot |
| ListSync.ListController.SetPage | src/app/dashboard/customers/page.tsx:494-495 | Only `page` changes |
| ListSync.ListController.SetRowsPerPage | src/app/dashboard/customers/page.tsx:496-498 | Only `rowsPerPage` changes |
| ListSync.ListController.VisibleRows | src/app/dashboard/customers/page.tsx:237 | The rows handed to the table are no more than the filtered view holds, and no more than `rowsPerPage` |
| ListSync.ListController.Count | src/app/dashboard/customers/page.tsx:493 | The table count as written, the snapshot length, is at least the settled view's length |
| ListSync.ListController.FilteredCount | src/app/dashboard/customers/page.tsx:493 | The corrected count, the view's length, never exceeds the count as written |
| ListSync.ReloadThenFilter | src/app/dashboard/customers/page.tsx:229-256 | A successful reload followed by the effect React runs next leaves the snapshot as the data and the view as its filter |
| ListSync.ReloadWithoutFilter | src/app/dashboard/customers/page.tsx:247-256 | With an empty filter text a successful reload alone leaves the view settled |
| ListSync.ReloadTwice | src/app/dashboard/almacenes/page.tsx:68-77 | Reloading twice from an unchanged collection ends the same as reloading once |
| ListSync.CentExample | src/app/dashboard/almacenes/page.tsx:51-56 | The text "cent" over the names "Central" and "Norte" keeps "Central" only |
| ListSync.SnapshotCountOffersEmptyPage | src/app/dashboard/customers/page.tsx:493 | On a settled controller over "Central" and "Norte" with filter "cent", one row per page and page 1, the first row of the page is below `Count()` yet `VisibleRows()` is empty |
| ListSync.FilteredCountOffersOnlyNonEmptyPages | src/app/dashboard/customers/page.tsx:493 | On any controller, a page whose first row is below `FilteredCount()` shows at least one row, the view's record at `page*rowsPerPage` first |
| Validation.ErrorKey | src/components/dashboard/almacenes/AddAlmacenModal.tsx:80 | `err.path.join('.')`: a one-element path gives that element as the key, an empty path the empty key |
| Validation.ErrorMessage | src/components/dashboard/almacenes/AddAlmacenModal.tsx:78-92 | `too_small`, `too_big` and `invalid_type` give the fixed Spanish messages; any other code keeps the issue's own message |
| Validation.ErrorMapKeys | src/components/dashboard/almacenes/AddAlmacenModal.tsx:76-94 | A key is in the folded dictionary exactly when some issue's joined path is that key |
| Validation.ErrorMapLastWins | src/components/dashboard/almacenes/AddAlmacenModal.tsx:76-94 | An issue no later issue shares a key with decides that key's message: later issues overwrite earlier ones |
| Validation.ErrorMapAppend | src/components/dashboard/almacenes/AddAlmacenModal.tsx:76-94 | Folding two issue lists in turn is the first dictionary overwritten by the second |
| Validation.FoldErrors | src/components/dashboard/almacenes/AddAlmacenModal.tsx:75-95 | The `forEach` loop computes exactly the folded dictionary `ErrorMap` |
| Validation.PatternTest | src/components/dashboard/almacenes/AddAlmacenModal.tsx:10-20 | `/^[a-zA-Z]+$/.test` and `/^\d{9}$/.test`: neither accepts the empty string, and the phone pattern accepts only nine-character strings |
| Validation.CheckIssues | src/components/dashboard/almacenes/AddAlmacenModal.tsx:10-25 | One check reports one issue under the field's key exactly when it fails: `min` with code `too_small`, `max` with `too_big`, `regex` and `email` with `invalid_string` and the schema's own message |
| Validation.ChainIssues | src/components/dashboard/almacenes/AddAlmacenModal.tsx:10-25 | A chain reports at most one issue per check, all under the field's key |
| Validation.RefineIssues | src/components/dashboard/almacenes/AddAlmacenModal.tsx:10-18 | A refinement reports at most one issue, with code `custom`, under the field's key |
| Validation.FieldIssues | src/components/dashboard/almacenes/AddAlmacenModal.tsx:9-26 | Every issue of a field is under its key; a missing or numeric value gives exactly one `invalid_type` issue |
| Validation.SchemaIssues | src/components/dashboard/almacenes/AddAlmacenModal.tsx:55 | The issues of `parse`, field by field in declaration order; every one has a one-element path |
| Validation.SchemaIssuePath | src/components/dashboard/almacenes/AddAlmacenModal.tsx:9-26 | Every issue of an object schema is filed under one of its fields' keys |
| Validation.ChainIssuesEmptyIff | src/components/dashboard/almacenes/AddAlmacenModal.tsx:10-25 | A chain reports nothing exactly when every check holds |
| Validation.FieldIssuesEmptyIff | src/components/dashboard/almacenes/AddAlmacenModal.tsx:9-26 | A field reports nothing exactly when the value is a string meeting every check and the refinement |
| Validation.SchemaIssuesEmptyIff | src/components/dashboard/almacenes/AddAlmacenModal.tsx:55 | `parse` succeeds exactly when every field accepts the value under its key |
| Validation.FieldErrorMap | src/components/dashboard/almacenes/AddAlmacenModal.tsx:76-94 | One field's issues fold into at most one entry, under its key, holding its last issue's message |
| Validation.SchemaErrorKeys | src/components/dashboard/almacenes/AddAlmacenModal.tsx:76-94 | Every key of the folded dictionary is a field key of the schema |
| Validation.SchemaErrorAt | src/components/dashboard/almacenes/AddAlmacenModal.tsx:76-94 | A field's key is in the dictionary exactly when it reports an issue, and holds its last issue's message |
| Validation.SchemaIssuesFrame | src/components/dashboard/almacenes/AddAlmacenModal.tsx:55 | The issues depend only on the values under the schema's own keys |
| Validation.LengthFieldAccepts | src/components/dashboard/almacenes/AddAlmacenModal.tsx:10-19 | A `min(lo).max(hi)` field accepts exactly the strings of length `lo..hi` that also pass the refinement |
| Validation.SingleCheckFieldAccepts | src/components/dashboard/almacenes/AddAlmacenModal.tsx:20-25 | A one-check field without a refinement accepts exactly the strings passing that check |
| Validation.SchemaErrorKeysWithin | src/components/dashboard/almacenes/AddAlmacenModal.tsx:76-94 | The dictionary's keys are among the schema's field keys |
| AlmacenForm.AlmacenSchemaAcceptsExactly | src/components/dashboard/almacenes/AddAlmacenModal.tsx:9-26 | `AlmacenSchema.parse` succeeds exactly when `nombre_almacen` is 3..20 letters, `responsable` 1..30 letters, `ciudad` 1..20 letters, `direccion` 1..20 characters, `num_telefonico` nine digits and `email_contacto` an e-mail |
| AlmacenForm.AlmacenFieldRules | src/components/dashboard/almacenes/AddAlmacenModal.tsx:9-26 | Each of the six fields accepts exactly what its own rule allows |
| AlmacenForm.ShortNombreAlmacen | src/components/dashboard/almacenes/AddAlmacenModal.tsx:10 | With every other field valid, `nombre_almacen = "ab"` yields exactly `{nombre_almacen: 'El valor es demasiado pequeño.'}` |
| AlmacenForm.UntouchedFieldErrors | src/components/dashboard/almacenes/AddAlmacenModal.tsx:29-36 | On the initial draft each field's last issue gives its message; the numeric phone gives the invalid-type message |
| AlmacenForm.UntouchedFormErrors | src/components/dashboard/almacenes/AddAlmacenModal.tsx:29-36 | Submitting the untouched form gives exactly six entries, `num_telefonico → 'El tipo de dato es inválido.'` among them |
| AlmacenForm.AddAlmacenModal.constructor | src/components/dashboard/almacenes/AddAlmacenModal.tsx:38-39 | The modal validates against `AlmacenSchema`; the draft starts as `initialFormData`, the errors empty |
| AlmacenForm.AddAlmacenModal.HandleChange | src/components/dashboard/almacenes/AddAlmacenModal.tsx:41-51 | The edited field takes the text and its error becomes `''`; every other field and error stays |
| AlmacenForm.AddAlmacenModal.HandleSubmit | src/components/dashboard/almacenes/AddAlmacenModal.tsx:53-100 | Invalid: no POST, no callback, draft kept, errors the folded map. Valid and ok: POST of the draft, `reloadTable`, `notify`, `onClose` in that order, draft reset, errors kept. Valid but not ok, or an exception: POST only, nothing changes |
| AlmacenForm.SubmitUntouched | src/components/dashboard/almacenes/AddAlmacenModal.tsx:53-95 | The untouched form never posts, invokes no callback and reports all six fields |
| CustomersPage.InsumoFilter | src/app/dashboard/customers/page.tsx:229-235 | The insumos view keeps exactly the records whose lower-cased `nombre` contains the lower-cased text |
| CustomersPage.NewInsumoList | src/app/dashboard/customers/page.tsx:203-207 | The insumos list starts empty, filtered on `nombre`, on page 0 of size 5 |
| CustomersPage.NombreIssues | src/app/dashboard/customers/page.tsx:39-47 | `NombreSchema.parse({ nombre })` reports the issues of its one field: the `max(20)` check, then the refinement |
| CustomersPage.NombreSchemaAcceptsExactly | src/app/dashboard/customers/page.tsx:39-43 | `NombreSchema` accepts exactly the non-empty ASCII-letter names of at most 20 characters |
| CustomersPage.MaxThenRefineErrors | src/app/dashboard/customers/page.tsx:40-42 | A `max(hi).refine(pattern)` field folds to no entry when both hold, the too-big message when only the length fails, and the refinement message whenever the pattern fails |
| CustomersPage.NombreErrors | src/app/dashboard/customers/page.tsx:39-72 | A rejected name leaves one entry under `nombre`: the too-big message for a long letters-only name, the refinement message for any name that is not letters only |
| CustomersPage.NombreModal.constructor | src/app/dashboard/customers/page.tsx:36-37 | The name starts empty, the errors empty |
| CustomersPage.NombreModal.HandleSubmit | src/app/dashboard/customers/page.tsx:45-78 | Accepted: `onSubmit(nombre)` then `onClose`, errors kept. Rejected: no callback, errors the folded map |
| CustomersPage.NombreModal.HandleNombreChange | src/app/dashboard/customers/page.tsx:80-84 | Editing the name sets it and clears every error |
| CustomersPage.SubmitNombre | src/app/dashboard/customers/page.tsx:45-78 | Callbacks fire exactly for a valid name, in the order `onSubmit`, `onClose`; a rejected name leaves exactly the key `nombre` in the errors |
| CustomersPage.FechaModal.constructor | src/app/dashboard/customers/page.tsx:134-135 | Both dates start unset |
| CustomersPage.FechaModal.SetFechaInicio | src/app/dashboard/customers/page.tsx:174 | Only the start date changes |
| CustomersPage.FechaModal.SetFechaFin | src/app/dashboard/customers/page.tsx:187 | Only the end date changes |
| CustomersPage.FechaModal.HandleSubmit | src/app/dashboard/customers/page.tsx:137-142 | Calls `onSubmit(inicio, fin)` then `onClose` exactly when both dates are set; otherwise nothing |
| CustomersPage.FechaNeedsBothDates | src/app/dashboard/customers/page.tsx:134-142 | A fresh date modal submits nothing, and still nothing after only the start date is chosen |
| ProveedoresPage.ProveedorFilter | src/app/dashboard/proveedores/page.tsx:71-77 | The proveedores view keeps exactly the records whose lower-cased `nombre_empresa` contains the lower-cased text |
| ProveedoresPage.ProveedoresPage.constructor | src/app/dashboard/proveedores/page.tsx:33-39 | Empty list filtered on `nombre_empresa`, page 0 of size 5, `isChecking` true, no redirect |
| ProveedoresPage.ProveedoresPage.CheckPermissions | src/app/dashboard/proveedores/page.tsx:41-54 | A role other than `'1'`, a missing one included, redirects to the insumos page and keeps `isChecking`; `'1'` clears `isChecking` without redirecting |
| ProveedoresPage.MountPermissions | src/app/dashboard/proveedores/page.tsx:39-54 | On a fresh page the permission check ends exactly for role `'1'`, and exactly every other visitor is redirected to the insumos page |
| ProveedoresPage.CheckPermissionsTwice | src/app/dashboard/proveedores/page.tsx:41-54 | Running the permission check twice with one role ends as running it once |
| AlmacenesPage.AlmacenFilter | src/app/dashboard/almacenes/page.tsx:51-56 | The almacenes view keeps exactly the records whose lower-cased `nombre_almacen` contains the lower-cased text |
| AlmacenesPage.HeaderFor | src/app/dashboard/almacenes/page.tsx:87-93 | The header shows the add button exactly when the stored role is not `'2'` |
| AlmacenesPage.HeaderForRoles | src/app/dashboard/almacenes/page.tsx:87-93 | The link home is shown exactly for role `'2'`; any other value, a missing one included, shows the add button |
| AlmacenesPage.AlmacenesPage.constructor | src/app/dashboard/almacenes/page.tsx:28-33 | Empty list filtered on `nombre_almacen`, page 0 of size 5, modal closed with its initial draft |
| AlmacenesPage.AlmacenesPage.ClickHeader | src/app/dashboard/almacenes/page.tsx:60-62 | Clicking the header opens the modal exactly when it shows the add button |
| AlmacenesPage.AlmacenesPage.Dispatch | src/app/dashboard/almacenes/page.tsx:64-96 | `reloadTable` reloads the list, `notify` changes no state, `onClose` closes the modal |
| AlmacenesPage.AlmacenesPage.DispatchAll | src/app/dashboard/almacenes/page.tsx:64-96 | Dispatching the modal's callbacks in order reloads the list exactly when `reloadTable` is among them and the fetch succeeds, and closes the modal exactly when `onClose` is among them |
| AlmacenesPage.AlmacenesPage.SubmitModal | src/app/dashboard/almacenes/page.tsx:96 | Only a valid draft is posted, and the request is the draft as it stood. A saved draft reloads the list (when the fetch succeeds), closes the modal and resets the draft. Every other outcome leaves the list, the open state and the draft as they were. A valid draft leaves the modal's errors unchanged; an invalid one replaces them with the folded map |

## Left out

- Unicode case mapping: `toLowerCase` is modelled on ASCII letters only, and
  strings are sequences of characters rather than UTF-16 code units.
- Zod itself. The issue list follows the ordering assumption above. The
  e-mail regex is the parameter `emailOk`. The English texts Zod writes
  into `too_small`/`too_big` issues are not modelled (the issue's message is
  the empty `LengthDefaultMessage`): they never reach the dictionary,
  because the fold replaces them with the fixed messages.
- `fetch`, `response.json()` and the POST are inputs (`FetchOutcome`,
  `HttpOutcome`), not transport. The JSON parse is assumed to yield a list of
  records of the page's type.
- The report downloads of the insumos page, which are blob, object-URL and
  anchor plumbing: `fetchData` for the general report, stockout,
  overstock, rotation, `fetchDataNombre` and `fetchDataFecha`.
  `handleNombreSubmit`/`handleFechaSubmit` are seen only as the
  `onSubmit` callback the modals invoke.
- The dates of `FechaModal` are an abstract type. `new Date(text)`,
  `toISOString`, `encodeURIComponent` and URL building are not modelled. An invalid `Date` is
  still an object, so it passes the guard just as in the code.
- `AddInsumoModal`, `AddProveedorModal`, the delete handlers and the table
  components are not part of this model. Their `reloadTable`/`notify`
  wiring is only modelled for the almacenes page.
- Rendering, toasts, `console` and `logger` output, `useMediaQuery`.
- Interleavings of overlapping `reloadTable` calls are not modelled. In
  the code a stale response can arrive after a newer one and overwrite it;
  the model only has reloads that complete one after another.
- Interleavings during an in-flight POST of `AddAlmacenModal` are not
  modelled. While `await fetch` is pending, a `handleChange` or a second
  click can run; the ok branch's reset then discards those edits, and a
  second click sends a second POST. The model treats each submit as one
  atomic step.
- `localStorage` and the router as mechanisms. Only the decision on the
  role string and the route requested are modelled. That route is
  `paths.dashboard.customers`, a constant whose file is not part of this
  model, abstracted as `DashboardCustomers`.
- `isChecking` is never read by the proveedores page's rendered output. The
  model records it but cannot say anything about what is shown while
  checking.
- JavaScript numbers are unbounded integers here, so `page * rowsPerPage`
  is never a floating-point product.

## Findings

| source | as written | input that shows it | evidently intended | confidence | as-written member | corrected member |
|---|---|---|---|---|---|---|
| src/app/dashboard/customers/page.tsx:493 (likewise src/app/dashboard/proveedores/page.tsx:117 and src/app/dashboard/almacenes/page.tsx:99) | The table pages through the filtered view but is given the snapshot's length as `count`. With an active filter the pager offers pages past the end of the view, and those pages are empty. | snapshot `["Central", "Norte"]`, filter `"cent"`, one row per page: the count is 2, so page 1 is offered, but the view has one record and page 1 shows nothing | `count` is the length of the filtered view, so that every offered page shows at least one row | medium (the table component is not part of this model); not executed | ListSync.SnapshotCountOffersEmptyPage | ListSync.FilteredCountOffersOnlyNonEmptyPages |
