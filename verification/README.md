# Inter-branch movement workflow — Dafny model

This project models the logic of the warehouse client's movement workflow,
written as pure functions over immutable data:

- **Transfer form** (`CadastroMovimentacaoScreen`). The product picker shows the
  stock lines of the chosen origin branch. The form looks up the stock of the
  chosen product (`null` when it is not found). On submit, `handleCadastro`
  first rejects a route whose origin equals its destination. It then rejects a
  quantity above the stock shown. Otherwise it issues exactly one
  create-movement request. Nothing checks that a product was chosen or that
  the quantity is positive (see "## Findings").
- **Movement list** (`ListagemMovimentacoesScreen`). `buscarMovimentacoes`
  replaces the list. Each status offers at most one action button: `created` offers
  the move to `em transito`, `em transito` offers the move to
  `Coleta finalizada`, and any other status offers nothing.
  `handleStatusChange` first asks for media permission, then takes a photo,
  then uploads it with a PUT. On HTTP 200 it patches the status of the matching
  movement in the local list.
- **User list** (`UsuariosScreen`). `toggleUserStatus` writes the status the
  server returns into the matching user and leaves everything else alone.

Every outside event is an argument, given as a datatype. This covers the
permission answer, the camera result, the PUT/POST/GET/PATCH outcome and the
server's returned status. Each handler returns the new list or form together
with what it issued: the requests, whether the camera was launched, and the
alert shown.

JavaScript's `Number(s)` is `JsNumber.Number`, which returns `None` for NaN.
NaN is equal to nothing and compares false with everything. So a NaN origin
matches no product, and a NaN quantity passes the stock check. `Number("")`
is 0, as in JavaScript.

The code contains a literal mismatch, and the handler model keeps it as written
(see "## Findings"). The
status handler picks the `start` endpoint only when `novoStatus` is
`'Em Trânsito'`. The start button sends `'em transito'` instead. As a result,
`Movements.StartButtonTargetsEnd` and `Movements.NoButtonTargetsStart` prove
that no button ever reaches `movements/{id}/start`: both transitions upload
to `movements/{id}/end`.

Files: `js_number.dfy` (Option, `Number`, `toString`), `list_patch.dfy` (the
`map` update both list screens share), `catalog.dfy`,
`transfer_form.dfy`, `movements.dfy`, `users.dfy`.

## Model

| member | source | states |
|---|---|---|
| JsNumber.Number | src/screens/CadastroMovimentacaoScreen.tsx:83-86 | `Number("")` is 0. A non-empty string without a digit is NaN. A string of digits is a non-negative number. |
| JsNumber.NatToString | src/screens/CadastroMovimentacaoScreen.tsx:107 | `id.toString()` for a non-negative id is a non-empty run of decimal digits with no leading zero, its shortest form. |
| JsNumber.NumberOfIntToString | src/screens/CadastroMovimentacaoScreen.tsx:107 | Coercing a picker value `id.toString()` gives back the id (round trip through the inverse). |
| JsNumber.IntToStringInjective | src/screens/CadastroMovimentacaoScreen.tsx:105-108 | Two picker strings are equal exactly when the branch ids they were made from are equal. |
| Catalog.FilterBranch | src/screens/CadastroMovimentacaoScreen.tsx:56 | A product is in the result iff it is in the catalog with `branch_id === Number(origem)`. Each kept product keeps its multiplicity and all others are dropped. |
| Catalog.ProductsAtBranch | src/screens/CadastroMovimentacaoScreen.tsx:55-58 | The products offered for an origin string are exactly those at `Number(origem)`. An origin that is NaN offers none. |
| Catalog.FilterBranchAppend | src/screens/CadastroMovimentacaoScreen.tsx:56 | Filtering distributes over concatenation, so the filtered list keeps catalog order. |
| Catalog.FilterBranchIdempotent | src/screens/CadastroMovimentacaoScreen.tsx:56-57 | Recomputing the filter on its own output changes nothing. |
| Catalog.FirstWithProduct | src/screens/CadastroMovimentacaoScreen.tsx:62 | `find` gives the index of the first line with the product id, with no match before it. When it finds nothing, no line matches. |
| Catalog.AvailableQuantity | src/screens/CadastroMovimentacaoScreen.tsx:62-63 | The result is null iff no filtered line has `product_id === Number(produto)`. Otherwise it is the quantity of the first such line. |
| Catalog.AvailableIsFirstAtBranch | src/screens/CadastroMovimentacaoScreen.tsx:55-64 | Filtering and then finding agrees with a single pass over the catalog for the first line at the origin with the product. |
| Catalog.AvailableQuantityExample | src/screens/CadastroMovimentacaoScreen.tsx:62-63 | Branch 1 with 5 units of product 42 shows 5. An unknown product shows null. |
| TransferForm.PayloadOf | src/screens/CadastroMovimentacaoScreen.tsx:82-88 | The payload holds the four coerced fields and the unchanged observations. |
| TransferForm.HandleCadastro | src/screens/CadastroMovimentacaoScreen.tsx:67-93 | Equal origin and destination strings give the route error. Otherwise a quantity above a non-null stock gives the stock error. Either error issues no request. Else exactly one request with the coerced payload is issued, and the form is never changed. A resolved POST shows the success alert and a failed POST the failure alert. |
| TransferForm.RouteCheckFirst | src/screens/CadastroMovimentacaoScreen.tsx:69-78 | A same-route submission is a route error with no request, whatever the quantity. |
| TransferForm.EqualQuantityPasses | src/screens/CadastroMovimentacaoScreen.tsx:75 | A quantity equal to the stock shown is accepted and posted. |
| TransferForm.StockCheckSkipped | src/screens/CadastroMovimentacaoScreen.tsx:75 | A null stock or a NaN quantity skips the stock check, and one request is issued. |
| TransferForm.StockBoundary | src/screens/CadastroMovimentacaoScreen.tsx:75-78 | With both numbers known, the stock error happens iff the quantity is at least the stock plus one. |
| TransferForm.SubmitScenarios | src/screens/CadastroMovimentacaoScreen.tsx:67-93 | 10 units against a stock of 5 are refused with no request. The same branch twice is refused. 5 units post `(1, 2, 42, 5, "")`. |
| TransferForm.EmptyFieldsPosted | src/screens/CadastroMovimentacaoScreen.tsx:67-88 | With product and quantity left empty, a request with product 0 and quantity 0 is issued. A quantity of `-3` is posted as -3. |
| TransferForm.HandleCadastroIntended | src/screens/CadastroMovimentacaoScreen.tsx:67-93 | Corrected handler: after the route check, a missing product, a product with no stock line at the origin, or a quantity that is not a positive number is refused with no request. A posted request always has a stock shown, and its quantity is positive and at most that stock. |
| TransferForm.IntendedAgreesOnCompleteFields | src/screens/CadastroMovimentacaoScreen.tsx:67-93 | With a product chosen that the origin stocks and a positive quantity, the corrected handler equals the written one. With either field missing it sends nothing, and it refuses the empty-field input above. |
| TransferForm.PickerIdsRoundTrip | src/screens/CadastroMovimentacaoScreen.tsx:69-85 | With picker selections made from ids, the route error happens iff the ids are equal. A posted payload carries those ids. |
| ListPatch.Patch | src/screens/ListagemMovimentacoesScreen.tsx:56-58 | The `map` update keeps length and order. Entries the selector hits are rewritten and every other entry is left unchanged. |
| ListPatch.PatchFixed | src/screens/UsuariosScreen.tsx:41-43 | If the rewrite leaves every hit entry as it was, the patch returns the list unchanged. |
| ListPatch.PatchTwice | src/screens/UsuariosScreen.tsx:40-44 | When the first rewrite keeps entries selected and the second overrides it, two patches with one selector equal the second patch alone. |
| Movements.OfferedActions | src/screens/ListagemMovimentacoesScreen.tsx:89-106 | `created` offers only `em transito`. `em transito` offers only `Coleta finalizada`. Every other status offers nothing. |
| Movements.EndpointFor | src/screens/ListagemMovimentacoesScreen.tsx:49 | The start endpoint is chosen iff the status is exactly `'Em Trânsito'`. The endpoint carries the movement id. |
| Movements.PatchStatus | src/screens/ListagemMovimentacoesScreen.tsx:55-58 | Length is kept. Movements with the id get `status := novoStatus` and nothing else changes. All other movements are unchanged. |
| Movements.HandleStatusChange | src/screens/ListagemMovimentacoesScreen.tsx:31-66 | Without permission there is no camera, no PUT and no change. With permission the camera is always launched. A cancelled or failed capture means no PUT. At most one PUT is sent, to `EndpointFor(id, novoStatus)`. The list is patched iff permission, photo and HTTP 200 all hold, and is unchanged otherwise. A status outside 200..299 is rejected by the HTTP client and shows the error alert. A 2xx other than 200 neither patches nor alerts, and neither does a cancelled capture. The error alert shows iff the permission request threw, the camera threw, or the PUT threw or was rejected. |
| Movements.UploadStatusOutcomes | src/screens/ListagemMovimentacoesScreen.tsx:50-64 | After an upload, a non-2xx status keeps the list and shows the error alert. A 2xx other than 200 keeps the list silently. Only 200 patches. |
| Movements.FetchMovements | src/screens/ListagemMovimentacoesScreen.tsx:22-29 | A response replaces the list wholesale. A failure keeps it and shows the load alert. |
| Movements.PatchStatusIdempotent | src/screens/ListagemMovimentacoesScreen.tsx:55-58 | Applying the same patch twice equals applying it once. |
| Movements.PatchAbsentId | src/screens/ListagemMovimentacoesScreen.tsx:55-58 | Patching an id no movement has leaves the list unchanged. |
| Movements.PatchKeepsShape | src/screens/ListagemMovimentacoesScreen.tsx:57 | The patch keeps every position's id and every field other than status. |
| Movements.OnlySuccessChangesList | src/screens/ListagemMovimentacoesScreen.tsx:54-59 | A changed entry implies that all three gates passed, that the entry has the id, and that its new status is `novoStatus`. |
| Movements.StartButtonTargetsEnd | src/screens/ListagemMovimentacoesScreen.tsx:93 | The start button's `'em transito'` differs from the compared literal, so its upload goes to the end endpoint. |
| Movements.NoButtonTargetsStart | src/screens/ListagemMovimentacoesScreen.tsx:89-106 | No rendered action ever selects the start endpoint. |
| Movements.IntendedEndpointFor | src/screens/ListagemMovimentacoesScreen.tsx:49 | Corrected choice: the start endpoint is chosen iff the status is the `'em transito'` the start button sends. |
| Movements.IntendedButtonsReachTheirEndpoints | src/screens/ListagemMovimentacoesScreen.tsx:89-106 | With the corrected choice, the start button reaches `start` and the finish button `end`. It differs from the written choice exactly on the start button. |
| Movements.OfferedActionsAdvance | src/screens/ListagemMovimentacoesScreen.tsx:89-106 | Every offered action moves the status exactly one lifecycle stage forward. No action skips a stage or goes back. |
| Movements.FinishedIsTerminal | src/screens/ListagemMovimentacoesScreen.tsx:99-106 | `Coleta finalizada` offers no action. |
| Movements.SuccessAdvancesLifecycle | src/screens/ListagemMovimentacoesScreen.tsx:54-106 | A successful press of the offered button advances that movement one stage and then offers the next button, or none once finished. |
| Movements.StartScenario | src/screens/ListagemMovimentacoesScreen.tsx:31-66 | Movement 7 in `created` with all gates passing shows `em transito`, offers only finish, and its PUT went to `7/end`. With permission refused nothing is sent and the list is unchanged. |
| Users.SetStatus | src/screens/UsuariosScreen.tsx:40-44 | Length and order are kept. Users with the id get `status := s`. All other users are unchanged. |
| Users.ToggleUserStatus | src/screens/UsuariosScreen.tsx:33-49 | A thrown request leaves the list unchanged and alerts. Otherwise every user keeps its id, name and profile, and only matching users take the server's status. |
| Users.ServerStatusIsAuthoritative | src/screens/UsuariosScreen.tsx:36-43 | If the server returns the status the user already has, nothing changes, so the value is not a local negation. |
| Users.SetStatusLastWins | src/screens/UsuariosScreen.tsx:40-44 | Two successive patches equal the last one alone. |

## Findings

| source | as written | input that shows it | evidently intended | confidence | as-written member | corrected member |
|---|---|---|---|---|---|---|
| src/screens/ListagemMovimentacoesScreen.tsx:49 | The start endpoint is chosen only for `'Em Trânsito'`, but the start button at line 93 sends `'em transito'`. | Movement in `created`, start pressed: the PUT goes to `movements/{id}/end`. | Compare with the status the start button sends, so that start reaches `movements/{id}/start`. | high; not executed | Movements.StartButtonTargetsEnd | Movements.IntendedButtonsReachTheirEndpoints |
| src/screens/CadastroMovimentacaoScreen.tsx:67-88 | The handler checks only the route and an excess over the stock shown. It never checks that a product was chosen or that the quantity is a positive number. | Origin 1, destination 2, product and quantity empty: the POST carries product 0 and quantity 0. Quantity `-3` is posted as -3. | Refuse a missing product, a product the origin does not stock, or a quantity that is not positive before any request. | medium; not executed | TransferForm.EmptyFieldsPosted | TransferForm.HandleCadastroIntended |

`Movements.HandleStatusChange` keeps the written choice (`EndpointFor`), since
it models what the screen does. `Movements.IntendedEndpointFor` is the
corrected choice, and the corrected row's lemma relates the two. In the same
way `TransferForm.HandleCadastro` models the form as written, and
`TransferForm.HandleCadastroIntended` adds the missing field check.
`TransferForm.IntendedAgreesOnCompleteFields` proves that the two differ only
on incomplete fields. The second row's confidence is medium because the server
may refuse such a request. The server is not part of this model.

## Left out

- JsNumber.Number: covers `""` and optionally signed decimal integers only. JavaScript also trims whitespace and accepts fractions, exponents, hex/octal/binary prefixes and `Infinity`. Those strings are NaN (`None`) here, so a typed `"2.5"` is treated as skipping the stock check.
- JsNumber.NatToString: JavaScript prints numbers from 1e21 upward in exponent form (`"1e+21"`). The model always prints plain decimal digits, so the round-trip lemmas cover ids below 1e21 as JavaScript behaves.
- Quantities and ids are unbounded integers. JavaScript numbers are IEEE doubles; floating point is not modelled.
- The derived views (`filteredProducts`, `selectedProductQuantity`) are React effects that run after a render. The model treats them as always in step with the form at submit time, with each handler as one atomic step. Async interleaving and updates after unmount are not modelled.
- `fetchOptions` (the branch/product load on form mount, with its `Array.isArray` checks) and `fetchUsers` are not modelled. Both are plain I/O loads outside the workflow logic.
- The server's side is not modelled: authoritative stock, movement persistence and status transitions. The POST outcome only selects the success or failure alert. Server rejection and transport failure are one case, as in the code.
- Movements.HandleStatusChange: the camera result is taken as reporting cancellation faithfully. Whether the image picker's `cancelled` field is still set depends on the library version, which is not part of this model. The photo is modelled by its URI only; the multipart form's file name and type are fixed in the code and omitted.
- Users.ToggleUserStatus: the server's `status` is taken to be a boolean. A missing field (`undefined`) is not modelled.
- Rendering, styles, navigation (the map button), history display and all alert texts are presentation. Alerts are modelled by their kind only.
- Login, home, header, the map screen and the stub screens are navigation or I/O glue with no workflow logic. The geographic distance estimate is not computed in any of the modelled source files and uses floating point, so it is not modelled.
