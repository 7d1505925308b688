# Inventory client core, modelled in Dafny

This project models the decision logic of a React Native inventory client:

- **The HTTP layer** (`services/api.ts`):
  - one axios instance, whose request interceptor attaches the stored bearer token;
  - its response interceptor, which sorts every failure into three shapes;
  - the login and logout of `authService`, which write and clear the session keys;
  - the create facades for devices and accessories, which check for a token and build the request body;
  - the list facades;
  - the query parameters of the sales report.
- **The session** (`context/AuthContext.tsx`): the current user and a loading flag, driven by `loadUser`, `login` and `logout`, and the `useAuth` guard.
- **The screens and widgets that hold state**:
  - the registration form (`ProductoForm`), with required-field validation, request bodies, reset on success and retention on failure, capacity clearing and kind switching;
  - the stock-movement form (`MovimientoForm`);
  - the one-shot barcode scanner (`EscanerCodigoBarras`);
  - the two selectors that resolve a value to its label (`SimpleSelector`, `ui/Dropdown`).
- **The pure tables and projections**: the capacity and condition pickers (`CapacidadSelector`, `TipoSelector`), and the detail dialog's filter (`DetalleModal`).

There is one module per source file, plus two shared modules:

- `Js` holds JavaScript values: optional properties, plain objects as `map<string, string>`, truthiness, and what a `catch` receives.
- `AsyncStorage` holds the device's key-value store as a class with a `map` field and two fault flags.

The server is never called. Its answer to each request is a parameter, `HttpOutcome`, which is either the delivered data or an axios failure with a code and an optional response body.

Each component whose handlers update state is a class. For the scanner and the two forms, the methods are proved equal to pure step functions on a state value (`ensures State() == Step(old(State()), …)`), and the lemmas about runs of events are proved over those functions. The selector, the dropdown menu and the auth provider have only a flag or two of state, and their methods state the new value of each field directly.

A few behaviours follow from the code as written:

- Every rejection that leaves the axios instance is already a plain object without `response`. A facade that catches with `error.response?.data || { mensaje: … }` therefore always replaces it with its fixed fallback. Since that fallback carries `mensaje` and not `msg`, the registration form's alert always shows either the session-expired text or its own default (`ProductoForm.CreateFailureAlert`, `ProductoForm.SubmitDevice`).
- For the same reason, the "No se recibió la información del accesorio creado" error is never shown. If the list refresh after a successful create fails, the form shows the failure alert after it has already been reset.
- The registration form calls the device's code `codigoUnico`, but `crearProducto` reads `codigoModelo`. The code never reaches the server (`ProductoForm.CodigoUnicoNotSent`). The model keeps this as written.

## Model

| member | source | states |
|---|---|---|
| Js.IndexOf | components/SimpleSelector.tsx:27 | `find` with `===`: the result is the first index holding the target, and None only when no element equals it |
| AsyncStorage.Storage.Read | services/api.ts:19 | `getItem` rejects exactly while the store's read fault is set, and otherwise resolves to the stored value or None |
| AsyncStorage.Storage.GetItem | context/AuthContext.tsx:31-32 | the read as a method, equal to `Read` |
| AsyncStorage.Storage.SetItem | services/api.ts:70-71 | with no write fault the key is set to the value; with one the call rejects with that error and nothing is stored |
| AsyncStorage.Storage.RemoveItem | services/api.ts:86-87 | with no write fault exactly that key is removed; with one the call rejects and nothing changes |
| Api.Authorize | services/api.ts:19-23 | the Authorization header becomes "Bearer " + token exactly when a truthy token is stored; other headers, verb, path and body are kept, and with no token the request is unchanged |
| Api.NormalizeError | services/api.ts:38-49 | three cases in order: code ECONNABORTED gives the timeout msg; otherwise no response gives the cannot-connect msg; otherwise the server's body is passed on unchanged |
| Api.Transmit | services/api.ts:16-50 | a request is sent exactly when the token read resolves, and it is the authorised request; a delivered reply resolves to its data; every rejection is a plain object without `response`, and a failed token read becomes the cannot-connect msg |
| Api.Call | services/api.ts:16-50 | a call through the instance equals `Transmit` of the store's token read |
| Api.TransportFailuresCarryMsg | services/api.ts:40-47 | a timeout or a failure without an answer reaches the caller with a non-empty msg |
| Api.RethrowOr | services/api.ts:154 | `error.response?.data \|\| fallback`: the response body when the error has one, otherwise the fallback |
| Api.FallbackReplacesEveryCallFailure | services/api.ts:165 | any rejection of the instance, caught with `response?.data \|\| fallback`, becomes exactly the fallback |
| Api.CreateCatch | services/api.ts:149-155 | the missing-token error becomes the session-expired msg; any other error is rethrown as its `response.data`, or `{ mensaje: fallback }` when it has none; so a msg survives only for the token error or an error carrying a response body |
| Api.BuildUser | services/api.ts:56-68 | the user record: id from `_id`, nombre as "nombre apellido" with each undefined part printed as "undefined" (all four combinations stated), email and rol copied |
| Api.Stringify | services/api.ts:71 | the stored user text is a non-empty braced object |
| Api.LoginCatch | services/api.ts:74-82 | an error with a msg is rethrown unchanged; any other becomes `{msg: message \|\| default}`; the result always has a non-empty msg |
| Api.LoginOutcome | services/api.ts:53-83 | login succeeds exactly when the token read resolves, the store accepts writes, the reply is delivered and it holds a truthy token; the session is that token and the built user; a reply without a token fails with 'Token no encontrado en la respuesta'; a token read fault fails with the cannot-connect msg; a failed reply and a refused store write fail with the login catch of that error (its msg, else its message, else the default); every failure has a non-empty msg |
| Api.Login | services/api.ts:53-83 | on success the store holds exactly the old keys plus 'token' and 'user'; on any failure the store is unchanged; the result is `LoginOutcome` |
| Api.Logout | services/api.ts:85-88 | 'token' and 'user' are removed and every other key is kept; a store that rejects is left unchanged |
| Api.ProductRequestOf | services/api.ts:125-135 | the body copies the input's fields, sends `categoria` as `categoriaNombre` and fixes `estado` to "Disponible" |
| Api.ProductRequestOfInjective | services/api.ts:125-135 | the body loses nothing of the input: equal bodies come from equal inputs |
| Api.CreateWith | services/api.ts:118-155 | a create request is sent exactly when a truthy token is stored, with the bearer and JSON headers; no stored token fails with the session-expired msg before anything is sent; a delivered reply resolves to its data |
| Api.CreateProduct | services/api.ts:108-156 | `crearProducto` sends exactly `ProductRequestOf(input)` to /gt/agregarProducto, and only with a stored token |
| Api.CreateAccessory | services/api.ts:217-244 | `crearAccesorio` sends the body as given to /gt/agregarAccesorio, and only with a stored token |
| Api.CreateRejectionBecomesFallback | services/api.ts:149-155 | with a token stored, a rejected create reaches the caller as `{mensaje: fallback}`, without a msg |
| Api.CrearProducto | services/api.ts:108-156 | the facade as a method, equal to `CreateProduct` of the store's token read |
| Api.CrearAccesorio | services/api.ts:217-244 | the facade as a method, equal to `CreateAccessory` of the store's token read |
| Api.Create | services/api.ts:217-244 | the shared create steps, equal to `CreateWith` of the store's token read |
| Api.FetchWith | services/api.ts:158-167 | a list GET is sent whenever the token read resolves; a delivered reply resolves to its data; every failure becomes exactly `{mensaje: fallback}` |
| Api.Fetch | services/api.ts:158-167 | the shared list steps, equal to `FetchWith` of the store's token read |
| Api.ObtenerProductos | services/api.ts:158-167 | `obtenerProductos` is `FetchWith` on /gt/listarProductos with its fallback |
| Api.ObtenerAccesorios | services/api.ts:246-253 | `obtenerAccesorios` is `FetchWith` on /gt/listarAccesorios with its fallback |
| Api.VentasParams | services/api.ts:357-361 | 'desde' and then 'hasta' are appended, each exactly when given and non-empty, and no other parameter |
| AuthContext.AuthProvider.constructor | context/AuthContext.tsx:22-23 | initially there is no user and loading is true |
| AuthContext.AuthProvider.LoadUser | context/AuthContext.tsx:29-44 | loading ends in every case; the user is replaced only when 'token' and 'user' are both stored and the text parses, and is kept otherwise |
| AuthContext.AuthProvider.Login | context/AuthContext.tsx:46-60 | a successful login stores the session and sets the user to the returned one; a failed login returns its error and leaves the user and the store unchanged |
| AuthContext.AuthProvider.Logout | context/AuthContext.tsx:62-70 | when the store accepts, both keys are removed and the user becomes null; when it rejects, the error is swallowed and the user and the store are unchanged |
| AuthContext.UseAuth | context/AuthContext.tsx:79-85 | the provider's value inside a provider; outside one, the error 'useAuth must be used within an AuthProvider' |
| Picker.Items | components/TipoSelector.tsx:21-28 | the empty-valued placeholder item first, then one item per option in order, with label and value both equal to the option |
| Picker.Choose | components/TipoSelector.tsx:18 | picking item i hands on exactly item i's value |
| CapacidadSelector.ToLower | components/CapacidadSelector.tsx:15 | lower-casing keeps the length and maps each character on its own |
| CapacidadSelector.Options | components/CapacidadSelector.tsx:12-36 | "macbook" in any case gives the three MacBook options, "apple watch" gives the two watch sizes, and anything else (empty and undefined too) gives the seven sizes 16GB to 1TB in order; every list has distinct entries |
| CapacidadSelector.Items | components/CapacidadSelector.tsx:40-53 | the capacity placeholder with value "" first, then each option with label equal to value |
| CapacidadSelector.LowerCharInverse | components/CapacidadSelector.tsx:15 | exactly which characters lower-case to a given lower-case letter or space |
| CapacidadSelector.LowersToName | components/CapacidadSelector.tsx:15-21 | a text lower-cases to a name exactly when it has the name's length and each character is a spelling of the name's character |
| CapacidadSelector.MacbookExactly | components/CapacidadSelector.tsx:14-20 | the MacBook list is chosen exactly for a seven-letter spelling of "macbook", so "MacBook Pro" gets the general list |
| CapacidadSelector.AppleWatchExactly | components/CapacidadSelector.tsx:21-25 | the watch list is chosen exactly for an eleven-character spelling of "apple watch" |
| TipoSelector.Items | components/TipoSelector.tsx:12-28 | exactly the placeholder with value "", then 'Nuevo', 'Seminuevo' and 'Open Box', each labelled with itself; the options are distinct |
| TipoSelector.ChooseForwardsTipo | components/TipoSelector.tsx:18 | picking a condition hands on that condition unchanged, and the placeholder hands on "" |
| DetalleModal.KeptValues | components/DetalleModal.tsx:14 | a value is kept exactly when it is a non-empty string or a number, 0 included; '', NaN, null and undefined are dropped |
| DetalleModal.DetailItems | components/DetalleModal.tsx:14 | an entry is in the output exactly when it is in the input and its value is kept |
| DetalleModal.DetailItemsAppend | components/DetalleModal.tsx:14 | the filter keeps the record's order: filtering two runs of entries is filtering each and joining the results |
| DetalleModal.DetailItemsIdempotent | components/DetalleModal.tsx:14 | filtering twice equals filtering once |
| DetalleModal.Digits | components/DetalleModal.tsx:30 | the decimal text of a number: a non-empty run of digits with no leading zero |
| DetalleModal.DigitsDenote | components/DetalleModal.tsx:30 | the digits written for n read back, most significant first, as n |
| DetalleModal.Display | components/DetalleModal.tsx:30 | `String(value)`: a string shows as itself, a number below 10^21 in magnitude as its decimal digits (with "-" when negative), and every kept value has non-empty text |
| DetalleModal.Rows | components/DetalleModal.tsx:27-31 | one row per kept entry, in order: the entry's key and `String` of its value; no row's text is empty; every kept entry appears as (key, String(value)) |
| DetalleModal.Buttons | components/DetalleModal.tsx:34-48 | in the footer row 'Cerrar' always comes first, and 'Editar' follows it exactly when an edit handler is given |
| SimpleSelector.SelectedLabel | components/SimpleSelector.tsx:23-27 | the label of the first option whose value equals the current one; the placeholder when that label is empty, when nothing matches, or when the value is undefined |
| SimpleSelector.PickedLabelShown | components/SimpleSelector.tsx:27-54 | with distinct values, once an option is picked the button shows its label, or the placeholder if the label is blank |
| SimpleSelector.Selector.constructor | components/SimpleSelector.tsx:25 | the modal starts closed |
| SimpleSelector.Selector.Open | components/SimpleSelector.tsx:32 | pressing the selector opens the modal |
| SimpleSelector.Selector.Close | components/SimpleSelector.tsx:41-62 | the close button and the back request close the modal and hand nothing on |
| SimpleSelector.Selector.Pick | components/SimpleSelector.tsx:51-54 | choosing an option hands on exactly its value and closes the modal |
| Dropdown.ButtonText | components/ui/Dropdown.tsx:15-42 | the label of the first option whose value `===` the selected one, even an empty label; the placeholder only when nothing matches |
| Dropdown.Menu.constructor | components/ui/Dropdown.tsx:18 | the menu starts hidden |
| Dropdown.Menu.ShowMenu | components/ui/Dropdown.tsx:22-26 | the menu opens only through the button's measure callback, so only when the button is mounted |
| Dropdown.Menu.CloseMenu | components/ui/Dropdown.tsx:28-34 | closing or dismissing hides the menu |
| Dropdown.Menu.Select | components/ui/Dropdown.tsx:49-52 | choosing an item hands on exactly its value and hides the menu |
| Dropdown.SelectorsDisagreeOnBlankLabel | components/ui/Dropdown.tsx:42 | given the same options, value and placeholder, the two selectors show different text exactly when the first match has an empty label and the placeholder is non-empty |
| Escaner.PermissionResolved | components/EscanerCodigoBarras.tsx:14-20 | permission is granted exactly when the status is 'granted'; the latch is untouched |
| Escaner.OnScan | components/EscanerCodigoBarras.tsx:22-27 | while the latch is open the data is handed on once and the latch closes; once it is closed nothing is handed on and nothing changes |
| Escaner.Rescan | components/EscanerCodigoBarras.tsx:45 | 'Escanear de nuevo' re-opens the latch |
| Escaner.Render | components/EscanerCodigoBarras.tsx:29-53 | the camera shows only with permission granted, and listens only while the latch is open; pending and denied permission show their fixed texts; 'Cerrar' is always offered with the camera, and 'Escanear de nuevo' only after a scan |
| Escaner.Step | components/EscanerCodigoBarras.tsx:22-45 | a code is handed on if and only if it was decoded with permission granted and the latch open; then exactly that code is handed on and the latch closes |
| Escaner.AtMostOneCodePerArming | components/EscanerCodigoBarras.tsx:22-45 | over any run of events, the codes handed on are at most one per arming: one for an open start plus one per rescan |
| Escaner.OnlyDecodedCodes | components/EscanerCodigoBarras.tsx:22-27 | every code handed on was decoded by the camera |
| Escaner.Scanner.constructor | components/EscanerCodigoBarras.tsx:11-12 | initially permission is unknown and the latch is open |
| Escaner.Scanner.OnPermission | components/EscanerCodigoBarras.tsx:14-20 | the state becomes `PermissionResolved` of the old state |
| Escaner.Scanner.HandleBarCodeScanned | components/EscanerCodigoBarras.tsx:22-27 | the state and what is handed on are `OnScan` of the old state |
| Escaner.Scanner.PressRescan | components/EscanerCodigoBarras.tsx:45 | the state becomes `Rescan` of the old state |
| MovimientoForm.ProductLine | components/MovimientoForm.tsx:31-37 | a product line holds the scanned code and the fixed placeholders for name, capacity, colour and serial |
| MovimientoForm.AccessoryLine | components/MovimientoForm.tsx:39-42 | an accessory line holds the scanned code and the fixed name placeholder |
| MovimientoForm.Scanned | components/MovimientoForm.tsx:28-45 | exactly one line for the code is appended to the end of the current mode's list; the other list, the mode and the texts are kept; the scanner is hidden |
| MovimientoForm.StartScan | components/MovimientoForm.tsx:83-113 | the Agregar buttons set the mode and show the scanner, changing nothing else |
| MovimientoForm.CloseScanner | components/MovimientoForm.tsx:64 | closing the scanner hides it and changes no list |
| MovimientoForm.Edit | components/MovimientoForm.tsx:121-140 | typing replaces that one text and nothing else |
| MovimientoForm.Submission | components/MovimientoForm.tsx:47-58 | the movement carries the lists and texts exactly as they are, unvalidated, with the given date |
| MovimientoForm.Apply | components/MovimientoForm.tsx:47-67 | submitting changes no state |
| MovimientoForm.LinesOnlyGrow | components/MovimientoForm.tsx:28-45 | over any run of events, existing lines are never changed or removed |
| MovimientoForm.ProductScansAppendEach | components/MovimientoForm.tsx:30-37 | scanning codes in product mode appends one line per scan, in scan order, and leaves the accessory list alone |
| MovimientoForm.NoDuplicateCheck | components/MovimientoForm.tsx:31-37 | the same code scanned twice gives two identical lines |
| MovimientoForm.Form.constructor | components/MovimientoForm.tsx:20-26 | initially both lists and all texts are empty, the mode is product and the scanner is hidden |
| MovimientoForm.Form.HandleCodigoEscaneado | components/MovimientoForm.tsx:28-45 | the state becomes `Scanned` of the old state |
| MovimientoForm.Form.Agregar | components/MovimientoForm.tsx:83-113 | the state becomes `StartScan` of the old state |
| MovimientoForm.Form.Cerrar | components/MovimientoForm.tsx:64 | the state becomes `CloseScanner` of the old state |
| MovimientoForm.Form.ChangeText | components/MovimientoForm.tsx:121-140 | the state becomes `Edit` of the old state |
| MovimientoForm.Form.HandleSubmit | components/MovimientoForm.tsx:47-58 | the movement built from the current state; no state changes |
| ProductoForm.MissingFields | components/ProductoForm.tsx:93 | the missing fields are empty exactly when every value is non-empty, and every empty value's name is listed |
| ProductoForm.DeviceCompleteIff | components/ProductoForm.tsx:133-137 | a device passes validation exactly when none of its eight fields is empty |
| ProductoForm.AccessoryCompleteIff | components/ProductoForm.tsx:93-97 | an accessory passes validation exactly when none of codigoUnico, nombre and precio is empty |
| ProductoForm.AccessoryPayload | components/ProductoForm.tsx:100-105 | codigoUnico→codigoUnicoAccs, nombre→nombreAccs, precio→precioAccs, and availability "Disponible" |
| ProductoForm.DeviceInput | components/ProductoForm.tsx:140-144 | the form's fields as `crearProducto` reads them; `codigoModelo` is undefined |
| ProductoForm.CodigoUnicoNotSent | components/ProductoForm.tsx:140-144 | two forms that differ only in the unique code produce the same request body |
| ProductoForm.AlertText | components/ProductoForm.tsx:125-128 | `error.msg \|\| default` |
| ProductoForm.CreateFailureAlert | components/ProductoForm.tsx:163-165 | a rejected create carries no truthy msg other than the session-expired text, so the alert is that text or the form's own default, whatever default the form passes |
| ProductoForm.AfterAccessoryCreated | components/ProductoForm.tsx:111-118 | the returned barcode is recorded, the form is hidden and the three accessory fields are reset to ''; nothing else changes |
| ProductoForm.AfterDeviceCreated | components/ProductoForm.tsx:145-157 | the returned barcode is recorded, the form is hidden and the eight device fields are reset to ''; nothing else changes |
| ProductoForm.SubmitAccessory | components/ProductoForm.tsx:91-130 | incomplete data alerts, sends nothing and changes nothing; every alert is one of three fixed texts; with no token the session alert is shown and nothing is sent; a rejected create or a reply without `accesorio` keeps the data; a created accessory records its barcode, hides and clears the form, and refreshes the list when the refresh succeeds (otherwise the default alert) |
| ProductoForm.SubmitDevice | components/ProductoForm.tsx:132-166 | as for accessories, with the device default; a reply without `producto` changes nothing and shows no alert |
| ProductoForm.Submit | components/ProductoForm.tsx:90-167 | the current kind decides what is submitted, and the other kind's data is untouched |
| ProductoForm.ResubmitAfterSuccessRefused | components/ProductoForm.tsx:90-167 | right after a successful create, submitting again is refused by validation and sends nothing |
| ProductoForm.KindEffect | components/ProductoForm.tsx:68-83 | both generated barcodes are cleared; the current kind's list becomes the fetched codes when the token is read and the server answers (an absent device list as empty), and otherwise stays as it was; the other kind's list and the forms are kept |
| ProductoForm.SelectKind | components/ProductoForm.tsx:85-88 | selecting a kind hides the form; a change of kind clears both barcodes; the same kind changes nothing else |
| ProductoForm.ShowForm | components/ProductoForm.tsx:325 | 'Agregar' shows the form and changes nothing else |
| ProductoForm.ChangeCategory | components/ProductoForm.tsx:215-218 | a category change sets the category, clears capacidad to '' and changes nothing else |
| ProductoForm.CategoryChangeSelectsPlaceholder | components/ProductoForm.tsx:215-218 | after a category change the capacity picker is on its placeholder item |
| ProductoForm.EditDevice | components/ProductoForm.tsx:176-246 | editing one device field replaces it and nothing else |
| ProductoForm.EditAccessory | components/ProductoForm.tsx:259-279 | editing one accessory field replaces it and nothing else |
| ProductoForm.Screen.constructor | components/ProductoForm.tsx:44-66 | initially: devices, form hidden, no barcodes, empty lists, all fields '' |
| ProductoForm.Screen.HandleSubmit | components/ProductoForm.tsx:90-167 | the new state, the alert and the requests sent are `Submit` of the old state and the store's token |
| ProductoForm.Screen.SubmitAccesorio | components/ProductoForm.tsx:91-130 | the accessory branch equals `SubmitAccessory` |
| ProductoForm.Screen.SubmitDispositivo | components/ProductoForm.tsx:132-166 | the device branch equals `SubmitDevice` |
| ProductoForm.Screen.RunKindEffect | components/ProductoForm.tsx:68-83 | the state becomes `KindEffect` of the old state |
| ProductoForm.Screen.SelectTipo | components/ProductoForm.tsx:293-296 | the state becomes `SelectKind` of the old state |
| ProductoForm.Screen.Agregar | components/ProductoForm.tsx:325 | the state becomes `ShowForm` of the old state |
| ProductoForm.Screen.OnCategoria | components/ProductoForm.tsx:215-218 | the state becomes `ChangeCategory` of the old state |
| ProductoForm.Screen.OnDeviceField | components/ProductoForm.tsx:176-246 | the state becomes `EditDevice` of the old state |
| ProductoForm.Screen.OnAccessoryField | components/ProductoForm.tsx:259-279 | the state becomes `EditAccessory` of the old state |

## Left out

- The axios transport, the base URL and the 10-second timeout (services/api.ts:7-13). Each request's outcome is a parameter.
- The services outside the modelled core: profile, updates, lookups by barcode, categories and movements. For the sales report only the query parameters are modelled, not the request itself.
- Asynchrony. Each handler runs to completion before the next event, and an effect's fetch result is applied at once. Interleaved handlers, React's batching of state updates and unmounting during a call are not modelled. In particular Escaner.AtMostOneCodePerArming assumes a re-render between two decoded codes: the scan handler reads `scanned` from the render that created it, so two codes arriving before a re-render would both pass.
- Store failures are all-or-nothing per store: a store that fails between the two login writes, or between the two logout removals, is not modelled.
- `JSON.parse` of the stored user is a parameter of `AuthContext.AuthProvider.LoadUser`. It is None when the text does not parse.
- Api.Stringify: states only that the stored text is a braced object. String escaping and the exact JSON text are not modelled, because the text is only stored and never read back by the model.
- The `else` branch of `login` in context/AuthContext.tsx:53-55 (a login that returns no user) is not modelled: `authService.login` always returns a built user, so the branch cannot be reached.
- `parseFloat` of the price (components/ProductoForm.tsx:142). The price text is sent as it is.
- Alerts, `console` output and navigation. An alert is modelled only as its message text.
- The camera and permission APIs. Only the permission status string and the decoded data are modelled.
- CapacidadSelector.ToLower: maps only A–Z and the Kelvin sign and leaves every other character unchanged. No other character lower-cases to a character of "macbook" or "apple watch", so the comparison is decided exactly.
- Numbers in the detail dialog are integers and NaN. Fractional values, infinities and their `String` formatting are not modelled.
- DetalleModal.Display: the text of an integer of magnitude 10^21 or more is left unstated, because `String` switches to exponent form ("1e+21") there and that formatting is not modelled. The entries arrive in `Object.entries` order, and reordering of integer-like keys is not modelled.
- The default placeholder texts of SimpleSelector ("Seleccione una opción") and Dropdown ("Seleccionar"): the placeholder is always a parameter of the label functions.
- `error.response` and its `data` are one optional object (`AxiosError.response`): a response whose `data` is empty, missing or not an object is not modelled.
- Dropdown compares option values with Dafny's structural equality; the source's `===` compares object values by reference, which is not modelled.
- Dropdown option values are of any type, but an option whose value is itself undefined is not modelled.
- ProductoForm treats an undefined returned barcode like null (None). The `map` over a list reply that is not an array, which would throw, is not modelled. The form's unused `useAuth().user` is left out.
- `new Date()` in MovimientoForm is a parameter.
- Rendering, styling and the components outside the core: TipoProductoSelector, CodigoBarras, CategoriaSelector and the layout.
