# Inventory system: a verified model of its stock rules and its browser state

The inventory system is a Django REST backend together with a React front
end. Administrators and staff use it to record products, purchases, sales and
expenses, and to manage user accounts. This project models the parts of it
that make decisions, and proves properties of them:

- **Backend stock and pricing rules** (module `Models`, module `Serializers`):
  - when a purchase, a sale or a registration is accepted, and with which error;
  - how a purchase or a sale changes a product's stock and buying price;
  - the derived values: the low-stock flag, a product's total value, a line's
    amount and a report's product total.

  Prices are integer cents, so all arithmetic on them is exact.
- **Session storage and authentication** (modules `Browser`, `Api`, `Login`,
  `Logout`, `PrivateRoute`, `AuthContext`, `Register`):
  - `localStorage` and `sessionStorage` are string-to-string maps in a shared
    `Window` object;
  - the axios interceptors are a retry-once state machine (`Api.Step`,
    `Api.Run`), and the imperative `Api.Send` loop is proved to end in the
    state that machine describes;
  - answers from the server and from the refresh endpoint are parameters.
- **The list pages** (modules `RecordList`, `Products`, `Sales`, `Purchases`,
  `Expenses`, `Users`):
  - each page is a class whose fields are its React state;
  - each page keeps records keyed by `id`: appended on create, replaced by id
    on update, removed by id on delete, and left alone on failure;
  - search filters, badges and picker entries are pure functions.
- **The sidebar** (module `Sidebar`): the collapse and pin state machine, the
  drawer on tiny screens, and persistence of the collapse state in
  `localStorage`.

JavaScript's own semantics are written out in module `Js`: truthiness, `===`,
`String(v)`, `Array.join`, objects as maps, and how JSX renders a value. That
module is what makes edge cases visible, such as an empty token, which is
falsy; `undefined` fields; and an array, which is never `===` to anything.

Several properties state mismatches between components rather than fixing
them:

- `PrivateRoute.ForgottenLoginIsTurnedAway`: a login without "remember me"
  stores its tokens in session storage. The guard and the request interceptor
  read only local storage, so that login is sent back to the login page.
- `AuthContext.ContextDoesNotDriveTheGuard`: the authentication context uses
  the keys `token` and `role`, which no other component reads.
- `Serializers.LowStockButNotPurchasable`: a purchase is refused once the
  product holds more than 1 unit, yet "low stock" means 5 units or fewer.
- `Users.SerializedUsersAreLabelledUser`: the users page labels roles from
  `is_superuser` and `is_staff`, but the user serializer sends `is_admin`
  and `is_staff_user`. Every account it describes therefore shows "User".
- `Serializers.SpacesOnlyPasswordIsBlank` with `Register.PasswordsDifferAsTexts`:
  the page compares the raw password texts, while the serializer strips
  surrounding whitespace first. Two passwords of spaces pass the page and are
  refused as blank.
- `Login.RefusedLoginEndsStaleSession`: the login request goes through the
  same client as every other request, so wrong credentials answered with 401
  on a browser holding a stale access token end that session and redirect to
  `/login` before the form is shaken.
- `Sidebar.MountForgetsSavedState`: the saved collapse state lasts one render.
  The first effect replaces it with the screen-size default until the user
  toggles.

## Model

| member | source | states |
|---|---|---|
| Text.Lower | fontend/inventory_system/src/pages/Products.jsx:90-94 | `toLowerCase` on ASCII text: each letter A-Z is lowered in place and every other character is kept |
| Text.LowerIdempotent | fontend/inventory_system/src/pages/Products.jsx:90-94 | lowering twice is lowering once |
| Text.IncludesIffOccurs | fontend/inventory_system/src/pages/Products.jsx:90-94 | `includes` holds exactly when the needle occurs at some index |
| Text.IncludesEmpty | fontend/inventory_system/src/pages/Products.jsx:90-94 | every text includes the empty term |
| Text.Join | fontend/inventory_system/src/components/auth/Register.jsx:38-40 | joining no parts gives "" and joining one part gives that part |
| Text.JoinEmptyIffAllEmpty | fontend/inventory_system/src/components/auth/Register.jsx:38-40 | with a non-empty separator, a join is empty exactly when there is at most one part and it is empty |
| Text.CentsToText | backend/inventory_system/inventory_app/models.py:21 | a two-decimal amount has a point before its last two digits and starts with '-' exactly when negative |
| Text.UnsignedCentsTextReadsBack | backend/inventory_system/inventory_app/models.py:21 | the digits before and after the point of an unsigned amount read back as its cents |
| Text.CentsTextRoundTrip | backend/inventory_system/inventory_app/models.py:21 | the text an amount is sent as reads back, sign included, as the same amount |
| Text.NatToString | backend/inventory_system/inventory_app/serializers.py:67 | a natural number is written as a non-empty digit string without a leading zero that reads back as the number |
| Text.IntToString | backend/inventory_system/inventory_app/serializers.py:67 | an integer is written with a '-' exactly when negative, followed by digits that read back as its magnitude |
| Text.Trim | backend/inventory_system/inventory_app/serializers.py:18-19 | stripping never lengthens a text and leaves no whitespace at either end |
| Text.TrimEmptyIffAllSpace | backend/inventory_system/inventory_app/serializers.py:18-19 | a text strips to the empty text exactly when it is all whitespace |
| Text.TrimIsInner | backend/inventory_system/inventory_app/serializers.py:18-19 | what stripping keeps occurs in the original text |
| Text.TrimIdempotent | backend/inventory_system/inventory_app/serializers.py:18-19 | stripping twice is stripping once |
| Js.Not | fontend/inventory_system/src/pages/Users.jsx:24 | `!v` is the boolean opposite of the value's truthiness |
| Js.FalsyValues | fontend/inventory_system/src/components/auth/Login.js:21 | exactly `undefined`, `null`, `false`, `0` and `""` are falsy |
| Js.StrictEqualsOnValues | fontend/inventory_system/src/components/auth/Register.jsx:24 | `===` is symmetric, is equality on primitives, and never holds for an array, not even against itself |
| Js.ArrayText | fontend/inventory_system/src/components/auth/Register.jsx:38-40 | `String` of an array: "" for `[]`, the element's text for one element (nothing for `undefined` and `null`), and the elements' texts joined by commas otherwise |
| Js.JoinItemsKeepsNullishPlaces | fontend/inventory_system/src/components/auth/Register.jsx:40 | `join` writes nothing for `undefined` and `null` but keeps their separators |
| Js.RenderOfPrimitive | fontend/inventory_system/src/pages/Sales.jsx:97-103 | markup shows a primitive as its `String` text, except that `undefined`, `null` and booleans show nothing |
| Js.Get | fontend/inventory_system/src/pages/Products.jsx:81-84 | a missing property reads as `undefined` |
| Js.With | fontend/inventory_system/src/pages/Products.jsx:28-32 | `{ ...o, [k]: v }` sets `k` to `v` and keeps every other property |
| Js.Pick | fontend/inventory_system/src/pages/Sales.jsx:44-45 | destructuring followed by an object literal gives exactly the named keys, missing ones as `undefined` |
| Js.FieldText | fontend/inventory_system/src/components/auth/Login.js:44-45 | a form field reads as its text, or `undefined` when absent |
| Js.Values | fontend/inventory_system/src/components/auth/Register.jsx:38 | `Object.values` lists the entries' values in order |
| Js.Flat | fontend/inventory_system/src/components/auth/Register.jsx:39 | `flat()` leaves a list without arrays as it is |
| Js.Strs | fontend/inventory_system/src/components/auth/Register.jsx:38-40 | a list of texts as string values, one for one |
| Js.JoinStrs | fontend/inventory_system/src/components/auth/Register.jsx:40 | `join` on string values is the join of their texts |
| Js.Lookup | fontend/inventory_system/src/pages/Sales.jsx:51 | a key some entry has reads as the value of its last entry, as `JSON.parse` keeps the last duplicate; a key no entry has reads as `undefined` |
| Js.Body.Field | fontend/inventory_system/src/pages/Sales.jsx:51 | `error.response?.data?.quantity`: `undefined` without a body, the property of an object body, and only `length` on a text body |
| Browser.Item | fontend/inventory_system/src/components/PrivateRoute.js:29 | `getItem` gives the stored text, or `null` for an absent key |
| Browser.Holds | fontend/inventory_system/src/components/PrivateRoute.js:29-30 | a stored item is truthy exactly when the key is present with non-empty text |
| Browser.ClearTokens | fontend/inventory_system/src/components/auth/Logout.js:10-11 | both tokens are gone and every other local key reads as before |
| Browser.ClearTokensIdempotent | fontend/inventory_system/src/components/auth/Logout.js:10-11 | clearing already-cleared storage changes nothing |
| Browser.Window.constructor | fontend/inventory_system/src/components/auth/Login.js:15 | the window starts with the given stores and location |
| Api.WithBearer | fontend/inventory_system/src/api.js:69-76 | with a truthy stored access token the Authorization header becomes `Bearer <t>`; otherwise the headers are unchanged; no other header changes |
| Api.EndSession | fontend/inventory_system/src/api.js:105-111 | the failure path removes both tokens, goes to `/login` and rejects with the given error, touching nothing else |
| Api.Step | fontend/inventory_system/src/api.js:81-116 | one transmission and its handling always progresses; the request stays pending only after a successful refresh on its first 401, which marks it retried; a retried request always settles without refreshing |
| Api.Run | fontend/inventory_system/src/api.js:81-116 | the interceptors always settle the request, and the transmissions so far are kept as a prefix |
| Api.AtMostOneRefresh | fontend/inventory_system/src/api.js:87-88 | whatever the servers answer, one request calls the refresh endpoint at most once and is transmitted at most twice; a retried request never refreshes |
| Api.FirstTransmissionHeaders | fontend/inventory_system/src/api.js:69-76 | the first transmission carries `Bearer <t>` exactly when a truthy token `t` is stored, otherwise the original headers |
| Api.OtherRepliesPassThrough | fontend/inventory_system/src/api.js:114 | a reply other than 401 settles at once: resolved for 2xx, otherwise rejected with the original error; no refresh, storage and location untouched |
| Api.MissingRefreshTokenEndsSession | fontend/inventory_system/src/api.js:87-92 | a 401 with no refresh token marks the request retried, calls no refresh, clears both tokens, goes to `/login` and rejects |
| Api.RefreshSuccessRetriesOnce | fontend/inventory_system/src/api.js:95-104 | after a refresh giving `t`, the access token becomes `t` and the refresh token stays; the request goes out once more with `Bearer <t>`, and its reply, even another 401, settles it |
| Api.RefreshFailureEndsSession | fontend/inventory_system/src/api.js:105-111 | a failed refresh clears both tokens, goes to `/login` and propagates the refresh error |
| Api.RetriedRequestNeverRefreshes | fontend/inventory_system/src/api.js:87 | a request already marked `_retry` is sent once; its failure, a 401 included, is passed on with storage untouched |
| Api.Config.constructor | fontend/inventory_system/src/api.js:87 | a fresh request config is not marked retried |
| Api.AttachToken | fontend/inventory_system/src/api.js:69-76 | the request interceptor writes `WithBearer` of the config's headers into the config |
| Api.EndSessionIn | fontend/inventory_system/src/api.js:107-109 | both tokens are removed from the window's local storage and it goes to `/login` |
| Api.Send | fontend/inventory_system/src/api.js:69-116 | the loop of transmissions ends with the window, the config and the outcome exactly as `Run` describes |
| Models.NewUser | backend/inventory_system/inventory_app/models.py:7-9 | a user created without flags is not an admin, is a staff user, and is active |
| Models.TotalValue | backend/inventory_system/inventory_app/models.py:28-30 | a product's worth is not negative without negative stock or price, and is at least its price when both are positive |
| Models.LineAmount | backend/inventory_system/inventory_app/models.py:44 | a line of no units costs nothing, a line of one unit costs its unit price, and no line with non-negative inputs costs less than nothing |
| Models.SumTotalValue | backend/inventory_system/inventory_app/models.py:101-105 | the report total of no products is 0 and of one product is its worth |
| Models.EmptyStockIsWorthNothing | backend/inventory_system/inventory_app/models.py:28-30 | a product with no stock has total value 0 |
| Models.RestockValue | backend/inventory_system/inventory_app/models.py:28-30 | adding `q` units at the current price raises the total value by exactly `price * q` |
| Models.SumTotalValueAppend | backend/inventory_system/inventory_app/models.py:101-105 | the report total over two product lists is the sum of their totals |
| Models.SumTotalValueNonNegative | backend/inventory_system/inventory_app/models.py:101-105 | with no negative stock and no negative price, the report total is not negative |
| Models.SumTotalValueUpdate | backend/inventory_system/inventory_app/models.py:101-105 | changing one product changes the total by exactly the change in its worth |
| Models.Product.Row | backend/inventory_system/inventory_app/models.py:17-23 | the row holds the product's current fields |
| Models.Product.constructor | backend/inventory_system/inventory_app/models.py:17-23 | a new product has quantity 0 and is stored as created |
| Models.Product.Save | backend/inventory_system/inventory_app/models.py:17-23 | the stored row becomes the current fields |
| Models.Purchase.Row | backend/inventory_system/inventory_app/models.py:35-41 | the row holds the purchase's product id, quantity, price and amount |
| Models.Purchase.constructor | backend/inventory_system/inventory_app/models.py:35-41 | a new purchase has amount 0 and is not stored |
| Models.Purchase.Save | backend/inventory_system/inventory_app/models.py:43-49 | the amount becomes price times quantity; the product's buying price becomes the unit price, and the product is saved exactly when the two differed |
| Models.Sale.constructor | backend/inventory_system/inventory_app/models.py:57-61 | a new sale has no amount and is not stored |
| Models.Sale.Save | backend/inventory_system/inventory_app/models.py:65-67 | the amount becomes price times quantity; the product is unchanged |
| Models.Report.constructor | backend/inventory_system/inventory_app/models.py:92-96 | every total starts at 0 |
| Models.Report.CalculateTotalProductPrice | backend/inventory_system/inventory_app/models.py:101-105 | the product total becomes the sum of every product's total value, and the report is saved once |
| Serializers.ErrorJson | fontend/inventory_system/src/components/auth/Register.jsx:38 | a validation error body parses as one array of texts per field, fields in order |
| Serializers.UserJson | backend/inventory_system/inventory_app/serializers.py:9-12 | a user is sent as exactly six fields that carry its columns |
| Serializers.LowStockThreshold | backend/inventory_system/inventory_app/serializers.py:46-47 | a product with 5 units is low on stock and one with 6 is not, an empty or negative stock is low, and fewer units of a low product are still low |
| Serializers.ProductJson | backend/inventory_system/inventory_app/serializers.py:38-47 | a product is sent with its columns other than `created_at` and with `low_stock`, the low-stock flag |
| Serializers.ValidatePurchase | backend/inventory_system/inventory_app/serializers.py:63-74 | a purchase is accepted exactly when its quantity is positive and the product holds at most 1 unit; a quantity at most 0 is refused under `quantity`, a stocked product under `product`, and each refusal has one error |
| Serializers.AcceptedPurchaseIsLowStock | backend/inventory_system/inventory_app/serializers.py:46-47 | every product a purchase is accepted for is flagged low on stock |
| Serializers.LowStockButNotPurchasable | backend/inventory_system/inventory_app/serializers.py:65 | a product with 3 units is low on stock, yet a purchase of it is refused |
| Serializers.PurchaseJson | backend/inventory_system/inventory_app/serializers.py:55-61 | a stored purchase is sent with its product id and quantity, and its unit price and amount as two-decimal texts |
| Serializers.CreatePurchase | backend/inventory_system/inventory_app/serializers.py:76-84 | the stock rises by exactly the quantity, the buying price becomes the unit price, no other product field changes, and the stored purchase row holds the product id, quantity, price and price times quantity |
| Serializers.PostPurchase | backend/inventory_system/inventory_app/serializers.py:63-84 | a refused purchase changes nothing and reports the validation errors; an accepted one raises the stock by its positive quantity and sets the buying price |
| Serializers.ValidateSale | backend/inventory_system/inventory_app/serializers.py:111-120 | a sale is accepted exactly when `0 <= q <= stock`, so the stock left is never negative; every refusal is a single `quantity` error, the insufficient-stock text when `q >= 0` |
| Serializers.CreateSale | backend/inventory_system/inventory_app/serializers.py:122-129 | the stock falls by exactly the quantity, nothing else changes, and the stored sale row holds the product id, quantity, price and price times quantity |
| Serializers.PostSale | backend/inventory_system/inventory_app/serializers.py:111-129 | a refused sale changes nothing; an accepted one lowers the stock by its quantity and leaves it non-negative |
| Serializers.LowStockStaysLowAfterSale | backend/inventory_system/inventory_app/serializers.py:46-47 | an accepted sale of a product low on stock leaves it low on stock |
| Serializers.RequiredText | backend/inventory_system/inventory_app/serializers.py:18-19 | a required text field has no error exactly when it is present and not blank once stripped of surrounding whitespace; a missing one is "required", an all-whitespace one "blank" |
| Serializers.RegistrationFieldErrors | backend/inventory_system/inventory_app/serializers.py:17-24 | there are no field errors exactly when username, password and password2 are all present and non-blank once stripped; every error is on one of those fields and has a message |
| Serializers.RegistrationData | backend/inventory_system/inventory_app/serializers.py:20-24 | the validated data holds each submitted known field stripped of surrounding whitespace, and `is_active` true, and nothing else |
| Serializers.ValidateRegistration | backend/inventory_system/inventory_app/serializers.py:26-29 | a registration is accepted, with `RegistrationData`, exactly when the fields pass and the stripped passwords are equal; field errors come first, and a mismatch alone is refused under `password` |
| Serializers.SpacesOnlyPasswordIsBlank | backend/inventory_system/inventory_app/serializers.py:18-19 | a password of three spaces typed twice is refused as blank under both password fields |
| Serializers.CreateUserArguments | backend/inventory_system/inventory_app/serializers.py:31-33 | `password2` is dropped and every other validated field is passed on unchanged |
| Serializers.RegisteredUser | backend/inventory_system/inventory_app/serializers.py:26-33 | a valid registration creates an active user with the stripped username and the stripped password, which is non-empty with no whitespace at either end, and without `password2` |
| Login.SignedIn | fontend/inventory_system/src/components/auth/Login.js:49-57 | when remembered, both tokens and the username go to local storage and session storage is untouched; otherwise both tokens go to session storage and only `saved_username` leaves local storage |
| Login.ForgottenLoginKeepsLocalTokens | fontend/inventory_system/src/components/auth/Login.js:53-57 | a login that is not remembered writes no local token |
| Login.LoginForm.constructor | fontend/inventory_system/src/components/auth/Login.js:9-15 | the form starts with the default credentials, stopped, and "remember me" on exactly when a truthy access token is stored |
| Login.LoginForm.Mount | fontend/inventory_system/src/components/auth/Login.js:19-31 | a truthy saved username replaces only the username; a truthy access token sends the browser home |
| Login.LoginForm.HandleChange | fontend/inventory_system/src/components/auth/Login.js:33-35 | only the named field changes |
| Login.LoginForm.ToggleRememberMe | fontend/inventory_system/src/components/auth/Login.js:15 | the checkbox flips "remember me" |
| Login.LoginForm.BeginSubmit | fontend/inventory_system/src/components/auth/Login.js:39-46 | loading starts, the shake clears, and exactly the username and password are posted |
| Login.LoginForm.FinishSubmit | fontend/inventory_system/src/components/auth/Login.js:43-67 | the POST goes through the client's interceptors; once they resolve it the returned tokens are stored as `SignedIn` over the storage they left and the browser goes home; once they reject it the storage and location are what they left and the form shakes; loading ends either way |
| Login.RefusedLoginEndsStaleSession | fontend/inventory_system/src/components/auth/Login.js:43 | wrong credentials on a browser holding an access token but no refresh token remove both tokens and send the browser to `/login` |
| Logout.Mount | fontend/inventory_system/src/components/auth/Logout.js:8-22 | both tokens are removed, every other key and session storage stay, and the browser ends at `/login` |
| PrivateRoute.Guard | fontend/inventory_system/src/components/PrivateRoute.js:28-31 | the children are shown exactly when local storage holds a truthy access token; otherwise a replacing redirect to `/login` |
| PrivateRoute.ForgottenLoginIsTurnedAway | fontend/inventory_system/src/components/PrivateRoute.js:29 | a login that is not remembered, on a browser without a local token, does not pass the guard |
| PrivateRoute.RememberedLoginPasses | fontend/inventory_system/src/components/PrivateRoute.js:29-30 | a remembered login with a non-empty token passes |
| PrivateRoute.ClearedSessionIsTurnedAway | fontend/inventory_system/src/components/PrivateRoute.js:29-30 | after logout or a failed refresh the guard redirects |
| PrivateRoute.RefreshedSessionPasses | fontend/inventory_system/src/components/PrivateRoute.js:29-30 | after a successful refresh giving a non-empty token the guard passes |
| AuthContext.Remembered | fontend/inventory_system/src/context/AuthContext.js:7-12 | a stored value is kept when truthy, otherwise `null` |
| AuthContext.Initial | fontend/inventory_system/src/context/AuthContext.js:7-12 | the context starts from the stored `token` and `role` |
| AuthContext.LoggedIn | fontend/inventory_system/src/context/AuthContext.js:14-19 | both state values and both keys take the new values, and nothing else changes |
| AuthContext.LoggedOut | fontend/inventory_system/src/context/AuthContext.js:21-26 | both state values become null, both keys go, and every other key stays |
| AuthContext.LogoutIdempotent | fontend/inventory_system/src/context/AuthContext.js:21-26 | logging out twice is logging out once |
| AuthContext.LoginThenLogout | fontend/inventory_system/src/context/AuthContext.js:14-26 | a login followed by a logout leaves what a logout alone leaves |
| AuthContext.LoginSurvivesReload | fontend/inventory_system/src/context/AuthContext.js:7-19 | a remount after a login with non-empty values sees exactly that login's state |
| AuthContext.ContextDoesNotDriveTheGuard | fontend/inventory_system/src/context/AuthContext.js:17-25 | the context's login and logout do not change what the route guard decides |
| AuthContext.AuthProvider.constructor | fontend/inventory_system/src/context/AuthContext.js:7-12 | the provider's state is `Initial` of local storage |
| AuthContext.AuthProvider.LogIn | fontend/inventory_system/src/context/AuthContext.js:14-19 | the provider's state becomes `LoggedIn` |
| AuthContext.AuthProvider.LogOut | fontend/inventory_system/src/context/AuthContext.js:21-26 | the provider's state becomes `LoggedOut` |
| Register.BodyValues | fontend/inventory_system/src/components/auth/Register.jsx:38 | `Object.values` of an object body is its values; of a text body, its characters |
| Register.ErrorMessage | fontend/inventory_system/src/components/auth/Register.jsx:35-45 | the notice is never empty: the flattened values joined with spaces, or the default text with no body or an empty join |
| Register.FlatErrorValues | fontend/inventory_system/src/components/auth/Register.jsx:38-39 | flattening a validation error body's values gives all its messages, field by field |
| Register.ErrorMessageOfErrors | fontend/inventory_system/src/components/auth/Register.jsx:37-41 | for a validation error body the notice is its messages joined with spaces |
| Register.PasswordsDifferAsTexts | fontend/inventory_system/src/components/auth/Register.jsx:24 | the page's check compares raw texts: present fields differ exactly when their texts do, two missing fields are equal, one missing field differs, and a trailing space counts |
| Register.RefusalBody | backend/inventory_system/inventory_app/serializers.py:26-29 | a refused form gets a truthy error body |
| Register.RefusalNotice | fontend/inventory_system/src/components/auth/Register.jsx:31-41 | a refused form answered with 400 passes the interceptors with nothing touched and shows the backend's messages joined with spaces; an all-whitespace username with equal, non-blank passwords shows the blank-field message |
| Register.RegisterPage.constructor | fontend/inventory_system/src/components/auth/Register.jsx:9-15 | four empty fields, not loading |
| Register.RegisterPage.HandleChange | fontend/inventory_system/src/components/auth/Register.jsx:18-20 | only the named field changes |
| Register.RegisterPage.HandleRegister | fontend/inventory_system/src/components/auth/Register.jsx:22-49 | differing passwords stop it with no POST and nothing changed but the notice; otherwise the form is posted unchanged through the interceptors, success goes to `/login`, a rejection with a response shows `ErrorMessage` of its body and any other the default notice, storage and location are what the interceptors left, and loading ends off |
| RecordList.ReplaceById | fontend/inventory_system/src/pages/Products.jsx:54 | the same length; each record with the id becomes the reply, and every other record stays in place |
| RecordList.RemoveById | fontend/inventory_system/src/pages/Products.jsx:65 | exactly the records without the id remain |
| RecordList.RemoveByIdAppend | fontend/inventory_system/src/pages/Products.jsx:65 | removal keeps order: removing from a concatenation removes from each part |
| RecordList.RemoveAbsentId | fontend/inventory_system/src/pages/Products.jsx:65 | deleting an id no record has changes nothing |
| RecordList.RemoveByIdIdempotent | fontend/inventory_system/src/pages/Products.jsx:65 | deleting twice is deleting once |
| RecordList.CreateThenDelete | fontend/inventory_system/src/pages/Products.jsx:37 | a created record deleted by its id leaves what the delete alone leaves |
| RecordList.UpdateThenDelete | fontend/inventory_system/src/pages/Products.jsx:54-65 | an update answered with the same id, then a delete, leaves what the delete alone leaves |
| RecordList.UpdateAbsentId | fontend/inventory_system/src/pages/Products.jsx:54 | an update of an absent id changes nothing |
| Products.QuantityStatusOf | fontend/inventory_system/src/pages/Products.jsx:80-88 | out of stock exactly when `quantity === 0`; otherwise low exactly when `low_stock` is truthy; otherwise the quantity |
| Products.StatusOfServedProduct | fontend/inventory_system/src/pages/Products.jsx:80-88 | for a served product the badge is out of stock at 0, low at or below 5 (negative included), and the plain quantity above 5 |
| Products.FilteredProducts | fontend/inventory_system/src/pages/Products.jsx:90-94 | every kept product matches the term and every matching product is kept |
| Products.FilteredProductsAppend | fontend/inventory_system/src/pages/Products.jsx:90-94 | filtering keeps list order and repeats: filtering a concatenation filters each part |
| Products.FilteredProductsSingle | fontend/inventory_system/src/pages/Products.jsx:90-94 | a single product is kept exactly when it matches |
| Products.NamePieceFindsProduct | fontend/inventory_system/src/pages/Products.jsx:91 | typing any piece of a product's name, in any case, finds the product |
| Products.EmptySearchShowsAll | fontend/inventory_system/src/pages/Products.jsx:90-94 | the empty term keeps every product, in order |
| Products.SearchIgnoresCase | fontend/inventory_system/src/pages/Products.jsx:90-94 | the result does not depend on the case of the term |
| Products.ServedProductsAreSearchable | backend/inventory_system/inventory_app/serializers.py:38-44 | every served product has the text fields the search reads |
| Products.ProductsPage.constructor | fontend/inventory_system/src/pages/Products.jsx:8-13 | no products, the empty form with quantity 0, nothing edited, an empty search |
| Products.ProductsPage.FetchProducts | fontend/inventory_system/src/pages/Products.jsx:19-26 | the list becomes the reply; a failure keeps it |
| Products.ProductsPage.HandleInputChange | fontend/inventory_system/src/pages/Products.jsx:28-32 | only the named field changes, in the edited product if there is one, else in the new one |
| Products.ProductsPage.HandleCreateProduct | fontend/inventory_system/src/pages/Products.jsx:34-45 | the whole form is posted; success appends the reply and empties the form; failure changes nothing |
| Products.ProductsPage.HandleEdit | fontend/inventory_system/src/pages/Products.jsx:47-49 | the product becomes the edited one |
| Products.ProductsPage.CancelEdit | fontend/inventory_system/src/pages/Products.jsx:202 | editing ends |
| Products.ProductsPage.HandleUpdateProduct | fontend/inventory_system/src/pages/Products.jsx:51-60 | the edited product is sent whole; success replaces by id and ends editing; failure changes nothing |
| Products.ProductsPage.HandleDelete | fontend/inventory_system/src/pages/Products.jsx:62-70 | success removes by id; failure changes nothing |
| Products.ProductsPage.SetSearchTerm | fontend/inventory_system/src/pages/Products.jsx:107 | the search term becomes the typed text |
| Sales.SalePayload | fontend/inventory_system/src/pages/Sales.jsx:44-45 | the payload has exactly `product`, `quantity` and `price_per_unit`, taken from the form |
| Sales.ErrorNotice | fontend/inventory_system/src/pages/Sales.jsx:51-52 | the notice is the server's `quantity` error when truthy, otherwise the fallback |
| Sales.RefusedSaleNotice | fontend/inventory_system/src/pages/Sales.jsx:51-52 | every sale the backend refuses shows its single `quantity` message |
| Sales.OptionOf | fontend/inventory_system/src/pages/Sales.jsx:97-103 | disabled and marked out of stock exactly when `quantity === 0`, with the product id as value |
| Sales.ProductOptions | fontend/inventory_system/src/pages/Sales.jsx:95-105 | one option per product, in order |
| Sales.DisabledOptionOfServedProduct | fontend/inventory_system/src/pages/Sales.jsx:100 | a served product is disabled exactly at stock 0, and then no positive sale of it is accepted |
| Sales.SalesPage.constructor | fontend/inventory_system/src/pages/Sales.jsx:6-11 | empty lists, the empty form, nothing edited |
| Sales.SalesPage.FetchSales | fontend/inventory_system/src/pages/Sales.jsx:18-25 | the list becomes the reply; a failure keeps it |
| Sales.SalesPage.FetchProducts | fontend/inventory_system/src/pages/Sales.jsx:27-34 | the products become the reply; a failure keeps them |
| Sales.SalesPage.HandleInputChange | fontend/inventory_system/src/pages/Sales.jsx:36-40 | only the named field changes, in the edited sale if there is one, else in the new one |
| Sales.SalesPage.HandleCreateSale | fontend/inventory_system/src/pages/Sales.jsx:42-54 | three fields are posted; success appends and empties the form; failure changes nothing and shows `ErrorNotice` |
| Sales.SalesPage.HandleEdit | fontend/inventory_system/src/pages/Sales.jsx:56-61 | the sale is edited with its time rewritten |
| Sales.SalesPage.HandleUpdateSale | fontend/inventory_system/src/pages/Sales.jsx:63-75 | three fields are sent; success replaces by id and ends editing; failure changes nothing and shows `ErrorNotice` |
| Sales.SalesPage.HandleDelete | fontend/inventory_system/src/pages/Sales.jsx:77-85 | success removes by id; failure changes nothing |
| Purchases.PurchasePayload | fontend/inventory_system/src/pages/Purchases.jsx:43-44 | the payload has exactly `product`, `quantity` and `price_per_unit`, taken from the form |
| Purchases.RowTotalIsStoredAmount | fontend/inventory_system/src/pages/Purchases.jsx:164 | for any saved purchase, the quantity times the unit price read from the served text is the amount the backend stored, and so is the served amount |
| Purchases.PurchasesPage.constructor | fontend/inventory_system/src/pages/Purchases.jsx:5-10 | empty lists, the empty form, nothing edited |
| Purchases.PurchasesPage.FetchPurchases | fontend/inventory_system/src/pages/Purchases.jsx:17-24 | the list becomes the reply; a failure keeps it |
| Purchases.PurchasesPage.FetchProducts | fontend/inventory_system/src/pages/Purchases.jsx:26-33 | the products become the reply; a failure keeps them |
| Purchases.PurchasesPage.HandleInputChange | fontend/inventory_system/src/pages/Purchases.jsx:35-39 | only the named field changes, in the edited purchase if there is one, else in the new one |
| Purchases.PurchasesPage.HandleCreatePurchase | fontend/inventory_system/src/pages/Purchases.jsx:41-51 | three fields are posted; success appends and empties the form; failure changes nothing |
| Purchases.PurchasesPage.HandleEdit | fontend/inventory_system/src/pages/Purchases.jsx:53-58 | the purchase is edited with its time rewritten |
| Purchases.PurchasesPage.HandleUpdatePurchase | fontend/inventory_system/src/pages/Purchases.jsx:60-70 | three fields are sent; success replaces by id and ends editing; failure changes nothing |
| Purchases.PurchasesPage.HandleDelete | fontend/inventory_system/src/pages/Purchases.jsx:72-79 | success removes by id; failure changes nothing |
| Expenses.ExpensePayload | fontend/inventory_system/src/pages/Expenses.jsx:32-33 | the payload has exactly `description` and `amount` |
| Expenses.Spender | fontend/inventory_system/src/pages/Expenses.jsx:80 | a missing or empty spender reads as "" |
| Expenses.FilteredExpenses | fontend/inventory_system/src/pages/Expenses.jsx:78-82 | every kept expense matches the term and every matching expense is kept |
| Expenses.FilteredExpensesAppend | fontend/inventory_system/src/pages/Expenses.jsx:78-82 | filtering keeps list order and repeats: filtering a concatenation filters each part |
| Expenses.FilteredExpensesSingle | fontend/inventory_system/src/pages/Expenses.jsx:78-82 | a single expense is kept exactly when it matches |
| Expenses.DescriptionPieceFindsExpense | fontend/inventory_system/src/pages/Expenses.jsx:79 | typing any piece of an expense's description, in any case, finds the expense |
| Expenses.EmptySearchShowsAll | fontend/inventory_system/src/pages/Expenses.jsx:78-82 | the empty term keeps every expense, in order |
| Expenses.MissingSpenderMatchesOnlyEmpty | fontend/inventory_system/src/pages/Expenses.jsx:80 | an expense without a spender matches on the spender only for the empty term |
| Expenses.ExpensesPage.constructor | fontend/inventory_system/src/pages/Expenses.jsx:6-9 | an empty list, the empty form, nothing edited, an empty search |
| Expenses.ExpensesPage.FetchExpenses | fontend/inventory_system/src/pages/Expenses.jsx:15-22 | the list becomes the reply; a failure keeps it |
| Expenses.ExpensesPage.HandleInputChange | fontend/inventory_system/src/pages/Expenses.jsx:24-28 | only the named field changes, in the edited expense if there is one, else in the new one |
| Expenses.ExpensesPage.HandleCreateExpense | fontend/inventory_system/src/pages/Expenses.jsx:30-40 | two fields are posted; success appends and empties the form; failure changes nothing |
| Expenses.ExpensesPage.HandleEdit | fontend/inventory_system/src/pages/Expenses.jsx:42-47 | the expense is edited with its time rewritten |
| Expenses.ExpensesPage.HandleUpdateExpense | fontend/inventory_system/src/pages/Expenses.jsx:49-59 | two fields are sent; success replaces by id and ends editing; failure changes nothing |
| Expenses.ExpensesPage.HandleDelete | fontend/inventory_system/src/pages/Expenses.jsx:61-68 | success removes by id; failure changes nothing |
| Expenses.ExpensesPage.SetSearchTerm | fontend/inventory_system/src/pages/Expenses.jsx:95 | the search term becomes the typed text |
| Users.RoleLabel | fontend/inventory_system/src/pages/Users.jsx:59-63 | "Admin" when `is_superuser` is truthy, else "Staff" when `is_staff` is, else "User" |
| Users.SerializedUsersAreLabelledUser | fontend/inventory_system/src/pages/Users.jsx:59-63 | every account the user serializer describes is labelled "User" |
| Users.StatusBadge | fontend/inventory_system/src/pages/Users.jsx:66-67 | the badge depends only on `is_active` |
| Users.ToggleLabel | fontend/inventory_system/src/pages/Users.jsx:76 | the button says "Deactivate" exactly for an active account |
| Users.TogglePayload | fontend/inventory_system/src/pages/Users.jsx:23-25 | the patch holds only `is_active`, the negation of the shown status |
| Users.ToggleFlipsRow | fontend/inventory_system/src/pages/Users.jsx:21-27 | once the patch is applied, the badge and the button both flip |
| Users.UsersPage.constructor | fontend/inventory_system/src/pages/Users.jsx:12-19 | the list starts empty |
| Users.UsersPage.FetchUsers | fontend/inventory_system/src/pages/Users.jsx:12-19 | the list becomes the reply; a failure keeps it |
| Users.UsersPage.ToggleActivation | fontend/inventory_system/src/pages/Users.jsx:21-32 | the negated status is sent; success replaces the account by id; failure changes nothing |
| Sidebar.SavedCollapsed | fontend/inventory_system/src/components/Sidebar.js:31-34 | the first collapse state is the saved boolean when one is saved, otherwise false |
| Sidebar.SavedStateRoundTrip | fontend/inventory_system/src/components/Sidebar.js:31-45 | what the persistence effect writes is read back on the next mount as the same state |
| Sidebar.FirstRender | fontend/inventory_system/src/components/Sidebar.js:27-35 | the first render is collapsed as saved and not pinned, with the two media queries at 1024 and 640 pixels |
| Sidebar.Followed | fontend/inventory_system/src/components/Sidebar.js:37-41 | while not pinned the sidebar takes `isMobile`; pinned, it stays |
| Sidebar.MountForgetsSavedState | fontend/inventory_system/src/components/Sidebar.js:31-41 | after the first effects the sidebar is collapsed exactly on a mobile screen, whatever was saved |
| Sidebar.Toggled | fontend/inventory_system/src/components/Sidebar.js:47-50 | toggling pins the sidebar and flips `collapsed` |
| Sidebar.Escaped | fontend/inventory_system/src/components/Sidebar.js:57-64 | Escape collapses an open drawer and otherwise changes nothing |
| Sidebar.BackdropClicked | fontend/inventory_system/src/components/Sidebar.js:139 | a backdrop click collapses the sidebar |
| Sidebar.Resized | fontend/inventory_system/src/components/Sidebar.js:27-41 | a new width re-evaluates both queries; unpinned, the sidebar follows `isMobile`; pinned, it keeps its state |
| Sidebar.ToggleTwice | fontend/inventory_system/src/components/Sidebar.js:47-50 | two toggles restore `collapsed` |
| Sidebar.EventsKeepSettled | fontend/inventory_system/src/components/Sidebar.js:35-64 | every event keeps "unpinned means collapsed exactly on mobile", and no event removes a pin |
| Sidebar.UnpinnedDrawerIsShut | fontend/inventory_system/src/components/Sidebar.js:52-64 | until the user toggles, the drawer is never open, so Escape and the backdrop change nothing |
| Sidebar.UsersLinkForAdminsOnly | fontend/inventory_system/src/components/Sidebar.js:102-106 | the Users link is shown exactly when `user?.is_admin` is truthy |
| Sidebar.SidebarView.constructor | fontend/inventory_system/src/components/Sidebar.js:27-35 | the component's first state is `FirstRender` |
| Sidebar.SidebarView.Persist | fontend/inventory_system/src/components/Sidebar.js:43-45 | a changed collapse state is written under `sidebar:collapsed` as JSON |
| Sidebar.SidebarView.Mount | fontend/inventory_system/src/components/Sidebar.js:37-45 | the first effects give `Followed` of the first state, stored in local storage |
| Sidebar.SidebarView.ToggleSidebar | fontend/inventory_system/src/components/Sidebar.js:47-50 | the state becomes `Toggled` and is stored |
| Sidebar.SidebarView.Escape | fontend/inventory_system/src/components/Sidebar.js:57-64 | the state becomes `Escaped` and is stored |
| Sidebar.SidebarView.BackdropClick | fontend/inventory_system/src/components/Sidebar.js:123-140 | on a tiny screen, the state becomes `BackdropClicked` and is stored |
| Sidebar.SidebarView.Resize | fontend/inventory_system/src/components/Sidebar.js:27-41 | the state becomes `Resized` and is stored |

## Left out

- Networking: the axios transport, the base-URL choice, the Django URL
  configuration and the views. Every reply is a parameter.
- Money is integer cents. The `DecimalField` digit limits are not modelled.
  `total_value` is sent as a JSON number computed in floating point, so it is
  not part of `Serializers.ProductJson`; nor is `created_at`, a timestamp set
  on creation. The `selling_price` the sale
  serializer reads from a product column that does not exist is not modelled.
- The DRF field validators other than the non-negative quantity:
  - the product lookup by primary key;
  - the price format;
  - the username validators and uniqueness;
  - the email format;
  - password strength;
  - the upper bound of a positive integer field;
  - the optional `is_admin` and `is_staff_user` inputs of a registration.
- Serializers.ValidatePurchase, Serializers.ValidateSale: they take the
  looked-up product and the price as given, so a non-existent product or a
  malformed price is not a refusal here.
- Purchases.RowTotalCost: the browser turns the served decimal text into a
  floating-point number. Here a two-decimal text is read exactly, in cents,
  and any other text gives no total where the browser would show `NaN`. The
  currency formatting (`formatTZS`) is not modelled.
- Locale and date handling (`toLocaleString`, `toISOString`, `Intl.NumberFormat`):
  - the edit forms receive the rewritten time as a parameter (`soldAt`,
    `purchasedAt`, `spentAt`);
  - the expense search receives the date rendering as a function (`dateText`).
- JWT decoding (`utils/token.js`, a foreign library) is not part of this
  model. The sidebar takes the decoded user as an input. That helper reads the
  local key `access`, which the login page never writes.
- Timers, toasts, focus handling, `body.style.overflow` and the media-query
  listeners:
  - only the end state of the 2.5 s logout delay is modelled;
  - a resize is an event carrying the new width.
- Sidebar.SavedCollapsed: its precondition admits only a saved `true` or
  `false`. That is what the component writes; other saved text, which
  `JSON.parse` would read as some other value or reject, is not modelled.
- Concurrency: two requests refreshing at once, and handlers that overlap on
  stale list state. Each handler runs to its end before the next event.
- Login.LoginForm.FinishSubmit: a successful reply is assumed to carry both
  tokens. A reply lacking them, which the component would store as the text
  "undefined", is not modelled.
- Text.Lower: only the ASCII letters A-Z are lowered. `toLowerCase` also
  lowers every other Unicode letter ("É" to "é") and can change the length
  ("İ" becomes two characters). Products.FilteredProducts and
  Expenses.FilteredExpenses inherit this, so the searches are modelled for
  ASCII text only.
- Register.RefusalNotice: it takes the registration view to answer a refused
  form with DRF's 400 and the serializer's errors; the view code (`views.py`)
  is not part of this model.
- Register.RegisterPage.HandleRegister, Login.LoginForm.FinishSubmit: the body
  of the server's reply is a parameter, and so are the tokens a successful
  login returns; the status of each transmission comes from `Api.Server`.
- Rendering, routing, animation and the pages that only display data:
  `App.js`, `Dashboard.jsx`, `Overview.jsx`, `Settings.jsx`, `TopBar.js`,
  `AuthManager.js` and the admin registrations are not part of this model.
