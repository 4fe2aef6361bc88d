# Pastita storefront: the client-side logic, modelled in Dafny

Pastita is a React Native storefront for one shop. Besides its screens it holds a small amount of
stateful logic, and this project models and verifies that logic:

- **Cart.** There are two optimistic lists, product lines and combo lines. An add, remove or
  quantity change is applied at once and confirmed or undone when the server answers. A successful
  refresh replaces both lists with the server's cart. Totals and counts are folds over the lists.
- **Wishlist.** The entries are kept beside the set of their product ids. The toggle, add and
  remove steps are optimistic, and a refresh settles each of them whatever the server answered.
- **Catalog.** A catalog snapshot is held with the store it came from. Products can be looked up
  by category id or category slug, and there is an order-preserving, case-insensitive substring
  search.
- **Session.** The token is cached in a module variable in front of secure storage. The HTTP
  interceptors add the `Authorization` header and drop the token on a 401. A user state machine
  covers start-up, revalidation, sign-in, sign-up, sign-out and profile update, and error messages
  are picked by a fixed priority cascade.
- **Formatters and forms.** The phone typing mask, `formatPhone`, `formatCEP`, the media URL
  builder, and the checkout, registration and login screens: their validation order, their
  payloads and how they handle the result.

Each remote call is one atomic step. Its outcome is a method parameter: `Remote<T>` is either
`Ok(value)` or `Err(ApiError)`, where an `ApiError` may carry an HTTP status and an error body.
Local storage and secure storage are fields of the state objects. The current time, used for a
wishlist entry's `added_at`, is a parameter. Money is integer cents.

Files, one module each:

- `wrappers.dfy`: `Option`.
- `seqs.dfy`: `filter`, `findIndex` and subsequences.
- `text.dfy`: digit stripping, `trim`, ASCII `toLowerCase` and substring search.
- `types.dfy`: the entities.
- `api.dfy`: the token store and interceptors.
- `store_api.dfy`: the storeApi utilities and auth calls.
- `phone_mask.dfy`: the typing mask shared by two screens.
- `store_context.dfy`, `cart_context.dfy`, `wishlist_context.dfy`, `auth_context.dfy`: the four
  providers.
- `checkout.dfy`, `register.dfy`, `login.dfy`: the screens.

Two things became visible while stating the contracts:

- The checkout and registration typing mask agrees with `storeApi.formatPhone` on eleven digits
  but not on ten. The mask writes `(DD) DDDDD-DDD` and `formatPhone` writes `(DD) DDDD-DDDD`
  (`PhoneMask.MaskDisagreesWithFormatPhoneOnTenDigits`).
- The registration length rule counts the password as typed, spaces included, while the
  "required" rule trims it (`Register.PasswordLengthUntrimmed`).

Neither is claimed as a defect.

## Model

| member | source | states |
|---|---|---|
| Text.Digits | src/services/storeApi.ts:336 | `replace(/\D/g, '')`: the result is all digits and no longer than the input |
| Text.DigitsAppend | src/services/storeApi.ts:336 | stripping non-digits distributes over concatenation |
| Text.DigitsIdempotent | src/services/storeApi.ts:336 | stripping non-digits twice is stripping once |
| Text.Trim | src/context/StoreContext.tsx:66 | `trim()`: the result is the slice of the input between a whitespace-only prefix and a whitespace-only suffix; it is empty exactly for whitespace-only input, and otherwise starts and ends with non-whitespace |
| Text.LeadingSpaces | src/context/StoreContext.tsx:66 | the whitespace `trim` removes at the front: every counted character is whitespace and the next one is not |
| Text.TrailingSpaces | src/context/StoreContext.tsx:66 | the whitespace `trim` removes at the back: every counted character is whitespace and the one before them is not |
| Text.TrimIdempotent | src/context/StoreContext.tsx:68 | trimming twice is trimming once |
| Text.ToLowerIdempotent | src/context/StoreContext.tsx:68 | lower-casing twice is lower-casing once |
| Text.ToLowerAllSpace | src/context/StoreContext.tsx:66-68 | lower-casing keeps exactly the blank strings blank |
| Text.ContainsAt | src/context/StoreContext.tsx:71-73 | `includes(t)` holds exactly when `t` occurs at some index |
| Seqs.Filter | src/context/CartContext.tsx:207 | `filter` keeps, in order, every occurrence of each element satisfying the predicate (the same multiplicity as in the input) and no other element |
| Seqs.FilterAppend | src/context/WishlistContext.tsx:76 | filtering distributes over concatenation |
| Seqs.FilterAllKept | src/context/WishlistContext.tsx:76 | filtering that drops nothing returns the list itself |
| Seqs.FirstIndex | src/context/CartContext.tsx:143 | `findIndex`: the index of the first element satisfying the predicate, every earlier one failing it, or none when no element satisfies it |
| Api.WithAuthorization | src/services/api.ts:56-89 | `Authorization: Token <t>` is set exactly when a token is present; otherwise the headers are untouched; no other header changes |
| Api.TokenStore.SetAuthToken | src/services/api.ts:35-42 | the memory token becomes `t`; storage holds `t` when `t` is truthy and loses the key otherwise; memory and storage stay coherent |
| Api.TokenStore.GetAuthToken | src/services/api.ts:44-48 | a truthy memory token is returned as is; otherwise storage is read and cached. Either way the answer is the stored token, so right after `setAuthToken(t)` with non-empty `t` it is `t` |
| Api.TokenStore.ClearAuthToken | src/services/api.ts:50-53 | memory and storage both lose the token, so the next `getAuthToken` yields none |
| Api.TokenStore.AuthorizeRequest | src/services/api.ts:56-65 | the request interceptor sends the headers with the stored token's `Authorization` and leaves that token cached |
| Api.TokenStore.HandleResponseError | src/services/api.ts:92-106 | the same error is always rejected again; the token is cleared exactly on status 401 and nothing changes otherwise |
| Api.Request | src/services/api.ts:56-110 | one call through a client returns the server's outcome unchanged; a 401 leaves no token; any other outcome leaves storage unchanged with the stored token cached |
| StoreApi.BuildMediaUrl | src/services/storeApi.ts:316-326 | `''` for a missing or empty path; `http://` and `https://` URLs unchanged; a relative path is joined to BASE_URL without `/api/v1`, with a `/` inserted when the path does not start with one; the path always ends the result |
| StoreApi.FormatPhone | src/services/storeApi.ts:335-344 | 11 digits give `(DD) DDDDD-DDDD` and 10 give `(DD) DDDD-DDDD`; any other count returns the input; the digits are always preserved in order |
| StoreApi.FormatCEP | src/services/storeApi.ts:346-352 | exactly 8 digits give `DDDDD-DDD`; otherwise the input is returned; the digits are preserved |
| StoreApi.Punctuated4Digits | src/services/storeApi.ts:338-341 | the punctuation added by the phone formats contributes no digits |
| StoreApi.FindCategoryBySlug | src/services/storeApi.ts:41 | `find` by slug: the first category with the slug, or none when no category has it |
| StoreApi.ProductsByCategorySlug | src/services/storeApi.ts:39-44 | `[]` when no category has the slug; otherwise the index entry of the first such category's id, or `[]` when that id has none |
| StoreApi.LoginUser | src/services/storeApi.ts:286-292 | the response is returned unchanged; the stored token becomes the response's token only when it carries one, is dropped on a 401, and is kept otherwise |
| StoreApi.RegisterUser | src/services/storeApi.ts:278-284 | as LoginUser, for registration |
| StoreApi.LogoutUser | src/services/storeApi.ts:294-300 | the token is cleared from memory and storage whether or not the remote logout fails |
| StoreApi.ProfileCall | src/services/storeApi.ts:302-310 | getProfile and updateProfile return the outcome unchanged and drop the token exactly on a 401 |
| PhoneMask.FormatPhoneNumber | app/checkout.tsx:52-67 | the imperatively built result equals the band-by-band mask of the digits; it is at most 15 characters (the field's maxLength); its digits are the first eleven typed |
| PhoneMask.Mask | app/checkout.tsx:52-67 | the band-by-band mask: empty exactly for no digits, and never longer than the field's `maxLength` of 15 |
| PhoneMask.MaskDigits | app/checkout.tsx:53-63 | only the first eleven digits survive, in order, and no punctuation is a digit |
| PhoneMask.MaskTruncates | app/checkout.tsx:61 | digits beyond the eleventh are dropped |
| PhoneMask.MaskIdempotent | app/auth/register.tsx:31-50 | masking an already masked value changes nothing, so re-formatting as the user types is stable |
| PhoneMask.MaskAgreesWithFormatPhone | app/auth/register.tsx:31-46 | with eleven digits the typing mask and `formatPhone` render the same string |
| PhoneMask.MaskDisagreesWithFormatPhoneOnTenDigits | app/checkout.tsx:58-63 | with ten digits they differ: the mask puts the hyphen after the seventh digit, `formatPhone` after the sixth |
| StoreContext.GetProductsByCategory | src/context/StoreContext.tsx:55-61 | `[]` without a catalog; otherwise the index entry for the id, or `[]` when it is absent |
| StoreContext.SearchProducts | src/context/StoreContext.tsx:64-77 | `[]` without a catalog or for a blank query; otherwise a product is returned iff its lower-cased name, description or short description contains the lower-cased trimmed query, in catalog order |
| StoreContext.MatchingProducts | src/context/StoreContext.tsx:69-74 | the filter step of the search: exactly the matching products, as a subsequence |
| StoreContext.SearchIgnoresQueryCase | src/context/StoreContext.tsx:68 | the search answers the same for a query and its lower-cased form |
| StoreContext.CatalogErrorMessage | src/context/StoreContext.tsx:43 | the error's message when it has one, and `Erro ao carregar catálogo` exactly when it is empty; never empty |
| StoreContext.StoreState.FetchCatalog | src/context/StoreContext.tsx:33-47 | a success replaces catalog and store from the same response and clears the error; a failure keeps both and records the message; loading ends false; the shown store is always the shown catalog's |
| StoreContext.StoreState.NoCatalogNoData | src/context/StoreContext.tsx:85-89 | with no catalog every derived collection, lookup and search is empty |
| StoreContext.StoreState.Categories | src/context/StoreContext.tsx:85 | `catalog?.categories \|\| []`: the catalog's categories, or none without a catalog |
| StoreContext.StoreState.Products | src/context/StoreContext.tsx:86 | the catalog's products, or none without a catalog |
| StoreContext.StoreState.Combos | src/context/StoreContext.tsx:87 | the catalog's combos, or none without a catalog |
| StoreContext.StoreState.FeaturedProducts | src/context/StoreContext.tsx:88 | the catalog's featured products, or none without a catalog |
| StoreContext.StoreState.ProductsByCategory | src/context/StoreContext.tsx:89 | the catalog's category index, or the empty map without a catalog |
| CartContext.NormalizeItem | src/context/CartContext.tsx:48-70 | a server item becomes a line with the product/combo id, the server line id, the name, price, quantity and resolved image; the options/customizations and notes are kept when present and become empty when missing |
| CartContext.NormalizeAll | src/context/CartContext.tsx:101-102 | `(items \|\| []).map(normalize)`: an absent list is empty; otherwise the lines are normalised one for one |
| CartContext.OptimisticItem | src/context/CartContext.tsx:73-82 | the placeholder has the product's id, name and price, quantity 1, empty options and notes, and line id `temp_<id>`, so it never counts as synced |
| CartContext.OptimisticCombo | src/context/CartContext.tsx:85-95 | the same for a combo (its id, name and price, quantity 1, empty customizations and notes), with line id `temp_combo_<id>` |
| CartContext.FindLine | src/context/CartContext.tsx:143 | `findIndex` by id: the first matching line, or none |
| CartContext.SyncedItemId | src/context/CartContext.tsx:205-213 | the server line id a delete or update is sent for: that of the first line with the id, exactly when it is non-empty and does not start with `temp_` |
| CartContext.AddOne | src/context/CartContext.tsx:142-153 | for a listed id, only the first matching line's quantity rises by one, and the length and every other line are unchanged; otherwise exactly the new line is appended |
| CartContext.RemoveLines | src/context/CartContext.tsx:207 | every line with the id goes and every other line stays, in order |
| CartContext.SetQuantity | src/context/CartContext.tsx:253-257 | every line with the id takes the new quantity; the others are unchanged |
| CartContext.TotalsAppend | src/context/CartContext.tsx:322-327 | appending a line adds its quantity to the count and price × quantity to the total |
| CartContext.TotalsUpdate | src/context/CartContext.tsx:322-327 | replacing a line changes count and total by the difference |
| CartContext.AddOneTotals | src/context/CartContext.tsx:142-152 | an optimistic add raises the count by one and the total by that line's price |
| CartContext.RemoveLinesCount | src/context/CartContext.tsx:207 | a remove lowers the count by exactly the quantities of the removed lines |
| CartContext.QuantitiesAtLeastLength | src/context/CartContext.tsx:326-327 | with positive quantities the count is at least the number of lines |
| CartContext.LocalStepsKeepPositive | src/context/CartContext.tsx:244-257 | add, remove and an update applied only for quantities of at least 1 never create a line with quantity below 1 |
| CartContext.SubtotalNonNegative | src/context/CartContext.tsx:322-323 | a subtotal over lines without negative prices or quantities is not negative |
| CartContext.CartState.HasItemsIffCount | src/context/CartContext.tsx:326-330 | with positive quantities, `hasItems` (either list non-empty) holds exactly when `cartCount` is positive |
| CartContext.CartState.ProductTotal | src/context/CartContext.tsx:322 | `productTotal`, the sum of price × quantity over the product lines: never negative for non-negative lines |
| CartContext.CartState.ComboTotal | src/context/CartContext.tsx:323 | `comboTotal`, the same over the combo lines: never negative for non-negative lines |
| CartContext.CartState.CartTotal | src/context/CartContext.tsx:324 | `cartTotal = productTotal + comboTotal`: for non-negative lines at least either part |
| CartContext.CartState.CartCount | src/context/CartContext.tsx:326-328 | `cartCount`, the units over both lists: with positive quantities at least one per line |
| CartContext.CartState.HasItems | src/context/CartContext.tsx:330 | `hasItems`: without it the cart counts no units and costs nothing |
| CartContext.CartState.FetchCart | src/context/CartContext.tsx:98-115 | a success replaces both lists with the normalised server cart and caches them; a failure is swallowed and changes nothing |
| CartContext.CartState.InitCart | src/context/CartContext.tsx:118-134 | the cached lists are shown first, then replaced by a successful fetch |
| CartContext.CartState.AddToCart | src/context/CartContext.tsx:137-167 | a failed add restores the snapshot; a successful one ends with the server cart, or with the optimistic list (count + 1) when the refresh fails; loading ends false |
| CartContext.CartState.AddComboToCart | src/context/CartContext.tsx:170-200 | the same for combos |
| CartContext.CartState.RemoveFromCart | src/context/CartContext.tsx:203-220 | the lines go at once; the delete is sent only for a synced line; only its failure restores the snapshot; no refresh follows |
| CartContext.CartState.RemoveComboFromCart | src/context/CartContext.tsx:223-240 | the same for combos |
| CartContext.CartState.UpdateQuantity | src/context/CartContext.tsx:243-271 | an absent id changes nothing; a new quantity below 1 is a remove; otherwise the lines take the new quantity, the update is sent only for a synced line, the cart is refreshed (also for `temp_` lines), and a failed update restores the snapshot |
| CartContext.CartState.UpdateComboQuantity | src/context/CartContext.tsx:274-302 | the same for combos |
| CartContext.CartState.ClearCart | src/context/CartContext.tsx:305-314 | both lists and the cache are emptied only after the server clear succeeds; on failure nothing changes |
| WishlistContext.ProductIds | src/context/WishlistContext.tsx:35 | the id set holds exactly the entries' product ids |
| WishlistContext.WithoutProduct | src/context/WishlistContext.tsx:76 | exactly the entries of other products remain, in order |
| WishlistContext.NewEntry | src/context/WishlistContext.tsx:83-87 | the optimistic entry has id `temp_<productId>`, the product and the current time |
| WishlistContext.ProductIdsWithout | src/context/WishlistContext.tsx:76-81 | dropping a product's entries removes exactly its id from the id set |
| WishlistContext.ProductIdsAppend | src/context/WishlistContext.tsx:88-89 | appending an entry adds exactly its product id |
| WishlistContext.ToggleFlips | src/context/WishlistContext.tsx:72-90 | the toggle removes a listed product's id, or adds an unlisted one; no other id changes |
| WishlistContext.ToggleTwice | src/context/WishlistContext.tsx:75-90 | toggling an unlisted product twice gives the original list back |
| WishlistContext.NoDuplicatesWithout | src/context/WishlistContext.tsx:146 | removing a product keeps the list free of repeated products |
| WishlistContext.NoDuplicatesAppend | src/context/WishlistContext.tsx:121 | appending an unlisted product keeps the list free of repeated products |
| WishlistContext.ToggleKeepsNoDuplicates | src/context/WishlistContext.tsx:75-90 | the toggle never lists a product twice |
| WishlistContext.WishlistState.IsInWishlist | src/context/WishlistContext.tsx:62-67 | membership in the id set, which (with the id set kept consistent) is membership of the product in the list |
| WishlistContext.WishlistState.FetchWishlist | src/context/WishlistContext.tsx:31-42 | a success sets the list to the data and the id set to exactly its product ids, and caches it; a failure is swallowed |
| WishlistContext.WishlistState.InitWishlist | src/context/WishlistContext.tsx:45-59 | the cached list and its ids first, then the fetch |
| WishlistContext.WishlistState.ToggleWishlist | src/context/WishlistContext.tsx:70-107 | the id set stays consistent; the end state is the server list when the refresh succeeds and otherwise the optimistic toggle (membership flipped, no duplicate created), whether the remote toggle succeeded or not; loading ends false |
| WishlistContext.WishlistState.AddToWishlist | src/context/WishlistContext.tsx:110-137 | for a listed product nothing changes, loading included; otherwise it appends, adds the id and refreshes, and loading ends false |
| WishlistContext.WishlistState.RemoveFromWishlist | src/context/WishlistContext.tsx:140-166 | for an unlisted product nothing changes, loading included; otherwise it drops the entries and the id and refreshes, and loading ends false |
| AuthContext.Head | src/context/AuthContext.tsx:87 | `list?.[0]` |
| AuthContext.FirstTruthy | src/context/AuthContext.tsx:86-90 | an `\|\|` cascade yields the first truthy candidate, else the fallback, and is never empty with a non-empty fallback |
| AuthContext.SignInErrorMessage | src/context/AuthContext.tsx:86-90 | the sign-in message is never empty, and is the generic text when the error has no response |
| AuthContext.SignUpErrorMessage | src/context/AuthContext.tsx:109-114 | the sign-up message is never empty, and is the generic text when the error has no response |
| AuthContext.SignInMessagePriority | src/context/AuthContext.tsx:86-90 | non_field_errors[0] wins over detail, which wins over error; `E-mail ou senha inválidos` only when none is given |
| AuthContext.SignUpMessagePriority | src/context/AuthContext.tsx:109-114 | email[0], then password[0], then non_field_errors[0], then detail; `Erro ao criar conta` only when none is given |
| AuthContext.AuthState.FetchProfile | src/context/AuthContext.tsx:34-52 | with no stored token the user becomes null and nothing is requested; a profile becomes the user and is cached; a 401 clears token, cache and user; any other failure changes nothing |
| AuthContext.AuthState.InitAuth | src/context/AuthContext.tsx:55-73 | the cached user is shown and then revalidated (and kept when revalidation fails without a 401); the stored token is dropped only by a 401 and is otherwise unchanged; loading ends false |
| AuthContext.AuthState.SignIn | src/context/AuthContext.tsx:75-93 | success iff the login succeeded; then the response's user is set and cached; otherwise the user is untouched and the result carries the cascade's message; the token follows loginUser |
| AuthContext.AuthState.SignUp | src/context/AuthContext.tsx:95-117 | as SignIn, with the registration call and cascade |
| AuthContext.AuthState.SignOut | src/context/AuthContext.tsx:119-128 | the user, the cached user and the token are all gone, even when the remote logout fails |
| AuthContext.AuthState.UpdateProfile | src/context/AuthContext.tsx:130-135 | the updated user is set and cached; a failure is rethrown with the user untouched |
| AuthContext.AuthState.IsAuthenticated | src/context/AuthContext.tsx:145 | `!!user`: authenticated exactly when a user is set |
| Checkout.DeliveryFee | app/checkout.tsx:49 | 10 reais (1000 cents) for delivery, 0 for pickup |
| Checkout.OrderTotal | app/checkout.tsx:50 | pickup costs the cart total, delivery ten reais more |
| Checkout.CheckoutError | app/checkout.tsx:73-93 | name is checked first, then e-mail, then phone, and only then, for delivery, street, number and neighbourhood together (`Preencha o endereço completo`) |
| Checkout.CheckoutErrorNoneIff | app/checkout.tsx:73-93 | the form passes iff name, e-mail and phone are non-blank and, for delivery only, so are street, number and neighbourhood; complement and notes are never required |
| Checkout.CheckoutErrorMessage | app/checkout.tsx:136 | the body's non-empty `error` when the response carries one; `Erro ao processar pedido` without a response or without an `error`; never empty |
| Checkout.OrderRoute | app/checkout.tsx:129-133 | `/order/<n>?success=true` when the response names the order, `/orders` otherwise |
| Checkout.ItemCountAtMostCartCount | app/checkout.tsx:143 | `itemCount` counts lines, so with positive quantities it never exceeds the unit count |
| Checkout.ItemCount | app/checkout.tsx:143 | `itemCount = cart.length + combos.length`: zero exactly when the cart has no items |
| Checkout.CheckoutForm.Payload | app/checkout.tsx:102-121 | trimmed text fields; the phone as digits only; an address (Palmas, TO, empty zip) iff the method is delivery |
| Checkout.CheckoutForm.ValidPayloadIsComplete | app/checkout.tsx:96-121 | a payload sent after validation names the customer and, for delivery, has street, number and neighbourhood |
| Checkout.CheckoutForm.HandlePhoneChange | app/checkout.tsx:69-71 | the phone field shows the typing mask of the input, within 15 characters |
| Checkout.CheckoutForm.ValidateForm | app/checkout.tsx:73-93 | answers whether the form passes and, when it does not, shows the first failing message |
| Checkout.CheckoutForm.HandleCheckout | app/checkout.tsx:95-141 | an invalid form only shows its message; a valid one sends the payload; a placed order clears the cart and routes to the order; a rejection shows the server's message and keeps the cart; loading ends false |
| Checkout.CheckoutForm.PlaceOrder | app/checkout.tsx:123-137 | a placed order clears the cart (only once the server clear succeeds) and routes to `/order/<n>?success=true` or `/orders`; a rejected one shows the server's message and leaves the cart and route alone |
| Checkout.MaskedPhoneDigits | app/checkout.tsx:105 | a phone typed through the mask reaches the order as the first eleven digits typed |
| Register.RegisterError | app/auth/register.tsx:52-67 | a blank required field is reported first; then a confirmation that differs gives `As senhas não coincidem`; only then a password under six characters gives `A senha deve ter pelo menos 6 caracteres` |
| Register.RegisterErrorNoneIff | app/auth/register.tsx:54-67 | the form passes iff names, e-mail and password are non-blank, the confirmation equals the password exactly, and the password has at least 6 characters |
| Register.PasswordLengthUntrimmed | app/auth/register.tsx:59-67 | for any filled form, the comparison is exact and the length counts spaces: a password padded with five spaces passes whatever its trimmed length, and a confirmation with one extra space is a mismatch |
| Register.SignUpPayload | app/auth/register.tsx:72-78 | trimmed names and e-mail, the raw password, and the phone's digits or nothing when there are none |
| Register.RegisterForm.HandlePhoneChange | app/auth/register.tsx:48-50 | the same typing mask as checkout |
| Register.RegisterForm.HandleRegister | app/auth/register.tsx:52-87 | signUp is called with the payload iff validation passes; success navigates back; failure shows signUp's message (never the screen's own fallback); loading ends false |
| Register.RegisterForm.SubmitSignUp | app/auth/register.tsx:72-84 | the signUp step: navigation back exactly on success, where the message stays cleared; on failure signUp's own non-empty message, with the user untouched |
| Login.LoginError | app/auth/login.tsx:28-31 | the login stops with `Preencha todos os campos` exactly when e-mail or password is blank |
| Login.LoginForm.HandleLogin | app/auth/login.tsx:27-45 | signIn gets the trimmed e-mail and the raw password iff both are non-blank; success navigates back; failure shows signIn's message (never the screen's own fallback); loading ends false |
| Login.LoginForm.SubmitSignIn | app/auth/login.tsx:36-42 | the signIn step: navigation back exactly on success, where the message stays cleared; on failure signIn's own non-empty message, with the user untouched |

## Left out

- Rendering, styles and presentational components; haptics; console logging. Navigation is
  represented only by the returned route or `navigatedBack` flag.
- Every HTTP endpoint, axios, timeouts and JSON decoding. Each call is an outcome parameter.
  Only the auth calls thread the token store through the interceptors. The cart, wishlist,
  catalog and checkout calls do not, so their own 401s clearing the token is not modelled.
- Failures of local or secure storage reads and writes. Every storage step is taken to succeed,
  so for example a failing cache write after `setUser` in signIn (which would report failure)
  is not modelled.
- `handleResponseError` calls `clearAuthToken` without awaiting it. The clear is treated as done
  before the rejection is observed.
- Interleavings of overlapping async operations. The stale snapshot versus the functional
  setter differ only under concurrency, and every operation is one atomic step.
- Intermediate `isLoading` values inside an operation are not observable. Only the value at the
  end (and its absence of change on early returns) is stated.
- Unicode: `trim` uses ASCII whitespace and `toLowerCase` maps ASCII letters only.
- RegisterError: `password.length` counts UTF-16 code units, the model counts characters. A
  password of characters outside the Basic Multilingual Plane (three emoji are six units) passes
  the six-character rule in the source but is reported too short here.
- Prices from `parseFloat` are integer cents. Float rounding of totals is not modelled.
- `formatCurrency` (Intl), the discount percentages and location distance (floating point),
  notifications and location services.
- `BASE_URL` comes from an environment variable with a default. The model uses the default.
  The `replace('/api/v1', '')` that buildMediaUrl applies to it is not computed: its result is
  written out as the host constant `StoreApi.MEDIA_BASE`.
- `refreshCart`, `refreshWishlist`, `refreshCatalog` and `refreshProfile` are plain
  re-invocations of the fetch steps above and have no members of their own.
- The `use…` hooks that throw outside their provider.
- A product's missing `description` is the empty string, which matches no non-blank query, just
  as the optional chain does.
- The registration and login credentials are returned as the payload each screen sends. They are
  not threaded into the modelled server response, which is a parameter.
