# Storefront client: session store, role gates and dashboard state

A Dafny model of the client-side logic of a small marketplace storefront (VendorHub).
Customers (role `user`) browse and add products to a cart. Vendors (role `vendor`) submit
products. Administrators (role `admin`) approve or reject pending submissions. The model
covers every access decision, every update of the session, dashboard and form state, and
every request the browser code builds. Purely visual choices (badge colours, icons) are listed under "## Left out":

- **Session store** (`Session`): the `AuthProvider` class. It holds the signed-in `user` and
  `token` and mirrors them into a key/value `storage` map under the keys `"token"` and `"user"`.
  The pure functions `LoggedIn`, `LoggedOut` and `Restored` give each operation's effect on the
  whole state. The class methods are proved to follow them, and the lemmas about the functions
  carry the properties: logout touches only the two keys, a second login overwrites the first,
  and restoring is idempotent. Login followed by a reload gives back the same session, under the
  stated codec assumption.
- **Role gates** (`ProductCard`, `Navbar`, `UserPage`, `VendorPage`, `AdminPage`, `RoleGates`): the
  add-to-cart handler, the dashboard link and cart icon, and the two role-gated dashboards.
  `RoleGates` proves the separately written checks agree with each other. The admin page has no
  role gate, and the model gives it none.
- **Vendor dashboard** (`VendorPage`): the summary figures over the vendor's own products. The
  three status counts partition the total. Revenue counts approved products only, proved
  against an independent per-product definition. The `VendorDashboard` class holds the product
  list, the loading flag and the add-product form with its visibility.
- **Admin moderation** (`AdminPage`): the approve (`PUT`) and reject (hard `DELETE`) request
  descriptors, the per-product busy flag `processingId`, and the error-message fallback. The
  list is only ever replaced by a refetch.
- **Registration guards** (`Register`): the email must contain `'@'`; then the password must be at
  least 8 long, counted in UTF-16 code units as JavaScript's `length` does. Also the initial form
  and the selectable roles.

Shared modules: `Common` (Option, `Role = user | vendor | admin`, `User`, `Status`) and `Http`
(request descriptors, the `Authorization: Bearer …` header, the API base URL).

Modelling choices:
- `JSON.stringify`/`JSON.parse` of a user are a `Codec` of two function values. Decoding yields
  `ParseError`, `ParsedNull` or `ParsedUser(u)`. That decode undoes encode is an explicit
  `requires` of the round-trip results, never proved.
- Restore follows JavaScript truthiness: a key holding `""` counts as missing.
- The dashboards read the token with `localStorage.getItem('token')`, so it enters as an
  `Option<string>`. A missing token is sent as the text `Bearer null`.
- Network responses are parameters (`Reply`, `ActionOutcome`). Each handler is one step. The
  admin actions are the exception: they are split at their `await` into `Begin` (marks the
  product busy, builds the request) and `Finish` (clears the flag, yields the message).
- `parseFloat` is a parameter `string -> Option<real>`. `None` stands for NaN, which
  `JSON.stringify` sends as `null`. Prices are `real`.
- `addToCart` and `getTotalItems` belong to the cart context. The first appears as an effect
  the handler issues; the second is an integer parameter.

## Model

| member | source | states |
|---|---|---|
| Common.ParseRoleName | src/contexts/AuthContext.tsx:13 | reading back a role's name gives the role: the three role literals are distinct |
| Http.ApiBase | src/pages/AdminDashboard.tsx:30 | a configured, non-empty base URL is used; an unset or empty one falls back to the default host |
| Http.Bearer | src/pages/AdminDashboard.tsx:64-69 | the header value is `Bearer ` followed by the stored token, or by the text `null` when no token is stored |
| Http.BearerInjective | src/pages/AdminDashboard.tsx:68 | distinct stored tokens give distinct Authorization values |
| Http.BearerMissingLooksLikeNull | src/pages/VendorDashboard.tsx:44-47 | a missing token sends the same header as a stored token that is the text "null" |
| Session.Initial | src/contexts/AuthContext.tsx:27-28 | a new provider has no user and no token (not authenticated) and leaves storage as found |
| Session.IsAuthenticated | src/contexts/AuthContext.tsx:63 | `isAuthenticated` holds iff there is a user |
| Session.AuthenticationIgnoresToken | src/contexts/AuthContext.tsx:63 | changing the token never changes isAuthenticated |
| Session.LoggedIn | src/contexts/AuthContext.tsx:47-52 | after login, user = u and token = t; storage maps "token" to t and "user" to encode(u); every other key is unchanged |
| Session.LoggedOut | src/contexts/AuthContext.tsx:54-59 | after logout, user and token are null and both keys are absent; every other key is unchanged |
| Session.Restored | src/contexts/AuthContext.tsx:30-45 | with either key missing or empty nothing changes (a lone key stays); with both, a parse error removes both keys and keeps the state, a parsed null sets only the token, a parsed user sets both user and token |
| Session.LoginOverwrites | src/contexts/AuthContext.tsx:47-52 | two logins in a row equal the second login alone |
| Session.LogoutAfterLogin | src/contexts/AuthContext.tsx:47-59 | logout after login leaves the same state as logout alone |
| Session.RestoreAfterLogout | src/contexts/AuthContext.tsx:30-59 | after logout, a reloaded provider restores nobody and changes nothing |
| Session.LoginThenRestore | src/contexts/AuthContext.tsx:30-52 | a reload after login(u, t) restores u and t, assuming decode(encode(u)) = u and both stored strings non-empty |
| Session.EmptyTokenNotRestored | src/contexts/AuthContext.tsx:30-52 | login with an empty token is stored but does not survive a reload: the empty string is falsy |
| Session.TokenWithoutUser | src/contexts/AuthContext.tsx:36-63 | a stored user that parses to null restores the token without a user, so isAuthenticated is false: the token is not consulted |
| Session.RestoreIdempotent | src/contexts/AuthContext.tsx:30-45 | restoring twice equals restoring once |
| Session.AuthProvider.constructor | src/contexts/AuthContext.tsx:26-28 | the provider's fields start as `Initial` of the storage it is given |
| Session.AuthProvider.Restore | src/contexts/AuthContext.tsx:30-45 | the mount effect changes the fields exactly as `Restored` says |
| Session.AuthProvider.Login | src/contexts/AuthContext.tsx:47-52 | login changes the fields exactly as `LoggedIn` says |
| Session.AuthProvider.Logout | src/contexts/AuthContext.tsx:54-59 | logout changes the fields exactly as `LoggedOut` says |
| Session.AuthProvider.Authenticated | src/contexts/AuthContext.tsx:63 | the provider reports authenticated iff its `user` field is set |
| Session.LoginThenReload | src/contexts/AuthContext.tsx:30-52 | a second provider mounted over the first one's storage after its login restores the same user and token |
| ProductCard.HandleAddToCart | src/components/products/ProductCard.tsx:32-56 | no session gets "Please log in"; a vendor or admin gets "Access denied"; only role user calls addToCart, exactly once and first, followed by a toast naming the product's title |
| ProductCard.AddToCartCalls | src/components/products/ProductCard.tsx:51 | counts the addToCart effects in a sequence of effects (used to state "exactly once"); never more than the effects |
| ProductCard.HandlerIgnoresStock | src/components/products/ProductCard.tsx:32-56 | changing the product's quantity changes nothing the handler decides: the handler has no stock check |
| ProductCard.ButtonFor | src/components/products/ProductCard.tsx:92-95 | the button is disabled iff quantity is 0, and reads "Out of Stock" iff quantity is 0 |
| Navbar.DashboardLink | src/components/layout/Navbar.tsx:19-28 | "/admin" iff admin, "/vendor" iff vendor, "/products" for role user and for no session |
| Navbar.Render | src/components/layout/Navbar.tsx:50-104 | the dashboard link shows iff authenticated; the cart icon shows iff role user; its badge shows iff total items > 0 and shows that total; Login/Register show iff not authenticated |
| Navbar.HandleLogout | src/components/layout/Navbar.tsx:14-17 | logs the session out as `LoggedOut` says, then navigates to "/" |
| UserPage.Render | src/pages/UserDashboard.tsx:14-110 | any session not of role user, and no session, gets Access Denied; the page shows the signed-in email and getTotalItems(), links to /products and /cart, and shows checkout iff the total is > 0 |
| UserPage.DiffersOnlyInEmail | src/pages/UserDashboard.tsx:14-110 | two customers with the same cart total see the same page apart from their own email |
| Register.InitialForm | src/components/auth/Register.tsx:12-16 | the form starts with empty email and password and role "user" |
| Register.SelectableRoles | src/components/auth/Register.tsx:120-124 | the select offers a value for every role and only values that name a role |
| Register.WithEmail | src/components/auth/Register.tsx:93 | typing into the email input replaces the email and keeps password and role |
| Register.WithPassword | src/components/auth/Register.tsx:105 | typing into the password input replaces the password and keeps email and role |
| Register.EditsKeepRole | src/components/auth/Register.tsx:93-115 | editing email and password after choosing a role keeps that role, and validation sees only the typed email and password |
| Register.SelectRole | src/components/auth/Register.tsx:113-115 | choosing a role sets only the role field |
| Register.Utf16Length | src/components/auth/Register.tsx:34 | a string's JavaScript length is between its character count and twice it |
| Register.Validate | src/components/auth/Register.tsx:25-41 | "Invalid Email" iff no '@'; "Password Too Short" iff there is an '@' and the length is < 8; accepted iff both guards pass (the email check comes first) |
| Register.EightCharactersSuffice | src/components/auth/Register.tsx:34-41 | an email with '@' and a password of at least 8 characters is accepted |
| Register.BasicPlaneLength | src/components/auth/Register.tsx:34 | a string of basic-plane characters has a JavaScript length equal to its character count |
| Register.AstralLength | src/components/auth/Register.tsx:34 | a string of characters outside the basic plane has a JavaScript length of twice its character count |
| Register.FourAstralCharactersPass | src/components/auth/Register.tsx:34-41 | an email with '@' and a password of at least four characters, all outside the basic plane, is accepted |
| Register.AdminSelfSelectable | src/components/auth/Register.tsx:121-123 | admin is offered, and choosing it keeps an accepted form accepted |
| VendorPage.WithStatus | src/pages/VendorDashboard.tsx:138 | the filter keeps every product with the given status, as often as it occurs in the list, and no other product |
| VendorPage.CountOf | src/pages/VendorDashboard.tsx:138 | the reference count of products with a status is at most the list length |
| VendorPage.FilterLengthIsCount | src/pages/VendorDashboard.tsx:138-148 | the filtered list's length is the number of products with that status |
| VendorPage.SumPrices | src/pages/VendorDashboard.tsx:159 | the `reduce` sum of prices is non-negative when every price is |
| VendorPage.StatsOf | src/pages/VendorDashboard.tsx:128-159 | Total is the list length; Approved and Pending are the numbers of approved and pending products; Approved + Pending <= Total |
| VendorPage.StatusCountsPartition | src/pages/VendorDashboard.tsx:128-148 | the approved, pending and rejected counts add up to the total |
| VendorPage.RevenueIsApprovedValue | src/pages/VendorDashboard.tsx:159 | revenue equals the sum over all products of the price if approved, else 0 |
| VendorPage.ApprovedSumIsApprovedValue | src/pages/VendorDashboard.tsx:159 | the filter-then-reduce sum equals the per-product approved-value sum |
| VendorPage.UnapprovedAddsNoRevenue | src/pages/VendorDashboard.tsx:159 | inserting a pending or rejected product anywhere leaves revenue unchanged |
| VendorPage.Render | src/pages/VendorDashboard.tsx:103-275 | any session not of role vendor, and no session, gets Access Denied; otherwise the figures are `StatsOf` the list, the form shows iff showAddForm, and the listing shows loading, empty or the products |
| VendorPage.WithField | src/pages/VendorDashboard.tsx:189-221 | editing one field changes that field only |
| VendorPage.Payload | src/pages/VendorDashboard.tsx:78-81 | the body carries name, description and category as typed and price as parsed; there is no quantity |
| VendorPage.PayloadKeepsText | src/pages/VendorDashboard.tsx:78-81 | equal payloads come from forms with equal name, description and category |
| VendorPage.MyProductsRequest | src/pages/VendorDashboard.tsx:44-49 | a GET of /api/products/my-products with the bearer header |
| VendorPage.AddProductRequest | src/pages/VendorDashboard.tsx:71-82 | a POST to /api/products with the bearer and JSON content-type headers and the payload of the form |
| VendorPage.VendorDashboard.constructor | src/pages/VendorDashboard.tsx:26-34 | no products, loading, form hidden, four empty fields |
| VendorPage.VendorDashboard.FetchMyProducts | src/pages/VendorDashboard.tsx:42-65 | the list is replaced only by an OK reply; loading is false afterwards in every case; the form is untouched |
| VendorPage.VendorDashboard.HandleAddProduct | src/pages/VendorDashboard.tsx:67-101 | sends the form's payload; on OK the form resets to empty, hides and a refetch is asked for; otherwise nothing changes and no refetch |
| VendorPage.VendorDashboard.EditField | src/pages/VendorDashboard.tsx:189-221 | an input change updates that field of the form and nothing else |
| VendorPage.VendorDashboard.ToggleAddForm | src/pages/VendorDashboard.tsx:167 | "Add New Product" flips showAddForm and changes nothing else |
| VendorPage.VendorDashboard.CancelAddForm | src/pages/VendorDashboard.tsx:228 | "Cancel" hides the form and keeps what was typed |
| VendorPage.ToggleTwice | src/pages/VendorDashboard.tsx:167 | toggling twice restores the form's visibility |
| AdminPage.ModerationRequest | src/pages/AdminDashboard.tsx:64-102 | approve is a PUT to /api/products/approve/{id}; reject is a DELETE of /api/products/{id}; both carry the bearer header and no body |
| AdminPage.ModerationTargetsProduct | src/pages/AdminDashboard.tsx:65-97 | the product id is the final part of either request's URL |
| AdminPage.DistinctProductsDistinctUrls | src/pages/AdminDashboard.tsx:65-97 | actions on different products go to different URLs |
| AdminPage.DefaultMessage | src/pages/AdminDashboard.tsx:78-118 | approve falls back to "Failed to approve product", reject to "Failed to reject product"; neither is empty |
| AdminPage.FailureMessage | src/pages/AdminDashboard.tsx:78-118 | success shows no error; a failure shows the server's or the thrown error's message when non-empty, otherwise the action's fixed default, never an empty text |
| AdminPage.SilentFailuresShowDefault | src/pages/AdminDashboard.tsx:78-118 | a refusal without a message reads like a thrown error without one: the default text |
| AdminPage.Render | src/pages/AdminDashboard.tsx:125-211 | a spinner while loading, "No pending products" for an empty list, else one card per product whose buttons are disabled exactly when processingId equals its id |
| AdminPage.NoRoleGate | src/pages/AdminDashboard.tsx:24-214 | the page is the same for every session, none included: there is no role gate |
| AdminPage.AdminDashboard.constructor | src/pages/AdminDashboard.tsx:26-28 | no products, loading, no product busy |
| AdminPage.AdminDashboard.ButtonsDisabled | src/pages/AdminDashboard.tsx:181-195 | both buttons of a product are disabled iff processingId equals that product's id |
| AdminPage.AtMostOneBusy | src/pages/AdminDashboard.tsx:181-195 | while one product is busy, every other product's buttons stay enabled |
| AdminPage.AdminDashboard.FetchPendingProducts | src/pages/AdminDashboard.tsx:36-59 | an OK reply stores data.products, or an empty list when absent; other outcomes keep the list; loading is false afterwards |
| AdminPage.AdminDashboard.Begin | src/pages/AdminDashboard.tsx:61-102 | an action marks its product busy (its buttons disabled) and builds its request; the list is untouched |
| AdminPage.AdminDashboard.Finish | src/pages/AdminDashboard.tsx:72-122 | on every outcome processingId is cleared and the list is untouched; success only asks for a refetch; failure yields `FailureMessage` |
| AdminPage.ModerateOnce | src/pages/AdminDashboard.tsx:61-91 | a whole action keeps the product busy during its request, then leaves no product busy, the list and loading flag unchanged, and yields `FailureMessage` |
| RoleGates.CustomerGatesAgree | src/components/layout/Navbar.tsx:68 | the cart icon shows exactly for the sessions whose add-to-cart calls the cart and whom the customer dashboard admits |
| RoleGates.VendorLinkAdmits | src/components/layout/Navbar.tsx:19-28 | the navbar links to /vendor exactly for the sessions the vendor dashboard admits |
| RoleGates.AnonymousGetsNothing | src/components/products/ProductCard.tsx:33-40 | without a session the cart is never called, both gated dashboards refuse, and the navbar shows neither dashboard link nor cart |
| RoleGates.AdminIsNeitherCustomerNorVendor | src/pages/UserDashboard.tsx:14 | an admin cannot add to the cart, is refused by both gated dashboards and is linked to /admin |

## Left out

- Network I/O: `fetch`, `await` and `response.json()` are not modelled. Replies enter as `Reply`/`ActionOutcome` parameters, and handlers return request descriptors.
- Asynchronous interleaving: `useEffect` timing, overlapping admin actions on different products, and responses that arrive after navigation are not analysed. `processingId` is a single slot that a second `Begin` overwrites.
- The refetch after a successful add or moderation is returned as a flag. Its own reply is handled by a separate call of `FetchMyProducts`/`FetchPendingProducts`.
- The cart context (`addToCart`, `getTotalItems`, `getTotalPrice`, clamping, price capture) is not part of this model. The cart total is a parameter, and `getTotalPrice` is only formatted.
- JSON encoding: `JSON.stringify`/`JSON.parse` are opaque. A parse that yields a non-null value which is not a `User` is not modelled.
- `parseFloat` and `toFixed`: prices are `real`, with no floating-point rounding. revenue is an exact sum.
- The part of the registration handler after the guards (lines 43-64 of src/components/auth/Register.tsx) refers to names that are not defined, so it is not modelled. The same goes for the `name` field it reads.
- Toasts, navigation targets other than logout's, rendering, icons, greetings and CSS. Toast texts appear only where they are the outcome of a decision (the add-to-cart handler's toasts, and the description of the admin error toast; that toast's fixed title "Error" is not modelled).
- Storage operations are assumed to succeed. In the browser `localStorage.setItem` and `getItem` can throw, for example when the quota is full or storage is disabled. Then a login could be half stored, and restore could throw outside its `try`. `Session.LoggedIn`, `Session.LoginThenRestore` and `Session.LoginThenReload` hold only because a map update cannot fail.
- The route table of src/App.tsx belongs to the router. `RoleGates.VendorLinkAdmits` relates the `/vendor` link to the vendor page as that file wires them.
- Moderation legality (pending-only transitions, idempotent approve, terminal states) is decided by the backend, not by this client, and is not modelled.
- The API base configuration is read from the build environment. `Http.ApiBase` shows how it falls back to the default host. The request builders take the base URL and the stored token as independent parameters: nothing ties them to `ApiBase` or to the session store's `"token"` key.
- The status badge colour of each vendor product (lines 254-257 of src/pages/VendorDashboard.tsx) is presentation only.
- The role icon beside the navbar's dashboard link (lines 55-57 of src/components/layout/Navbar.tsx) is presentation only.
- The spinner-or-icon choice on a busy product's buttons (lines 186-190 and 199-203 of src/pages/AdminDashboard.tsx) is presentation only. The disabled state it goes with is modelled.
