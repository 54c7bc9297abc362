# fullstack_commerce — a Dafny model of the storefront and its order/product services

This project models the core of a small e-commerce system. The Next.js storefront keeps its state in React contexts and hooks:

- the cart and its line controls;
- the checkout page;
- toasts;
- the OAuth2 password login, the token kept in localStorage and the axios interceptors;
- the authentication context, role checks and the route-guarding middleware;
- pagination, filters, the multi-select, the product form and the wishlist;
- the order status label, timeline and card;
- the query-string builders of the REST services.

The Spring backend holds:

- the mock login endpoint;
- the product and user DTOs with their Bean Validation constraints;
- the product service (CRUD over a repository);
- the order service (order placement and the self-or-admin read check).

Pure code (helpers, render decisions, reducers passed to `setState`) is written as datatypes, functions and lemmas. Stateful code is written as classes whose methods change fields under `modifies`:

- React state: CartStore, ToastStore, AuthProvider, CheckoutPage, FormState, WishlistState, DetailsToggle;
- `localStorage`: Browser.LocalStorage;
- `URLSearchParams`: Query.SearchParams;
- JPA repositories: ProductService, OrderService;
- the mutable Java DTO: UserDto.

Every method is specified against the function that describes its effect, and the promised properties are proved about those functions.

Modelling conventions:

- Prices are integer cents.
- Numbers are unbounded integers.
- JavaScript `null`/`undefined` and Java `null` are `Option`.
- The clock, the token decoder, the HTTP endpoints, the authenticated user and the e-mail validator are parameters.
- A thrown exception is the `Err` side of a `Result`.

Where the intended behaviour and the code disagree, the model follows the code:

- The cart is an in-memory React context. It is not stored per user and not tied to login.
- The middleware only checks that an `auth-token` cookie exists, with no role check.

The defects this exposes are listed under Findings. There, each as-written member is paired with a corrected one, and the rest of the model uses the corrected one.

## Model

| member | source | states |
|---|---|---|
| CartContext.AddLine | frontend/src/contexts/CartContext.tsx:21-34 | Afterwards the product has a line. A product already in the cart keeps the length, a new one adds exactly one line, and every other product's line is unchanged. |
| CartContext.SumQuantities | frontend/src/contexts/CartContext.tsx:60 | The sum of no lines is 0; with every quantity at least 1 it is at least the number of lines. |
| CartContext.SumPrices | frontend/src/contexts/CartContext.tsx:61 | The sum of no lines is 0; with no negative price or quantity it is never negative. |
| CartContext.LineTotal | frontend/src/contexts/CartContext.tsx:61 | A line with no negative price or quantity has no negative total. |
| CartContext.AddExistingIncrements | frontend/src/contexts/CartContext.tsx:23-30 | With one line per product, adding a product already present raises only that line's quantity, by the amount added. |
| CartContext.AddNewAppends | frontend/src/contexts/CartContext.tsx:33 | A product not yet in the cart is appended at the end with the given quantity. |
| CartContext.AddKeepsUnique | frontend/src/contexts/CartContext.tsx:21-34 | Adding preserves the invariant of one line per product id. |
| CartContext.RemoveLine | frontend/src/contexts/CartContext.tsx:37-39 | No line of the removed product remains, and the cart never grows. |
| CartContext.RemoveKeepsUnique | frontend/src/contexts/CartContext.tsx:38 | Removing preserves one line per product id. |
| CartContext.RemoveAbsentIsNoOp | frontend/src/contexts/CartContext.tsx:38 | Removing a product that has no line leaves the cart as it was. |
| CartContext.RemoveDeletesLine | frontend/src/contexts/CartContext.tsx:38 | Removing a present product deletes exactly its line; the others stay, in order. |
| CartContext.SetQuantity | frontend/src/contexts/CartContext.tsx:47-53 | The same products, in the same order, as before. |
| CartContext.UpdateLine | frontend/src/contexts/CartContext.tsx:41-54 | A quantity of zero or less leaves no line of the product; a positive quantity keeps the length. |
| CartContext.UpdateNonPositiveIsRemove | frontend/src/contexts/CartContext.tsx:42-45 | Updating to a quantity of zero or less is the same as removing the product. |
| CartContext.UpdatePositiveSets | frontend/src/contexts/CartContext.tsx:47-53 | Updating a present product to a positive quantity replaces only that line's quantity. |
| CartContext.UpdateAbsentIsNoOp | frontend/src/contexts/CartContext.tsx:47-53 | Updating a product that has no line changes nothing. |
| CartContext.UpdateKeepsUnique | frontend/src/contexts/CartContext.tsx:41-54 | Updating preserves one line per product id. |
| CartContext.SumQuantitiesAppend | frontend/src/contexts/CartContext.tsx:60 | The item count of a cart with one more line grows by that line's quantity. |
| CartContext.SumQuantitiesUpdate | frontend/src/contexts/CartContext.tsx:60 | Replacing one line changes the item count by the difference of the two quantities. |
| CartContext.SumPricesUpdate | frontend/src/contexts/CartContext.tsx:61 | Replacing one line changes the total price by the difference of the two line totals. |
| CartContext.SumPricesAppend | frontend/src/contexts/CartContext.tsx:61 | Appending a line adds its price times its quantity to the total. |
| CartContext.TotalItemsAfterAdd | frontend/src/contexts/CartContext.tsx:21-60 | Adding `quantity` of any product raises the total item count by exactly `quantity`. |
| CartContext.TotalPriceAfterAddExisting | frontend/src/contexts/CartContext.tsx:21-61 | Adding more of a product already in the cart raises the total by the stored product's price times the added quantity. |
| CartContext.TotalPriceAfterAddNew | frontend/src/contexts/CartContext.tsx:21-61 | Adding a new product raises the total by its price times the quantity. |
| CartContext.AddKeepsPositive | frontend/src/contexts/CartContext.tsx:21-34 | If every quantity is positive and the added quantity is at least 1, every quantity stays positive. |
| CartContext.RemoveKeepsPositive | frontend/src/contexts/CartContext.tsx:37-39 | Removing keeps every remaining quantity positive. |
| CartContext.UpdateKeepsPositive | frontend/src/contexts/CartContext.tsx:41-54 | Updating keeps every quantity positive, because non-positive updates remove the line. |
| CartContext.AddNonPositiveBreaksPositivity | frontend/src/contexts/CartContext.tsx:21-34 | addItem does not check its quantity: adding zero or less to an empty cart stores a non-positive line. |
| CartContext.AddUpdateRemoveScenario | frontend/src/contexts/CartContext.tsx:21-61 | Adding one product twice, setting it to 5 and removing it gives the counts and totals 2/100.00, then 5/250.00, then an empty cart. |
| CartContext.AddTwiceScenario | frontend/src/contexts/CartContext.tsx:21-35 | Adding one product twice from an empty cart leaves one line of quantity 2, with the item count and total matching. |
| CartContext.UpdateRemoveScenario | frontend/src/contexts/CartContext.tsx:37-54 | Setting that line to 5 updates the totals accordingly, and removing the product then empties the cart. |
| CartContext.CartStore.constructor | frontend/src/contexts/CartContext.tsx:19 | The cart starts empty. |
| CartContext.CartStore.AddItem | frontend/src/contexts/CartContext.tsx:21-35 | The new items are the add operation on the old ones, with one line per product kept and the item count raised by the quantity. |
| CartContext.CartStore.AddOne | frontend/src/contexts/CartContext.tsx:21 | Adding with the default quantity of 1 adds one to the item count and keeps every line positive when it was. |
| CartContext.CartStore.TotalItems | frontend/src/contexts/CartContext.tsx:60 | The item count of an empty cart is 0, and with positive quantities it is at least the number of lines. |
| CartContext.CartStore.TotalPrice | frontend/src/contexts/CartContext.tsx:61 | The total of an empty cart is 0, and it is never negative when prices and quantities are not. |
| CartContext.CartStore.RemoveItem | frontend/src/contexts/CartContext.tsx:37-39 | The new items are the old ones without the product's line. |
| CartContext.CartStore.UpdateQuantity | frontend/src/contexts/CartContext.tsx:41-54 | The new items are the update operation on the old ones, and one line per product is kept. |
| CartContext.CartStore.ClearCart | frontend/src/contexts/CartContext.tsx:56-58 | The cart is empty, with item count and total 0. |
| CartItemControls.Key | frontend/src/components/CartItem.tsx:19 | The corrected key: the line's product id (see Findings). |
| CartItemControls.QuantityChange | frontend/src/components/CartItem.tsx:17-23 | A new quantity of zero or less becomes a remove call, anything else an update to that quantity, both with the same key. |
| CartItemControls.Minus | frontend/src/components/CartItem.tsx:58 | The minus button removes when the quantity is 1 or less, and otherwise updates to one less. |
| CartItemControls.Plus | frontend/src/components/CartItem.tsx:70 | The plus button updates to one more for any quantity that is not negative. |
| CartItemControls.Trash | frontend/src/components/CartItem.tsx:87 | The trash button always makes a remove call. |
| CartItemControls.PressesAsWrittenAreNoOps | frontend/src/components/CartItem.tsx:17-23 | As written, minus, plus and trash leave every cart unchanged. |
| CartItemControls.MinusOnOneAsWrittenKeepsLine | frontend/src/components/CartItem.tsx:58 | As written, minus on a quantity of 1 keeps the line. |
| CartItemControls.MinusOnOneDeletes | frontend/src/components/CartItem.tsx:17-23 | With the corrected key, minus on a quantity of 1 deletes exactly that line. |
| CartItemControls.MinusLowers | frontend/src/components/CartItem.tsx:58 | With the corrected key, minus on a larger quantity lowers only that line by one. |
| CartItemControls.PlusRaises | frontend/src/components/CartItem.tsx:70 | With the corrected key, plus raises only that line by one. |
| CartItemControls.TrashDeletes | frontend/src/components/CartItem.tsx:87 | With the corrected key, trash deletes exactly that line. |
| CartItemControls.QuantityChangeAgreesWithUpdate | frontend/src/components/CartItem.tsx:17-23 | Dispatching a new quantity with a real key has the same effect as the cart's updateQuantity. |
| Checkout.RedirectFor | frontend/src/app/checkout/page.tsx:29-39 | Without a user it goes to login with a redirect back to checkout. With a user and an empty cart it goes to the cart. There is no redirect exactly when a user has a non-empty cart. |
| Checkout.PayloadAsWritten | frontend/src/app/checkout/page.tsx:48-54 | As written, one entry per line with the line's quantity, but no product id and no price. |
| Checkout.Payload | frontend/src/app/checkout/page.tsx:48-54 | Corrected: one entry per line, in cart order, carrying the product's id, the quantity and the product's price. |
| Checkout.PayloadAsWrittenNamesNoProduct | frontend/src/app/checkout/page.tsx:50 | For a non-empty cart, the as-written payload names no product, where the corrected one names the first line's product. |
| Checkout.PayloadKeepsProducts | frontend/src/app/checkout/page.tsx:48-54 | The corrected payload names each line's product in order, and distinct lines give distinct entries. |
| Checkout.OrderPathInjective | frontend/src/app/checkout/page.tsx:65 | Distinct order ids lead to distinct `/orders/{id}` paths. |
| Checkout.CheckoutPage.constructor | frontend/src/app/checkout/page.tsx:14 | `loading` starts false. |
| Checkout.CheckoutPage.HandleSubmitOrder | frontend/src/app/checkout/page.tsx:41-75 | With no user or an empty cart, nothing is sent or changed. Otherwise the corrected payload is sent and `loading` ends false. On success: the cart is cleared, navigation goes to `/orders/{id}` and a success toast is appended. On failure: the cart is untouched, there is no navigation and an error toast is appended. |
| Toasts.WithId | frontend/src/hooks/useToast.tsx:22-24 | The toast carries the draft's fields and the new id. |
| Toasts.AppendToast | frontend/src/hooks/useToast.tsx:26 | The old toasts are kept as a prefix and the new toast is the one last entry. |
| Toasts.DropToast | frontend/src/hooks/useToast.tsx:33-35 | The list never grows. |
| Toasts.AutoRemoveDelay | frontend/src/hooks/useToast.tsx:28-30 | The delay is the duration when it is present and non-zero, and 5000 otherwise; it is never 0. |
| Toasts.DropToastMembers | frontend/src/hooks/useToast.tsx:34 | No toast with the id remains, and every toast with another id does. |
| Toasts.DropUnknownIsNoOp | frontend/src/hooks/useToast.tsx:34 | Removing an id no toast has changes nothing. |
| Toasts.AddThenRemove | frontend/src/hooks/useToast.tsx:22-35 | Adding a toast under a fresh id and then removing that id restores the list. |
| Toasts.DropToastSplits | frontend/src/hooks/useToast.tsx:34 | Removal acts on each part of a list separately, so the relative order of the kept toasts is preserved. |
| Toasts.ToastStore.constructor | frontend/src/hooks/useToast.tsx:20 | The toast list starts empty. |
| Toasts.ToastStore.AddToast | frontend/src/hooks/useToast.tsx:22-31 | The list becomes the old list with the new toast appended, and the auto-removal delay is returned. |
| Toasts.ToastStore.RemoveToast | frontend/src/hooks/useToast.tsx:33-35 | The list becomes the old list without the toasts carrying the id. |
| Toasts.UseToast | frontend/src/hooks/useToast.tsx:71-77 | Outside a provider it fails with the provider message; inside, it gives the provider's store. |
| AuthLib.GrantParams | frontend/src/lib/auth.ts:19-22 | The password grant is exactly grant_type=password, then the username, then the password. |
| AuthLib.RequestsShareTheGrant | frontend/src/lib/auth.ts:18-52 | Both exchanges send the same grant parameters. The Basic attempt authenticates the client in a header. The body attempt appends client_id and client_secret. |
| AuthLib.StoreToken | frontend/src/lib/auth.ts:39-42 | In the browser, a granted token is stored under `access_token`. A failure, or running outside the browser, leaves storage as it was. Other keys are never touched. |
| AuthLib.AsResult | frontend/src/lib/auth.ts:39-43 | A granted exchange yields its token and a failed one its error. |
| AuthLib.Exchange | frontend/src/lib/auth.ts:32-43 | One token request: the result is the endpoint's answer, and storage is updated as StoreToken says. |
| AuthLib.LoginWithBasicAuth | frontend/src/lib/auth.ts:18-44 | It sends the Basic-authenticated grant and stores a granted token. |
| AuthLib.LoginWithCredentialsInBody | frontend/src/lib/auth.ts:46-81 | It sends the grant with the client credentials in the body, stores a granted token and rethrows a failure. |
| AuthLib.LoginAttempts | frontend/src/lib/auth.ts:9-16 | The Basic attempt always comes first. The body attempt follows exactly when the Basic attempt failed. |
| AuthLib.Login | frontend/src/lib/auth.ts:9-16 | The requests sent are LoginAttempts. The result and the stored token are those of the last attempt. |
| AuthLib.LoginFailureKeepsStorage | frontend/src/lib/auth.ts:9-16 | When both attempts fail, two requests are sent, the last error is returned and storage is unchanged. |
| AuthLib.AfterLogout | frontend/src/lib/auth.ts:163-168 | In the browser the token key is gone. Every other key is kept, and no key is added. |
| AuthLib.LogoutIdempotent | frontend/src/lib/auth.ts:163-168 | Logging out twice is the same as logging out once. |
| AuthLib.Logout | frontend/src/lib/auth.ts:163-168 | Storage is updated as AfterLogout says. Navigation goes to `/login` only in the browser. |
| AuthLib.GetToken | frontend/src/lib/auth.ts:170-173 | A token is returned exactly in the browser when the key is stored, and it is the stored value. |
| AuthLib.TokenIsLive | frontend/src/lib/auth.ts:175-186 | A live token is present, non-empty and decodes to an `exp`, and the clock in milliseconds is before `exp` seconds. |
| AuthLib.LiveUntilExpiry | frontend/src/lib/auth.ts:175-186 | A non-empty token with a decodable `exp` is live exactly while the current time, floored to seconds, is before `exp`. |
| AuthLib.ExpiryIsFinal | frontend/src/lib/auth.ts:180-182 | A token live at a later time was live at every earlier time. |
| AuthLib.IsAuthenticated | frontend/src/lib/auth.ts:175-186 | Authenticated only in the browser, with a non-empty stored token whose `exp` decodes. |
| AuthLib.HasRoleAsWritten | frontend/src/lib/auth.ts:188-190 | As written, no user has any role, because a role string never equals a Role object. |
| AuthLib.AdminNotRecognisedAsWritten | frontend/src/lib/auth.ts:188-190 | A user whose only role has authority ROLE_ADMIN is still not an administrator as written. |
| ApiClient.BearerAuthorization | frontend/src/lib/api.ts:15 | The corrected header value starts with "Bearer " followed by the token itself. |
| ApiClient.BearerInjective | frontend/src/lib/api.ts:15 | Distinct tokens give distinct Bearer header values. |
| ApiClient.BareTokenLacksScheme | frontend/src/lib/api.ts:15 | As written, the Authorization value of a token not starting with 'B' lacks the Bearer scheme; the corrected value has it. |
| ApiClient.HeadersAsWritten | frontend/src/lib/api.ts:11-19 | As written, in the browser a non-empty stored token becomes the whole Authorization value. Otherwise the headers are unchanged. |
| ApiClient.HeadersWithToken | frontend/src/lib/api.ts:11-19 | In the browser, a non-empty stored token sets Authorization to its Bearer form. Otherwise the headers are unchanged. |
| ApiClient.OnRequest | frontend/src/lib/api.ts:11-19 | The URL is kept and the headers become HeadersWithToken of the stored token. |
| ApiClient.ForcesLogout | frontend/src/lib/api.ts:26 | Only a 401 forces a logout; a URL containing `/oauth2/token` never does; a 401 without a URL always does. |
| ApiClient.StorageAfterError | frontend/src/lib/api.ts:26-31 | A 401 from anything but the token endpoint, in the browser, drops the token key; every other error leaves storage alone. |
| ApiClient.TokenEndpointFailureKeepsStorage | frontend/src/lib/api.ts:26 | A 401 from `/oauth2/token` never clears storage. |
| ApiClient.OtherErrorsKeepStorage | frontend/src/lib/api.ts:26 | An error other than 401 never clears storage. |
| ApiClient.UnauthorisedDropsToken | frontend/src/lib/api.ts:26-29 | A 401 from any other URL, in the browser, removes the token. |
| ApiClient.OnResponseError | frontend/src/lib/api.ts:24-33 | The same error is rejected again. Storage changes as StorageAfterError says. Navigation goes to `/login` exactly when the logout is forced in the browser. |
| Browser.LocalStorage.GetItem | frontend/src/lib/auth.ts:172 | A value exactly for a stored key, and then the stored value. |
| Browser.LocalStorage.SetItem | frontend/src/lib/auth.ts:41 | The key now maps to the value; every other key is kept. |
| Browser.LocalStorage.RemoveItem | frontend/src/lib/auth.ts:165 | The key is gone; every other key is kept, and a missing key changes nothing. |
| AuthContextState.AuthProvider.constructor | frontend/src/contexts/AuthContext.tsx:21-22 | No user and `loading` true at start. |
| AuthContextState.AuthProvider.FetchUser | frontend/src/contexts/AuthContext.tsx:25-38 | Corrected, with the identity call's answer as an input. The call is made exactly when a non-empty token is stored. If it succeeds, the user is set. If it fails, the user logs out and two navigations to `/login` happen. With no token nothing changes. `loading` ends false. |
| AuthContextState.AuthProvider.FetchUserAsWritten | frontend/src/contexts/AuthContext.tsx:25-38 | As written the identity call always throws, so whenever a token is stored the user is left as it was, the token is removed and two navigations to `/login` happen. |
| AuthContextState.AuthProvider.HandleLogin | frontend/src/contexts/AuthContext.tsx:44-56 | The result is that of the last login attempt. A failure changes neither user nor storage and does not navigate. A success stores the token in the browser; then a non-empty token triggers the identity call, whose success sets the user and whose failure logs out again with two navigations to `/login`. A success ends by navigating to `/`. `loading` ends false. |
| AuthContextState.AuthProvider.HandleLoginAsWritten | frontend/src/contexts/AuthContext.tsx:44-56 | As written, a granted login in the browser with a non-empty token leaves no user and no stored token, and navigates to `/login` twice and then to `/`. |
| AuthContextState.AuthProvider.HandleLogout | frontend/src/contexts/AuthContext.tsx:58-61 | The user is cleared and the token key removed from storage. In the browser the page goes to `/login`; elsewhere there is no navigation. |
| AuthContextState.AuthProvider.IsAuthenticated | frontend/src/contexts/AuthContext.tsx:63 | Authenticated exactly when a user is present. |
| AuthContextState.AuthProvider.IsAdminAsWritten | frontend/src/contexts/AuthContext.tsx:64 | As written, never an administrator. |
| AuthContextState.AuthProvider.IsAdmin | frontend/src/contexts/AuthContext.tsx:64 | Corrected: an administrator exactly when the user holds the ROLE_ADMIN authority, which implies being authenticated. |
| Permissions.SomeAuthority | frontend/src/hooks/usePermissions.ts:7 | True exactly when some role has the given authority. |
| Permissions.HasRole | frontend/src/hooks/usePermissions.ts:6-8 | True exactly when there is a user and one of their roles has the authority. |
| Permissions.CanManageProducts | frontend/src/hooks/usePermissions.ts:10-12 | True exactly when there is a user holding a role with authority ROLE_ADMIN. |
| Permissions.CanManageOrders | frontend/src/hooks/usePermissions.ts:14-16 | True exactly when there is a user holding a role with authority ROLE_ADMIN. |
| Permissions.CanManageUsers | frontend/src/hooks/usePermissions.ts:28-30 | True exactly when there is a user holding a role with authority ROLE_ADMIN. |
| Permissions.CanCreateOrder | frontend/src/hooks/usePermissions.ts:18-20 | True exactly for holders of ROLE_CLIENT or ROLE_ADMIN. |
| Permissions.CanViewOrder | frontend/src/hooks/usePermissions.ts:22-26 | Viewing needs ROLE_ADMIN or ROLE_CLIENT. |
| Permissions.ManagementIsAdmin | frontend/src/hooks/usePermissions.ts:10-30 | Managing products, orders and users is each exactly holding ROLE_ADMIN. |
| Permissions.NoUserNoRoles | frontend/src/hooks/usePermissions.ts:6-8 | No user, or a user without roles, has no role and cannot create orders. |
| Permissions.AdminViewsEveryOrder | frontend/src/hooks/usePermissions.ts:23 | An administrator views every order. |
| Permissions.ClientViewsOwnOrders | frontend/src/hooks/usePermissions.ts:24 | A client who is not an administrator views exactly the orders whose client id is theirs. |
| Permissions.NoRoleViewsNothing | frontend/src/hooks/usePermissions.ts:22-26 | A user with neither role views no order. |
| Permissions.AdminByAuthority | frontend/src/hooks/usePermissions.ts:7 | Any role with authority ROLE_ADMIN grants management and order creation, whatever the role's id. |
| RouteGuard.SomePrefix | frontend/src/middleware.ts:15-16 | True exactly when some route is a raw prefix of the path. |
| RouteGuard.IsProtectedRoute | frontend/src/middleware.ts:9-15 | True exactly when the path starts with /cart, /checkout, /orders, /profile or /settings. |
| RouteGuard.IsAdminRoute | frontend/src/middleware.ts:12-16 | True exactly when the path starts with /admin. |
| RouteGuard.Middleware | frontend/src/middleware.ts:4-36 | A path under a protected or admin route, without the `auth-token` cookie, is redirected to login carrying the path. Everything else passes. |
| RouteGuard.Matched | frontend/src/middleware.ts:38-46 | A path is matched exactly when it is some listed base or lies below one. |
| RouteGuard.Route | frontend/src/middleware.ts:4-46 | A path the matcher does not select always passes. |
| RouteGuard.PrefixOfMatch | frontend/src/middleware.ts:38-46 | A matched base is always a prefix of the path. |
| RouteGuard.MatchedPathsAreGuarded | frontend/src/middleware.ts:15-30 | Every matched path is protected or admin, and it is redirected exactly when the cookie is missing. |
| RouteGuard.CookieOpensEverything | frontend/src/middleware.ts:19-35 | Holding the cookie lets every path through, admin pages included, with no role check. |
| RouteGuard.PublicPathsPass | frontend/src/middleware.ts:15-35 | A path under no listed route always passes. |
| RouteGuard.RawPrefix | frontend/src/middleware.ts:15 | `/cartx` counts as protected by the raw prefix test, but the matcher never sends it to the middleware, so it passes. |
| RouteGuard.AdminPageRedirects | frontend/src/middleware.ts:26-29 | Without the cookie, `/admin/products` is redirected to login with itself as the redirect. |
| Pagination.PageWindow | frontend/src/components/ui/Pagination.tsx:15-24 | The loop yields the window's start and end and exactly the consecutive pages between them. |
| Pagination.WindowStart | frontend/src/components/ui/Pagination.tsx:15-20 | The start is at least 1 and never after two pages before the current one (or 1). |
| Pagination.WindowEnd | frontend/src/components/ui/Pagination.tsx:16 | The end never passes the last page and reaches two pages past the current one when there are enough pages. |
| Pagination.Range | frontend/src/components/ui/Pagination.tsx:22-24 | Every listed page lies between the bounds, and every integer between them is listed. |
| Pagination.WindowBounds | frontend/src/components/ui/Pagination.tsx:15-20 | With at least one page, the window lies within 1..totalPages and holds min(5, totalPages) pages. |
| Pagination.RangeIsConsecutive | frontend/src/components/ui/Pagination.tsx:22-24 | The page list runs from start to end in steps of one. |
| Pagination.CurrentIsVisible | frontend/src/components/ui/Pagination.tsx:15-24 | A current page within 1..totalPages is always in the window. |
| Pagination.FirstShortcut | frontend/src/components/ui/Pagination.tsx:39-50 | The "1" shortcut shows exactly when totalPages > 5 and current > 3. Its ellipsis shows exactly when totalPages > 6 and current > 4. |
| Pagination.LastShortcut | frontend/src/components/ui/Pagination.tsx:63-74 | The last-page shortcut shows exactly when totalPages > 5 and current < totalPages - 2. Its ellipsis shows exactly when totalPages > 6 and current < totalPages - 3. |
| Pagination.Render | frontend/src/components/ui/Pagination.tsx:26-86 | Nothing is rendered exactly when totalPages <= 1. Otherwise the controls open with Previous, disabled on page 1, and close with Next, disabled on the last page. |
| Pagination.PageNumbersAppend | frontend/src/components/ui/Pagination.tsx:28-86 | The page numbers of joined controls are the joined page numbers. |
| Pagination.WindowPageNumbers | frontend/src/components/ui/Pagination.tsx:52-61 | The window's buttons show exactly the window's pages. |
| Pagination.IncreasingJoin | frontend/src/components/ui/Pagination.tsx:39-74 | Joining two ascending lists, the first ending below the second's start, stays ascending. |
| Pagination.LeadingNumbers | frontend/src/components/ui/Pagination.tsx:39-50 | The leading part shows page 1 exactly when the window starts after 1. |
| Pagination.TrailingNumbers | frontend/src/components/ui/Pagination.tsx:63-74 | The trailing part shows the last page exactly when the window ends before it. |
| Pagination.PageNumbersOfFive | frontend/src/components/ui/Pagination.tsx:28-86 | The page numbers of the five control groups are the groups' numbers in order. |
| Pagination.RenderPageNumbers | frontend/src/components/ui/Pagination.tsx:28-86 | The numbers shown are the optional 1, the window and the optional last page. |
| Pagination.PageNumbersAscend | frontend/src/components/ui/Pagination.tsx:28-86 | The page numbers shown strictly increase, so none is shown twice. |
| ProductFilters.ToggleSection | frontend/src/components/ProductFilters.tsx:45-51 | After a toggle the section is expanded exactly when it was not before. |
| ProductFilters.ToggleAbsentTwice | frontend/src/components/ProductFilters.tsx:45-51 | Opening a collapsed section and closing it again restores the list. |
| ProductFilters.ToggleKeepsOthers | frontend/src/components/ProductFilters.tsx:45-51 | Other sections keep their state. |
| ProductFilters.InitialToggle | frontend/src/components/ProductFilters.tsx:43-51 | Both sections start expanded; collapsing the price section leaves only the category one. |
| ProductFilters.FilterChange | frontend/src/components/ProductFilters.tsx:53-63 | Only the changed section differs. Ticking appends the value to the section's list. Unticking removes every copy of the value. |
| ProductFilters.SectionValues | frontend/src/components/ProductFilters.tsx:54 | A section without an entry reads as empty; a non-empty list is the section's own. |
| ProductFilters.HasActiveFilters | frontend/src/components/ProductFilters.tsx:69 | Active exactly when some section reads as a non-empty list. |
| ProductFilters.UncheckUndoesCheck | frontend/src/components/ProductFilters.tsx:53-63 | Ticking a new value and then unticking it restores the section's list. |
| ProductFilters.UncheckKeepsOthers | frontend/src/components/ProductFilters.tsx:57 | Unticking keeps the section's other values. |
| ProductFilters.ClearAllFilters | frontend/src/components/ProductFilters.tsx:65-67 | Clearing leaves no section and no active filter. |
| ProductFilters.CheckActivates | frontend/src/components/ProductFilters.tsx:53-69 | After any tick some filter is active. |
| ProductFilters.EmptySectionsAreInactive | frontend/src/components/ProductFilters.tsx:69 | Filters whose every section is empty are inactive. |
| MultiSelect.RemoveOption | frontend/src/components/ui/MultiSelect.tsx:50-53 | No option with the removed option's value stays selected. |
| MultiSelect.IsSelected | frontend/src/components/ui/MultiSelect.tsx:41 | Selected exactly when the option's value is among the values of the selected items. |
| MultiSelect.ToggleOption | frontend/src/components/ui/MultiSelect.tsx:39-48 | Afterwards the option is selected exactly when it was not before. |
| MultiSelect.ToggleUnselectedAppends | frontend/src/components/ui/MultiSelect.tsx:46 | Toggling an unselected option appends it at the end. |
| MultiSelect.RemoveAbsentIsNoOp | frontend/src/components/ui/MultiSelect.tsx:52 | Removing an option that is not selected changes nothing. |
| MultiSelect.RemoveKeepsOthers | frontend/src/components/ui/MultiSelect.tsx:52 | Options with other values stay selected. |
| MultiSelect.ToggleTwice | frontend/src/components/ui/MultiSelect.tsx:39-48 | Toggling an unselected option twice restores the selection. |
| MultiSelect.ToggleKeepsValuesDistinct | frontend/src/components/ui/MultiSelect.tsx:39-48 | Toggling never makes two selected options share a value. |
| ProductForm.InitialFormData | frontend/src/components/ProductForm.tsx:16-22 | Without a product the form is empty with price 0. With a product it copies the product's fields and category ids. |
| ProductForm.IsChecked | frontend/src/components/ProductForm.tsx:129 | Ticked exactly when the category id is among the ids of the form's categories. |
| ProductForm.CategoryChange | frontend/src/components/ProductForm.tsx:55-62 | Only the categories change. A category is ticked afterwards exactly when `checked`, and ticking appends a reference. |
| ProductForm.TickTwiceDuplicates | frontend/src/components/ProductForm.tsx:58-59 | Ticking the same category twice stores it twice. |
| ProductForm.UntickKeepsOthers | frontend/src/components/ProductForm.tsx:60 | Unticking keeps every other category's state. |
| ProductForm.FormState.constructor | frontend/src/components/ProductForm.tsx:25-26 | Not loading and no error at start. |
| ProductForm.FormState.HandleSubmit | frontend/src/components/ProductForm.tsx:41-53 | `loading` ends false. The error is cleared on success and set to the save message on failure. |
| Wishlist.Toggled | frontend/src/app/page.tsx:41-49 | The toggled id changes membership and every other id keeps its own. |
| Wishlist.ToggleTwiceRestores | frontend/src/app/page.tsx:41-49 | Toggling the same id twice restores the set. |
| Wishlist.WishlistState.constructor | frontend/src/app/page.tsx:24 | The wishlist starts empty. |
| Wishlist.WishlistState.ToggleWishlist | frontend/src/app/page.tsx:41-49 | The new set is the old one with the id toggled. |
| StatusLabels.GetOrderStatusLabel | frontend/src/lib/utils.ts:12-21 | A known status gets its table label, which differs from the status itself; any other string comes back unchanged. |
| StatusLabels.KnownLabels | frontend/src/lib/utils.ts:13-19 | The five statuses read Aguardando Pagamento, Pago, Enviado, Entregue and Cancelado. |
| StatusLabels.LabelsInjectiveOnKnown | frontend/src/lib/utils.ts:13-19 | Distinct known statuses get distinct labels. |
| StatusLabels.LabelCollision | frontend/src/lib/utils.ts:20 | Over all strings the mapping is not injective: the raw string "Pago" and PAID show the same text. |
| OrderTimeline.BuildSteps | frontend/src/components/OrderTimeline.tsx:16-45 | Four steps in the fixed order WAITING_PAYMENT, PAID, SHIPPED, DELIVERED. Each is current exactly when the status equals its own. |
| OrderTimeline.Timeline | frontend/src/components/OrderTimeline.tsx:47-58 | A CANCELED order shows only the banner; any other status shows the steps. |
| OrderTimeline.Note | frontend/src/components/OrderTimeline.tsx:90-92 | "Em andamento" is shown exactly for the current step. |
| OrderTimeline.AtMostOneCurrent | frontend/src/components/OrderTimeline.tsx:22-43 | No two steps are current together. |
| OrderTimeline.CompletedIffLater | frontend/src/components/OrderTimeline.tsx:21-42 | The first three steps are completed exactly when the status is a later step. DELIVERED is completed exactly when the status is DELIVERED. |
| OrderTimeline.CompletedIsPrefix | frontend/src/components/OrderTimeline.tsx:21-42 | A completed step has every earlier step completed. |
| OrderTimeline.DeliveredIsComplete | frontend/src/components/OrderTimeline.tsx:42-43 | A delivered order has all four steps completed, and its last step is also current. |
| OrderTimeline.UnknownStatusMarksNothing | frontend/src/components/OrderTimeline.tsx:16-45 | A status outside the four steps marks no step completed or current. |
| OrderCard.GetStatusConfig | frontend/src/components/OrderCard.tsx:27-56 | A known status gets its own configuration; any other falls back to the WAITING_PAYMENT one. |
| OrderCard.BadgeAgreesWithLabels | frontend/src/components/OrderCard.tsx:27-55 | On known statuses the badge caption equals the label the status helper gives. On unknown ones the badge reads Aguardando Pagamento while the helper echoes the status. |
| OrderCard.ConfigsDistinct | frontend/src/components/OrderCard.tsx:28-54 | Distinct known statuses have distinct captions and icons. |
| OrderCard.ActionsByStatus | frontend/src/components/OrderCard.tsx:178-188 | Whenever paying is offered, cancelling is too. Shipped, delivered and cancelled orders offer neither. |
| OrderCard.OffersPay | frontend/src/components/OrderCard.tsx:178 | Paying is offered only on a known status for which cancelling is offered too. |
| OrderCard.OffersCancel | frontend/src/components/OrderCard.tsx:184 | Cancelling is offered only on a known status that is not shipped, delivered or cancelled. |
| OrderCard.Actions | frontend/src/components/OrderCard.tsx:170-188 | Collapsed details show no action. Expanded details always show the link to the full details. "Pagar Agora" shows exactly when expanded and WAITING_PAYMENT. "Cancelar Pedido" shows exactly when expanded and WAITING_PAYMENT or PAID. |
| OrderCard.Thumbnails | frontend/src/components/OrderCard.tsx:95 | At most three thumbnails, the first items in order. |
| OrderCard.OverflowBadge | frontend/src/components/OrderCard.tsx:106-110 | The badge shows exactly when there are more than three items, and thumbnails plus badge count every item. |
| OrderCard.ItemWord | frontend/src/components/OrderCard.tsx:116 | "item" exactly for a count of one. |
| OrderCard.DetailsToggle.constructor | frontend/src/components/OrderCard.tsx:25 | Details start collapsed. |
| OrderCard.DetailsToggle.Toggle | frontend/src/components/OrderCard.tsx:123 | Each click flips the expanded state. |
| Query.Serialize | frontend/src/services/productService.ts:26 | The query string is empty exactly when no parameter was appended. |
| Query.SearchParams.constructor | frontend/src/services/productService.ts:19 | A fresh parameter list is empty. |
| Query.SearchParams.Append | frontend/src/services/productService.ts:21-24 | Appending adds one pair at the end. |
| Query.SearchParams.ToString | frontend/src/services/productService.ts:26 | Empty exactly when no pair was appended. |
| Services.IfDefined | frontend/src/services/productService.ts:21 | A defined value, 0 included, gives exactly one pair with its decimal text; an undefined one gives none. |
| Services.IfTruthyNumber | frontend/src/services/productService.ts:22 | A value that is undefined or 0 gives no pair; any other gives one. |
| Services.IfTruthyText | frontend/src/services/productService.ts:23-24 | Text that is undefined or empty gives no pair; any other gives one. |
| Services.ProductQuery | frontend/src/services/productService.ts:21-24 | At most four parameters. A given page, 0 included, comes first. No parameter at all exactly when page is missing and size, name and sort are falsy. |
| Services.UserQuery | frontend/src/services/userService.ts:20-22 | At most three parameters. A given page comes first. No parameter at all exactly when page is missing and size and search are falsy. |
| Services.OrderQuery | frontend/src/services/orderService.ts:28-30 | At most three parameters. Page 0 is never sent. No parameter at all exactly when page, size and status are all missing or falsy. |
| Services.ProductGetAll | frontend/src/services/productService.ts:19-27 | The request is a GET of `/products?` followed by the serialized page, size, name and sort parameters. |
| Services.UserGetAll | frontend/src/services/userService.ts:18-25 | The request is a GET of `/users?` followed by the serialized page, size and search parameters. |
| Services.OrderGetAll | frontend/src/services/orderService.ts:27-33 | The request is a GET of `/orders?` followed by the serialized page, size and status parameters. |
| Services.ProductQueryOrder | frontend/src/services/productService.ts:21-24 | Product parameters come in the order page, size, name, sort, at most four of them. |
| Services.UserQueryOrder | frontend/src/services/userService.ts:20-22 | User parameters come in the order page, size, search. |
| Services.OrderQueryOrder | frontend/src/services/orderService.ts:28-30 | Order parameters come in the order page, size, status. |
| Services.PageZeroDisagreement | frontend/src/services/orderService.ts:28 | Page 0 is sent by the product and user builders but omitted by the order builder. |
| Services.EmptyProductQuery | frontend/src/services/productService.ts:21-26 | No parameters, or size 0 with an empty name and sort, give an empty query and so the path `/products?`. |
| Services.ProductPathsAgree | frontend/src/services/productService.ts:30-47 | getById, update and delete all target the same `/products/{id}`, and distinct ids give distinct paths. |
| Services.UserPathsAgree | frontend/src/services/userService.ts:28-45 | getById, update and delete all target the same `/users/{id}`, and distinct ids give distinct paths. |
| Services.OrderPathsDistinct | frontend/src/services/orderService.ts:5-18 | No numeric id's path is the path `/orders/my-orders`. |
| Services.PrefixedNumberInjective | frontend/src/services/productService.ts:31 | Distinct ids under one prefix give distinct paths. |
| AuthEndpoint.Login | backend/src/main/java/com/comercio/projeto_dscommerce/controllers/AuthController.java:18-26 | 200 exactly for the username admin@teste.com with the password 123, with a body of exactly access_token=fake-jwt-token and token_type=Bearer. Every other input gets 401 with a body of exactly an error entry. |
| AuthEndpoint.WrongPasswordRefused | backend/src/main/java/com/comercio/projeto_dscommerce/controllers/AuthController.java:19-25 | The right username with any other password, null included, is refused. |
| AuthEndpoint.UsernameIsCaseSensitive | backend/src/main/java/com/comercio/projeto_dscommerce/controllers/AuthController.java:19 | A capitalised username is refused. |
| AuthEndpoint.NullCredentialsRefused | backend/src/main/java/com/comercio/projeto_dscommerce/controllers/AuthController.java:19 | A null username or password gets 401. |
| ProductDtos.ValidMeans | src/main/java/com/comercio/projeto_dscommerce/dto/ProductDTO.java:14-29 | Valid means all of these: the name is present, 3 to 80 characters and not blank; the description is present, at least 10 characters and not blank; the price is present and positive; there is at least one category. |
| ProductDtos.BlankNameRejected | src/main/java/com/comercio/projeto_dscommerce/dto/ProductDTO.java:14-16 | A name of three spaces has the right length but fails @NotBlank. |
| ProductDtos.ControlNameRejected | src/main/java/com/comercio/projeto_dscommerce/dto/ProductDTO.java:14-16 | Three control characters fail @NotBlank, because trim strips every character up to U+0020; one visible character among them passes. |
| ProductDtos.WithFields | src/main/java/com/comercio/projeto_dscommerce/dto/ProductDTO.java:35-41 | The five fields are as given, no category is set, and so the payload is never valid. |
| ProductDtos.EntityToDto | src/main/java/com/comercio/projeto_dscommerce/dto/ProductDTO.java:43-52 | id, name, description, price and imgUrl are copied. There is one category payload per entity category, in order, with its id. |
| ProductDtos.FromEntity | src/main/java/com/comercio/projeto_dscommerce/dto/ProductDTO.java:43-52 | The loop appending one category payload per entity category yields EntityToDto. |
| ProductDtos.EntityDtoValidity | src/main/java/com/comercio/projeto_dscommerce/dto/ProductDTO.java:14-52 | A payload copied from an entity is valid exactly when the entity's own fields pass the constraints and it has a category. |
| ProductCatalog.CopyDtoToEntity | src/main/java/com/comercio/projeto_dscommerce/services/ProductService.java:22-27 | Name, description, price and imgUrl come from the DTO. id and categories stay as they were. |
| ProductCatalog.CopyIdempotent | src/main/java/com/comercio/projeto_dscommerce/services/ProductService.java:22-27 | Copying the same DTO twice equals copying it once. |
| ProductCatalog.CopyOwnDtoIsIdentity | src/main/java/com/comercio/projeto_dscommerce/services/ProductService.java:22-27 | Copying an entity's own payload back onto it changes nothing. |
| ProductCatalog.InsertDropsCategories | src/main/java/com/comercio/projeto_dscommerce/services/ProductService.java:43-49 | An inserted product gets the assigned id but no categories, so the payload insert returns fails the payload's own @NotEmpty. |
| ProductCatalog.FindAll | src/main/java/com/comercio/projeto_dscommerce/services/ProductService.java:37-40 | One payload per result row, in the same order: each is the DTO form of its row, copying id, name, description, price and image URL. |
| ProductCatalog.FindAllKeepsCategories | src/main/java/com/comercio/projeto_dscommerce/services/ProductService.java:39 | Each payload has as many categories as its row. |
| ProductCatalog.ProductService.FindById | src/main/java/com/comercio/projeto_dscommerce/services/ProductService.java:30-34 | The stored product's payload exactly when the id is stored; otherwise ResourceNotFound with the id in the message. |
| ProductCatalog.ProductService.Insert | src/main/java/com/comercio/projeto_dscommerce/services/ProductService.java:43-50 | One new product is stored under a fresh id, with the DTO's four fields. Nothing else changes. The returned payload is what findById then gives. |
| ProductCatalog.ProductService.Update | src/main/java/com/comercio/projeto_dscommerce/services/ProductService.java:53-66 | An existing id gets its four fields overwritten, and every other product is unchanged. An unknown id is ResourceNotFound and changes nothing. |
| ProductCatalog.ProductService.Delete | src/main/java/com/comercio/projeto_dscommerce/services/ProductService.java:69-79 | An unknown id is ResourceNotFound. An integrity violation is DatabaseFailure with "falha de integridade referencial". In both cases nothing changes; otherwise only that product is removed. |
| ServiceErrors.NotFoundFor | src/main/java/com/comercio/projeto_dscommerce/services/ProductService.java:32 | The message is "Recurso não encontrado", a space, then the id's decimal text. |
| ServiceErrors.NotFoundForInjective | src/main/java/com/comercio/projeto_dscommerce/services/ProductService.java:32 | Distinct ids give distinct not-found messages. |
| OrderPlacement.ItemsFor | backend/src/main/java/com/comercio/projeto_dscommerce/services/OrderService.java:57-61 | One item per requested line, in order, with the line's product id and quantity. |
| OrderPlacement.PriceComesFromCatalogue | backend/src/main/java/com/comercio/projeto_dscommerce/services/OrderService.java:58-59 | Each item's price is the stored product's price. |
| OrderPlacement.ClientPriceIgnored | backend/src/main/java/com/comercio/projeto_dscommerce/services/OrderService.java:57-61 | Requests that differ only in their prices give the same items. |
| OrderPlacement.FromPayload | frontend/src/app/checkout/page.tsx:48-56 | The checkout body read as the server's DTO keeps one entry per line and each product id. |
| OrderPlacement.AsWrittenCheckoutUnresolvable | backend/src/main/java/com/comercio/projeto_dscommerce/services/OrderService.java:58 | The as-written checkout payload of a non-empty cart can never be placed, because its lines name no product. |
| OrderPlacement.CheckoutPayloadPlaces | backend/src/main/java/com/comercio/projeto_dscommerce/services/OrderService.java:57-61 | The corrected payload is placed whenever the catalogue holds every product in the cart, line for line at catalogue prices. |
| OrderPlacement.FrontendGateWithinBackendCheck | frontend/src/hooks/usePermissions.ts:22-26 | Every order the storefront lets a user view also passes the backend's self-or-admin check. |
| OrderPlacement.SelfOrAdmin | backend/src/main/java/com/comercio/projeto_dscommerce/services/OrderService.java:42 | An administrator or the order's own client passes; anyone else is refused. |
| OrderPlacement.RolelessOwnerOnlyBackend | frontend/src/hooks/usePermissions.ts:22-26 | A user with no role is refused their own order by the storefront but not by the backend check. |
| OrderPlacement.OrderService.FindById | backend/src/main/java/com/comercio/projeto_dscommerce/services/OrderService.java:39-44 | An unknown id is ResourceNotFound. A known order is returned exactly when the current user is its client or an administrator, and Forbidden otherwise. |
| OrderPlacement.OrderService.Insert | backend/src/main/java/com/comercio/projeto_dscommerce/services/OrderService.java:47-67 | Succeeds exactly when every line names a stored product. It then stores one WAITING_PAYMENT order at `now` for the authenticated client, with items from ItemsFor, under a fresh id. Otherwise nothing is saved. |
| UserDtos.SixArgFields | backend/src/main/java/com/comercio/projeto_dscommerce/dto/UserDTO.java:33-39 | id, email, phone and birthDate are as given. name stays null, and firstName and lastName go unused. |
| UserDtos.SixArgIsInvalid | backend/src/main/java/com/comercio/projeto_dscommerce/dto/UserDTO.java:19-39 | Whatever names are passed, the 6-argument payload fails @NotBlank on its name. |
| UserDtos.EntityFields | backend/src/main/java/com/comercio/projeto_dscommerce/dto/UserDTO.java:41-50 | id, name, email, phone and birthDate are copied. The roles are the authorities' strings in order. There is no password. |
| UserDtos.EntityFieldsValidity | backend/src/main/java/com/comercio/projeto_dscommerce/dto/UserDTO.java:19-50 | A payload from an entity is valid exactly when the entity's name is not blank and 2 to 80 characters long, and its email, if present, is well formed. |
| UserDtos.UserDto.constructor | backend/src/main/java/com/comercio/projeto_dscommerce/dto/UserDTO.java:29-31 | Every field null and roles empty. |
| UserDtos.UserDto.WithFields | backend/src/main/java/com/comercio/projeto_dscommerce/dto/UserDTO.java:33-39 | The object's fields are SixArgFields of the arguments. |
| UserDtos.UserDto.FromEntity | backend/src/main/java/com/comercio/projeto_dscommerce/dto/UserDTO.java:41-50 | The object's fields are EntityFields of the entity, the roles appended one per authority. |
| UserDtos.UserDto.SetId | backend/src/main/java/com/comercio/projeto_dscommerce/dto/UserDTO.java:56-58 | Only id changes. |
| UserDtos.UserDto.SetName | backend/src/main/java/com/comercio/projeto_dscommerce/dto/UserDTO.java:64-66 | Only name changes. |
| UserDtos.UserDto.SetEmail | backend/src/main/java/com/comercio/projeto_dscommerce/dto/UserDTO.java:72-74 | Only email changes. |
| UserDtos.UserDto.SetPhone | backend/src/main/java/com/comercio/projeto_dscommerce/dto/UserDTO.java:80-82 | Only phone changes. |
| UserDtos.UserDto.SetBirthDate | backend/src/main/java/com/comercio/projeto_dscommerce/dto/UserDTO.java:88-90 | Only birthDate changes. |
| UserDtos.UserDto.SetPassword | backend/src/main/java/com/comercio/projeto_dscommerce/dto/UserDTO.java:96-98 | Only password changes. |
| UserDtos.UserDto.SetRoles | backend/src/main/java/com/comercio/projeto_dscommerce/dto/UserDTO.java:104-106 | Only roles change. |

## Left out

- Browser.LocalStorage: the Web Storage API is a map from strings to strings; quota, persistence across reloads and the storage event are not modelled.
- Query.Serialize: `URLSearchParams.toString` percent-encoding is not modelled. Names and values are joined as given with `=` and `&`.
- RouteGuard.Middleware: the `redirect` query value is not percent-encoded, and URL parsing is reduced to the path string.
- AuthLib.RequestsShareTheGrant: the base64 encoding of the Basic header is not modelled. The header carries the client id and secret as a pair.
- AuthLib.StoreToken: a successful response without `access_token` is not modelled. A granted exchange always carries a token.
- AuthLib.IsAuthenticated: JWT decoding (`jwtDecode`) and `Date.now()` are parameters. A token that does not decode counts as not authenticated.
- debugLogin (frontend/src/lib/auth.ts:84-162) is not modelled. It sends the same two token requests as login but only logs the outcomes and stores nothing.
- The success branch of the response interceptor is not modelled. It passes the response through unchanged.
- The `auth-token` cookie read by the middleware is set by nothing in the code. The model takes its presence as an input.
- Toasts.WithId: ids come from `Math.random()`/`Date.now()`, so the new id is a parameter. The `setTimeout` callback is modelled by returning its delay; RemoveToast is its effect.
- CartContext totals use integer cents rather than JavaScript floating-point numbers. The Java `Double` price is also integer cents.
- AuthLib.ClientId and AuthLib.ClientSecret: the client credentials come from NEXT_PUBLIC_CLIENT_ID and NEXT_PUBLIC_CLIENT_SECRET when the environment sets them (frontend/src/lib/auth.ts:4-5). The model fixes the fallbacks `myclientid` and `myclientsecret`, because the environment is outside the code.
- ProductDtos: `@Size`, `@NotBlank`, `@Positive`, `@NotEmpty` and `@Email` are predicates. `@Email` is a parameter `isEmail`, and `@Size` counts UTF-16 code units as characters.
- ProductCatalog.FindAll: the repository's name search and paging are not modelled. The method takes the page of rows it received.
- ProductCatalog.ProductService.Update: a missing id is modelled as the service's ResourceNotFound with the id in the message. The service catches its own not-found exception around `getReferenceById`. Whether JPA actually raises that exception, or a different one at save time, is library behaviour outside this model.
- OrderPlacement.OrderService.Insert: a missing or null product reference is one outcome, InvalidReference. The service lets the persistence layer report it.
- `@Transactional` boundaries, Hibernate sessions and lazy loading are not modelled. The product delete's integrity violation is a boolean input.
- CategoryDTO, OrderDTO, OrderItemDTO, AuthService and UserService are not part of this model. The category payload is taken to hold an id and a name. `validateSelfOrAdmin` is modelled as "the current user is the client or an administrator", and the current user is a parameter.
- UserDtos.UserDto.WithFields: the constructor assigns `name` to itself. The model keeps that, so `name` stays null. What the authors meant to build from the first and last names is not recoverable, so no corrected version is given.
- Permissions: the `isAdmin` flag that `usePermissions` passes through from the auth context is the corrected AuthProvider.IsAdmin.
- React's render interleaving, effects re-running and concurrent updates are not modelled. Each handler runs to completion against the state it read.
- JSX markup, styling, icons and images are not modelled. The render functions return only what is shown and in which order.
- StatusLabels.GetOrderStatusLabel and OrderCard.GetStatusConfig: the object-literal lookups are map lookups over the five statuses. In JavaScript a status such as `constructor`, `toString` or `__proto__` finds an inherited Object.prototype member instead of falling back, so the label helper returns a function and the badge gets a config without caption or icon. The model treats those strings as unknown statuses.
- AuthContextState.AuthProvider.FetchUser: the answer of the identity call is an input. The corrected methods take it as a parameter, and the as-written ones pass the thrown error, because the user service defines no `getMe`.

## Findings

| source | as written | input that shows it | evidently intended | confidence | as-written member | corrected member |
|---|---|---|---|---|---|---|
| frontend/src/components/CartItem.tsx:17-23 | the quantity and trash handlers pass the cart line's own `id`, which a `{ product, quantity }` line does not have, so the cart's remove and update match no line | a cart with one line of quantity 1 and a press of minus | the line's product id | not executed | CartItemControls.MinusOnOneAsWrittenKeepsLine | CartItemControls.MinusOnOneDeletes |
| frontend/src/app/checkout/page.tsx:48-54 | the order payload reads `id` and `price` from the cart line, which has neither, so every entry has no product and no price | any non-empty cart | the line's product id and product price | not executed | OrderPlacement.AsWrittenCheckoutUnresolvable | OrderPlacement.CheckoutPayloadPlaces |
| frontend/src/lib/auth.ts:188-190 | the role test looks for a role name string inside the user's array of Role objects, so it never succeeds and the context's isAdmin is always false | a user whose one role has authority ROLE_ADMIN | compare against each role's authority | not executed | AuthLib.AdminNotRecognisedAsWritten | AuthContextState.AuthProvider.IsAdmin |
| frontend/src/lib/api.ts:15 | the request interceptor sends the stored token as the whole Authorization value, without the "Bearer " scheme of section 2.1 of RFC 6750 | the stored token `abc` | the value `Bearer abc` | not executed | ApiClient.BareTokenLacksScheme | ApiClient.HeadersWithToken |
| frontend/src/contexts/AuthContext.tsx:29 | fetchUser calls `userService.getMe`, which the user service does not define, so with a stored token the call throws and the catch logs the user out | a granted login in the browser that stores a non-empty token | an identity call that exists, whose answer sets the user | not executed | AuthContextState.AuthProvider.HandleLoginAsWritten | AuthContextState.AuthProvider.HandleLogin |

