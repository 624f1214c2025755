# ShopConnect storefront client, modelled in Dafny

ShopConnect is a React single-page storefront. The client holds the following state:

- a session (the signed-in user, mirrored in the browser's local storage);
- a mirror of the user's server-side cart;
- a current page, chosen by a redirect rule;
- several admin tables that mirror server lists.

The cart and the three admin tables follow one pattern when they write to the server. They send a request. When the request succeeds, they refetch the list they mirror. When it fails, they keep their state. There are exceptions:

- The add-product dialog creates the product, resets its form and closes; it refetches nothing.
- Login and register make one call each and refetch nothing.
- Checkout clears the local cart before it refetches it.

This project models that client, and only the client. The backend is an oracle:

- Each operation that talks to the server takes the server's replies as parameters (`Api.Reply`: a decoded body, or the error the call throws).
- Each such operation returns the sequence of requests it issued (`Api.Request`).
- Every contract is therefore a statement about which calls are made for a session state, in what order, and what state follows from each possible reply.

Structure (all files under `src/`):

- `wrappers`, `api`, `domain`: the Option type, the request and reply vocabulary, and the entities the server sends (users, products, cart lines, orders).
- `sync`: the one "a fetch replaces the list; an absent list reads as empty; a failure keeps the old list" rule, shared by every mirror.
- `text`: the string operations the display code relies on:
  - `toUpperCase` and `toLowerCase` on ASCII letters;
  - `trim` over the ECMAScript white-space set;
  - integer `toString`, with its read-back (round trip);
  - the "n item(s)" label.
- `auth`: the session store (AuthContext) as a class. It holds the user, the stored record and the loading flag, and has restore, login, register and logout. Its invariant: once restored, the in-memory user is always the user a restarted client would read back from storage.
- `cart`: the cart mirror (CartContext) as a class. It has count, total, fetch, add, update, remove, clear and the reaction to a change of user. Its invariant: the lines are empty or exactly the last cart the server returned. It also has lemmas about the total: append, permutation, sign.
- `router`: the redirect rule and render gating of MainApp, and the page state as a class.
- `checkout`: the checkout dialog. It validates the address, builds the order payload, and sequences clear-then-refetch.
- `cart_page`: the cart page view and its quantity steppers.
- `catalog`, `product_card`, `product_modal`: stock badges, the add gate, the star rating, the review cap, and the product dialog's quantity stepper (a class whose invariant keeps the quantity between 1 and the stock).
- `product_form`, `add_product`, `edit_product`, `product_admin`: the admin product forms (records changed one named field at a time) and the admin product table.
- `user_admin`, `order_admin`, `order_display`, `orders_page`: the admin user and order tables, the customer's order list, and the shared order display rules.

Prices, stock counts, quantities and ratings are integers. Every total and line subtotal is exact, and the floor of the average rating is computed exactly.

Two consequences of the code as written are proved as properties:

- The register page cannot be reached without a user, because the redirect effect sends "register" back to "login" (`Router.SettledPageNeverShowsRegister`, `Router.NavigateToRegisterAnonymously`).
- The orders page stays on its loading view when mounted without a user, because its fetch returns before it clears the loading flag (`OrdersPage.MountSignedOut`).

## Model

| member | source | states |
|---|---|---|
| Wrappers.Map | src/components/Admin/ProductManagement.tsx:132 | `xs.map(f)`: one result per element, the i-th being f of the i-th element |
| Sync.Reconciled | src/components/Admin/ProductManagement.tsx:39-54 | A successful fetch sets the list to the server's list, or to empty when the reply has no list; a failed fetch keeps the previous list |
| Sync.SuccessIgnoresLocalState | src/contexts/CartContext.tsx:58 | After a successful fetch the local list no longer matters: any two previous lists give the same result |
| Sync.ReconcileIdempotent | src/contexts/CartContext.tsx:58 | Applying the same fetch reply twice is the same as applying it once |
| Domain.UserIdOf | src/components/Cart/CheckoutModal.tsx:60 | `user?._id` is present exactly when a user is, and is that user's id |
| Text.Upper | src/components/Admin/OrderManagement.tsx:148 | Upper-casing keeps the length and maps each character on its own |
| Text.Lower | src/components/Admin/OrderManagement.tsx:90 | Lower-casing keeps the length and maps each character on its own |
| Text.LowerOfUpper | src/components/Admin/OrderManagement.tsx:89-98 | Lower-casing an upper-cased string gives the same result as lower-casing the original |
| Text.LowerOfLowerCase | src/components/Admin/OrderManagement.tsx:90 | A string with no upper-case letter is its own lower-case form |
| Text.LowerIdempotent | src/components/Orders/OrdersPage.tsx:58 | Lower-casing twice is lower-casing once |
| Text.UpperIdempotent | src/components/Orders/OrdersPage.tsx:113 | Upper-casing twice is upper-casing once |
| Text.TrimStart | src/components/Cart/CheckoutModal.tsx:47 | Removes exactly the leading white space and keeps the rest |
| Text.TrimEnd | src/components/Cart/CheckoutModal.tsx:47 | Removes exactly the trailing white space and keeps the rest |
| Text.Trim | src/components/Cart/CheckoutModal.tsx:47 | `trim()`: the result is empty or neither starts nor ends with white space; it is empty exactly for blank text (`Text.TrimEmptyIffBlank`) and is a contiguous part of the input (`Text.TrimIsInfix`) |
| Text.TrimEmptyIffBlank | src/components/Cart/CheckoutModal.tsx:47 | `trim()` yields the empty string exactly when every character is white space |
| Text.TrimIsInfix | src/components/Cart/CheckoutModal.tsx:47 | The trimmed text is a contiguous part of the original, and the prefix and suffix it drops are all white space |
| Text.NatToString | src/components/Admin/EditProductModal.tsx:51 | The decimal text of a natural number has at least one digit, only digits, and no leading zero unless it is "0" |
| Text.NatToStringValue | src/components/Admin/EditProductModal.tsx:51 | The digits of n read back as n |
| Text.IntToString | src/components/Admin/EditProductModal.tsx:51-55 | `toString()` of an integer is a decimal numeral that reads back as the same integer |
| Text.CountLabel | src/components/Cart/CartPage.tsx:50 | The label is a numeral that reads back as the count, a space, then "item" exactly when the count is 1 and "items" otherwise |
| Auth.Reload | src/contexts/AuthContext.tsx:42-49 | A restarted client gets a user only from a truthy stored record that parses; an absent or empty record gives no user |
| Auth.IsAdmin | src/contexts/AuthContext.tsx:120 | `isAdmin` holds only when a user is present, and then exactly when that user's admin flag is set |
| Auth.SessionStore.constructor | src/contexts/AuthContext.tsx:36-37 | Starts with no user, loading, and storage as the previous run left it |
| Auth.SessionStore.Restore | src/contexts/AuthContext.tsx:40-51 | A record that parses sets the user; a corrupt record is removed and leaves no user; an empty record is ignored; loading ends |
| Auth.SessionStore.Login | src/contexts/AuthContext.tsx:53-78 | One login call. Success holds exactly when the reply carries a user; that user is then set and persisted. Otherwise user and record are unchanged. The invariant is kept and loading ends |
| Auth.SessionStore.Register | src/contexts/AuthContext.tsx:80-103 | One register call. Never changes the user or the record. Succeeds exactly when the reply carries a user |
| Auth.SessionStore.Logout | src/contexts/AuthContext.tsx:105-108 | No user and no stored record afterwards, whatever the state before |
| Auth.Restart | src/contexts/AuthContext.tsx:40-51 | A client restarted over the same storage has the same user as the running one |
| Auth.LoginThenRestart | src/contexts/AuthContext.tsx:58-60 | A successful login survives a restart |
| Cart.LineAmount | src/contexts/CartContext.tsx:50 | A line's amount is price × quantity: the unit price for quantity 1, non-negative for non-negative price and quantity |
| Cart.Total | src/contexts/CartContext.tsx:50 | The reduce over the lines: 0 for no lines, the line's amount for one; its other properties are the lemmas `Cart.TotalAppend`, `Cart.TotalRemoveAt`, `Cart.TotalPermutation` and `Cart.TotalNonNegative` |
| Cart.TotalAppend | src/contexts/CartContext.tsx:50 | The total of two concatenated carts is the sum of their totals |
| Cart.TotalRemoveAt | src/contexts/CartContext.tsx:50 | Removing one line lowers the total by exactly that line's amount |
| Cart.MultisetRemoveAt | src/contexts/CartContext.tsx:50 | Removing one line removes exactly that line from the cart's multiset |
| Cart.TotalPermutation | src/contexts/CartContext.tsx:50 | The total does not depend on the order of the lines |
| Cart.TotalNonNegative | src/contexts/CartContext.tsx:50 | With non-negative prices and quantities the total is non-negative |
| Cart.FetchCalls | src/contexts/CartContext.tsx:52-57 | A fetch issues one cart request for a signed-in user and nothing otherwise |
| Cart.Fetched | src/contexts/CartContext.tsx:52-64 | Without a signed-in user, or after a failed call, the lines stay; otherwise they become the server's cart (empty when absent) |
| Cart.CartMirror.constructor | src/contexts/CartContext.tsx:44-45 | Starts with no lines and not loading |
| Cart.CartMirror.CartCount | src/contexts/CartContext.tsx:49 | The count is the number of lines, and is zero exactly for an empty cart |
| Cart.CartMirror.TotalAmount | src/contexts/CartContext.tsx:50 | The total of an empty cart is 0, and is non-negative for non-negative prices and quantities |
| Cart.CartMirror.Fetch | src/contexts/CartContext.tsx:52-64 | Issues the fetch calls for the session and leaves the fetched lines. Loading ends when a fetch was made and is otherwise unchanged. The mirror invariant is kept, and a successful fetch becomes the last server cart |
| Cart.CartMirror.Add | src/contexts/CartContext.tsx:66-90 | Without a signed-in user: no call and nothing changes. Otherwise one add call; only a successful add is followed by the refetch, and a failed add keeps the lines. Loading ends after the refetch and is otherwise unchanged |
| Cart.CartMirror.Update | src/contexts/CartContext.tsx:92-107 | The update call is made with or without a user. Only success is followed by the session-guarded refetch; failure keeps the lines. Loading ends after a refetch and is otherwise unchanged |
| Cart.CartMirror.Remove | src/contexts/CartContext.tsx:109-124 | The delete call is made with or without a user. Only success is followed by the session-guarded refetch; failure keeps the lines. Loading ends after a refetch and is otherwise unchanged |
| Cart.CartMirror.Clear | src/contexts/CartContext.tsx:126-128 | Empties the lines with no server call |
| Cart.CartMirror.SessionChanged | src/contexts/CartContext.tsx:130-136 | A change to a signed-in user fetches that user's cart; a change to no user empties the cart. Loading ends after a fetch and is otherwise unchanged |
| Cart.LogoutEmptiesCart | src/contexts/CartContext.tsx:130-136 | After logout the session has no user and the cart is empty |
| Router.Redirect | src/pages/MainApp.tsx:15-25 | The effect leaves the page, or, once loading is over, sends it to "login" or "products"; the exact rule is stated by the `Router.Redirect*` lemmas below |
| Router.RedirectAnonymous | src/pages/MainApp.tsx:17-18 | With no user and loading over, every page becomes "login", including "register" |
| Router.RedirectSignedIn | src/pages/MainApp.tsx:19-23 | With a user and loading over, "login" and "register" become "products" and every other page stays |
| Router.RedirectWhileLoading | src/pages/MainApp.tsx:15-25 | While loading, the page is left alone |
| Router.RedirectIdempotent | src/pages/MainApp.tsx:15-25 | Re-running the effect after its own redirect changes nothing |
| Router.RedirectFixedPoints | src/pages/MainApp.tsx:15-25 | The pages the redirect leaves unchanged: all pages while loading, "login" with no user, and everything but the two auth pages with a user |
| Router.Render | src/pages/MainApp.tsx:31-67 | The signed-in layout renders only after loading, only for a user, and on the current page; the dashboard in it only for an admin. The exact gating is stated by `Router.AdminGate`, `Router.AnonymousForms` and `Router.LoadingScreenOnlyWhileLoading` |
| Router.AdminGate | src/pages/MainApp.tsx:59-67 | The admin dashboard renders exactly on "admin" for an admin; a signed-in non-admin gets access denied there |
| Router.AnonymousForms | src/pages/MainApp.tsx:43-48 | With no user, the register form renders exactly on "register" and the login form on every other page |
| Router.LoadingScreenOnlyWhileLoading | src/pages/MainApp.tsx:31-40 | The loading screen renders exactly while loading |
| Router.SettledPageNeverShowsRegister | src/pages/MainApp.tsx:17-45 | Once the redirect has settled, the register form never renders |
| Router.SettledShellPages | src/pages/MainApp.tsx:43-53 | Once the redirect has settled, the signed-in layout renders only for a user and never on an auth page |
| Router.App.constructor | src/pages/MainApp.tsx:12 | The first page is "products" |
| Router.App.RedirectEffect | src/pages/MainApp.tsx:15-25 | The new page is the redirect of the old page for the current session |
| Router.App.Navigate | src/pages/MainApp.tsx:27-29 | The page becomes exactly the page asked for |
| Router.App.View | src/pages/MainApp.tsx:31-67 | The loading screen exactly while the session loads; the signed-in layout only for a present user, on the current page |
| Router.NavigateToRegisterAnonymously | src/pages/MainApp.tsx:17-29 | Navigating to "register" with no user ends on the login form once the effect has run |
| Checkout.OrderFor | src/components/Cart/CheckoutModal.tsx:59-64 | The order is the user's id, the chosen payment mode, the address as typed, and status "pending" (no items, no total) |
| Checkout.CheckoutModal.constructor | src/components/Cart/CheckoutModal.tsx:39-41 | Payment mode starts as "cod", the address starts empty, and loading is off |
| Checkout.CheckoutModal.SetShippingAddress | src/components/Cart/CheckoutModal.tsx:135 | The address text area's change sets the address to the typed text and changes nothing else |
| Checkout.CheckoutModal.SetPaymentMode | src/components/Cart/CheckoutModal.tsx:152 | The radio group's change sets the payment mode and changes nothing else |
| Checkout.CheckoutModal.PlaceOrder | src/components/Cart/CheckoutModal.tsx:46-86 | A blank address makes no call and changes nothing. Otherwise the order is sent. Success clears the cart, refetches it, and closes. Failure leaves the cart unchanged and does not close, with exactly one call. Because the clear comes first, a failed refetch leaves the cart empty. The dialog's loading ends off; the cart's loading ends off after its refetch and is otherwise unchanged |
| Checkout.BlankAddressRefused | src/components/Cart/CheckoutModal.tsx:47-54 | Placing an order with an address of white space only makes no call, does not close, and keeps the cart |
| CartPage.DecrementAction | src/components/Cart/CartPage.tsx:89-90 | Minus is enabled exactly above quantity 1, and then asks for a lower quantity that is still at least 1 |
| CartPage.IncrementAction | src/components/Cart/CartPage.tsx:100-101 | Plus is enabled exactly below the stock, and then asks for a higher quantity that is at most the stock |
| CartPage.SteppersKeepBounds | src/components/Cart/CartPage.tsx:89-101 | For a line within 1 and its stock, every enabled stepper asks for a quantity within those bounds |
| CartPage.Lines | src/components/Cart/CartPage.tsx:66-125 | One card per line in order, with subtotal price × quantity, the two stepper actions, and the delete request |
| CartPage.SubtotalsAddUp | src/components/Cart/CartPage.tsx:125-143 | The line subtotals add up to the cart total the summary shows |
| CartPage.Render | src/components/Cart/CartPage.tsx:15-156 | Loading first, the empty view exactly for no lines, otherwise the count label, exactly the cards `CartPage.Lines` gives for the lines, and a summary whose subtotal and total equal the cart total with tax 0 |
| CartPage.CartPageOf | src/components/Cart/CartPage.tsx:11-26 | The page read from the cart mirror: loading exactly while the mirror loads, empty exactly for no lines, otherwise the mirror's lines and its total |
| Catalog.BadgesExclusive | src/components/Products/ProductCard.tsx:44-53 | "Low Stock" shows exactly for stock 1 to 9 and "Out of Stock" exactly for 0, never both |
| Catalog.LowStock | src/components/Products/ProductCard.tsx:44 | No contract of its own: the badge condition `0 < stock < 10`, characterised by `Catalog.BadgesExclusive` |
| Catalog.OutOfStock | src/components/Products/ProductCard.tsx:49 | No contract of its own: the badge condition `stock === 0`, characterised by `Catalog.BadgesExclusive` |
| Catalog.AddDisabled | src/components/Products/ProductCard.tsx:123 | No contract of its own: the add button is disabled at stock 0, stated by `ProductCard.Card` and `ProductModal.View` |
| Catalog.IsActive | src/components/Admin/ProductManagement.tsx:157-159 | A product is active unless its flag is exactly false, so a missing flag counts as active |
| Catalog.AverageFloor | src/components/Products/ProductModal.tsx:35-95 | 0 without reviews; otherwise the floor of the mean rating |
| Catalog.StarPrefix | src/components/Products/ProductModal.tsx:91-95 | k stars, where star i is filled exactly when i is below the bound |
| Catalog.StarPrefixCount | src/components/Products/ProductCard.tsx:83-87 | k stars have the bound, clamped to 0..k, filled |
| Catalog.FilledStars | src/components/Products/ProductCard.tsx:83-87 | Five stars with the bound, clamped to 0..5, filled |
| Catalog.ProductStars | src/components/Products/ProductCard.tsx:32-87 | Five stars, filled below the average's floor; the filled count is that floor clamped to 0..5; none filled without reviews |
| ProductCard.Card | src/components/Products/ProductCard.tsx:44-123 | The card's badges, stars, review count, and add button disabled exactly at stock 0 |
| ProductCard.AddToCart | src/components/Products/ProductCard.tsx:28-30 | The card always asks for quantity 1 of its product, with the cart's user guard. Only a successful add is followed by the cart's refetch call; the lines and the cart's loading flag follow as for the cart's own add |
| ProductModal.ListedReviews | src/components/Products/ProductModal.tsx:180 | The first three reviews, or all of them when there are fewer |
| ProductModal.ReviewStarRow | src/components/Products/ProductModal.tsx:184-188 | Five stars for a listed review, filled exactly below its own rating |
| ProductModal.View | src/components/Products/ProductModal.tsx:69-180 | The dialog's badges, stars, add gate and at most three listed reviews |
| ProductModal.ProductDialog.constructor | src/components/Products/ProductModal.tsx:27 | The quantity starts at 1 |
| ProductModal.ProductDialog.Increment | src/components/Products/ProductModal.tsx:39-43 | Adds one only while below the stock, so the quantity changes exactly when the plus button is enabled; keeps the quantity between 1 and max(1, stock) |
| ProductModal.ProductDialog.Decrement | src/components/Products/ProductModal.tsx:45-49 | Removes one only while above 1, so the quantity changes exactly when the minus button is enabled; keeps the same bounds |
| ProductModal.ProductDialog.DecrementDisabled | src/components/Products/ProductModal.tsx:134 | No contract of its own: the minus button's `disabled`; `ProductModal.ProductDialog.Decrement` states that pressing changes the quantity exactly when it is not disabled |
| ProductModal.ProductDialog.IncrementDisabled | src/components/Products/ProductModal.tsx:145 | No contract of its own: the plus button's `disabled`; `ProductModal.ProductDialog.Increment` states that pressing changes the quantity exactly when it is not disabled |
| ProductModal.ProductDialog.DisplayedTotal | src/components/Products/ProductModal.tsx:151 | The displayed total is at least the unit price for a valid quantity |
| ProductModal.ProductDialog.AddToCart | src/components/Products/ProductModal.tsx:30-33 | Adds the chosen quantity through the cart: the add call, then the refetch call only after success, with lines and loading flag as for the cart's own add. The dialog closes whatever the add does |
| ProductModal.PressSteppers | src/components/Products/ProductModal.tsx:39-145 | Any sequence of presses keeps the quantity between 1 and max(1, stock) |
| ProductForm.FieldNamed | src/components/Admin/EditProductModal.tsx:121-183 | An input name designates a field only when it is that field's name |
| ProductForm.FieldNamesRoundTrip | src/components/Admin/AddProductModal.tsx:95-158 | Each field's input name leads back to that field |
| ProductForm.FieldNamesDistinct | src/components/Admin/AddProductModal.tsx:95-158 | Two fields have the same input name exactly when they are the same field |
| ProductForm.Set | src/components/Admin/EditProductModal.tsx:92-97 | The named field takes the value and every other field is kept |
| ProductForm.SetOwnValue | src/components/Admin/AddProductModal.tsx:73-78 | Writing back a field's own value changes nothing |
| ProductForm.SetOverrides | src/components/Admin/AddProductModal.tsx:73-78 | A second write to the same field overrides the first |
| ProductForm.SetsCommute | src/components/Admin/AddProductModal.tsx:73-78 | Writes to different fields commute |
| ProductForm.Blank | src/components/Admin/AddProductModal.tsx:52-59 | Every field of the reset form is empty |
| ProductForm.PayloadOf | src/components/Admin/AddProductModal.tsx:37-42 | The payload carries each form text in its own field, plus the given active flag |
| AddProduct.AddProductDialog.HandleChange | src/components/Admin/AddProductModal.tsx:73-78 | Only the named field changes |
| AddProduct.AddProductDialog.constructor | src/components/Admin/AddProductModal.tsx:18-26 | Starts with every field empty and not loading |
| AddProduct.AddProductDialog.HandleSubmit | src/components/Admin/AddProductModal.tsx:30-71 | Without a signed-in user nothing happens. Otherwise one create call with the form and active set to true; success resets the form and closes; failure keeps the form; loading ends |
| EditProduct.FormFor | src/components/Admin/EditProductModal.tsx:47-58 | The form copies the product field by field. Price and stock become numerals that read back as the product's numbers. The switch is on unless the product is explicitly inactive |
| EditProduct.EditProductDialog.constructor | src/components/Admin/EditProductModal.tsx:47-58 | Opening on a product fills the form from it |
| EditProduct.EditProductDialog.HandleChange | src/components/Admin/EditProductModal.tsx:92-97 | Only the named text field changes; the switch is kept |
| EditProduct.EditProductDialog.HandleSwitchChange | src/components/Admin/EditProductModal.tsx:99-104 | Only the active flag changes |
| EditProduct.EditProductDialog.HandleSubmit | src/components/Admin/EditProductModal.tsx:61-90 | One update call with the form. The updated callback fires exactly on success. Loading ends off either way |
| EditProduct.SaveUnedited | src/components/Admin/EditProductModal.tsx:47-73 | Saving an untouched form sends back the product's own name, price, stock and active state |
| ProductAdmin.RowOf | src/components/Admin/ProductManagement.tsx:150-159 | The stock badge is the default style exactly above 10; the status badge and label say "Active" unless the flag is exactly false |
| ProductAdmin.Table | src/components/Admin/ProductManagement.tsx:92-117 | Loading first, "No products found" exactly for an empty list, rows otherwise |
| ProductAdmin.ProductManagement.constructor | src/components/Admin/ProductManagement.tsx:33-36 | Starts with no products, nothing selected, the editor closed, and loading |
| ProductAdmin.ProductManagement.Fetch | src/components/Admin/ProductManagement.tsx:39-54 | One products call; the list follows the fetch rule; loading ends |
| ProductAdmin.ProductManagement.Delete | src/components/Admin/ProductManagement.tsx:65-84 | Declined: no call and nothing changes. Accepted delete: a refetch follows. Refused delete: the list is kept and there is no refetch |
| ProductAdmin.ProductManagement.Edit | src/components/Admin/ProductManagement.tsx:60-63 | Selects the product and opens the editor |
| ProductAdmin.ProductManagement.CloseEditor | src/components/Admin/ProductManagement.tsx:194-197 | Closes the editor and clears the selection |
| ProductAdmin.ProductManagement.ProductUpdated | src/components/Admin/ProductManagement.tsx:86-90 | Refetches, closes the editor and clears the selection; loading ends off |
| ProductAdmin.ProductManagement.View | src/components/Admin/ProductManagement.tsx:92-117 | The loading view exactly while loading; "No products found" exactly for a settled empty list; otherwise one row per product, in order, through `ProductAdmin.RowOf` |
| UserAdmin.ContactOf | src/components/Admin/UserManagement.tsx:123-130 | The contact shows exactly when present and non-zero; otherwise "Not provided" |
| UserAdmin.RowOf | src/components/Admin/UserManagement.tsx:133-163 | "Admin" exactly for admins; "Blocked" and an "Unblock" button exactly for blocked users |
| UserAdmin.ToggleNotice | src/components/Admin/UserManagement.tsx:60 | The notice says "blocked" exactly when the user was unblocked before |
| UserAdmin.UserManagement.constructor | src/components/Admin/UserManagement.tsx:29-30 | Starts with no users and loading |
| UserAdmin.UserManagement.Fetch | src/components/Admin/UserManagement.tsx:33-48 | One users call; the list follows the fetch rule; loading ends |
| UserAdmin.UserManagement.ToggleBlock | src/components/Admin/UserManagement.tsx:54-69 | Sends the negation of the current flag. Success refetches and gives the notice. Failure makes no refetch, keeps the list, and gives no success notice |
| UserAdmin.UserManagement.View | src/components/Admin/UserManagement.tsx:71-96 | Loading first, "No users found" exactly for an empty list, rows otherwise |
| UserAdmin.PressRowButton | src/components/Admin/UserManagement.tsx:148-163 | The row button asks for the state its label names: "Block" sends true and "Unblock" sends false |
| OrderDisplay.StatusColor | src/components/Admin/OrderManagement.tsx:89-98 | Warning exactly for a lower-cased "pending", success exactly for "completed", muted otherwise |
| OrderDisplay.StatusColorIgnoresCase | src/components/Orders/OrdersPage.tsx:57-66 | Upper-casing a status does not change its colour |
| OrderDisplay.PaymentModeDisplay | src/components/Admin/OrderManagement.tsx:100-102 | "Cash on Delivery" exactly for the mode "cod", "Online Payment" for anything else |
| OrderDisplay.StatusDisplay | src/components/Orders/OrdersPage.tsx:128 | Same length; the first character is upper-cased and the rest is unchanged; the empty status stays empty |
| OrderDisplay.StatusDisplayKeepsColor | src/components/Admin/OrderManagement.tsx:176-177 | The capitalised status has the same colour as the stored one |
| OrderDisplay.OrderIdDisplay | src/components/Orders/OrdersPage.tsx:113 | The last eight characters (all of a shorter id), upper-cased |
| OrderDisplay.OrderIdDisplayIdempotent | src/components/Admin/OrderManagement.tsx:148 | Displaying a displayed number again changes nothing |
| OrderDisplay.OrderIdDisplaySuffix | src/components/Admin/OrderManagement.tsx:148 | Ids that end in the same eight characters display the same |
| OrderDisplay.StatusOptionsColored | src/components/Admin/OrderManagement.tsx:195-196 | Both offered statuses have their own colour, not the muted fallback |
| OrderDisplay.StatusOptionsLabels | src/components/Admin/OrderManagement.tsx:195-196 | The offered statuses display as their selector labels, "Pending" and "Completed" |
| OrderDisplay.LineSubtotal | src/components/Orders/OrdersPage.tsx:164 | Quantity 1 gives the unit price; non-negative price and quantity give a non-negative subtotal |
| OrderDisplay.CustomerName | src/components/Admin/OrderManagement.tsx:154 | The customer's name, or "Unknown" when the customer is missing or the name is empty |
| OrderDisplay.CustomerEmail | src/components/Admin/OrderManagement.tsx:157 | The customer's email, or "No email" when the customer is missing or the email is empty |
| OrderAdmin.RowOf | src/components/Admin/OrderManagement.tsx:147-198 | Each cell through the shared display rules, the payment cell included, with the two status options |
| OrderAdmin.OrderManagement.constructor | src/components/Admin/OrderManagement.tsx:47-48 | Starts with no orders and loading |
| OrderAdmin.OrderManagement.Fetch | src/components/Admin/OrderManagement.tsx:51-66 | One all-orders call; the list follows the fetch rule; loading ends |
| OrderAdmin.OrderManagement.UpdateStatus | src/components/Admin/OrderManagement.tsx:72-87 | One update call. Success is followed by a refetch; failure keeps the list |
| OrderAdmin.OrderManagement.View | src/components/Admin/OrderManagement.tsx:104-129 | Loading first, "No orders found" exactly for an empty list, rows otherwise |
| OrderAdmin.ChooseOption | src/components/Admin/OrderManagement.tsx:187-197 | The selector can only send "pending" or "completed", and either is shown in colour |
| OrdersPage.LineViews | src/components/Orders/OrdersPage.tsx:147-169 | One entry per ordered line, with its name, quantity, unit price and subtotal |
| OrdersPage.CardOf | src/components/Orders/OrdersPage.tsx:108-201 | The shared display rules, with the server's total, the count label, the line views of `OrdersPage.LineViews` with their subtotals, the address, and a delivery block exactly for a truthy delivery date |
| OrdersPage.OrderList.constructor | src/components/Orders/OrdersPage.tsx:35-36 | Starts with no orders and loading |
| OrdersPage.OrderList.Fetch | src/components/Orders/OrdersPage.tsx:39-51 | Without a signed-in user: no call and nothing changes, not even loading. Otherwise one call for the user's orders; the list follows the fetch rule; loading ends |
| OrdersPage.OrderList.View | src/components/Orders/OrdersPage.tsx:72-97 | Loading first, "No orders yet" exactly for an empty list, the cards otherwise |
| OrdersPage.MountSignedOut | src/components/Orders/OrdersPage.tsx:36-55 | Mounted without a signed-in user, the page stays on its loading view |

## Left out

- Transport: URLs, headers, the bearer token, HTTP status handling and response decoding in `src/services/api.ts` are not modelled. Each call is a `Request` value and its outcome a `Reply` parameter.
- Concurrency: calls run one at a time, in the order written. Interleavings of un-awaited calls are not modelled. Examples are the product dialog closing before its add finishes, and the product table's refetch after an edit.
- Toasts, `console.error`, icons, CSS classes and the JSX layout are not modelled. A success or failure toast appears only where it shows which branch was taken, as `UserAdmin.UserManagement.ToggleBlock`'s notice.
- Dates: `toLocaleDateString` and the server's date strings are kept as opaque strings.
- Number formatting: `toLocaleString` of prices is not modelled. `Text.IntToString` models `toString` of an integer only; floats and exponent notation are not modelled.
- Number parsing: `parseFloat` and `parseInt` of the product forms' price and stock are not modelled. The `ProductPayload` carries the form texts. `Text.NumeralValue` reads back only what integer `toString` writes.
- Numbers: prices and ratings are integers. Fractional prices and fractional average ratings are not modelled. With integer ratings, the floor of the average in `Catalog.AverageFloor` is exact.
- Text: `Text.Upper` and `Text.Lower` map ASCII letters only. Unicode case mapping, including characters whose case changes the length, is not modelled.
- JSON: `JSON.parse` and `JSON.stringify` are parameters of the session store. They are assumed only to satisfy `Auth.FaithfulCodec`. The stored value is not checked to be a well-formed user.
- Auth.SessionStore.Login: local storage writes are assumed never to throw. In the source the user is set before `localStorage.setItem`, so a throwing write (quota, disabled storage) would return false with the user already set; the model's `!ok ==> user == old(user)` does not cover that path.
- Auth.SessionStore.Restore: local storage reads and removals are assumed never to throw.
- Auth.SessionStore.Login: requires the restore to have run. This holds in the application, because the login form renders only once loading has ended.
- window.confirm: the delete confirmation is a boolean parameter of `ProductAdmin.ProductManagement.Delete`.
- Form inputs: `handleChange` takes a `ProductForm.Field`. Every input of the two product forms carries one of the six field names. The JavaScript behaviour of writing an arbitrary key is not modelled.
- AddProduct.AddProductDialog.HandleSubmit: closing the dialog is the `closed` result; the parent's state is not modelled.
- The login and registration forms, the product list page, the header, `AdminDashboard` and the UI component library are not part of this model.
