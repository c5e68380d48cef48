# Storefront cart and identity model

This project is a Dafny model of the client-side core of an Angular storefront
that sells through Firebase. It covers five parts:

- **The cart synchroniser** (`CartService`). It keeps one published cart
  (`cart$`). For a guest, the cart lives under the `guest_cart` key of local
  storage. For a signed-in user, it lives in the `users/{uid}/cart`
  collection, keyed by productId. At sign-in the guest cart is merged into
  that collection, the guest cart is cleared, and a live watch on the
  collection feeds `cart$`.
- **The identity service** (`AuthService`). It holds the current user.
  Sign-up, sign-in, sign-out and profile edits move that user. It maps
  Firebase error codes to fixed messages.
- **The two route guards.**
  - The sign-in guard passes any signed-in user.
  - The role guard passes only the role a route asks for, and otherwise
    redirects: to the login page, the admin dashboard or the home page.
- **The header.** It shows the cart badge (the number of units in the cart)
  and the user name, and it handles the sidebar and account menu.
- **The sign-up form.** It covers password confirmation, submission and the
  error messages it shows.

Each external call (Firestore reads and writes, Firebase Auth) is a
parameter of type `Result<T>`. The call either resolves with a value or throws a
`ThrownError(code, message)`; an error built as `new Error(msg)` has the code
"". The model therefore covers every way the calls can settle. Router
navigation is returned as the path the component asks for.

Modules:

- `Common`: shared wrappers.
- `UserModel`: the account record.
- `Cart`:
  - guest-cart functions and lemmas;
  - the remote merge and its lemmas;
  - class `CartService`.
- `Auth`: class `AuthService`.
- `AuthGuard` and `RoleGuard`: the two guards.
- `Header`: class `HeaderComponent`.
- `Register`: class `RegisterComponent`.

The cart invariant `CartService.Consistent` has two parts: the guest cart has
at most one line per productId, and every remote document is stored under
its own productId. Every cart operation preserves it.

Two behaviours of the cart code are easy to miss. The model keeps the second
as written; the first is left out:

- `getGuestCart` has no fallback. A corrupt stored blob makes `JSON.parse`
  throw. The model holds the guest cart as an already-parsed list, so it
  cannot represent that case (see Left out).
- Quantities are never checked to be at least 1:
  - `updateQuantity` stores any number, zero and negatives included
    (`SetGuestQuantityAt`);
  - the login merge overwrites remote quantities rather than adding to them,
    although the comment at cart.service.ts:89 says "increment"
    (`MergeOverwritesQuantity`).

## Model

| member | source | states |
|---|---|---|
| UserModel.RoleName | src/app/models/user.model.ts:8 | A role is stored as "admin" exactly for Admin and as "customer" exactly for Customer |
| Cart.FirstIndex | src/app/services/cart.service.ts:109 | `cart.find` finds the first line with the productId. It finds nothing exactly when no line has that productId |
| Cart.Without | src/app/services/cart.service.ts:136 | The filter keeps exactly the lines whose productId differs, and no line with the removed productId remains |
| Cart.AddGuestBumpsExisting | src/app/services/cart.service.ts:109-111 | Adding a product already in the guest cart raises its first line by exactly one unit. The length and every other line stay the same |
| Cart.AddGuestAppendsNew | src/app/services/cart.service.ts:97-114 | Adding a new product appends one line with quantity 1, whatever quantity the caller passed |
| Cart.AddGuestKeepsUnique | src/app/services/cart.service.ts:108-115 | A guest add keeps at most one line per productId, and the product is in the cart afterwards |
| Cart.AddGuestAddsOneUnit | src/app/services/cart.service.ts:102-115 | Every guest add raises the cart's total units by exactly one |
| Cart.AddGuestTwice | src/app/services/cart.service.ts:108-115 | Adding one product twice to an empty guest cart gives a single line of two units |
| Cart.SetGuestQuantityAt | src/app/services/cart.service.ts:124-127 | The first matching line gets exactly the given quantity, zero and negatives included. No line is removed and the other lines are unchanged |
| Cart.SetGuestQuantityAbsent | src/app/services/cart.service.ts:124-127 | Setting the quantity of a productId that is not in the cart leaves the cart unchanged |
| Cart.SetGuestQuantityKeepsUnique | src/app/services/cart.service.ts:124-127 | Setting a quantity keeps at most one line per productId |
| Cart.WithoutAbsent | src/app/services/cart.service.ts:136 | Removing a productId that is not in the guest cart changes nothing |
| Cart.WithoutKeepsOrder | src/app/services/cart.service.ts:136 | Removal keeps the remaining lines in order: it distributes over concatenation |
| Cart.WithoutKeepsUnique | src/app/services/cart.service.ts:136 | Removal keeps at most one line per productId |
| Cart.MergeSnoc | src/app/services/cart.service.ts:43-45 | Each further step of the merge loop overwrites exactly one document, the one at its item's productId |
| Cart.MergeKeys | src/app/services/cart.service.ts:40-46 | After the merge, the collection holds its old documents plus one per merged productId, and no others |
| Cart.MergeKeepsOthers | src/app/services/cart.service.ts:43-45 | A remote document whose productId the guest cart does not mention survives the merge unchanged |
| Cart.MergeLastWins | src/app/services/cart.service.ts:86-91 | At each productId, the last guest line with that productId is what the collection holds |
| Cart.MergeKeepsKeyed | src/app/services/cart.service.ts:86-91 | The merge keeps every document stored under its own productId |
| Cart.MergeCarriesGuestCart | src/app/services/cart.service.ts:40-46 | Merging a guest cart with one line per productId stores every guest line, with the guest's quantity, at its productId. All other documents are kept |
| Cart.MergeOverwritesQuantity | src/app/services/cart.service.ts:89-90 | A remote line of 5 units merged with a guest line of 3 holds 3, not 8: the write replaces the quantity |
| Cart.CartService.constructor | src/app/services/cart.service.ts:28-34 | `cart$` starts empty, no user is cached and no collection is watched |
| Cart.CartService.SaveGuestCart | src/app/services/cart.service.ts:68-71 | The list is stored and the same list is published. Nothing else changes |
| Cart.CartService.ClearGuestCart | src/app/services/cart.service.ts:73-76 | The stored list is removed and the empty cart is published |
| Cart.CartService.UserId | src/app/services/cart.service.ts:81-84 | Gives the cached uid exactly when a user is cached, and otherwise the 'User not logged in' error |
| Cart.CartService.AddToFirestoreCart | src/app/services/cart.service.ts:86-91 | Signed in, the item is written over the document at its productId and only that user's collection changes. With no user or a refused write, nothing is stored and the call rejects |
| Cart.CartService.OnAuthState | src/app/services/cart.service.ts:36-57 | Sign-in merges the guest lines in order. If every write succeeds, the guest cart is cleared, the empty cart is published and the collection is watched. At the first refused write the merge stops: earlier writes stay, and the guest cart, `cart$` and the watches are untouched. Sign-out republishes the guest cart. Consistency is preserved |
| Cart.MergedDocumentOrigin | src/app/services/cart.service.ts:40-46 | With a keyed collection and a guest cart of one line per productId, each document after the merge is a guest line, or a remote document whose productId no guest line has |
| Cart.KeyedListingHasNoRepeats | src/app/services/cart.service.ts:49-52 | When every document is stored under its own productId, a listing of the collection shows each document exactly once |
| Cart.ListingAfterMerge | src/app/services/cart.service.ts:40-52 | A listing of the collection after a full merge (what the watch then publishes) shows every guest line and every remote document the guest cart did not mention. It shows nothing else |
| Cart.CartService.OnRemoteCart | src/app/services/cart.service.ts:49-52 | For a watched collection, the published cart is a listing of the documents the store holds, in the store's order: as many entries as documents, and exactly the stored documents. Under `Consistent()` every document is keyed by its own productId, and then the published cart has no repeated entry. A snapshot of an unwatched collection is ignored |
| Cart.CartService.AddToCart | src/app/services/cart.service.ts:96-117 | Always exactly one unit. Signed in, the one-unit item overwrites the remote document. As a guest, the cart becomes `AddGuest` of the old cart and is published. Consistency is preserved |
| Cart.CartService.UpdateQuantity | src/app/services/cart.service.ts:119-129 | Signed in, only the quantity of an existing document changes. As a guest, the first matching line gets the quantity, and the cart is saved and republished even when nothing matched |
| Cart.CartService.RemoveFromCart | src/app/services/cart.service.ts:131-139 | Signed in, the document at the productId is deleted from that user's collection only. As a guest, the other lines stay, in order |
| Cart.CartService.ClearCart | src/app/services/cart.service.ts:141-153 | Signed in, every listed document is deleted. Exactly the refused ones remain, and the call rejects exactly when one was refused, with a refused delete's error. As a guest, the cart is emptied |
| Auth.GetUserData | src/app/core/services/auth.service.ts:53-74 | Gives the stored record exactly when the document exists with a non-empty uid and email. Otherwise null, including when the read fails |
| Auth.ErrorMessage | src/app/core/services/auth.service.ts:76-95 | Each of the seven recognised codes gets its fixed message. Any other error gets its own message, or the generic one when that is empty. Never empty |
| Auth.Rethrown | src/app/core/services/auth.service.ts:118-121 | A caught error is rethrown as a new error with no code, carrying the mapped message |
| Auth.NewCustomer | src/app/core/services/auth.service.ts:105-112 | A new account's record is a customer with the credential's uid and the given display name. Its e-mail is the credential's, or the typed one when the credential has none |
| Auth.AuthService.constructor | src/app/core/services/auth.service.ts:26-27 | The service starts with no current user |
| Auth.AuthService.OnFirebaseUser | src/app/core/services/auth.service.ts:32-47 | A sign-out event clears the current user. A sign-in event sets it to the looked-up record, or to null when there is no valid record |
| Auth.AuthService.Register | src/app/core/services/auth.service.ts:97-122 | Sets the current user to the new customer record only when creation, profile and record write all succeed. Otherwise it rejects with the mapped message of the first failure and leaves the current user alone |
| Auth.AuthService.Login | src/app/core/services/auth.service.ts:124-140 | Succeeds exactly with a valid stored record, which becomes the current user. Otherwise it rejects, with 'User data not found' when the record is missing or invalid, and the current user is kept |
| Auth.AuthService.Logout | src/app/core/services/auth.service.ts:142-150 | A successful sign-out clears the current user. A failed one keeps it and rejects with the fixed message |
| Auth.AuthService.ResetPassword | src/app/core/services/auth.service.ts:152-159 | Resolves exactly when the e-mail is sent. Otherwise it rejects with the mapped message and no code |
| Auth.AuthService.UpdateUserProfile | src/app/core/services/auth.service.ts:161-185 | Rejects before any write with no signed-in user. Only the defined display name and photo URL are handed on, and nothing is when neither is defined. The current user changes only to a valid re-read record. Every store failure rejects with the one fixed message |
| Auth.AuthService.IsAuthenticated | src/app/core/services/auth.service.ts:187-189 | True exactly when there is a current user |
| Auth.AuthService.IsAdmin | src/app/core/services/auth.service.ts:195-197 | True exactly when the current user is an admin. False with no user, and implies authenticated |
| AuthGuard.Decide | src/app/core/guards/auth.guard.ts:15-22 | Passes exactly the signed-in users, whatever their role, and sends everyone else to the login page |
| AuthGuard.CanActivate | src/app/core/guards/auth.guard.ts:12-24 | Only the first emitted value decides. A stream with no value gives no decision |
| AuthGuard.AllowsIffAuthenticated | src/app/core/guards/auth.guard.ts:12-24 | The guard passes exactly when the service reports a signed-in user |
| RoleGuard.Decide | src/app/guards/role.guard.ts:17-33 | Passes exactly a user whose role is the expected one. Every refusal asks for exactly one redirect: no user to login, an admin to the admin dashboard, anyone else home |
| RoleGuard.CanActivate | src/app/guards/role.guard.ts:12-35 | Only the first emitted value decides. A stream with no value gives no decision |
| RoleGuard.RoleGuardImpliesAuthGuard | src/app/guards/role.guard.ts:18-24 | Whatever the role guard passes, the sign-in guard passes too. Both treat a missing user identically |
| RoleGuard.AdminRouteIffIsAdmin | src/app/guards/role.guard.ts:23-24 | On an admin route the guard passes exactly when the service reports an admin |
| Header.ReduceIsSum | src/app/components/header/header.component.ts:60 | The left fold of quantities equals the start value plus the cart's total units |
| Header.CartCount | src/app/components/header/header.component.ts:59-61 | The badge is the total number of units in the cart, and 0 for an empty cart |
| Header.BadgeCountsOneAdd | src/app/components/header/header.component.ts:59-61 | After a guest add, the badge is one more, whatever quantity was passed |
| Header.LocalPart | src/app/components/header/header.component.ts:56 | A prefix of the address with no '@'. It stops exactly at the first '@', or covers the whole address when there is none |
| Header.Username | src/app/components/header/header.component.ts:56 | No name without a user. Otherwise a non-empty display name, else the local part of the e-mail address |
| Header.HeaderComponent.constructor | src/app/components/header/header.component.ts:36-41 | Starts logged out, with no name, a zero badge and every menu closed |
| Header.HeaderComponent.OnUser | src/app/components/header/header.component.ts:54-57 | Logged in exactly when a user is emitted, showing that user's name. Other fields unchanged |
| Header.HeaderComponent.OnCart | src/app/components/header/header.component.ts:59-61 | The badge shows the total units of the latest cart. Other fields unchanged |
| Header.HeaderComponent.OnBreakpoint | src/app/components/header/header.component.ts:67-73 | Follows the narrow-layout flag. Leaving the narrow layout closes an open sidebar |
| Header.HeaderComponent.ToggleSidebar | src/app/components/header/header.component.ts:81-83 | Flips the sidebar and nothing else |
| Header.HeaderComponent.CloseSidebar | src/app/components/header/header.component.ts:85-90 | Closes the sidebar and nothing else |
| Header.HeaderComponent.Logout | src/app/components/header/header.component.ts:92-98 | Only after a successful sign-out: goes to '/login', closes the sidebar and clears the service's user. A failed sign-out changes nothing |
| Header.HeaderComponent.ToggleAccountDropdown | src/app/components/header/header.component.ts:101-103 | Flips the account menu and nothing else |
| Header.HeaderComponent.CloseAccountDropdown | src/app/components/header/header.component.ts:105-107 | Closes the account menu and nothing else |
| Register.PasswordMatchValidator | src/app/features/auth/register/register.component.ts:48-56 | A mismatch error exactly when both controls exist and their values differ |
| Register.ErrorMessage | src/app/features/auth/register/register.component.ts:75-86 | Each of the three recognised codes gets its fixed message. Anything else gets the generic registration message |
| Register.SharedCodesAgree | src/app/features/auth/register/register.component.ts:75-86 | Every code the form recognises is recognised by the service too, with the same message |
| Register.RethrownErrorShowsGenericMessage | src/app/features/auth/register/register.component.ts:67-68 | An error as the service rethrows it has no code, so the form always shows the generic message |
| Register.RegisterComponent.constructor | src/app/features/auth/register/register.component.ts:33-34 | Starts not loading, with no message |
| Register.RegisterComponent.OnSubmit | src/app/features/auth/register/register.component.ts:58-73 | A form whose passwords do not match, or whose fields fail their validators, changes nothing and does not navigate. Otherwise it always ends not loading. On success it clears the message and goes home; on failure it shows the mapped message and stays |

## Left out

- Local storage text: `getGuestCart` is modelled as reading the parsed list in `guest`. The model does not capture JSON encoding and parsing, or the throw on a corrupt stored value. An absent key is the empty list.
- CartItem `id`: the field `collectionData` adds to each snapshot is not modelled.
- Prices and quantities: the price is a `real` that is only carried. Quantities are unbounded integers, so floating-point arithmetic is not modelled.
- Server timestamps (`createdAt`, `updatedAt`) are not modelled. Console logging is left out.
- Auth.AuthService.UpdateUserProfile: the fields written to `users/{uid}` are not modelled. Only whether the write succeeds is, together with what happens to the current user and what is handed to Firebase.
- Cart.CartService.ClearCart: `Promise.all` starts every delete at once; the model runs them one after another. The final store and the outcome are the same, but interleaving with other operations is not modelled.
- Concurrency and timing: the asynchronous callbacks are modelled as atomic steps, in the order the source awaits them. The model does not capture:
  - RxJS replay (`shareReplay`);
  - `switchMap` cancelling a pending look-up;
  - two auth events overlapping in the async merge callback.
- Cart.CartService.OnAuthState: a new watch is opened at each sign-in and never closed. The model records watched users as a set, so it does not capture a collection watched twice. A refused merge write surfaces as a rejected outcome; in the source it is an unhandled rejection inside the subscription callback.
- Password: it is handed only to Firebase, so it is not a parameter of the model.
- Firebase behaviour: which error code Firebase gives for which input is not modelled. Every outcome is a parameter.
- `ngOnDestroy` of the identity service and of the header only complete streams; they are not modelled.
- The `currentUser` getter of the identity service (auth.service.ts:191-193) is a read of the field `current`.
- Header: the `drawer.close()` call in `closeSidebar` is a UI side effect. It is not modelled.
- Header: the media query string is not modelled. Only its `matches` flag is.
- Router navigation is returned as the path the component asks for. The router itself is not modelled.
- RoleGuard.Decide: a route whose data has no `role` is represented by any string that is not a role name. The model then refuses, as the source does when comparing with `undefined`.
- The header, the role guard and the sign-up form import `src/app/services/auth.service.ts`, which is not part of this model. They are modelled against the identity service in `src/app/core/services/auth.service.ts`.
- The header subscribes to `user$` where the guards use `currentUser$`. Both are modelled as the stream of current-user values.
- Register.RegisterComponent.OnSubmit: the per-control validators (`required`, `email`, `minLength(6)`) are folded into the `fieldsValid` flag. Their rules are not modelled. The group validator is modelled: `PasswordMatchValidator` decides it.
- Out of scope: the forgot-password page, the shop and home pages, the root component and the route table.
