# Storefront cart and session model

This project models the cart and session core of a storefront. The storefront is a Next.js
app on Firebase Auth and Firestore. The model covers:

- the cart rules: increase, decrease, remove, the guest add and the signed-in add, count and total;
- the cart provider, which keeps a guest cart on the device and a signed-in user's cart
  inside the user document;
- the auth provider, with its session state and its own cart helpers;
- the create-or-patch rule for user documents, and the order append;
- checkout placement, plus the cart page's hand-off to it;
- the top bar's display name, avatar and cart badge.

Modules follow the source files:

| module | file | models |
|---|---|---|
| `Types` | `types.dfy` | `CartItem`, `Order`, `UserDoc`, the checkout form and the placed order. |
| `CartLines` | `cart_lines.dfy` | The pure line-item rules of the cart provider. Also the `findIndex`/push merge that both providers run. |
| `FirebaseConfig` | `firebase_config.dfy` | The document store as a class `UserStore`. <ul><li>`docs`: uid → user document.</li><li>`orders`: uid → records of the `orders` sub-collection.</li><li>An id counter.</li></ul> Also field patches (`updateDoc`, object spread), `createOrUpdateUserDocument` and `createUserOrder`. |
| `AuthContext` | `auth_context.dfy` | `AuthProvider`. |
| `CartContext` | `cart_context.dfy` | `CartProvider`, and a `LocalStorage` class for the device's two keys. |
| `CheckoutPage` | `checkout_page.dfy` | The checkout page as `CheckoutView`, and the cart page's hand-off. |
| `Topbar` | `topbar.dfy` | The display-name chain, the initial, the avatar and the badge. |

State the source updates in place is a class with `modifies` frames: provider state, page
state, the store and local storage. The line-item rules are functions. `AddFirst` is a
method: it runs the scan-and-update, or push, that the source performs on the fetched array.

The central invariant is `WellFormed`: product ids are unique and every quantity is positive.

- `CartProvider.Valid()` requires it of the guest cart, of the shown remote cart and of
  every cart in the store.
- Every cart operation keeps it. For an add, the added quantity must also be positive.

The remaining modelling choices:

- Money is integer minor units. Moments in time are integer millisecond clock values,
  passed in as `now`.
- Each store call is one atomic step.
- `updateDoc` on a missing document is refused, as Firestore refuses it. The remote
  operations then return `Rejected(NoDocument)`, and nothing changes.

## Behaviour worth knowing

- **Existing user document.** When the document exists, the patch written is `extra`'s fields
  plus email and name. Those two are read from the record that already has `extra` spread over
  the profile, so an `email` or `name` in `extra` is the one written (`FirebaseConfig.UpsertPatches`).
- **Repeated upserts.** A second upsert for the same user and the same `extra` leaves the store
  as the first one left it, whatever `extra` holds (`FirebaseConfig.UpsertIdempotent`).
- **Quantities on add.** A missing `qty` becomes 1. An explicit `0` or a negative value is added
  as given, so the invariant lemmas for adds assume a positive quantity
  (`CartContext.AddItemDataEffect`).
- **Empty orders.** The provider's `checkout` writes an order whose `items` are `[]` when the
  stored cart is empty (`CartContext.CartProvider.Checkout`). The page's `handlePlaceOrder` does
  the same when it has no cart snapshot and no product (see Findings). Only the cart page keeps
  an empty cart from reaching checkout (`CheckoutPage.HandOffCart`).
- **Guest cart on sign-in.** The guest cart is kept on the device and hidden while someone is
  signed in; it is never combined with the stored cart (`CartContext.CartProvider.CartItems`).
- **Two kinds of order.** The provider's `checkout` keeps the order inside the user document,
  with the clock value as its id. The page writes a separate record to the `orders`
  sub-collection, under a generated id and without `createdAt`.

## Model

| member | source | states |
|---|---|---|
| `CartLines.CountAppend` | src/app/context/CartContext.tsx:72 | The quantity count of two carts joined is the sum of their counts. |
| `CartLines.TotalAppend` | src/app/context/CartContext.tsx:73 | The total of two carts joined is the sum of their totals. |
| `CartLines.CountBoundsLines` | src/app/context/CartContext.tsx:72 | The quantities are all positive. So the count is at least the number of lines, and it is zero exactly for the empty cart. |
| `CartLines.TotalGrow` | src/app/context/CartContext.tsx:73 | Growing one line by `q` raises the total by that line's price times `q`. |
| `CartLines.BumpAbsent` | src/app/context/CartContext.tsx:78-82 | A quantity map for a product the cart does not hold returns the cart unchanged. |
| `CartLines.BumpUnique` | src/app/context/CartContext.tsx:91-93 | With unique ids, the quantity map changes exactly the one matching line. |
| `CartLines.BumpKeepsIds` | src/app/context/CartContext.tsx:91-93 | The quantity map keeps product ids unique. |
| `CartLines.Keep` | src/app/context/CartContext.tsx:107 | `filter`, defined in order: the result is no longer than the input. Which lines it keeps is `KeepMembers`, and that it keeps their order is `KeepAppend`. |
| `CartLines.KeepMembers` | src/app/context/CartContext.tsx:107 | A line is in the filtered cart exactly when it is in the cart and passes the test. |
| `CartLines.KeepAppend` | src/app/context/CartContext.tsx:166 | Filtering two carts joined is joining the filtered carts, so the kept lines stay in their order. |
| `CartLines.KeepUnique` | src/app/context/CartContext.tsx:121 | Filtering keeps product ids unique. |
| `CartLines.KeepPositive` | src/app/context/CartContext.tsx:107 | After the filter that keeps positive quantities, every quantity is positive. |
| `CartLines.IndexOf` | src/app/context/CartContext.tsx:154 | `findIndex` gives the first line of the product, and −1 exactly when no line has it. |
| `CartLines.Count` | src/app/context/CartContext.tsx:72 | Definition of `cartCount`, the sum of quantities. Its properties are `CountAppend` and `CountBoundsLines`. |
| `CartLines.Total` | src/app/context/CartContext.tsx:73 | Definition of `total`, the sum of price times quantity. Its properties are `TotalAppend` and `TotalGrow`. |
| `CartLines.Bump` | src/app/context/CartContext.tsx:78-82 | Definition of the quantity map over the lines of one product. Its properties are `BumpAbsent`, `BumpUnique` and `BumpKeepsIds`. |
| `CartLines.IncreaseQty` | src/app/context/CartContext.tsx:91-93 | Definition of `increaseQty`'s new cart. Its properties are `IncreaseQtyEffect`. |
| `CartLines.DecreaseQty` | src/app/context/CartContext.tsx:117-121 | Definition of `decreaseQty`'s new cart. Its properties are `DecreaseQtyEffect` and `DecreaseAt`. |
| `CartLines.RemoveFromCart` | src/app/context/CartContext.tsx:175 | Definition of `removeFromCart`'s new cart. Its properties are `RemoveFromCartEffect` and `RemoveAt`. |
| `CartLines.AddLocal` | src/app/context/CartContext.tsx:128-138 | Definition of the guest add. Its properties are `AddLocalEffect`, `AddLocalAt`, `AddLocalNew` and `AddLocalTotal`. |
| `CartLines.MergeIntoFirst` | src/app/context/CartContext.tsx:154-156 | Definition of the signed-in add. Its properties are `MergeIntoFirstEffect` and `MergeAgreesWithAddLocal`; `AddFirst` computes it. |
| `CartLines.AddFirst` | src/app/context/CartContext.tsx:154-156 | The in-place scan, then increment or push, computes `MergeIntoFirst`. |
| `CartLines.IncreaseQtyEffect` | src/app/context/CartContext.tsx:78-82 | `increaseQty`: <ul><li>adds exactly 1 to the matching line;</li><li>keeps the length and every other line;</li><li>changes nothing for an absent id;</li><li>keeps the invariant;</li><li>raises the count by 1 when the product is present.</li></ul> |
| `CartLines.DecreaseQtyEffect` | src/app/context/CartContext.tsx:102-108 | `decreaseQty`: <ul><li>leaves no line at zero or below;</li><li>keeps the invariant;</li><li>leaves a positive cart unchanged for an absent id;</li><li>removes a line at 1 and keeps the order of the rest;</li><li>decrements a line above 1;</li><li>lowers the count by 1 when the product is present.</li></ul> |
| `CartLines.DecreaseAt` | src/app/context/CartContext.tsx:117-121 | For a well-formed cart and the line `k` of the product, the two shapes of the decrease and the count drop of 1. |
| `CartLines.RemoveAt` | src/app/context/CartContext.tsx:175 | With unique ids, removing the product's line `k` splices out that line alone, and the count drops by its quantity. |
| `CartLines.RemoveFromCartEffect` | src/app/context/CartContext.tsx:166 | `removeFromCart`: <ul><li>no line of the id is left;</li><li>every other line stays;</li><li>an absent id changes nothing;</li><li>with unique ids exactly one line is spliced out;</li><li>the invariant is kept.</li></ul> |
| `CartLines.AddLocalAt` | src/app/context/CartContext.tsx:132-134 | Guest add of a present product with unique ids: that line grows by the added quantity, and the count grows by it too. |
| `CartLines.AddLocalNew` | src/app/context/CartContext.tsx:136 | Guest add of an absent product: <ul><li>appends the item at the end;</li><li>raises the count by its quantity and the total by price × quantity;</li><li>keeps the invariant for a positive quantity.</li></ul> |
| `CartLines.AddLocalEffect` | src/app/context/CartContext.tsx:128-138 | Guest add: <ul><li>the product is in the cart afterwards;</li><li>an absent product is appended, a present one grows;</li><li>the count rises by exactly the added quantity;</li><li>a positive quantity keeps the invariant.</li></ul> |
| `CartLines.AddLocalTotal` | src/app/context/CartContext.tsx:128-138 | Guest add raises the total by the line's price times the added quantity. |
| `CartLines.MergeIntoFirstEffect` | src/app/context/CartContext.tsx:154-156 | Signed-in add: <ul><li>the product is present afterwards;</li><li>an absent product is pushed at the end;</li><li>the count rises by the added quantity;</li><li>a positive quantity keeps the invariant.</li></ul> |
| `CartLines.MergeAgreesWithAddLocal` | src/app/context/CartContext.tsx:128-156 | With unique product ids, the guest add and the first-match add give the same cart. |
| `CartLines.DuplicatesSplitTheAdds` | src/app/context/CartContext.tsx:130-134 | Without unique ids the two adds differ. On `[a, a]` the guest add grows both lines; the signed-in add grows only the first. |
| `FirebaseConfig.CartWriteKeepsInvariant` | src/app/context/CartContext.tsx:95 | Writing a well-formed cart into one document keeps every stored cart well formed. |
| `FirebaseConfig.CartWriteKeepsOrders` | src/app/context/CartContext.tsx:158 | A cart write changes no user's orders, so a placed order is never altered by later cart operations. The written cart is what is then read back. |
| `FirebaseConfig.ApplyPatch` | src/app/firebase/config.ts:71 | Definition of a field patch: the named fields are replaced, the rest kept. Its properties are `ApplyPatchIdempotent` and `ApplyAgreeing`. |
| `FirebaseConfig.Updated` | src/app/firebase/config.ts:71 | Definition of `updateDoc`'s effect on the store. Its property is `UpdatedTouchesOne`. |
| `FirebaseConfig.UpdatedTouchesOne` | src/app/firebase/config.ts:71 | An update keeps the set of documents, patches the target when it exists, and leaves every other document as it was. |
| `FirebaseConfig.NewUserRecord` | src/app/firebase/config.ts:59-66 | Definition of the new document: the profile fields with `extra` spread over them. Its property is `UpsertCreates`. |
| `FirebaseConfig.ExistingPatch` | src/app/firebase/config.ts:70-71 | Definition of the patch for an existing document. Its property is `UpsertPatches`. |
| `FirebaseConfig.Upserted` | src/app/firebase/config.ts:54-72 | Definition of the store after an upsert. Its properties are `UpsertKeying`, `UpsertCreates`, `UpsertPatches`, `UpsertIdempotent` and `UpsertKeepsCarts`. |
| `FirebaseConfig.ApplyPatchIdempotent` | src/app/firebase/config.ts:71 | Applying the same field patch twice is applying it once. |
| `FirebaseConfig.ApplyAgreeing` | src/app/firebase/config.ts:71 | A patch that writes only values already held changes nothing. |
| `FirebaseConfig.UpsertKeying` | src/app/firebase/config.ts:52-56 | A null user leaves the store as it was. Otherwise only the document keyed by the user's uid is written, and that document exists afterwards. |
| `FirebaseConfig.UpsertCreates` | src/app/firebase/config.ts:59-69 | A new document holds uid, email, name and photo from the profile (null when missing) and `createdAt = now`. Every field in `extra` overrides those. |
| `FirebaseConfig.UpsertPatches` | src/app/firebase/config.ts:70-71 | An existing document gets only `extra`'s fields plus email and name, taken from `extra` first and from the profile otherwise. uid, photo, `createdAt`, cart and orders stay unless `extra` names them. |
| `FirebaseConfig.UpsertIdempotent` | src/app/firebase/config.ts:54-72 | A second run for the same user and the same `extra` leaves the store as the first run left it, at any clock. |
| `FirebaseConfig.UpsertKeepsCarts` | src/app/firebase/config.ts:59-72 | The upsert keeps every stored cart well formed, unless `extra` brings a cart that is not well formed. |
| `FirebaseConfig.UserStore.SetDoc` | src/app/firebase/config.ts:69 | `setDoc` replaces or creates that one document. A read afterwards returns the written document; every other read is unchanged. |
| `FirebaseConfig.UserStore.UpdateDoc` | src/app/firebase/config.ts:71 | `updateDoc` succeeds exactly when the document exists. A read afterwards returns the old document with the patch applied; a refused write reads as missing and changes nothing. Other documents and the orders are untouched. |
| `FirebaseConfig.UserStore.AddOrder` | src/app/firebase/config.ts:81-84 | `addDoc` appends exactly one record under that uid with a fresh id, and returns the id. Documents are untouched. |
| `FirebaseConfig.UserStore.CreateOrUpdateUserDocument` | src/app/firebase/config.ts:54-75 | The store becomes `Upserted(old, user, extra, now)`. The result is the user's key, or nothing for a null user. |
| `FirebaseConfig.UserStore.CreateUserOrder` | src/app/firebase/config.ts:79-86 | Adds exactly one record (the order data plus `createdAt = now`) under the uid, and returns its new id. |
| `AuthContext.AuthProvider.constructor` | src/app/context/AuthContext.tsx:29-31 | Starts signed out, with loading true. |
| `AuthContext.AuthProvider.OnAuthStateChanged` | src/app/context/AuthContext.tsx:35-47 | After an event: <ul><li>the profile is the event's identity and loading is false;</li><li>a null identity leaves `user` null and writes nothing;</li><li>otherwise the document is upserted with no extra fields, and `user` is the stored document.</li></ul> |
| `AuthContext.AuthProvider.SignUpWithEmail` | src/app/context/AuthContext.tsx:53-59 | The created account's document is upserted with the caller's `extra`. |
| `AuthContext.AuthProvider.SignInWithGoogle` | src/app/context/AuthContext.tsx:61-68 | The signed-in account's document is upserted with no extra fields. |
| `AuthContext.AuthProvider.SignOut` | src/app/context/AuthContext.tsx:70-74 | Afterwards `user` and `firebaseUser` are both null, `loading` is unchanged and the store is not touched. |
| `AuthContext.AuthProvider.AddToCart` | src/app/context/AuthContext.tsx:77-93 | Signed out: refused, with nothing written. Signed in: <ul><li>the first-match merge of the item into the stored cart is written;</li><li>`user` becomes the stored document with exactly that cart;</li><li>a missing document refuses the write and changes nothing;</li><li>the store invariant is kept for a positive quantity.</li></ul> |
| `AuthContext.AuthProvider.ClearCart` | src/app/context/AuthContext.tsx:95-100 | Signed out: refused, with nothing written. Signed in: the stored cart becomes `[]`, and `user`'s cart becomes `[]` with every other field kept. A null `user` stays null. |
| `CartContext.CheckoutMovesCart` | src/app/context/CartContext.tsx:199-218 | Checkout appends exactly one order after the earlier ones. It holds exactly the stored cart, has status "Processing" and is delivered five days on. The cart becomes `[]` and nothing else changes. |
| `CartContext.NewOrder` | src/app/context/CartContext.tsx:203-209 | Definition of the order `checkout` builds. Its property is `CheckoutMovesCart`. |
| `CartContext.CheckoutPatch` | src/app/context/CartContext.tsx:211-214 | Definition of the checkout write. Its property is `CheckoutMovesCart`. |
| `CartContext.AddItemDataEffect` | src/app/context/CartContext.tsx:141-156 | A missing quantity counts as 1. Adding raises the count by the quantity on the signed-in path, and on the guest path when ids are unique. The product is present afterwards, and a positive quantity keeps the invariant. |
| `CartContext.CartProvider.constructor` | src/app/context/CartContext.tsx:41-58 | The guest cart is restored from the device, or is empty when none is saved, and is saved back. A well-formed saved cart and store give `Valid()` from the start. |
| `CartContext.CartProvider.CartItems` | src/app/context/CartContext.tsx:71 | Signed out, the shown cart is the guest cart, which is the one saved on the device. Signed in with the mirror kept, it is the user's stored cart. |
| `CartContext.CartProvider.CartCount` | src/app/context/CartContext.tsx:72 | For a well-formed shown cart, the count is at least the number of lines, and zero exactly when the cart is empty. |
| `CartContext.CartProvider.CartTotal` | src/app/context/CartContext.tsx:73 | The total is additive: one more line adds its price times its quantity. |
| `CartContext.CartProvider.LoadFirebaseCart` | src/app/context/CartContext.tsx:61-69 | Signed in: the shown cart becomes the stored one, or `[]` without a document, so the mirror holds afterwards. Signed out: nothing changes. |
| `CartContext.CartProvider.WriteCart` | src/app/context/CartContext.tsx:95-96 | The store is patched with the new cart. The shown cart follows only a successful write, and is then the stored cart. A refused write changes nothing. |
| `CartContext.CartProvider.IncreaseQty` | src/app/context/CartContext.tsx:76-97 | The guest cart, saved to the device, or the stored and shown cart becomes `increaseQty` of its old value. The invariant is kept, and the mirror holds after a successful write and is never broken. |
| `CartContext.CartProvider.DecreaseQty` | src/app/context/CartContext.tsx:100-125 | As `IncreaseQty`, with the decrease-then-filter rule. |
| `CartContext.CartProvider.AddToCart` | src/app/context/CartContext.tsx:140-161 | A guest gets the every-match add; a signed-in user gets the first-match add of `LineOf(itemData)` written and shown. A positive quantity keeps the invariant, and the mirror holds after a successful write. |
| `CartContext.CartProvider.RemoveFromCart` | src/app/context/CartContext.tsx:164-179 | As `IncreaseQty`, with the filter that drops the product. |
| `CartContext.CartProvider.ClearCart` | src/app/context/CartContext.tsx:182-190 | The guest cart becomes `[]` and is saved. Otherwise the stored cart becomes `[]`, and so does the shown one once the write succeeds, keeping the mirror. |
| `CartContext.CartProvider.Checkout` | src/app/context/CartContext.tsx:193-219 | Signed out: `ok: false` with the sign-in message, and nothing changes. Signed in: the store becomes `CheckoutPatch` in one write, the shown cart becomes `[]` like the stored one, and the reply is `ok: true`. |
| `CheckoutPage.SetFieldRequired` | src/app/checkout/CheckoutPage.tsx:95 | E-mail and notes never affect whether the form is complete. Emptying a required field makes it incomplete. |
| `CheckoutPage.SetField` | src/app/checkout/CheckoutPage.tsx:90-92 | Definition of an input change on the form. Its property is `SetFieldRequired`. |
| `CheckoutPage.MissingRequired` | src/app/checkout/CheckoutPage.tsx:95 | Definition of the required-field test. Its properties are `SetFieldRequired` and the placement results of `HandlePlaceOrder`. |
| `CheckoutPage.OrderItems` | src/app/checkout/CheckoutPage.tsx:114-126 | Definition of the item list, with the product line at quantity 1. Its property is `OrderItemsEmpty`. |
| `CheckoutPage.OrderItemsEmpty` | src/app/checkout/CheckoutPage.tsx:114-126 | The items are empty exactly when the cart path has an empty snapshot, or, off the cart path, no product is loaded. A product order counts 1 and totals the price. |
| `CheckoutPage.HandOffCart` | src/app/cart/page.tsx:31-35 | The snapshot is handed over, and the cart path opened, exactly when the cart is not empty. |
| `CheckoutPage.CheckoutView.constructor` | src/app/checkout/CheckoutPage.tsx:49-58 | The blank form, no items, no product, loading. |
| `CheckoutPage.CheckoutView.CheckSession` | src/app/checkout/CheckoutPage.tsx:60-69 | Once auth has loaded, no user document means a redirect to login, and one present ends loading. |
| `CheckoutPage.CheckoutView.LoadData` | src/app/checkout/CheckoutPage.tsx:71-88 | With a user: <ul><li>the cart path takes the device snapshot (keeping the items when there is none);</li><li>the product path takes the fetched product;</li><li>loading ends unless the fetch failed.</li></ul> Without a user, nothing changes. |
| `CheckoutPage.CheckoutView.HandleChange` | src/app/checkout/CheckoutPage.tsx:90-92 | The form becomes `SetField` of the old form, and nothing else changes. |
| `CheckoutPage.CheckoutView.Items` | src/app/checkout/CheckoutPage.tsx:114-126 | The page's item list is empty exactly in the two cases of `OrderItemsEmpty`. |
| `CheckoutPage.CheckoutView.HandlePlaceOrder` | src/app/checkout/CheckoutPage.tsx:94-147 | The result, in order: <ul><li>missing fields, exactly when name, phone or address is empty;</li><li>else a login redirect without a user document;</li><li>else failure when the write is refused;</li><li>else placed.</li></ul> Only placement writes: one record with the items, the form, status "Processing" and delivery five days on, under a fresh id. On the cart path alone the cart is then cleared and the snapshot removed; the other cart and its copy on the device stay. |
| `CheckoutPage.CheckoutView.HandlePlaceOrderGuarded` | src/app/checkout/CheckoutPage.tsx:114-134 | As `HandlePlaceOrder`, with every result condition and every frame, except that an empty item list is refused after the form and session checks and before any write. No order it writes is empty. |
| `Topbar.BeforeAt` | src/app/components/Topbar.tsx:28 | `split("@")[0]` gives a prefix without '@': the whole text, or the text up to its first '@'. |
| `Topbar.BeforeAtUnique` | src/app/components/Topbar.tsx:28 | That prefix is the only string with those properties. |
| `Topbar.BeforeAtEmpty` | src/app/components/Topbar.tsx:28 | The local part is empty exactly for an empty text or one starting with '@'. |
| `Topbar.DisplayNameChain` | src/app/components/Topbar.tsx:25-28 | <ul><li>A non-empty profile name is used as is.</li><li>Else a non-empty stored name.</li><li>Else the e-mail's part before '@'.</li><li>Else "User".</li></ul> |
| `Topbar.DisplayNameEmpty` | src/app/components/Topbar.tsx:25-28 | The name is empty exactly when neither name has a value and the e-mail starts with '@'. |
| `Topbar.DisplayName` | src/app/components/Topbar.tsx:25-28 | Definition of the fallback chain. Its properties are `DisplayNameChain` and `DisplayNameEmpty`. |
| `Topbar.DesktopAvatar` | src/app/components/Topbar.tsx:78-82 | The profile photo when there is one. Otherwise a letter, absent exactly when the name is empty. |
| `Topbar.NoInitialIff` | src/app/components/Topbar.tsx:124 | The avatar has no letter exactly for an '@'-leading e-mail with no name on either side. |
| `Topbar.BadgeIffLines` | src/app/components/Topbar.tsx:53-54 | For a well-formed cart, the badge shows exactly when the cart has a line. |

## Findings

| source | as written | input that shows it | evidently intended | confidence | as-written member | corrected member |
|---|---|---|---|---|---|---|
| src/app/checkout/CheckoutPage.tsx:114-134 | With neither the cart path nor a loaded product, `items` is `[]` and the order is still written. | A signed-in user opens `/checkout` without query parameters, fills name, phone and address, and places the order: one record with no items is added. | An order holds at least one item. The cart page refuses an empty hand-off for this reason. | medium, not executed | `CheckoutPage.CheckoutView.HandlePlaceOrder`, shown by `CheckoutPage.EmptyOrderIsWritten` | `CheckoutPage.CheckoutView.HandlePlaceOrderGuarded` |

## Left out

- Rendering: all markup, styling, toasts and `router.push` navigation. A redirect is a result value (`LoginRequired`, `toLogin`); messages are constants.
- The Firebase SDK. `getDoc`, `setDoc`, `updateDoc` and `addDoc` are the `UserStore` methods. The auth service's calls (`signInWithEmailAndPassword`, `createUserWithEmailAndPassword`, the Google popup, `signOut`) enter as the `FirebaseUser` they report.
- `signInWithEmailFn` only forwards to the auth service. Its effect on the provider comes through `OnAuthStateChanged`.
- `serverTimestamp()`, which is modelled as the caller's clock `now`.
- Store failures. The model has only two: a refused `updateDoc` on a missing document, and the order write's `writeFails`. Every other store call succeeds.
- JSON encoding and `localStorage`. The device holds parsed sequences. A missing or unparseable `guestCart` gives the empty cart. A parse that yields something that is not a cart is not modelled.
- The catalogue fetch. It is the `fetched` parameter; a failed request is `None`.
- Dates as text: `toLocaleDateString`, `toISOString`, `toDateString`. The order id is the clock value as a number, not its decimal string.
- `CheckoutPage.CheckoutView.HandlePlaceOrder`: delivery is `now + 5 * DayMs`. The page adds five calendar days with `setDate`, which differs from that across daylight-saving changes.
- `CheckoutPage.CheckoutView.HandlePlaceOrder`: the page does not await `clearCart()`. Here it runs to completion before placement returns, and its outcome is ignored as in the source.
- Floating-point money. Prices are integers in minor units, so `total` is exact here and only approximately so in the source.
- `Topbar.UpperAscii`: upper-cases ASCII letters only. JavaScript's `toUpperCase` covers all of Unicode and can return more than one character.
- The product id is a string. The checkout page types it as a number (`CheckoutItem.productId?: number`); both are kept as the same key here.
- Values of `extra` outside the typed fields are strings (`other: map<string, string>`).
- Concurrency. Each operation is one atomic step. Overlapping awaits, several tabs and listener unsubscription are not modelled.
- The React hooks' scheduling. An effect runs as an explicit method call: `LoadFirebaseCart`, `CheckSession`, `LoadData`, and the save of the guest cart after each change.
