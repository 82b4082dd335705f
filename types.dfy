/**
 * The record shapes the storefront keeps in its document store
 * (src/app/types/firebase.ts): cart lines, orders and the per-user document.
 *
 * Money is held in integer minor currency units; moments in time are integer
 * millisecond clock values. A TypeScript field that may be `null` or absent is
 * an `Option`; `None` stands for both.
 */
module Types {

  datatype Option<T> = None | Some(value: T) {
    /** The `??` operator: the value, or `default` when there is none. */
    function GetOr(default: T): T {
      match this
      case Some(v) => v
      case None => default
    }
  }

  /** How a promise returned by an operation settles. */
  datatype Outcome<T> = Resolved(value: T) | Rejected(reason: Failure)

  datatype Failure =
    | NotAuthenticated   // the operation needs a signed-in user
    | NoDocument         // `updateDoc` on a user document that does not exist
    | WriteFailed        // the store refused or lost a write

  /** One line of a cart. `productId` is the line's key. */
  datatype CartItem = CartItem(productId: string, title: string, price: int, qty: int, image: Option<string>)

  /** An order kept inside the user document's `orders` array. */
  datatype Order = Order(id: int, items: seq<CartItem>, date: int, deliveryDate: int, status: string)

  /**
   * The document stored for each user. `other` holds the fields that callers
   * add through `extra` and that are not among the typed fields above.
   */
  datatype UserDoc = UserDoc(
    uid: string,
    email: Option<string>,
    name: Option<string>,
    photoURL: Option<string>,
    cart: Option<seq<CartItem>>,
    createdAt: Option<int>,
    orders: Option<seq<Order>>,
    other: map<string, string>)

  /** The contact details the checkout form collects (src/app/checkout/CheckoutPage.tsx). */
  datatype CheckoutForm = CheckoutForm(name: string, email: string, phone: string, address: string, notes: Option<string>)

  /** An order document written under a user's `orders` sub-collection. */
  datatype PlacedOrder = PlacedOrder(items: seq<CartItem>, userDetails: CheckoutForm, date: int, deliveryDate: int, status: string)

  /** The status every order is created with. */
  const Processing: string := "Processing"

  /** Milliseconds in a day. */
  const DayMs: int := 86400000
}
