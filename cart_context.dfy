/**
 * The cart provider (src/app/context/CartContext.tsx). A signed-out visitor
 * has a guest cart that lives on the device; a signed-in user's cart is the
 * `cart` array of their user document, with `firebaseCart` as the copy the
 * page shows. Every operation reads the session from the auth provider and
 * takes the guest or the stored path accordingly.
 */
module CartContext {
  import opened Types
  import opened CartLines
  import opened FirebaseConfig
  import opened AuthContext

  /** The browser's local storage, holding the keys the storefront uses (parsed). */
  class LocalStorage {
    /** `guestCart`: the guest cart, saved after every change to it. */
    var guestCart: Option<seq<CartItem>>
    /** `checkoutCart`: the snapshot the cart page hands to checkout. */
    var checkoutCart: Option<seq<CartItem>>

    constructor (guestCart: Option<seq<CartItem>>, checkoutCart: Option<seq<CartItem>>)
      ensures this.guestCart == guestCart && this.checkoutCart == checkoutCart
    {
      this.guestCart := guestCart;
      this.checkoutCart := checkoutCart;
    }
  }

  /** What `addToCart` is given: a cart line whose quantity may be left out. */
  datatype ItemData = ItemData(productId: string, title: string, price: int, qty: Option<int>, image: Option<string>)

  /** The line `addToCart` builds: the given fields, with a missing quantity read as 1. */
  function LineOf(d: ItemData): (item: CartItem)
    ensures item.productId == d.productId && item.title == d.title && item.price == d.price && item.image == d.image
    ensures d.qty.None? ==> item.qty == 1
    ensures d.qty.Some? ==> item.qty == d.qty.value
  {
    CartItem(d.productId, d.title, d.price, d.qty.GetOr(1), d.image)
  }

  /**
   * Adding `d` raises the count by its quantity, 1 when it is left out: on
   * the signed-in path always, on the guest path when product ids are
   * unique. The product is in the cart afterwards, and a positive or missing
   * quantity keeps the invariant.
   */
  lemma AddItemDataEffect(c: seq<CartItem>, d: ItemData)
    ensures HasId(MergeIntoFirst(c, LineOf(d)), d.productId) && HasId(AddLocal(c, LineOf(d)), d.productId)
    ensures Count(MergeIntoFirst(c, LineOf(d))) == Count(c) + d.qty.GetOr(1)
    ensures UniqueIds(c) ==> Count(AddLocal(c, LineOf(d))) == Count(c) + d.qty.GetOr(1)
    ensures WellFormed(c) && d.qty.GetOr(1) > 0 ==>
      WellFormed(MergeIntoFirst(c, LineOf(d))) && WellFormed(AddLocal(c, LineOf(d)))
  {
    MergeIntoFirstEffect(c, LineOf(d));
    AddLocalEffect(c, LineOf(d));
  }

  /** The reply of `checkout()`. */
  datatype Reply = Reply(ok: bool, message: string)

  const SignInFirst: string := "Please sign in to place an order."
  const OrderPlaced: string := "Order placed successfully!"

  /** The order `checkout()` builds at time `now` from the stored cart. */
  function NewOrder(docs: map<string, UserDoc>, uid: string, now: int): Order {
    Order(now, StoredCart(docs, uid), now, now + 5 * DayMs, Processing)
  }

  /** The checkout write: the stored orders with the new order after them, and an empty cart. */
  function CheckoutPatch(docs: map<string, UserDoc>, uid: string, now: int): Patch {
    NoFields.(orders := Some(StoredOrders(docs, uid) + [NewOrder(docs, uid, now)]), cart := Some([]))
  }

  /**
   * Checking out moves the stored cart, exactly as it was, into one new
   * order at the end of the user's orders: the earlier orders stay, the cart
   * becomes empty, delivery is five days after the order, the status is
   * "Processing", and nothing else in the store changes.
   */
  lemma CheckoutMovesCart(docs: map<string, UserDoc>, uid: string, now: int)
    requires uid in docs
    ensures var after := Updated(docs, uid, CheckoutPatch(docs, uid, now));
      && StoredCart(after, uid) == []
      && |StoredOrders(after, uid)| == |StoredOrders(docs, uid)| + 1
      && StoredOrders(after, uid)[..|StoredOrders(docs, uid)|] == StoredOrders(docs, uid)
      && (var o := StoredOrders(after, uid)[|StoredOrders(docs, uid)|];
          o.items == StoredCart(docs, uid) && o.id == now && o.date == now
          && o.deliveryDate == now + 5 * DayMs && o.status == Processing)
      && Count(StoredOrders(after, uid)[|StoredOrders(docs, uid)|].items) == Count(StoredCart(docs, uid))
      && after[uid] == docs[uid].(cart := Some([]), orders := Some(StoredOrders(after, uid)))
      && forall k :: k != uid ==> (k in after <==> k in docs) && (k in docs ==> after[k] == docs[k])
  {
    var before := StoredOrders(docs, uid);
    var after := Updated(docs, uid, CheckoutPatch(docs, uid, now));
    assert StoredOrders(after, uid) == before + [NewOrder(docs, uid, now)];
    assert (before + [NewOrder(docs, uid, now)])[..|before|] == before;
    assert docs[uid].other + map[] == docs[uid].other;
  }

  /**
   * How a write of the cart `updated` for `uid` settles: the store is
   * patched if the document exists, the shown cart follows the write only
   * when it succeeds, and a refused write leaves both as they were.
   */
  predicate CartWritten(before: map<string, UserDoc>, after: map<string, UserDoc>,
                        shownBefore: seq<CartItem>, shownAfter: seq<CartItem>,
                        uid: string, updated: seq<CartItem>, out: Outcome<()>)
  {
    && after == Updated(before, uid, CartPatch(updated))
    && (uid in before ==> out == Resolved(()) && shownAfter == updated)
    && (uid !in before ==> out == Rejected(NoDocument) && shownAfter == shownBefore && after == before)
  }

  class CartProvider {
    /** The cart of a signed-out visitor. */
    var guestCart: seq<CartItem>
    /** The signed-in user's cart as last loaded or written. */
    var firebaseCart: seq<CartItem>
    /** The session the cart follows. */
    const auth: AuthProvider
    /** The device the guest cart is saved to. */
    const device: LocalStorage

    /**
     * Every cart the provider holds or the store keeps is well formed: one
     * line per product, every quantity positive.
     */
    ghost predicate Valid()
      reads this, auth, auth.store
    {
      WellFormed(guestCart) && WellFormed(firebaseCart) && EveryCartWellFormed(auth.store.docs)
    }

    /**
     * The shown remote cart mirrors the store: while someone is signed in,
     * `firebaseCart` is the cart stored in their document.
     */
    ghost predicate Mirrored()
      reads this, auth, auth.store
    {
      auth.firebaseUser.Some? ==> firebaseCart == StoredCart(auth.store.docs, auth.firebaseUser.value.uid)
    }

    /** The guest cart on the device is the one the provider holds. */
    predicate Saved()
      reads this, device
    {
      device.guestCart == Some(guestCart)
    }

    /**
     * Mounting: the guest cart is restored from the device (`saved` is the
     * parsed value; a missing, empty or unparseable entry gives none) and
     * saved back.
     */
    constructor (auth: AuthProvider, device: LocalStorage, saved: Option<seq<CartItem>>)
      modifies device
      ensures this.auth == auth && this.device == device
      ensures guestCart == saved.GetOr([]) && firebaseCart == []
      ensures Saved() && device.checkoutCart == old(device.checkoutCart)
      ensures WellFormed(saved.GetOr([])) && EveryCartWellFormed(auth.store.docs) ==> Valid()
    {
      this.auth := auth;
      this.device := device;
      guestCart := saved.GetOr([]);
      firebaseCart := [];
      new;
      device.guestCart := Some(guestCart);
    }

    /**
     * `cartItems`: the guest cart while signed out, as saved on the device;
     * while signed in, the user's stored cart whenever the mirror is kept.
     * The guest cart is never shown to a signed-in user, and the stored cart
     * never to a signed-out visitor.
     */
    function CartItems(): (items: seq<CartItem>)
      reads this, auth, auth.store, device
      ensures auth.firebaseUser.None? ==> items == guestCart && (Saved() ==> device.guestCart == Some(items))
      ensures auth.firebaseUser.Some? && Mirrored() ==> items == StoredCart(auth.store.docs, auth.firebaseUser.value.uid)
    {
      if auth.firebaseUser.Some? then firebaseCart else guestCart
    }

    /**
     * `cartCount`: the sum of the shown quantities. Under the invariant it is
     * at least the number of lines, and zero exactly when the cart is empty.
     */
    function CartCount(): (n: int)
      reads this, auth, auth.store, device
      ensures WellFormed(CartItems()) ==> n >= |CartItems()| && (n == 0 <==> CartItems() == [])
    {
      var items := CartItems();
      if AllPositive(items) then CountBoundsLines(items); Count(items) else Count(items)
    }

    /** `total`: the sum of price times quantity over the shown cart. */
    function CartTotal(): (t: int)
      reads this, auth, auth.store, device
      ensures forall extra: CartItem :: Total(CartItems() + [extra]) == t + extra.price * extra.qty
    {
      forall extra: CartItem ensures Total(CartItems() + [extra]) == Total(CartItems()) + extra.price * extra.qty {
        TotalAppend(CartItems(), [extra]);
      }
      Total(CartItems())
    }

    /** Loading the stored cart when a user is signed in. */
    method LoadFirebaseCart()
      modifies this
      ensures guestCart == old(guestCart)
      ensures auth.firebaseUser.None? ==> firebaseCart == old(firebaseCart)
      ensures auth.firebaseUser.Some? ==> firebaseCart == StoredCart(auth.store.docs, auth.firebaseUser.value.uid)
      ensures auth.firebaseUser.Some? || old(Mirrored()) ==> Mirrored()
      ensures old(Valid()) ==> Valid()
    {
      if auth.firebaseUser.None? {
        return;
      }
      var snap := auth.store.Get(auth.firebaseUser.value.uid);
      firebaseCart := if snap.Some? then snap.value.cart.GetOr([]) else [];
    }

    /** The stored path shared by the cart operations: write `updated`, then show it. */
    method WriteCart(uid: string, updated: seq<CartItem>) returns (out: Outcome<()>)
      modifies this, auth.store
      ensures CartWritten(old(auth.store.docs), auth.store.docs, old(firebaseCart), firebaseCart, uid, updated, out)
      ensures guestCart == old(guestCart)
      ensures auth.store.orders == old(auth.store.orders) && auth.store.nextId == old(auth.store.nextId)
      ensures old(Valid()) && WellFormed(updated) ==> Valid()
      ensures out.Resolved? ==> firebaseCart == StoredCart(auth.store.docs, uid)
      ensures out.Rejected? ==> firebaseCart == old(firebaseCart) && auth.store.docs == old(auth.store.docs)
    {
      CartWriteKeepsOrders(auth.store.docs, uid, updated, uid);
      if EveryCartWellFormed(auth.store.docs) && WellFormed(updated) {
        CartWriteKeepsInvariant(auth.store.docs, uid, updated);
      }
      var ok := auth.store.UpdateDoc(uid, CartPatch(updated));
      if !ok {
        return Rejected(NoDocument);
      }
      firebaseCart := updated;
      return Resolved(());
    }

    /** `increaseQty(productId)`: one more of the line for `productId`, if there is one. */
    method IncreaseQty(productId: string) returns (out: Outcome<()>)
      modifies this, auth.store, device
      ensures auth.store.orders == old(auth.store.orders) && auth.store.nextId == old(auth.store.nextId)
      ensures device.checkoutCart == old(device.checkoutCart)
      ensures auth.firebaseUser.None? ==>
        && guestCart == CartLines.IncreaseQty(old(guestCart), productId) && Saved()
        && out == Resolved(()) && firebaseCart == old(firebaseCart) && auth.store.docs == old(auth.store.docs)
      ensures auth.firebaseUser.Some? ==>
        var uid := auth.firebaseUser.value.uid;
        && CartWritten(old(auth.store.docs), auth.store.docs, old(firebaseCart), firebaseCart, uid,
                       CartLines.IncreaseQty(StoredCart(old(auth.store.docs), uid), productId), out)
        && guestCart == old(guestCart) && device.guestCart == old(device.guestCart)
      ensures old(Valid()) ==> Valid()
      ensures out.Resolved? || old(Mirrored()) ==> Mirrored()
    {
      if auth.firebaseUser.None? {
        IncreaseQtyEffect(guestCart, productId);
        guestCart := CartLines.IncreaseQty(guestCart, productId);
        device.guestCart := Some(guestCart);
        return Resolved(());
      }
      var uid := auth.firebaseUser.value.uid;
      var snap := auth.store.Get(uid);
      var cartArr := if snap.Some? then snap.value.cart.GetOr([]) else [];
      IncreaseQtyEffect(cartArr, productId);
      out := WriteCart(uid, CartLines.IncreaseQty(cartArr, productId));
    }

    /** `decreaseQty(productId)`: one fewer of the line for `productId`; a line reaching zero goes. */
    method DecreaseQty(productId: string) returns (out: Outcome<()>)
      modifies this, auth.store, device
      ensures auth.store.orders == old(auth.store.orders) && auth.store.nextId == old(auth.store.nextId)
      ensures device.checkoutCart == old(device.checkoutCart)
      ensures auth.firebaseUser.None? ==>
        && guestCart == CartLines.DecreaseQty(old(guestCart), productId) && Saved()
        && out == Resolved(()) && firebaseCart == old(firebaseCart) && auth.store.docs == old(auth.store.docs)
      ensures auth.firebaseUser.Some? ==>
        var uid := auth.firebaseUser.value.uid;
        && CartWritten(old(auth.store.docs), auth.store.docs, old(firebaseCart), firebaseCart, uid,
                       CartLines.DecreaseQty(StoredCart(old(auth.store.docs), uid), productId), out)
        && guestCart == old(guestCart) && device.guestCart == old(device.guestCart)
      ensures old(Valid()) ==> Valid()
      ensures out.Resolved? || old(Mirrored()) ==> Mirrored()
    {
      if auth.firebaseUser.None? {
        DecreaseQtyEffect(guestCart, productId);
        guestCart := CartLines.DecreaseQty(guestCart, productId);
        device.guestCart := Some(guestCart);
        return Resolved(());
      }
      var uid := auth.firebaseUser.value.uid;
      var snap := auth.store.Get(uid);
      var cartArr := if snap.Some? then snap.value.cart.GetOr([]) else [];
      DecreaseQtyEffect(cartArr, productId);
      out := WriteCart(uid, CartLines.DecreaseQty(cartArr, productId));
    }

    /**
     * `addToCart(itemData)`: a guest has the line merged into every line with
     * its product id or appended; a signed-in user has it merged into the
     * first such line of the stored cart or appended.
     */
    method AddToCart(itemData: ItemData) returns (out: Outcome<()>)
      modifies this, auth.store, device
      ensures auth.store.orders == old(auth.store.orders) && auth.store.nextId == old(auth.store.nextId)
      ensures device.checkoutCart == old(device.checkoutCart)
      ensures auth.firebaseUser.None? ==>
        && guestCart == AddLocal(old(guestCart), LineOf(itemData)) && Saved()
        && out == Resolved(()) && firebaseCart == old(firebaseCart) && auth.store.docs == old(auth.store.docs)
      ensures auth.firebaseUser.Some? ==>
        var uid := auth.firebaseUser.value.uid;
        && CartWritten(old(auth.store.docs), auth.store.docs, old(firebaseCart), firebaseCart, uid,
                       MergeIntoFirst(StoredCart(old(auth.store.docs), uid), LineOf(itemData)), out)
        && guestCart == old(guestCart) && device.guestCart == old(device.guestCart)
      ensures old(Valid()) && LineOf(itemData).qty > 0 ==> Valid()
      ensures out.Resolved? || old(Mirrored()) ==> Mirrored()
    {
      var item := LineOf(itemData);
      if auth.firebaseUser.None? {
        AddLocalEffect(guestCart, item);
        guestCart := AddLocal(guestCart, item);
        device.guestCart := Some(guestCart);
        return Resolved(());
      }
      var uid := auth.firebaseUser.value.uid;
      var snap := auth.store.Get(uid);
      var cartArr := if snap.Some? then snap.value.cart.GetOr([]) else [];
      MergeIntoFirstEffect(cartArr, item);
      cartArr := AddFirst(cartArr, item);
      out := WriteCart(uid, cartArr);
    }

    /** `removeFromCart(productId)`: every line for `productId` goes. */
    method RemoveFromCart(productId: string) returns (out: Outcome<()>)
      modifies this, auth.store, device
      ensures auth.store.orders == old(auth.store.orders) && auth.store.nextId == old(auth.store.nextId)
      ensures device.checkoutCart == old(device.checkoutCart)
      ensures auth.firebaseUser.None? ==>
        && guestCart == CartLines.RemoveFromCart(old(guestCart), productId) && Saved()
        && out == Resolved(()) && firebaseCart == old(firebaseCart) && auth.store.docs == old(auth.store.docs)
      ensures auth.firebaseUser.Some? ==>
        var uid := auth.firebaseUser.value.uid;
        && CartWritten(old(auth.store.docs), auth.store.docs, old(firebaseCart), firebaseCart, uid,
                       CartLines.RemoveFromCart(StoredCart(old(auth.store.docs), uid), productId), out)
        && guestCart == old(guestCart) && device.guestCart == old(device.guestCart)
      ensures old(Valid()) ==> Valid()
      ensures out.Resolved? || old(Mirrored()) ==> Mirrored()
    {
      if auth.firebaseUser.None? {
        RemoveFromCartEffect(guestCart, productId);
        guestCart := CartLines.RemoveFromCart(guestCart, productId);
        device.guestCart := Some(guestCart);
        return Resolved(());
      }
      var uid := auth.firebaseUser.value.uid;
      var snap := auth.store.Get(uid);
      var cartArr := if snap.Some? then snap.value.cart.GetOr([]) else [];
      RemoveFromCartEffect(cartArr, productId);
      out := WriteCart(uid, CartLines.RemoveFromCart(cartArr, productId));
    }

    /** `clearCart()`: the guest cart, or the stored cart, becomes empty. */
    method ClearCart() returns (out: Outcome<()>)
      modifies this, auth.store, device
      ensures auth.store.orders == old(auth.store.orders) && auth.store.nextId == old(auth.store.nextId)
      ensures device.checkoutCart == old(device.checkoutCart)
      ensures auth.firebaseUser.None? ==>
        && guestCart == [] && Saved()
        && out == Resolved(()) && firebaseCart == old(firebaseCart) && auth.store.docs == old(auth.store.docs)
      ensures auth.firebaseUser.Some? ==>
        && CartWritten(old(auth.store.docs), auth.store.docs, old(firebaseCart), firebaseCart,
                       auth.firebaseUser.value.uid, [], out)
        && guestCart == old(guestCart) && device.guestCart == old(device.guestCart)
      ensures old(Valid()) ==> Valid()
      ensures out.Resolved? || old(Mirrored()) ==> Mirrored()
    {
      if auth.firebaseUser.None? {
        guestCart := [];
        device.guestCart := Some(guestCart);
        return Resolved(());
      }
      out := WriteCart(auth.firebaseUser.value.uid, []);
    }

    /**
     * `checkout()`: a signed-out visitor gets a refusal and nothing changes.
     * For a signed-in user the stored cart becomes one new order appended to
     * the document's orders and the cart is emptied, in one write; the shown
     * cart empties once the write succeeds.
     */
    method Checkout(now: int) returns (out: Outcome<Reply>)
      modifies this, auth.store
      ensures guestCart == old(guestCart)
      ensures auth.store.orders == old(auth.store.orders) && auth.store.nextId == old(auth.store.nextId)
      ensures auth.firebaseUser.None? ==>
        out == Resolved(Reply(false, SignInFirst)) && firebaseCart == old(firebaseCart) && auth.store.docs == old(auth.store.docs)
      ensures auth.firebaseUser.Some? ==>
        var uid := auth.firebaseUser.value.uid;
        && auth.store.docs == Updated(old(auth.store.docs), uid, CheckoutPatch(old(auth.store.docs), uid, now))
        && (uid in old(auth.store.docs) ==> out == Resolved(Reply(true, OrderPlaced)) && firebaseCart == [])
        && (uid !in old(auth.store.docs) ==>
              out == Rejected(NoDocument) && firebaseCart == old(firebaseCart) && auth.store.docs == old(auth.store.docs))
      ensures old(Valid()) ==> Valid()
      ensures out.Resolved? || old(Mirrored()) ==> Mirrored()
    {
      if auth.firebaseUser.None? {
        return Resolved(Reply(false, SignInFirst));
      }
      var uid := auth.firebaseUser.value.uid;
      var snap := auth.store.Get(uid);
      var pending := if snap.Some? then snap.value.cart.GetOr([]) else [];
      var placed := if snap.Some? then snap.value.orders.GetOr([]) else [];
      var newOrder := Order(now, pending, now, now + 5 * DayMs, Processing);
      assert NoFields.(orders := Some(placed + [newOrder]), cart := Some([])) == CheckoutPatch(auth.store.docs, uid, now);
      if uid in auth.store.docs {
        CheckoutMovesCart(auth.store.docs, uid, now);
      }
      var ok := auth.store.UpdateDoc(uid, NoFields.(orders := Some(placed + [newOrder]), cart := Some([])));
      if !ok {
        return Rejected(NoDocument);
      }
      firebaseCart := [];
      return Resolved(Reply(true, OrderPlaced));
    }
  }
}
