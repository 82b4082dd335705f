/**
 * The checkout page (src/app/checkout/CheckoutPage.tsx) and the hand-off
 * from the cart page (src/app/cart/page.tsx): the contact form, the items
 * the order is built from, and order placement, which writes one record to
 * the user's `orders` sub-collection and, on the cart path, clears the cart.
 */
module CheckoutPage {
  import opened Types
  import opened CartLines
  import opened FirebaseConfig
  import opened AuthContext
  import opened CartContext

  /** A catalogue product as the product service returns it (the fields read here). */
  datatype Product = Product(id: string, title: string, price: int, image: string)

  /** The form fields an input event can name. */
  datatype Field = NameField | EmailField | PhoneField | AddressField | NotesField

  /** How an attempt to place an order ends. */
  datatype Placement =
    | MissingFields        // a required field is empty; nothing is written
    | LoginRequired        // no user document is loaded; the page redirects to login
    | Placed(id: nat)      // the order record was added under this id
    | PlacementFailed      // the order write was refused; nothing is written
    | NothingToOrder       // the item list is empty (only the guarded placement ends so)

  /** The form as the page first shows it. */
  const BlankForm: CheckoutForm := CheckoutForm("", "", "", "", Some(""))

  /** An input change: the form with the field called `name` set to `value`. */
  function SetField(form: CheckoutForm, field: Field, value: string): (f: CheckoutForm)
    ensures field == NameField ==> f == form.(name := value)
    ensures field == EmailField ==> f == form.(email := value)
    ensures field == PhoneField ==> f == form.(phone := value)
    ensures field == AddressField ==> f == form.(address := value)
    ensures field == NotesField ==> f == form.(notes := Some(value))
  {
    match field
    case NameField => form.(name := value)
    case EmailField => form.(email := value)
    case PhoneField => form.(phone := value)
    case AddressField => form.(address := value)
    case NotesField => form.(notes := Some(value))
  }

  /** Name, phone and address are required; e-mail and notes are not. */
  predicate MissingRequired(form: CheckoutForm) {
    form.name == "" || form.phone == "" || form.address == ""
  }

  /** Writing one field leaves the requiredness of the others as it was. */
  lemma SetFieldRequired(form: CheckoutForm, field: Field, value: string)
    ensures (field == EmailField || field == NotesField) ==>
      (MissingRequired(SetField(form, field, value)) <==> MissingRequired(form))
    ensures (field == NameField || field == PhoneField || field == AddressField) && value == "" ==>
      MissingRequired(SetField(form, field, value))
    ensures !MissingRequired(form) && value != "" ==> !MissingRequired(SetField(form, field, value))
  {
  }

  /** The one line the product path orders: the product, quantity 1. */
  function ProductLine(p: Product): (line: CartItem)
    ensures line.productId == p.id && line.title == p.title && line.price == p.price
    ensures line.image == Some(p.image) && line.qty == 1
  {
    CartItem(p.id, p.title, p.price, 1, Some(p.image))
  }

  /**
   * The items of the order: the cart snapshot on the cart path, else the
   * loaded product once, else nothing.
   */
  function OrderItems(fromCart: bool, cartItems: seq<CartItem>, product: Option<Product>): (items: seq<CartItem>)
    ensures fromCart ==> items == cartItems
    ensures !fromCart && product.Some? ==> |items| == 1 && items[0] == ProductLine(product.value)
    ensures !fromCart && product.None? ==> items == []
  {
    if fromCart then cartItems
    else if product.Some? then [ProductLine(product.value)]
    else []
  }

  /**
   * The item list is empty exactly on the cart path with an empty snapshot
   * and off it with no product loaded, and it counts what it orders.
   */
  lemma OrderItemsEmpty(fromCart: bool, cartItems: seq<CartItem>, product: Option<Product>)
    ensures OrderItems(fromCart, cartItems, product) == [] <==>
      (fromCart && cartItems == []) || (!fromCart && product.None?)
    ensures !fromCart && product.Some? ==> Count(OrderItems(fromCart, cartItems, product)) == 1
    ensures !fromCart && product.Some? ==>
      Total(OrderItems(fromCart, cartItems, product)) == product.value.price
  {
    if !fromCart && product.Some? {
      var items := OrderItems(fromCart, cartItems, product);
      assert items == [ProductLine(product.value)];
      assert items[1..] == [];
    }
  }

  /**
   * The cart page's checkout button: an empty cart stays on the page; a
   * non-empty one is copied to `checkoutCart` and the cart path is opened.
   */
  method HandOffCart(cartItems: seq<CartItem>, device: LocalStorage) returns (go: bool)
    modifies device
    ensures go <==> cartItems != []
    ensures go ==> device.checkoutCart == Some(cartItems)
    ensures !go ==> device.checkoutCart == old(device.checkoutCart)
    ensures device.guestCart == old(device.guestCart)
  {
    if |cartItems| == 0 {
      return false;
    }
    device.checkoutCart := Some(cartItems);
    go := true;
  }

  class CheckoutView {
    /** The `fromCart` query parameter is present and non-empty. */
    const fromCart: bool
    /** The `productId` query parameter, when present and non-empty. */
    const productId: Option<string>
    /** The cart provider, whose auth provider the page reads the session from. */
    const cart: CartProvider

    var product: Option<Product>
    var cartItems: seq<CartItem>
    var pageLoading: bool
    var form: CheckoutForm

    constructor (cart: CartProvider, fromCart: bool, productId: Option<string>)
      ensures this.cart == cart && this.fromCart == fromCart && this.productId == productId
      ensures product == None && cartItems == [] && pageLoading && form == BlankForm
    {
      this.cart := cart;
      this.fromCart := fromCart;
      this.productId := productId;
      product := None;
      cartItems := [];
      pageLoading := true;
      form := BlankForm;
    }

    /**
     * The session effect: once the auth provider has loaded, a missing user
     * document sends the visitor to login and a present one ends the page's
     * loading state.
     */
    method CheckSession() returns (toLogin: bool)
      modifies this
      ensures toLogin <==> !cart.auth.loading && cart.auth.user.None?
      ensures pageLoading == (old(pageLoading) && (cart.auth.loading || cart.auth.user.None?))
      ensures product == old(product) && cartItems == old(cartItems) && form == old(form)
    {
      toLogin := false;
      if !cart.auth.loading {
        if cart.auth.user.None? {
          toLogin := true;
        } else {
          pageLoading := false;
        }
      }
    }

    /**
     * The data effect, with a user document loaded: the cart path reads the
     * snapshot from the device (keeping the items shown when there is none);
     * the product path takes the product the catalogue returned, where `None`
     * is a failed request, which leaves the page loading. Without a user
     * nothing happens.
     */
    method LoadData(fetched: Option<Product>)
      modifies this
      ensures form == old(form)
      ensures cart.auth.user.None? ==> product == old(product) && cartItems == old(cartItems) && pageLoading == old(pageLoading)
      ensures cart.auth.user.Some? && fromCart ==>
        && cartItems == cart.device.checkoutCart.GetOr(old(cartItems))
        && product == old(product) && !pageLoading
      ensures cart.auth.user.Some? && !fromCart && productId.Some? ==>
        && cartItems == old(cartItems)
        && (fetched.Some? ==> product == fetched && !pageLoading)
        && (fetched.None? ==> product == old(product) && pageLoading == old(pageLoading))
      ensures cart.auth.user.Some? && !fromCart && productId.None? ==>
        product == old(product) && cartItems == old(cartItems) && !pageLoading
    {
      if cart.auth.user.None? {
        return;
      }
      if fromCart {
        if cart.device.checkoutCart.Some? {
          cartItems := cart.device.checkoutCart.value;
        }
      } else if productId.Some? {
        if fetched.None? {
          return;
        }
        product := fetched;
      }
      pageLoading := false;
    }

    /** An input event on the form. */
    method HandleChange(field: Field, value: string)
      modifies this
      ensures form == SetField(old(form), field, value)
      ensures product == old(product) && cartItems == old(cartItems) && pageLoading == old(pageLoading)
    {
      form := SetField(form, field, value);
    }

    /** The items this page would order now. */
    function Items(): (items: seq<CartItem>)
      reads this
      ensures items == [] <==> (fromCart && cartItems == []) || (!fromCart && product.None?)
    {
      OrderItemsEmpty(fromCart, cartItems, product);
      OrderItems(fromCart, cartItems, product)
    }

    /**
     * `handlePlaceOrder()` at time `now`; `writeFails` says whether the store
     * refuses the order write. A missing required field stops it first, then
     * a missing user document; otherwise one order record with status
     * "Processing" and delivery five days on is added under the document's
     * uid. Only on the cart path, and only after that write, the cart is
     * cleared and the snapshot removed from the device. A refused write
     * changes nothing.
     */
    method HandlePlaceOrder(now: int, writeFails: bool) returns (r: Placement)
      modifies cart, cart.auth.store, cart.device
      ensures r == MissingFields <==> MissingRequired(form)
      ensures r == LoginRequired <==> !MissingRequired(form) && cart.auth.user.None?
      ensures r == PlacementFailed <==> !MissingRequired(form) && cart.auth.user.Some? && writeFails
      ensures r.Placed? <==> !MissingRequired(form) && cart.auth.user.Some? && !writeFails
      ensures !r.Placed? ==>
        && cart.auth.store.docs == old(cart.auth.store.docs)
        && cart.auth.store.orders == old(cart.auth.store.orders)
        && cart.auth.store.nextId == old(cart.auth.store.nextId)
        && cart.guestCart == old(cart.guestCart) && cart.firebaseCart == old(cart.firebaseCart)
        && cart.device.guestCart == old(cart.device.guestCart)
        && cart.device.checkoutCart == old(cart.device.checkoutCart)
      ensures r.Placed? ==>
        var uid := cart.auth.user.value.uid;
        var order := PlacedOrder(Items(), form, now, now + 5 * DayMs, Processing);
        && r.id == old(cart.auth.store.nextId)
        && cart.auth.store.nextId == old(cart.auth.store.nextId) + 1
        && cart.auth.store.orders ==
             old(cart.auth.store.orders)[uid := SubOrders(old(cart.auth.store.orders), uid) + [OrderRecord(r.id, order, None)]]
      ensures r.Placed? && !fromCart ==>
        && cart.auth.store.docs == old(cart.auth.store.docs)
        && cart.guestCart == old(cart.guestCart) && cart.firebaseCart == old(cart.firebaseCart)
        && cart.device.guestCart == old(cart.device.guestCart)
        && cart.device.checkoutCart == old(cart.device.checkoutCart)
      ensures r.Placed? && fromCart ==>
        && cart.device.checkoutCart == None
        && (cart.auth.firebaseUser.None? ==>
              && cart.guestCart == [] && cart.device.guestCart == Some([])
              && cart.firebaseCart == old(cart.firebaseCart)
              && cart.auth.store.docs == old(cart.auth.store.docs))
        && (cart.auth.firebaseUser.Some? ==>
              var fuid := cart.auth.firebaseUser.value.uid;
              && cart.guestCart == old(cart.guestCart) && cart.device.guestCart == old(cart.device.guestCart)
              && cart.auth.store.docs == Updated(old(cart.auth.store.docs), fuid, CartPatch([]))
              && (fuid in old(cart.auth.store.docs) ==> cart.firebaseCart == [])
              && (fuid !in old(cart.auth.store.docs) ==> cart.firebaseCart == old(cart.firebaseCart)))
      ensures old(cart.auth.store.Valid()) ==> cart.auth.store.Valid()
    {
      if form.name == "" || form.phone == "" || form.address == "" {
        return MissingFields;
      }
      if cart.auth.user.None? {
        return LoginRequired;
      }
      var uid := cart.auth.user.value.uid;
      var items := OrderItems(fromCart, cartItems, product);
      if writeFails {
        return PlacementFailed;
      }
      var id := cart.auth.store.AddOrder(uid, PlacedOrder(items, form, now, now + 5 * DayMs, Processing), None);
      if fromCart {
        var _ := cart.ClearCart();
        cart.device.checkoutCart := None;
      }
      return Placed(id);
    }

    /**
     * Placement that also refuses an empty item list, after the form and
     * session checks and before any write; every other attempt ends, and
     * changes the state, exactly as `HandlePlaceOrder` does. No order it
     * writes is empty.
     */
    method HandlePlaceOrderGuarded(now: int, writeFails: bool) returns (r: Placement)
      modifies cart, cart.auth.store, cart.device
      ensures r == MissingFields <==> MissingRequired(form)
      ensures r == LoginRequired <==> !MissingRequired(form) && cart.auth.user.None?
      ensures r == NothingToOrder <==> !MissingRequired(form) && cart.auth.user.Some? && Items() == []
      ensures r == PlacementFailed <==> !MissingRequired(form) && cart.auth.user.Some? && Items() != [] && writeFails
      ensures r.Placed? <==> !MissingRequired(form) && cart.auth.user.Some? && Items() != [] && !writeFails
      ensures !r.Placed? ==>
        && cart.auth.store.docs == old(cart.auth.store.docs)
        && cart.auth.store.orders == old(cart.auth.store.orders)
        && cart.auth.store.nextId == old(cart.auth.store.nextId)
        && cart.guestCart == old(cart.guestCart) && cart.firebaseCart == old(cart.firebaseCart)
        && cart.device.guestCart == old(cart.device.guestCart)
        && cart.device.checkoutCart == old(cart.device.checkoutCart)
      ensures r.Placed? ==>
        var uid := cart.auth.user.value.uid;
        var order := PlacedOrder(Items(), form, now, now + 5 * DayMs, Processing);
        && Items() != []
        && r.id == old(cart.auth.store.nextId)
        && cart.auth.store.nextId == old(cart.auth.store.nextId) + 1
        && cart.auth.store.orders ==
             old(cart.auth.store.orders)[uid := SubOrders(old(cart.auth.store.orders), uid) + [OrderRecord(r.id, order, None)]]
      ensures r.Placed? && !fromCart ==>
        && cart.auth.store.docs == old(cart.auth.store.docs)
        && cart.guestCart == old(cart.guestCart) && cart.firebaseCart == old(cart.firebaseCart)
        && cart.device.guestCart == old(cart.device.guestCart)
        && cart.device.checkoutCart == old(cart.device.checkoutCart)
      ensures r.Placed? && fromCart ==>
        && cart.device.checkoutCart == None
        && (cart.auth.firebaseUser.None? ==>
              && cart.guestCart == [] && cart.device.guestCart == Some([])
              && cart.firebaseCart == old(cart.firebaseCart)
              && cart.auth.store.docs == old(cart.auth.store.docs))
        && (cart.auth.firebaseUser.Some? ==>
              var fuid := cart.auth.firebaseUser.value.uid;
              && cart.guestCart == old(cart.guestCart) && cart.device.guestCart == old(cart.device.guestCart)
              && cart.auth.store.docs == Updated(old(cart.auth.store.docs), fuid, CartPatch([]))
              && (fuid in old(cart.auth.store.docs) ==> cart.firebaseCart == [])
              && (fuid !in old(cart.auth.store.docs) ==> cart.firebaseCart == old(cart.firebaseCart)))
      ensures old(cart.auth.store.Valid()) ==> cart.auth.store.Valid()
    {
      if !MissingRequired(form) && cart.auth.user.Some? && Items() == [] {
        return NothingToOrder;
      }
      r := HandlePlaceOrder(now, writeFails);
    }
  }

  /**
   * Opening checkout with no query parameters and a user loaded, then
   * filling the form, lets `HandlePlaceOrder` write an order with no items;
   * the guarded placement refuses the same attempt.
   */
  method EmptyOrderIsWritten()
  {
    var store := new UserStore(map["u" := UserDoc("u", None, None, None, None, None, None, map[])]);
    var auth := new AuthProvider(store);
    auth.user := Some(store.docs["u"]);
    var device := new LocalStorage(None, None);
    var cart := new CartProvider(auth, device, None);
    var page := new CheckoutView(cart, false, None);
    page.form := CheckoutForm("Ann", "", "555", "1 Main St", None);
    var r := page.HandlePlaceOrder(0, false);
    assert r == Placed(0);
    assert store.orders["u"] == [OrderRecord(0, PlacedOrder([], page.form, 0, 5 * DayMs, Processing), None)];
  }

  /** The guarded placement refuses the attempt of `EmptyOrderIsWritten` and writes nothing. */
  method EmptyOrderIsRefused()
  {
    var store2 := new UserStore(map["u" := UserDoc("u", None, None, None, None, None, None, map[])]);
    var auth2 := new AuthProvider(store2);
    auth2.user := Some(store2.docs["u"]);
    var device2 := new LocalStorage(None, None);
    var cart2 := new CartProvider(auth2, device2, None);
    var page2 := new CheckoutView(cart2, false, None);
    page2.form := CheckoutForm("Ann", "", "555", "1 Main St", None);
    var r2 := page2.HandlePlaceOrderGuarded(0, false);
    assert r2 == NothingToOrder;
    assert store2.orders == map[];
  }
}
