/**
 * The document store behind the storefront (src/app/firebase/config.ts):
 * one user document per uid under `users`, an `orders` sub-collection per
 * user, the create-or-patch rule that keeps a user's document in step with
 * the auth profile, and the order append.
 *
 * The managed store itself is abstracted to the `UserStore` class: a map from
 * uid to `UserDoc`, a map from uid to the records of its sub-collection, and
 * a counter standing in for the generated document ids. Each store call is
 * one atomic step.
 */
module FirebaseConfig {
  import opened Types
  import opened CartLines

  /** The profile the auth service reports for a signed-in user (the fields read here). */
  datatype FirebaseUser = FirebaseUser(uid: string, email: Option<string>, displayName: Option<string>, photoURL: Option<string>)

  /**
   * A set of field writes on a user document: a `Some` field is written, a
   * `None` field is left as it is, and `other` writes fields outside the
   * typed ones. It stands both for an object spread `{ ...base, ...extra }`
   * and for the argument of `updateDoc`.
   */
  datatype Patch = Patch(
    uid: Option<string>,
    email: Option<Option<string>>,
    name: Option<Option<string>>,
    photoURL: Option<Option<string>>,
    cart: Option<seq<CartItem>>,
    createdAt: Option<int>,
    orders: Option<seq<Order>>,
    other: map<string, string>)

  /** The empty patch, which writes no field. */
  const NoFields: Patch := Patch(None, None, None, None, None, None, None, map[])

  /** The patch that writes the cart `c` and nothing else. */
  function CartPatch(c: seq<CartItem>): Patch {
    NoFields.(cart := Some(c))
  }

  /** Later fields win: every field the patch names is replaced, the rest are kept. */
  function ApplyPatch(d: UserDoc, p: Patch): UserDoc {
    UserDoc(
      p.uid.GetOr(d.uid),
      p.email.GetOr(d.email),
      p.name.GetOr(d.name),
      p.photoURL.GetOr(d.photoURL),
      if p.cart.Some? then p.cart else d.cart,
      if p.createdAt.Some? then p.createdAt else d.createdAt,
      if p.orders.Some? then p.orders else d.orders,
      d.other + p.other)
  }

  /** The effect of `updateDoc(users/uid, p)`: it patches an existing document and is refused otherwise. */
  function Updated(docs: map<string, UserDoc>, uid: string, p: Patch): map<string, UserDoc> {
    if uid in docs then docs[uid := ApplyPatch(docs[uid], p)] else docs
  }

  /** The cart the operations read: the stored cart, or `[]` when there is no document or no cart. */
  function StoredCart(docs: map<string, UserDoc>, uid: string): seq<CartItem> {
    if uid in docs then docs[uid].cart.GetOr([]) else []
  }

  /** The orders the cart checkout reads: the stored orders, or `[]` when there are none. */
  function StoredOrders(docs: map<string, UserDoc>, uid: string): seq<Order> {
    if uid in docs then docs[uid].orders.GetOr([]) else []
  }

  /** The cart invariant, held by the cart of every user document. */
  predicate EveryCartWellFormed(docs: map<string, UserDoc>) {
    forall uid :: uid in docs ==> WellFormed(docs[uid].cart.GetOr([]))
  }

  /**
   * An update touches one document: the set of documents stays, the target
   * (when it exists) becomes the patched document, and every other document
   * is as it was.
   */
  lemma UpdatedTouchesOne(docs: map<string, UserDoc>, uid: string, p: Patch, k: string)
    ensures k in Updated(docs, uid, p) <==> k in docs
    ensures k in docs && k != uid ==> Updated(docs, uid, p)[k] == docs[k]
    ensures uid in docs ==> Updated(docs, uid, p)[uid] == ApplyPatch(docs[uid], p)
  {
  }

  /** Writing a well-formed cart into one document keeps every cart well formed. */
  lemma CartWriteKeepsInvariant(docs: map<string, UserDoc>, uid: string, c: seq<CartItem>)
    requires EveryCartWellFormed(docs) && WellFormed(c)
    ensures EveryCartWellFormed(Updated(docs, uid, CartPatch(c)))
  {
  }

  /**
   * A write of the cart field leaves every user's orders as they were, so an
   * order placed earlier is never changed by later cart operations.
   */
  lemma CartWriteKeepsOrders(docs: map<string, UserDoc>, uid: string, c: seq<CartItem>, anyUid: string)
    ensures StoredOrders(Updated(docs, uid, CartPatch(c)), anyUid) == StoredOrders(docs, anyUid)
    ensures uid in docs ==> StoredCart(Updated(docs, uid, CartPatch(c)), uid) == c
  {
  }

  /** Patching twice with the same fields is patching once. */
  lemma ApplyPatchIdempotent(d: UserDoc, p: Patch)
    ensures ApplyPatch(ApplyPatch(d, p), p) == ApplyPatch(d, p)
  {
    assert (d.other + p.other) + p.other == d.other + p.other;
  }

  /** A patch that writes only values the document already holds changes nothing. */
  lemma ApplyAgreeing(d: UserDoc, p: Patch)
    requires p.uid.Some? ==> p.uid.value == d.uid
    requires p.email.Some? ==> p.email.value == d.email
    requires p.name.Some? ==> p.name.value == d.name
    requires p.photoURL.Some? ==> p.photoURL.value == d.photoURL
    requires p.cart.Some? ==> p.cart == d.cart
    requires p.createdAt.Some? ==> p.createdAt == d.createdAt
    requires p.orders.Some? ==> p.orders == d.orders
    requires forall k :: k in p.other ==> k in d.other && d.other[k] == p.other[k]
    ensures ApplyPatch(d, p) == d
  {
    assert d.other + p.other == d.other;
  }

  // ---------------------------------------------------------------------------
  // createOrUpdateUserDocument
  // ---------------------------------------------------------------------------

  /** The fields written for a new user before `extra` is spread over them. */
  function BaseRecord(user: FirebaseUser, now: int): UserDoc {
    UserDoc(user.uid, user.email, user.displayName, user.photoURL, None, Some(now), None, map[])
  }

  /** `data`: the base fields with `extra` spread over them. */
  function NewUserRecord(user: FirebaseUser, extra: Patch, now: int): UserDoc {
    ApplyPatch(BaseRecord(user, now), extra)
  }

  /**
   * The patch written when the document exists: `extra` with `email` and
   * `name` taken from `data`. As `data` already has `extra` spread over it,
   * an `email` or `name` in `extra` is the one written.
   */
  function ExistingPatch(user: FirebaseUser, extra: Patch): Patch {
    extra.(email := Some(extra.email.GetOr(user.email)), name := Some(extra.name.GetOr(user.displayName)))
  }

  /** The store after `createOrUpdateUserDocument(user, extra)` at time `now`. */
  function Upserted(docs: map<string, UserDoc>, user: Option<FirebaseUser>, extra: Patch, now: int): map<string, UserDoc> {
    match user
    case None => docs
    case Some(u) =>
      if u.uid !in docs then docs[u.uid := NewUserRecord(u, extra, now)]
      else docs[u.uid := ApplyPatch(docs[u.uid], ExistingPatch(u, extra))]
  }

  /**
   * A null user touches nothing; otherwise only the document keyed by the
   * user's uid is written, and it exists afterwards.
   */
  lemma UpsertKeying(docs: map<string, UserDoc>, user: Option<FirebaseUser>, extra: Patch, now: int)
    ensures user.None? ==> Upserted(docs, user, extra, now) == docs
    ensures user.Some? ==> user.value.uid in Upserted(docs, user, extra, now)
    ensures user.Some? ==> forall k :: k != user.value.uid ==>
      (k in Upserted(docs, user, extra, now) <==> k in docs) &&
      (k in docs ==> Upserted(docs, user, extra, now)[k] == docs[k])
  {
  }

  /**
   * With no document yet, the one written holds uid, email, name and photo
   * from the profile (missing ones as null) and `createdAt = now`, every field
   * `extra` names overriding them; cart and orders exist only if `extra`
   * brings them.
   */
  lemma UpsertCreates(docs: map<string, UserDoc>, u: FirebaseUser, extra: Patch, now: int)
    requires u.uid !in docs
    ensures var d := Upserted(docs, Some(u), extra, now)[u.uid];
      && d.uid == extra.uid.GetOr(u.uid)
      && d.email == extra.email.GetOr(u.email)
      && d.name == extra.name.GetOr(u.displayName)
      && d.photoURL == extra.photoURL.GetOr(u.photoURL)
      && d.createdAt == Some(extra.createdAt.GetOr(now))
      && d.cart == extra.cart
      && d.orders == extra.orders
      && d.other == extra.other
  {
    assert map[] + extra.other == extra.other;
  }

  /**
   * With a document in place, only the fields `extra` names plus email and
   * name are written; email and name come from `extra` when it names them
   * and from the profile otherwise. Everything else, the cart and the orders
   * included, stays unless `extra` names it.
   */
  lemma UpsertPatches(docs: map<string, UserDoc>, u: FirebaseUser, extra: Patch, now: int)
    requires u.uid in docs
    ensures var was, d := docs[u.uid], Upserted(docs, Some(u), extra, now)[u.uid];
      && d.email == extra.email.GetOr(u.email)
      && d.name == extra.name.GetOr(u.displayName)
      && d.uid == extra.uid.GetOr(was.uid)
      && d.photoURL == extra.photoURL.GetOr(was.photoURL)
      && d.createdAt == (if extra.createdAt.Some? then extra.createdAt else was.createdAt)
      && d.cart == (if extra.cart.Some? then extra.cart else was.cart)
      && d.orders == (if extra.orders.Some? then extra.orders else was.orders)
      && (forall k :: k in d.other <==> k in was.other || k in extra.other)
      && (forall k :: k in extra.other ==> d.other[k] == extra.other[k])
      && (forall k :: k in was.other && k !in extra.other ==> d.other[k] == was.other[k])
  {
  }

  /**
   * Running the rule a second time for the same user with the same `extra`
   * leaves the store as the first run left it, whatever the clock says.
   */
  lemma UpsertIdempotent(docs: map<string, UserDoc>, u: FirebaseUser, extra: Patch, t1: int, t2: int)
    ensures Upserted(Upserted(docs, Some(u), extra, t1), Some(u), extra, t2) == Upserted(docs, Some(u), extra, t1)
  {
    var once := Upserted(docs, Some(u), extra, t1);
    var p := ExistingPatch(u, extra);
    if u.uid !in docs {
      var d := NewUserRecord(u, extra, t1);
      assert d.other == map[] + extra.other;
      assert forall k :: k in extra.other ==> k in d.other && d.other[k] == extra.other[k];
      ApplyAgreeing(d, p);
      assert once[u.uid := ApplyPatch(d, p)] == once;
    } else {
      ApplyPatchIdempotent(docs[u.uid], p);
    }
  }

  /**
   * The create-or-patch rule keeps every cart well formed as long as `extra`
   * brings no cart or a well-formed one; the profile fields it writes are
   * never a cart.
   */
  lemma UpsertKeepsCarts(docs: map<string, UserDoc>, user: Option<FirebaseUser>, extra: Patch, now: int)
    requires EveryCartWellFormed(docs)
    requires extra.cart.Some? ==> WellFormed(extra.cart.value)
    ensures EveryCartWellFormed(Upserted(docs, user, extra, now))
  {
    if user.Some? {
      var u := user.value;
      var after := Upserted(docs, user, extra, now);
      forall k | k in after ensures WellFormed(after[k].cart.GetOr([])) {
        if k == u.uid && u.uid !in docs {
          assert after[k].cart == extra.cart;
        } else if k == u.uid {
          assert after[k].cart == (if extra.cart.Some? then extra.cart else docs[k].cart);
        }
      }
    }
  }

  // ---------------------------------------------------------------------------
  // The store
  // ---------------------------------------------------------------------------

  /** One record of a user's `orders` sub-collection, with its generated id. */
  datatype OrderRecord = OrderRecord(id: nat, data: PlacedOrder, createdAt: Option<int>)

  /** A user's `orders` sub-collection, empty until the first order. */
  function SubOrders(orders: map<string, seq<OrderRecord>>, uid: string): seq<OrderRecord> {
    if uid in orders then orders[uid] else []
  }

  class UserStore {
    /** `users/{uid}` */
    var docs: map<string, UserDoc>
    /** `users/{uid}/orders` */
    var orders: map<string, seq<OrderRecord>>
    /** The id the next added record receives. */
    var nextId: nat

    /** Every record id handed out so far is below `nextId`, so a new one is fresh. */
    ghost predicate Valid()
      reads this
    {
      forall uid, i :: uid in orders && 0 <= i < |orders[uid]| ==> orders[uid][i].id < nextId
    }

    constructor (docs: map<string, UserDoc>)
      ensures this.docs == docs && orders == map[] && nextId == 0
      ensures Valid()
    {
      this.docs := docs;
      orders := map[];
      nextId := 0;
    }

    /** `getDoc(users/uid)` */
    function Get(uid: string): (snap: Option<UserDoc>)
      reads this
      ensures snap.Some? <==> uid in docs
      ensures snap.Some? ==> snap.value == docs[uid]
    {
      if uid in docs then Some(docs[uid]) else None
    }

    /** `setDoc(users/uid, d)` replaces or creates the document; a read afterwards returns `d`. */
    method SetDoc(uid: string, d: UserDoc)
      modifies this
      ensures docs == old(docs)[uid := d]
      ensures Get(uid) == Some(d)
      ensures forall k :: k != uid ==> Get(k) == old(Get(k))
      ensures orders == old(orders) && nextId == old(nextId)
    {
      docs := docs[uid := d];
    }

    /**
     * `updateDoc(users/uid, p)`: the write is refused when the document does
     * not exist. After a successful write a read returns the old document
     * with the patch applied; other documents read as before.
     */
    method UpdateDoc(uid: string, p: Patch) returns (ok: bool)
      modifies this
      ensures ok <==> uid in old(docs)
      ensures docs == Updated(old(docs), uid, p)
      ensures ok ==> Get(uid) == Some(ApplyPatch(old(docs)[uid], p))
      ensures !ok ==> Get(uid) == None && docs == old(docs)
      ensures forall k :: k != uid ==> Get(k) == old(Get(k))
      ensures orders == old(orders) && nextId == old(nextId)
    {
      ok := uid in docs;
      if ok {
        docs := docs[uid := ApplyPatch(docs[uid], p)];
      }
    }

    /** `addDoc(users/uid/orders, data)`: one record more, under a fresh id. */
    method AddOrder(uid: string, data: PlacedOrder, createdAt: Option<int>) returns (id: nat)
      modifies this
      ensures id == old(nextId) && nextId == old(nextId) + 1
      ensures orders == old(orders)[uid := SubOrders(old(orders), uid) + [OrderRecord(id, data, createdAt)]]
      ensures docs == old(docs)
      ensures old(Valid()) ==> Valid()
      ensures old(Valid()) ==> forall u, i :: u in old(orders) && 0 <= i < |old(orders)[u]| ==> old(orders)[u][i].id != id
    {
      id := nextId;
      orders := orders[uid := SubOrders(orders, uid) + [OrderRecord(id, data, createdAt)]];
      nextId := nextId + 1;
    }

    /**
     * `createOrUpdateUserDocument(user, extra)`: nothing for a null user;
     * otherwise the document is created from the profile and `extra` when it
     * is missing, or patched when it exists. Returns the document's key.
     */
    method CreateOrUpdateUserDocument(user: Option<FirebaseUser>, extra: Patch, now: int) returns (ref: Option<string>)
      modifies this
      ensures docs == Upserted(old(docs), user, extra, now)
      ensures ref == if user.Some? then Some(user.value.uid) else None
      ensures orders == old(orders) && nextId == old(nextId)
    {
      if user.None? {
        return None;
      }
      var u := user.value;
      var snap := Get(u.uid);
      if snap.None? {
        SetDoc(u.uid, NewUserRecord(u, extra, now));
      } else {
        var _ := UpdateDoc(u.uid, ExistingPatch(u, extra));
      }
      ref := Some(u.uid);
    }

    /** `createUserOrder(uid, orderData)`: `orderData` plus `createdAt`, added under a new id. */
    method CreateUserOrder(uid: string, orderData: PlacedOrder, now: int) returns (id: nat)
      modifies this
      ensures id == old(nextId)
      ensures orders == old(orders)[uid := SubOrders(old(orders), uid) + [OrderRecord(id, orderData, Some(now))]]
      ensures docs == old(docs)
      ensures old(Valid()) ==> Valid()
    {
      id := AddOrder(uid, orderData, Some(now));
    }
  }
}
