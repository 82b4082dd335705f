/**
 * The session provider (src/app/context/AuthContext.tsx): the signed-in
 * profile, the user document read back from the store, and the two cart
 * helpers that write the cart array inside that document.
 *
 * Every `await` of the source is one step here; the auth service's own
 * calls (password check, popup, sign-out) are outside the model and enter
 * as the `FirebaseUser` they produce.
 */
module AuthContext {
  import opened Types
  import opened CartLines
  import opened FirebaseConfig

  class AuthProvider {
    /** The profile the auth service last reported, `null` when signed out. */
    var firebaseUser: Option<FirebaseUser>
    /** The user document as last read or written by this provider. */
    var user: Option<UserDoc>
    /** True until the first auth-state event has been handled. */
    var loading: bool
    /** The document store the provider talks to. */
    const store: UserStore

    constructor (store: UserStore)
      ensures this.store == store
      ensures firebaseUser == None && user == None && loading
    {
      this.store := store;
      firebaseUser := None;
      user := None;
      loading := true;
    }

    /**
     * The auth-state listener, run for the event `fbUser` at time `now`. A
     * signed-in user gets their document created or refreshed from the
     * profile, and `user` becomes the document as stored; a sign-out clears
     * `user` and writes nothing. Either way loading ends.
     */
    method OnAuthStateChanged(fbUser: Option<FirebaseUser>, now: int)
      modifies this, store
      ensures firebaseUser == fbUser && !loading
      ensures store.docs == Upserted(old(store.docs), fbUser, NoFields, now)
      ensures fbUser.None? ==> user == None && store.docs == old(store.docs)
      ensures fbUser.Some? ==> fbUser.value.uid in store.docs && user == Some(store.docs[fbUser.value.uid])
      ensures store.orders == old(store.orders) && store.nextId == old(store.nextId)
    {
      firebaseUser := fbUser;
      if fbUser.Some? {
        var _ := store.CreateOrUpdateUserDocument(fbUser, NoFields, now);
        UpsertKeying(old(store.docs), fbUser, NoFields, now);
        user := store.Get(fbUser.value.uid);
      } else {
        user := None;
      }
      loading := false;
    }

    /**
     * Sign-up with e-mail: `created` is the account the auth service made (if
     * it reports one); its document is created with `extra` spread over the
     * profile fields.
     */
    method SignUpWithEmail(created: Option<FirebaseUser>, extra: Patch, now: int) returns (res: Option<FirebaseUser>)
      modifies store
      ensures res == created
      ensures store.docs == Upserted(old(store.docs), created, extra, now)
      ensures store.orders == old(store.orders) && store.nextId == old(store.nextId)
    {
      if created.Some? {
        var _ := store.CreateOrUpdateUserDocument(created, extra, now);
      }
      res := created;
    }

    /** Sign-in through the popup: `signedIn` is the account it reports; its document is created or refreshed. */
    method SignInWithGoogle(signedIn: Option<FirebaseUser>, now: int) returns (res: Option<FirebaseUser>)
      modifies store
      ensures res == signedIn
      ensures store.docs == Upserted(old(store.docs), signedIn, NoFields, now)
      ensures store.orders == old(store.orders) && store.nextId == old(store.nextId)
    {
      if signedIn.Some? {
        var _ := store.CreateOrUpdateUserDocument(signedIn, NoFields, now);
      }
      res := signedIn;
    }

    /** Sign-out: both the profile and the document are dropped; the store is not written. */
    method SignOut()
      modifies this
      ensures firebaseUser == None && user == None && loading == old(loading)
    {
      user := None;
      firebaseUser := None;
    }

    /**
     * `addToCart(item)`: refused without a signed-in user. Otherwise the
     * stored cart is read, `item` is merged into its first line with the same
     * product id (or appended), and the result is written back and mirrored
     * into `user`. A user without a document gets the write refused and
     * nothing changes.
     */
    method AddToCart(item: CartItem) returns (out: Outcome<()>)
      modifies this, store
      ensures firebaseUser == old(firebaseUser) && loading == old(loading)
      ensures store.orders == old(store.orders) && store.nextId == old(store.nextId)
      ensures old(firebaseUser).None? ==>
        out == Rejected(NotAuthenticated) && user == old(user) && store.docs == old(store.docs)
      ensures old(firebaseUser).Some? ==>
        var uid := old(firebaseUser).value.uid;
        var merged := MergeIntoFirst(StoredCart(old(store.docs), uid), item);
        && store.docs == Updated(old(store.docs), uid, CartPatch(merged))
        && (uid in old(store.docs) ==>
              out == Resolved(()) && user == Some(old(store.docs)[uid].(cart := Some(merged))))
        && (uid !in old(store.docs) ==> out == Rejected(NoDocument) && user == old(user))
      ensures EveryCartWellFormed(old(store.docs)) && item.qty > 0 ==> EveryCartWellFormed(store.docs)
    {
      if firebaseUser.None? {
        return Rejected(NotAuthenticated);
      }
      var uid := firebaseUser.value.uid;
      var snap := store.Get(uid);
      var existing := if snap.Some? then snap.value.cart.GetOr([]) else [];
      existing := AddFirst(existing, item);
      MergeIntoFirstEffect(StoredCart(store.docs, uid), item);
      if EveryCartWellFormed(store.docs) && item.qty > 0 {
        CartWriteKeepsInvariant(store.docs, uid, existing);
      }
      var ok := store.UpdateDoc(uid, CartPatch(existing));
      if !ok {
        return Rejected(NoDocument);
      }
      user := Some(snap.value.(cart := Some(existing)));
      return Resolved(());
    }

    /**
     * `clearCart()`: refused without a signed-in user; otherwise the stored
     * cart becomes empty and so does the cart of `user`, if there is one.
     */
    method ClearCart() returns (out: Outcome<()>)
      modifies this, store
      ensures firebaseUser == old(firebaseUser) && loading == old(loading)
      ensures store.orders == old(store.orders) && store.nextId == old(store.nextId)
      ensures old(firebaseUser).None? ==>
        out == Rejected(NotAuthenticated) && user == old(user) && store.docs == old(store.docs)
      ensures old(firebaseUser).Some? ==>
        var uid := old(firebaseUser).value.uid;
        && store.docs == Updated(old(store.docs), uid, CartPatch([]))
        && (uid in old(store.docs) ==>
              out == Resolved(()) && user == (if old(user).Some? then Some(old(user).value.(cart := Some([]))) else None))
        && (uid !in old(store.docs) ==> out == Rejected(NoDocument) && user == old(user))
      ensures EveryCartWellFormed(old(store.docs)) ==> EveryCartWellFormed(store.docs)
    {
      if firebaseUser.None? {
        return Rejected(NotAuthenticated);
      }
      var uid := firebaseUser.value.uid;
      if EveryCartWellFormed(store.docs) {
        CartWriteKeepsInvariant(store.docs, uid, []);
      }
      var ok := store.UpdateDoc(uid, CartPatch([]));
      if !ok {
        return Rejected(NoDocument);
      }
      user := if user.Some? then Some(user.value.(cart := Some([]))) else None;
      return Resolved(());
    }
  }
}
