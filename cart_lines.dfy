/**
 * The rules by which the cart store (src/app/context/CartContext.tsx) turns
 * one sequence of cart lines into the next: the `map`/`filter`/`find`
 * expressions behind increase, decrease, remove and the guest add, the
 * `reduce` folds behind the count and the total, and the in-place
 * `findIndex`-then-bump-or-push merge that the signed-in add and the auth
 * context's add (src/app/context/AuthContext.tsx) perform on a fetched array.
 *
 * The invariant the store keeps is `WellFormed`: no `productId` occurs twice
 * and no line has a quantity of zero or less.
 */
module CartLines {
  import opened Types

  // ---------------------------------------------------------------------------
  // The invariant
  // ---------------------------------------------------------------------------

  /** No product occurs on two lines. */
  predicate UniqueIds(c: seq<CartItem>) {
    forall i, j :: 0 <= i < j < |c| ==> c[i].productId != c[j].productId
  }

  /** Every line has a quantity of at least one. */
  predicate AllPositive(c: seq<CartItem>) {
    forall i :: 0 <= i < |c| ==> c[i].qty > 0
  }

  predicate WellFormed(c: seq<CartItem>) {
    UniqueIds(c) && AllPositive(c)
  }

  /** Some line carries product `id`. */
  predicate HasId(c: seq<CartItem>, id: string) {
    exists i :: 0 <= i < |c| && c[i].productId == id
  }

  // ---------------------------------------------------------------------------
  // The folds: cartCount and total
  // ---------------------------------------------------------------------------

  /** Σ qty over the lines, the fold behind `cartCount`. */
  function Count(c: seq<CartItem>): int {
    if c == [] then 0 else c[0].qty + Count(c[1..])
  }

  /** Σ price×qty over the lines, in minor currency units. */
  function Total(c: seq<CartItem>): int {
    if c == [] then 0 else c[0].price * c[0].qty + Total(c[1..])
  }

  lemma {:induction false} CountAppend(a: seq<CartItem>, b: seq<CartItem>)
    ensures Count(a + b) == Count(a) + Count(b)
  {
    if a == [] {
      assert a + b == b;
    } else {
      assert (a + b)[1..] == a[1..] + b;
      CountAppend(a[1..], b);
    }
  }

  lemma {:induction false} TotalAppend(a: seq<CartItem>, b: seq<CartItem>)
    ensures Total(a + b) == Total(a) + Total(b)
  {
    if a == [] {
      assert a + b == b;
    } else {
      assert (a + b)[1..] == a[1..] + b;
      TotalAppend(a[1..], b);
    }
  }

  /** The count splits around line `k`. */
  lemma CountSplit(c: seq<CartItem>, k: nat)
    requires k < |c|
    ensures Count(c) == Count(c[..k]) + c[k].qty + Count(c[k+1..])
  {
    assert c[..k] + c[k..] == c;
    CountAppend(c[..k], c[k..]);
    assert c[k..][1..] == c[k+1..];
  }

  /** The total splits around line `k`. */
  lemma TotalSplit(c: seq<CartItem>, k: nat)
    requires k < |c|
    ensures Total(c) == Total(c[..k]) + c[k].price * c[k].qty + Total(c[k+1..])
  {
    assert c[..k] + c[k..] == c;
    TotalAppend(c[..k], c[k..]);
    assert c[k..][1..] == c[k+1..];
  }

  /** Replacing line `k` by `x` changes the count by the difference of their quantities. */
  lemma CountUpdate(c: seq<CartItem>, k: nat, x: CartItem)
    requires k < |c|
    ensures Count(c[k := x]) == Count(c) - c[k].qty + x.qty
  {
    var d := c[k := x];
    assert d[..k] == c[..k];
    assert d[k+1..] == c[k+1..];
    CountSplit(c, k);
    CountSplit(d, k);
  }

  /** Replacing line `k` by `x` changes the total by the difference of their amounts. */
  lemma TotalUpdate(c: seq<CartItem>, k: nat, x: CartItem)
    requires k < |c|
    ensures Total(c[k := x]) == Total(c) - c[k].price * c[k].qty + x.price * x.qty
  {
    var d := c[k := x];
    assert d[..k] == c[..k];
    assert d[k+1..] == c[k+1..];
    TotalSplit(c, k);
    TotalSplit(d, k);
  }

  /** Adding `q` to the quantity of line `k` raises the total by `q` times its price. */
  lemma TotalGrow(c: seq<CartItem>, k: nat, q: int)
    requires k < |c|
    ensures Total(c[k := c[k].(qty := c[k].qty + q)]) == Total(c) + c[k].price * q
  {
    TotalUpdate(c, k, c[k].(qty := c[k].qty + q));
    assert c[k].price * (c[k].qty + q) == c[k].price * c[k].qty + c[k].price * q;
  }

  /** `TotalGrow` for a cart `d` already known to be `c` with line `k` grown by `q`. */
  lemma TotalGrowTo(c: seq<CartItem>, k: nat, q: int, d: seq<CartItem>)
    requires k < |c| && d == c[k := c[k].(qty := c[k].qty + q)]
    ensures Total(d) == Total(c) + c[k].price * q
  {
    TotalGrow(c, k, q);
  }

  /**
   * On a cart of positive lines the count is at least the number of lines,
   * so it is zero exactly when the cart is empty.
   */
  lemma {:induction false} CountBoundsLines(c: seq<CartItem>)
    requires AllPositive(c)
    ensures Count(c) >= |c|
    ensures Count(c) == 0 <==> c == []
  {
    if c != [] {
      assert AllPositive(c[1..]) by {
        forall i | 0 <= i < |c[1..]| ensures c[1..][i].qty > 0 {
          assert c[1..][i] == c[i + 1];
        }
      }
      CountBoundsLines(c[1..]);
    }
  }

  // ---------------------------------------------------------------------------
  // map: add `delta` to every line of one product
  // ---------------------------------------------------------------------------

  function BumpLine(x: CartItem, id: string, delta: int): CartItem {
    if x.productId == id then x.(qty := x.qty + delta) else x
  }

  /** The quantity map: every line for `id` has `delta` added to its quantity, the other lines stay. */
  function Bump(c: seq<CartItem>, id: string, delta: int): seq<CartItem> {
    seq(|c|, i requires 0 <= i < |c| => BumpLine(c[i], id, delta))
  }

  /** With no line for `id`, the map changes nothing. */
  lemma BumpAbsent(c: seq<CartItem>, id: string, delta: int)
    requires !HasId(c, id)
    ensures Bump(c, id, delta) == c
  {
    var r := Bump(c, id, delta);
    assert forall i :: 0 <= i < |c| ==> r[i] == c[i];
  }

  /** With product ids unique, the map changes exactly the one line of `id`. */
  lemma BumpUnique(c: seq<CartItem>, id: string, delta: int, k: nat)
    requires UniqueIds(c) && k < |c| && c[k].productId == id
    ensures Bump(c, id, delta) == c[k := c[k].(qty := c[k].qty + delta)]
  {
    var r := Bump(c, id, delta);
    forall i | 0 <= i < |c| ensures r[i] == c[k := c[k].(qty := c[k].qty + delta)][i] {
      if i != k {
        assert c[i].productId != id by {
          if i < k { assert c[i].productId != c[k].productId; }
          else { assert c[k].productId != c[i].productId; }
        }
      }
    }
  }

  /** The map keeps every product id in place, so it keeps the ids unique. */
  lemma BumpKeepsIds(c: seq<CartItem>, id: string, delta: int)
    requires UniqueIds(c)
    ensures UniqueIds(Bump(c, id, delta))
  {
    var r := Bump(c, id, delta);
    assert forall i :: 0 <= i < |c| ==> r[i].productId == c[i].productId;
  }

  // ---------------------------------------------------------------------------
  // filter
  // ---------------------------------------------------------------------------

  /** `c.filter(p)`: the lines satisfying `p`, in their original order. */
  function Keep(c: seq<CartItem>, p: CartItem -> bool): (r: seq<CartItem>)
    ensures |r| <= |c|
  {
    if c == [] then []
    else (if p(c[0]) then [c[0]] else []) + Keep(c[1..], p)
  }

  /** The filter keeps exactly the lines that pass. */
  lemma {:induction false} KeepMembers(c: seq<CartItem>, p: CartItem -> bool)
    ensures forall x :: x in Keep(c, p) <==> x in c && p(x)
  {
    if c != [] {
      KeepMembers(c[1..], p);
      assert c == [c[0]] + c[1..];
    }
  }

  /** The filter distributes over concatenation: it never reorders lines. */
  lemma {:induction false} KeepAppend(a: seq<CartItem>, b: seq<CartItem>, p: CartItem -> bool)
    ensures Keep(a + b, p) == Keep(a, p) + Keep(b, p)
  {
    if a == [] {
      assert a + b == b;
    } else {
      var h := if p(a[0]) then [a[0]] else [];
      assert (a + b)[0] == a[0];
      assert (a + b)[1..] == a[1..] + b;
      assert Keep(a + b, p) == h + Keep(a[1..] + b, p);
      KeepAppend(a[1..], b, p);
      assert h + (Keep(a[1..], p) + Keep(b, p)) == (h + Keep(a[1..], p)) + Keep(b, p);
    }
  }

  /** A filter every line passes returns the cart unchanged. */
  lemma {:induction false} KeepAll(c: seq<CartItem>, p: CartItem -> bool)
    requires forall i :: 0 <= i < |c| ==> p(c[i])
    ensures Keep(c, p) == c
  {
    if c != [] {
      KeepAll(c[1..], p);
    }
  }

  /** A filter keeps product ids unique. */
  lemma {:induction false} KeepUnique(c: seq<CartItem>, p: CartItem -> bool)
    requires UniqueIds(c)
    ensures UniqueIds(Keep(c, p))
  {
    if c != [] {
      var rest := Keep(c[1..], p);
      KeepUnique(c[1..], p);
      KeepMembers(c[1..], p);
      forall x | x in rest ensures x.productId != c[0].productId {
        assert x in c[1..];
        var j :| 0 <= j < |c[1..]| && c[1..][j] == x;
        assert c[j + 1] == x;
      }
      var head := if p(c[0]) then [c[0]] else [];
      forall i, j | 0 <= i < j < |head + rest|
        ensures (head + rest)[i].productId != (head + rest)[j].productId
      {
        if i < |head| {
          assert (head + rest)[j] == rest[j - |head|];
          assert rest[j - |head|] in rest;
        } else {
          assert (head + rest)[i] == rest[i - |head|];
          assert (head + rest)[j] == rest[j - |head|];
        }
      }
    }
  }

  /** The test that keeps lines with a positive quantity. */
  function Stocked(x: CartItem): bool {
    x.qty > 0
  }

  /** The test that keeps lines of any product but `id`. */
  function OtherThan(id: string): CartItem -> bool {
    (x: CartItem) => x.productId != id
  }

  /** A filter that demands a positive quantity leaves only positive lines. */
  lemma KeepPositive(c: seq<CartItem>)
    ensures AllPositive(Keep(c, Stocked))
  {
    var r := Keep(c, Stocked);
    KeepMembers(c, Stocked);
    forall i | 0 <= i < |r| ensures r[i].qty > 0 {
      assert r[i] in r;
    }
  }

  // ---------------------------------------------------------------------------
  // The cart operations
  // ---------------------------------------------------------------------------

  /** increaseQty: one more of product `id`. */
  function IncreaseQty(c: seq<CartItem>, id: string): seq<CartItem> {
    Bump(c, id, 1)
  }

  /** decreaseQty: one fewer of product `id`, then every line at zero or below is dropped. */
  function DecreaseQty(c: seq<CartItem>, id: string): seq<CartItem> {
    Keep(Bump(c, id, -1), Stocked)
  }

  /** removeFromCart: every line of product `id` goes. */
  function RemoveFromCart(c: seq<CartItem>, id: string): seq<CartItem> {
    Keep(c, OtherThan(id))
  }

  /**
   * The guest add (`addLocal`): if some line has the product, every such line
   * grows by `item.qty`; otherwise the item is appended.
   */
  function AddLocal(c: seq<CartItem>, item: CartItem): seq<CartItem> {
    if HasId(c, item.productId) then Bump(c, item.productId, item.qty) else c + [item]
  }

  /** `findIndex`: the position of the first line of product `id`, or -1. */
  function IndexOf(c: seq<CartItem>, id: string): (k: int)
    ensures -1 <= k < |c|
    ensures k < 0 <==> !HasId(c, id)
    ensures k >= 0 ==> c[k].productId == id && forall j :: 0 <= j < k ==> c[j].productId != id
  {
    if c == [] then -1
    else if c[0].productId == id then 0
    else
      var k := IndexOf(c[1..], id);
      assert forall j :: 0 <= j < |c[1..]| ==> c[1..][j] == c[j + 1];
      if k < 0 then -1 else k + 1
  }

  /**
   * The signed-in add: the first line of the product grows by `item.qty`,
   * or the item is pushed on the end.
   */
  function MergeIntoFirst(c: seq<CartItem>, item: CartItem): seq<CartItem> {
    var k := IndexOf(c, item.productId);
    if k >= 0 then c[k := c[k].(qty := c[k].qty + item.qty)] else c + [item]
  }

  /**
   * The in-place form of `MergeIntoFirst` the source runs on the fetched
   * array: a scan for the first line of the product, then either that
   * line's quantity grows in place or the item is pushed on the end.
   */
  method AddFirst(c: seq<CartItem>, item: CartItem) returns (r: seq<CartItem>)
    ensures r == MergeIntoFirst(c, item)
  {
    var i := 0;
    while i < |c| && c[i].productId != item.productId
      invariant 0 <= i <= |c|
      invariant forall j :: 0 <= j < i ==> c[j].productId != item.productId
    {
      i := i + 1;
    }
    var idx := if i < |c| then i else -1;
    r := c;
    if idx > -1 {
      r := r[idx := r[idx].(qty := r[idx].qty + item.qty)];
    } else {
      r := r + [item];
    }
  }

  // ---------------------------------------------------------------------------
  // What each operation does
  // ---------------------------------------------------------------------------

  /**
   * increaseQty adds exactly one to the line of `id`; the length and every
   * other line stay; an absent id changes nothing; the invariant is kept and
   * the count rises by one exactly when the product is in the cart.
   */
  lemma IncreaseQtyEffect(c: seq<CartItem>, id: string)
    ensures |IncreaseQty(c, id)| == |c|
    ensures forall i :: 0 <= i < |c| && c[i].productId == id ==> IncreaseQty(c, id)[i] == c[i].(qty := c[i].qty + 1)
    ensures forall i :: 0 <= i < |c| && c[i].productId != id ==> IncreaseQty(c, id)[i] == c[i]
    ensures !HasId(c, id) ==> IncreaseQty(c, id) == c
    ensures WellFormed(c) ==> WellFormed(IncreaseQty(c, id))
    ensures UniqueIds(c) ==> Count(IncreaseQty(c, id)) == Count(c) + (if HasId(c, id) then 1 else 0)
  {
    if !HasId(c, id) {
      BumpAbsent(c, id, 1);
    }
    if UniqueIds(c) {
      BumpKeepsIds(c, id, 1);
      if HasId(c, id) {
        var k :| 0 <= k < |c| && c[k].productId == id;
        BumpUnique(c, id, 1, k);
        CountUpdate(c, k, c[k].(qty := c[k].qty + 1));
      }
    }
  }

  /**
   * decreaseQty never leaves a line at zero or below. On a well-formed cart
   * a line at one disappears and the rest keep their order, a line above one
   * loses exactly one, an absent id changes nothing, the invariant is kept
   * and the count falls by one exactly when the product is in the cart.
   */
  lemma DecreaseQtyEffect(c: seq<CartItem>, id: string)
    ensures AllPositive(DecreaseQty(c, id))
    ensures WellFormed(c) ==> WellFormed(DecreaseQty(c, id))
    ensures AllPositive(c) && !HasId(c, id) ==> DecreaseQty(c, id) == c
    ensures forall k :: 0 <= k < |c| && WellFormed(c) && c[k].productId == id && c[k].qty == 1 ==>
      DecreaseQty(c, id) == c[..k] + c[k+1..]
    ensures forall k :: 0 <= k < |c| && WellFormed(c) && c[k].productId == id && c[k].qty > 1 ==>
      DecreaseQty(c, id) == c[k := c[k].(qty := c[k].qty - 1)]
    ensures WellFormed(c) ==> Count(DecreaseQty(c, id)) == Count(c) - (if HasId(c, id) then 1 else 0)
  {
    var pos := Stocked;
    KeepPositive(Bump(c, id, -1));
    if AllPositive(c) && !HasId(c, id) {
      BumpAbsent(c, id, -1);
      KeepAll(c, pos);
    }
    if WellFormed(c) {
      BumpKeepsIds(c, id, -1);
      KeepUnique(Bump(c, id, -1), pos);
      forall k | 0 <= k < |c| && c[k].productId == id
        ensures c[k].qty == 1 ==> DecreaseQty(c, id) == c[..k] + c[k+1..]
        ensures c[k].qty > 1 ==> DecreaseQty(c, id) == c[k := c[k].(qty := c[k].qty - 1)]
        ensures Count(DecreaseQty(c, id)) == Count(c) - 1
      {
        DecreaseAt(c, id, k);
      }
      if !HasId(c, id) {
        BumpAbsent(c, id, -1);
        KeepAll(c, pos);
      }
    }
  }

  /**
   * Filtering a cart whose lines other than `k` all pass, after line `k` is
   * replaced by `x`, keeps everything around `k` in place.
   */
  lemma KeepSplice(c: seq<CartItem>, k: nat, x: CartItem, p: CartItem -> bool)
    requires k < |c|
    requires forall i :: 0 <= i < |c| && i != k ==> p(c[i])
    ensures Keep(c[k := x], p) == c[..k] + Keep([x], p) + c[k+1..]
  {
    var a, b := c[..k], c[k+1..];
    assert c[k := x] == a + [x] + b;
    KeepAppend(a + [x], b, p);
    KeepAppend(a, [x], p);
    forall i | 0 <= i < |a| ensures p(a[i]) {
      assert a[i] == c[i];
    }
    forall i | 0 <= i < |b| ensures p(b[i]) {
      assert b[i] == c[k + 1 + i];
    }
    KeepAll(a, p);
    KeepAll(b, p);
  }

  /** The lines before `k` all pass, so the filter keeps them all. */
  lemma KeepBefore(c: seq<CartItem>, k: nat, p: CartItem -> bool)
    requires k <= |c|
    requires forall i :: 0 <= i < |c| && i != k ==> p(c[i])
    ensures Keep(c[..k], p) == c[..k]
  {
    var a := c[..k];
    forall i | 0 <= i < |a| ensures p(a[i]) {
      assert a[i] == c[i];
    }
    KeepAll(a, p);
  }

  /** The lines after `k` all pass, so the filter keeps them all. */
  lemma KeepAfter(c: seq<CartItem>, k: nat, p: CartItem -> bool)
    requires k < |c|
    requires forall i :: 0 <= i < |c| && i != k ==> p(c[i])
    ensures Keep(c[k+1..], p) == c[k+1..]
  {
    var b := c[k+1..];
    forall i | 0 <= i < |b| ensures p(b[i]) {
      assert b[i] == c[k + 1 + i];
    }
    KeepAll(b, p);
  }

  /** Filtering a cart where only line `k` fails the test cuts out line `k`. */
  lemma KeepCut(c: seq<CartItem>, k: nat, p: CartItem -> bool)
    requires k < |c| && !p(c[k])
    requires forall i :: 0 <= i < |c| && i != k ==> p(c[i])
    ensures Keep(c, p) == c[..k] + c[k+1..]
  {
    var a, b := c[..k], c[k+1..];
    KeepBefore(c, k, p);
    KeepAfter(c, k, p);
    assert Keep(a + [c[k]], p) == a by {
      KeepAppend(a, [c[k]], p);
      assert Keep([c[k]], p) == [] by {
        assert [c[k]][1..] == [];
      }
      assert a + [] == a;
    }
    assert c == (a + [c[k]]) + b;
    KeepAppend(a + [c[k]], b, p);
  }

  /** Cutting line `k` out lowers the count by its quantity. */
  lemma CountCut(c: seq<CartItem>, k: nat)
    requires k < |c|
    ensures Count(c[..k] + c[k+1..]) == Count(c) - c[k].qty
  {
    CountAppend(c[..k], c[k+1..]);
    CountSplit(c, k);
  }

  /** In a cart with unique ids, only line `k` carries its product. */
  lemma OnlyLine(c: seq<CartItem>, k: nat)
    requires UniqueIds(c) && k < |c|
    ensures forall i :: 0 <= i < |c| && i != k ==> c[i].productId != c[k].productId
  {
    forall i | 0 <= i < |c| && i != k ensures c[i].productId != c[k].productId {
      if i < k { assert c[i].productId != c[k].productId; }
      else { assert c[k].productId != c[i].productId; }
    }
  }

  /** Decreasing the product of line `k` touches that line alone. */
  lemma DecreaseShape(c: seq<CartItem>, id: string, k: nat)
    requires WellFormed(c) && k < |c| && c[k].productId == id
    ensures DecreaseQty(c, id) == c[..k] + Keep([c[k].(qty := c[k].qty - 1)], Stocked) + c[k+1..]
  {
    var x := c[k].(qty := c[k].qty - 1);
    BumpUnique(c, id, -1, k);
    assert forall i :: 0 <= i < |c| && i != k ==> Stocked(c[i]);
    KeepSplice(c, k, x, Stocked);
  }

  /** A line at quantity 1 is cut out by the decrease. */
  lemma DecreaseDrops(c: seq<CartItem>, id: string, k: nat)
    requires WellFormed(c) && k < |c| && c[k].productId == id && c[k].qty == 1
    ensures DecreaseQty(c, id) == c[..k] + c[k+1..]
  {
    DecreaseShape(c, id, k);
    assert Keep([c[k].(qty := c[k].qty - 1)], Stocked) == [];
    assert c[..k] + [] + c[k+1..] == c[..k] + c[k+1..];
  }

  /** A line above quantity 1 loses one, in place. */
  lemma DecreaseKeeps(c: seq<CartItem>, id: string, k: nat)
    requires WellFormed(c) && k < |c| && c[k].productId == id && c[k].qty > 1
    ensures DecreaseQty(c, id) == c[k := c[k].(qty := c[k].qty - 1)]
  {
    var x := c[k].(qty := c[k].qty - 1);
    DecreaseShape(c, id, k);
    assert Keep([x], Stocked) == [x];
    assert c[..k] + [x] + c[k+1..] == c[k := x];
  }

  /** The case of `DecreaseQtyEffect` where line `k` carries the product. */
  lemma DecreaseAt(c: seq<CartItem>, id: string, k: nat)
    requires WellFormed(c) && k < |c| && c[k].productId == id
    ensures c[k].qty == 1 ==> DecreaseQty(c, id) == c[..k] + c[k+1..]
    ensures c[k].qty > 1 ==> DecreaseQty(c, id) == c[k := c[k].(qty := c[k].qty - 1)]
    ensures Count(DecreaseQty(c, id)) == Count(c) - 1
  {
    if c[k].qty == 1 {
      DecreaseDrops(c, id, k);
      CountCut(c, k);
    } else {
      DecreaseKeeps(c, id, k);
      CountUpdate(c, k, c[k].(qty := c[k].qty - 1));
    }
  }

  /** The case of `RemoveFromCartEffect` where line `k` carries the product. */
  lemma RemoveAt(c: seq<CartItem>, id: string, k: nat)
    requires UniqueIds(c) && k < |c| && c[k].productId == id
    ensures RemoveFromCart(c, id) == c[..k] + c[k+1..]
    ensures Count(RemoveFromCart(c, id)) == Count(c) - c[k].qty
  {
    OnlyLine(c, k);
    RemoveSplice(c, id, k);
    CountCut(c, k);
  }

  /** Filtering out the product of line `k`, when no other line has it, cuts out line `k`. */
  lemma RemoveSplice(c: seq<CartItem>, id: string, k: nat)
    requires k < |c| && c[k].productId == id
    requires forall i :: 0 <= i < |c| && i != k ==> c[i].productId != c[k].productId
    ensures Keep(c, OtherThan(id)) == c[..k] + c[k+1..]
  {
    var p := OtherThan(id);
    assert forall i :: 0 <= i < |c| && i != k ==> p(c[i]);
    KeepCut(c, k, p);
  }

  /**
   * removeFromCart leaves no line of `id` and keeps exactly the other lines;
   * an absent id changes nothing; on a cart with unique ids the one line of
   * `id` is cut out with the rest in order and the count falls by its
   * quantity; the invariant is kept.
   */
  lemma RemoveFromCartEffect(c: seq<CartItem>, id: string)
    ensures !HasId(RemoveFromCart(c, id), id)
    ensures forall x :: x in RemoveFromCart(c, id) <==> x in c && x.productId != id
    ensures !HasId(c, id) ==> RemoveFromCart(c, id) == c
    ensures forall k :: 0 <= k < |c| && UniqueIds(c) && c[k].productId == id ==>
      RemoveFromCart(c, id) == c[..k] + c[k+1..] && Count(RemoveFromCart(c, id)) == Count(c) - c[k].qty
    ensures WellFormed(c) ==> WellFormed(RemoveFromCart(c, id))
  {
    var r := RemoveFromCart(c, id);
    KeepMembers(c, OtherThan(id));
    assert !HasId(r, id) by {
      forall i | 0 <= i < |r| ensures r[i].productId != id {
        assert r[i] in r;
      }
    }
    if !HasId(c, id) {
      KeepAll(c, OtherThan(id));
    }
    forall k | 0 <= k < |c| && UniqueIds(c) && c[k].productId == id
      ensures r == c[..k] + c[k+1..] && Count(r) == Count(c) - c[k].qty
    {
      RemoveAt(c, id, k);
    }
    if WellFormed(c) {
      KeepUnique(c, OtherThan(id));
      forall i | 0 <= i < |r| ensures r[i].qty > 0 {
        assert r[i] in r;
      }
    }
  }

  /** With unique ids, the guest add on a product the cart holds at line `k` changes only line `k`. */
  lemma AddLocalShape(c: seq<CartItem>, item: CartItem, k: nat)
    requires UniqueIds(c) && k < |c| && c[k].productId == item.productId
    ensures AddLocal(c, item) == c[k := c[k].(qty := c[k].qty + item.qty)]
  {
    assert HasId(c, item.productId);
    BumpUnique(c, item.productId, item.qty, k);
  }

  /** The case of `AddLocalEffect` where line `k` already carries the product. */
  lemma AddLocalAt(c: seq<CartItem>, item: CartItem, k: nat)
    requires UniqueIds(c) && k < |c| && c[k].productId == item.productId
    ensures AddLocal(c, item) == c[k := c[k].(qty := c[k].qty + item.qty)]
    ensures Count(AddLocal(c, item)) == Count(c) + item.qty
  {
    AddLocalShape(c, item, k);
    CountUpdate(c, k, c[k].(qty := c[k].qty + item.qty));
  }

  /** The case of `AddLocalEffect` where no line carries the product. */
  lemma AddLocalNew(c: seq<CartItem>, item: CartItem)
    requires !HasId(c, item.productId)
    ensures AddLocal(c, item) == c + [item]
    ensures Count(AddLocal(c, item)) == Count(c) + item.qty
    ensures Total(AddLocal(c, item)) == Total(c) + item.price * item.qty
    ensures WellFormed(c) && item.qty > 0 ==> WellFormed(AddLocal(c, item))
  {
    CountAppend(c, [item]);
    TotalAppend(c, [item]);
  }

  /**
   * The guest add leaves a line for the product. An absent product is
   * appended; on a cart with unique ids an existing line at `k` grows by
   * `item.qty` and nothing else changes. Either way the count rises by
   * exactly `item.qty`, and a positive quantity keeps the invariant.
   */
  lemma AddLocalEffect(c: seq<CartItem>, item: CartItem)
    ensures HasId(AddLocal(c, item), item.productId)
    ensures !HasId(c, item.productId) ==> AddLocal(c, item) == c + [item]
    ensures forall k :: 0 <= k < |c| && UniqueIds(c) && c[k].productId == item.productId ==>
      AddLocal(c, item) == c[k := c[k].(qty := c[k].qty + item.qty)]
    ensures UniqueIds(c) ==> Count(AddLocal(c, item)) == Count(c) + item.qty
    ensures WellFormed(c) && item.qty > 0 ==> WellFormed(AddLocal(c, item))
  {
    var id := item.productId;
    var r := AddLocal(c, item);
    if HasId(c, id) {
      var k :| 0 <= k < |c| && c[k].productId == id;
      assert r[k].productId == id;
      if UniqueIds(c) {
        AddLocalAt(c, item, k);
        BumpKeepsIds(c, id, item.qty);
      }
    } else {
      assert r[|c|].productId == id;
      AddLocalNew(c, item);
    }
    forall k | 0 <= k < |c| && UniqueIds(c) && c[k].productId == id
      ensures r == c[k := c[k].(qty := c[k].qty + item.qty)]
    {
      AddLocalShape(c, item, k);
    }
  }

  /**
   * The guest add of a product held on line `k` of a cart with unique ids
   * raises the total by that line's price times the added quantity.
   */
  lemma AddLocalTotal(c: seq<CartItem>, item: CartItem, k: nat)
    requires UniqueIds(c) && k < |c| && c[k].productId == item.productId
    ensures Total(AddLocal(c, item)) == Total(c) + c[k].price * item.qty
  {
    AddLocalTotalAt(c, item, k, AddLocal(c, item));
  }

  /** `AddLocalTotal` about a cart `d` known to be the result of the add. */
  lemma AddLocalTotalAt(c: seq<CartItem>, item: CartItem, k: nat, d: seq<CartItem>)
    requires UniqueIds(c) && k < |c| && c[k].productId == item.productId && d == AddLocal(c, item)
    ensures Total(d) == Total(c) + c[k].price * item.qty
  {
    AddLocalShape(c, item, k);
    TotalGrowTo(c, k, item.qty, d);
  }

  /**
   * The signed-in merge grows only the FIRST line of the product, or appends;
   * either way the count rises by `item.qty` and a positive quantity keeps
   * the invariant.
   */
  lemma MergeIntoFirstEffect(c: seq<CartItem>, item: CartItem)
    ensures HasId(MergeIntoFirst(c, item), item.productId)
    ensures !HasId(c, item.productId) ==> MergeIntoFirst(c, item) == c + [item]
    ensures Count(MergeIntoFirst(c, item)) == Count(c) + item.qty
    ensures WellFormed(c) && item.qty > 0 ==> WellFormed(MergeIntoFirst(c, item))
  {
    var k := IndexOf(c, item.productId);
    var r := MergeIntoFirst(c, item);
    if k >= 0 {
      assert r[k].productId == item.productId;
      CountUpdate(c, k, c[k].(qty := c[k].qty + item.qty));
    } else {
      assert r[|c|].productId == item.productId;
      CountAppend(c, [item]);
    }
  }

  /**
   * With product ids unique, the guest add (every matching line) and the
   * signed-in add (the first matching line) give the same cart.
   */
  lemma MergeAgreesWithAddLocal(c: seq<CartItem>, item: CartItem)
    requires UniqueIds(c)
    ensures MergeIntoFirst(c, item) == AddLocal(c, item)
  {
    var k := IndexOf(c, item.productId);
    if k >= 0 {
      BumpUnique(c, item.productId, item.qty, k);
    }
  }

  /** Without unique ids the two adds part ways: the guest add grows both duplicates. */
  lemma DuplicatesSplitTheAdds()
    ensures var a := CartItem("p", "t", 1, 1, None);
            MergeIntoFirst([a, a], a) == [a.(qty := 2), a] &&
            AddLocal([a, a], a) == [a.(qty := 2), a.(qty := 2)]
  {
    var a := CartItem("p", "t", 1, 1, None);
    assert HasId([a, a], "p") by { assert [a, a][0].productId == "p"; }
    assert IndexOf([a, a], "p") == 0;
    var r := AddLocal([a, a], a);
    assert r == Bump([a, a], "p", 1);
    assert r[0] == a.(qty := 2) && r[1] == a.(qty := 2);
  }
}
