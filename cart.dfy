/**
 * The cart as the storefront keeps it: an ordered list of line items, and the
 * pure computations the script runs over that list (the `filter` of
 * removeFromCart, the `map` of updateCartQuantity, the `reduce` that counts
 * items for the badge and the cart title).
 *
 * The list functions recurse on the last element, which is the order in
 * which `filter`, `map` and `reduce` accumulate their results.
 */
module Cart {
  import opened Wrappers
  import opened JsCoercion

  /** One product line. `quantity` is what parseInt produced when the line was
      written; `None` stands for NaN, which the storage encoding keeps as null. */
  datatype CartItem = CartItem(
    id: string,
    name: string,
    image: string,
    price: string,
    size: string,
    quantity: Option<int>,
    seller: string,
    material: string,
    color: string)

  predicate HasId(cart: seq<CartItem>, id: string)
  {
    exists i :: 0 <= i < |cart| && cart[i].id == id
  }

  /** The intent behind the generated ids: no two lines share one. */
  predicate DistinctIds(cart: seq<CartItem>)
  {
    forall i, j :: 0 <= i < j < |cart| ==> cart[i].id != cart[j].id
  }

  /** The quantities a caller is expected to write: none is negative. */
  predicate QuantitiesNonNegative(cart: seq<CartItem>)
  {
    forall i :: 0 <= i < |cart| && cart[i].quantity.Some? ==> cart[i].quantity.value >= 0
  }

  // ---------------------------------------------------------------------------
  // Append (addToCart)

  /** Appending a line whose id is new keeps the ids distinct. */
  lemma AppendKeepsIdsDistinct(cart: seq<CartItem>, item: CartItem)
    requires DistinctIds(cart) && !HasId(cart, item.id)
    ensures DistinctIds(cart + [item])
    ensures HasId(cart + [item], item.id)
  {
    var r := cart + [item];
    assert r[|cart|].id == item.id;
    forall i, j | 0 <= i < j < |r| ensures r[i].id != r[j].id {
      if j == |cart| {
        assert r[i] == cart[i];
      }
    }
  }

  // ---------------------------------------------------------------------------
  // Remove (removeFromCart)

  /** `cart.filter(item => item.id !== id)` */
  function Removed(cart: seq<CartItem>, id: string): (r: seq<CartItem>)
    ensures |r| <= |cart|
    ensures forall k :: 0 <= k < |r| ==> r[k].id != id
  {
    if cart == [] then []
    else
      var prefix := Removed(cart[..|cart| - 1], id);
      if cart[|cart| - 1].id == id then prefix else prefix + [cart[|cart| - 1]]
  }

  /** The positions of `cart` whose line survives the removal of `id`, in order. */
  function KeptIndices(cart: seq<CartItem>, id: string): (idx: seq<nat>)
    ensures forall k :: 0 <= k < |idx| ==> idx[k] < |cart| && cart[idx[k]].id != id
    ensures forall k, l :: 0 <= k < l < |idx| ==> idx[k] < idx[l]
    ensures forall i :: 0 <= i < |cart| && cart[i].id != id ==> i in idx
  {
    if cart == [] then []
    else
      var prefix := KeptIndices(cart[..|cart| - 1], id);
      if cart[|cart| - 1].id == id then prefix else prefix + [|cart| - 1]
  }

  /** The removal keeps exactly the lines whose id differs, each unchanged and in
      the original order: line k of the result is line KeptIndices[k] of the cart. */
  lemma {:induction false} RemovedKeepsOthersInOrder(cart: seq<CartItem>, id: string)
    ensures |Removed(cart, id)| == |KeptIndices(cart, id)|
    ensures forall k :: 0 <= k < |KeptIndices(cart, id)| ==>
              Removed(cart, id)[k] == cart[KeptIndices(cart, id)[k]]
  {
    if cart != [] {
      var p := cart[..|cart| - 1];
      RemovedKeepsOthersInOrder(p, id);
      assert forall i :: 0 <= i < |p| ==> p[i] == cart[i];
    }
  }

  /** Removing an id leaves the cart as it was exactly when no line carries it
      (in particular, removing from an empty cart). */
  lemma {:induction false} RemoveAbsentIsIdentity(cart: seq<CartItem>, id: string)
    ensures Removed(cart, id) == cart <==> !HasId(cart, id)
  {
    if cart != [] {
      var p, x := cart[..|cart| - 1], cart[|cart| - 1];
      assert cart == p + [x];
      RemoveAbsentIsIdentity(p, id);
      assert HasId(cart, id) <==> HasId(p, id) || x.id == id by {
        if HasId(cart, id) {
          var i :| 0 <= i < |cart| && cart[i].id == id;
          if i < |p| { assert p[i] == cart[i]; }
        }
        if HasId(p, id) {
          var i :| 0 <= i < |p| && p[i].id == id;
          assert cart[i] == p[i];
        }
      }
      if x.id != id {
        if Removed(cart, id) == cart {
          assert Removed(p, id) == Removed(cart, id)[..|p|];
        }
      }
    }
  }

  /** Removing the same id twice removes nothing more. */
  lemma RemoveIsIdempotent(cart: seq<CartItem>, id: string)
    ensures Removed(Removed(cart, id), id) == Removed(cart, id)
  {
  }

  /** A removal keeps the ids distinct. */
  lemma RemoveKeepsIdsDistinct(cart: seq<CartItem>, id: string)
    requires DistinctIds(cart)
    ensures DistinctIds(Removed(cart, id))
  {
    RemovedKeepsOthersInOrder(cart, id);
  }

  // ---------------------------------------------------------------------------
  // Update quantity (updateCartQuantity)

  /** `cart.map(item => item.id === id ? { ...item, quantity: q } : item)` */
  function WithQuantity(cart: seq<CartItem>, id: string, q: Option<int>): (r: seq<CartItem>)
    ensures |r| == |cart|
    ensures forall i :: 0 <= i < |cart| && cart[i].id == id ==> r[i] == cart[i].(quantity := q)
    ensures forall i :: 0 <= i < |cart| && cart[i].id != id ==> r[i] == cart[i]
  {
    if cart == [] then []
    else
      var prefix := WithQuantity(cart[..|cart| - 1], id, q);
      var last := cart[|cart| - 1];
      prefix + [if last.id == id then last.(quantity := q) else last]
  }

  /** An update keeps every id in its place, hence keeps the ids distinct. */
  lemma UpdateKeepsIds(cart: seq<CartItem>, id: string, q: Option<int>)
    ensures forall i :: 0 <= i < |cart| ==> WithQuantity(cart, id, q)[i].id == cart[i].id
    ensures DistinctIds(cart) ==> DistinctIds(WithQuantity(cart, id, q))
  {
  }

  /** Updating an id that no line carries leaves the cart as it was. */
  lemma UpdateAbsentIsIdentity(cart: seq<CartItem>, id: string, q: Option<int>)
    requires !HasId(cart, id)
    ensures WithQuantity(cart, id, q) == cart
  {
  }

  // ---------------------------------------------------------------------------
  // Item count (updateCartBadge, renderCartItems)

  /** What one line adds to the count: `parseInt(item.quantity || 1)`. */
  function Counted(q: Option<int>): (n: int)
    ensures q.None? || q.value == 0 ==> n == 1
    ensures q.Some? && q.value != 0 ==> n == q.value
  {
    OrDefault(q, 1)
  }

  /** `cart.reduce((sum, item) => sum + parseInt(item.quantity || 1), 0)`.
      How the sum grows line by line is stated by TotalOfConcat and
      TotalAfterAppend. */
  function TotalItems(cart: seq<CartItem>): (total: int)
    ensures cart == [] ==> total == 0
  {
    if cart == [] then 0
    else TotalItems(cart[..|cart| - 1]) + Counted(cart[|cart| - 1].quantity)
  }

  /** The count of a concatenation is the sum of the counts. */
  lemma {:induction false} TotalOfConcat(a: seq<CartItem>, b: seq<CartItem>)
    ensures TotalItems(a + b) == TotalItems(a) + TotalItems(b)
  {
    if b != [] {
      var b' := b[..|b| - 1];
      assert (a + b)[..|a + b| - 1] == a + b';
      TotalOfConcat(a, b');
    } else {
      assert a + b == a;
    }
  }

  /** Adding a line raises the count by that line's contribution. */
  lemma TotalAfterAppend(cart: seq<CartItem>, item: CartItem)
    ensures TotalItems(cart + [item]) == TotalItems(cart) + Counted(item.quantity)
  {
    assert (cart + [item])[..|cart|] == cart;
  }

  /** With no negative quantity every line counts at least once, so the count
      is at least the number of lines and is 0 exactly for the empty cart. */
  lemma {:induction false} TotalAtLeastLength(cart: seq<CartItem>)
    requires QuantitiesNonNegative(cart)
    ensures TotalItems(cart) >= |cart|
    ensures TotalItems(cart) == 0 <==> cart == []
  {
    if cart != [] {
      TotalAtLeastLength(cart[..|cart| - 1]);
    }
  }

  /** A prefix of a cart with distinct ids has distinct ids. */
  lemma PrefixKeepsIdsDistinct(cart: seq<CartItem>, n: nat)
    requires DistinctIds(cart) && n <= |cart|
    ensures DistinctIds(cart[..n])
  {
    var p := cart[..n];
    forall i, j | 0 <= i < j < |p| ensures p[i].id != p[j].id {
      assert p[i] == cart[i] && p[j] == cart[j];
    }
  }

  /** With distinct ids, the id of the last line occurs nowhere before it. */
  lemma LastIdNotInPrefix(cart: seq<CartItem>)
    requires DistinctIds(cart) && cart != []
    ensures !HasId(cart[..|cart| - 1], cart[|cart| - 1].id)
  {
    var p := cart[..|cart| - 1];
    forall i | 0 <= i < |p| ensures p[i].id != cart[|cart| - 1].id {
      assert p[i] == cart[i];
    }
  }

  /** When ids are distinct, removing the line at `k` lowers the count by
      exactly what that line contributed. */
  lemma {:induction false} TotalAfterRemove(cart: seq<CartItem>, k: nat)
    requires DistinctIds(cart) && k < |cart|
    ensures TotalItems(Removed(cart, cart[k].id)) == TotalItems(cart) - Counted(cart[k].quantity)
  {
    var id := cart[k].id;
    var p, x := cart[..|cart| - 1], cart[|cart| - 1];
    if k == |cart| - 1 {
      LastIdNotInPrefix(cart);
      RemoveAbsentIsIdentity(p, id);
    } else {
      assert p[k] == cart[k];
      PrefixKeepsIdsDistinct(cart, |cart| - 1);
      TotalAfterRemove(p, k);
      TotalAfterAppend(Removed(p, id), x);
    }
  }

  /** Updating the id of the last line, when no earlier line carries it,
      changes only that line's contribution to the count. */
  lemma TotalAfterUpdateOfLast(cart: seq<CartItem>, q: Option<int>)
    requires cart != [] && !HasId(cart[..|cart| - 1], cart[|cart| - 1].id)
    ensures TotalItems(WithQuantity(cart, cart[|cart| - 1].id, q))
              == TotalItems(cart) - Counted(cart[|cart| - 1].quantity) + Counted(q)
  {
    var p, x := cart[..|cart| - 1], cart[|cart| - 1];
    UpdateAbsentIsIdentity(p, x.id, q);
    assert WithQuantity(cart, x.id, q) == p + [x.(quantity := q)];
    TotalAfterAppend(p, x.(quantity := q));
  }

  /** Updating an id the last line does not carry leaves that line's
      contribution to the count as it was. */
  lemma TotalOfUpdateBeforeLast(cart: seq<CartItem>, id: string, q: Option<int>)
    requires cart != [] && cart[|cart| - 1].id != id
    ensures TotalItems(WithQuantity(cart, id, q))
              == TotalItems(WithQuantity(cart[..|cart| - 1], id, q)) + Counted(cart[|cart| - 1].quantity)
  {
    var p, x := cart[..|cart| - 1], cart[|cart| - 1];
    assert WithQuantity(cart, id, q) == WithQuantity(p, id, q) + [x];
    TotalAfterAppend(WithQuantity(p, id, q), x);
  }

  /** When ids are distinct, setting the quantity of the line at `k` changes the
      count by the difference of the old and the new contribution. */
  lemma {:induction false} TotalAfterUpdate(cart: seq<CartItem>, k: nat, q: Option<int>)
    requires DistinctIds(cart) && k < |cart|
    ensures TotalItems(WithQuantity(cart, cart[k].id, q))
              == TotalItems(cart) - Counted(cart[k].quantity) + Counted(q)
  {
    LastIdNotInPrefix(cart);
    if k == |cart| - 1 {
      TotalAfterUpdateOfLast(cart, q);
    } else {
      var p := cart[..|cart| - 1];
      assert p[k] == cart[k];
      PrefixKeepsIdsDistinct(cart, |cart| - 1);
      TotalAfterUpdate(p, k, q);
      TotalOfUpdateBeforeLast(cart, cart[k].id, q);
      assert TotalItems(cart) == TotalItems(p) + Counted(cart[|cart| - 1].quantity);
    }
  }

  /** What every `.cart-badge` element shows: the count, or "0" while hidden. */
  datatype Badge = Badge(count: int, visible: bool)

  /** The badge for a cart: shown with the count when the count is positive,
      otherwise hidden with the text 0. */
  function BadgeFor(cart: seq<CartItem>): (b: Badge)
    ensures b.visible <==> TotalItems(cart) > 0
    ensures b.visible ==> b.count == TotalItems(cart)
    ensures !b.visible ==> b.count == 0
  {
    var total := TotalItems(cart);
    if total > 0 then Badge(total, true) else Badge(0, false)
  }

  /** The badge shows the count whenever it is visible, and for a cart without
      negative quantities it is hidden exactly when the cart is empty. */
  lemma BadgeHiddenExactlyWhenEmpty(cart: seq<CartItem>)
    requires QuantitiesNonNegative(cart)
    ensures BadgeFor(cart).visible ==> BadgeFor(cart).count == TotalItems(cart)
    ensures !BadgeFor(cart).visible <==> cart == []
    ensures BadgeFor(cart).count == TotalItems(cart)
  {
    TotalAtLeastLength(cart);
  }

  /** The number in the cart page title "My cart (n)": 0 for the empty cart,
      otherwise the same sum the badge uses. */
  function CartTitleCount(cart: seq<CartItem>): (n: int)
    ensures n == TotalItems(cart)
  {
    if |cart| == 0 then 0 else TotalItems(cart)
  }
}
