/**
 * The cart store: the `cart` entry of the browser's local storage, read and
 * written whole by getCartItems and saveCartItems, and the cart badges that
 * every write refreshes.
 *
 * The stored entry is kept decoded: the JSON text and its parsing are not
 * part of this model.
 */
module CartStore {
  import opened Wrappers
  import opened Cart

  class Store {
    /** The `cart` entry; `None` while the key is absent. */
    var stored: Option<seq<CartItem>>
    /** What every `.cart-badge` element shows. */
    var badge: Badge

    /** getCartItems: the stored list, or the empty list when there is none. */
    function Items(): (cart: seq<CartItem>)
      reads this
      ensures stored.Some? ==> cart == stored.value
      ensures stored.None? ==> cart == []
    {
      stored.GetOr([])
    }

    /** The badges agree with the stored cart. */
    ghost predicate Valid()
      reads this
    {
      badge == BadgeFor(Items())
    }

    /** Page load: storage as the page finds it, then the first updateCartBadge. */
    constructor (initial: Option<seq<CartItem>>)
      ensures stored == initial && Valid()
    {
      stored := initial;
      badge := BadgeFor(initial.GetOr([]));
    }

    method UpdateCartBadge()
      modifies this
      ensures stored == old(stored) && Valid()
    {
      badge := BadgeFor(Items());
    }

    method SaveCartItems(items: seq<CartItem>)
      modifies this
      ensures stored == Some(items) && Valid()
    {
      stored := Some(items);
      UpdateCartBadge();
    }

    /** Appends `product` with the id generated for it. The id is made by the
        caller from the clock and a random suffix. */
    method AddToCart(product: CartItem, cartItemId: string)
      modifies this
      ensures stored == Some(old(Items()) + [product.(id := cartItemId)]) && Valid()
      ensures |Items()| == |old(Items())| + 1 && Items()[..|old(Items())|] == old(Items())
      ensures Items()[|old(Items())|].id == cartItemId
      ensures TotalItems(Items()) == TotalItems(old(Items())) + Counted(product.quantity)
      ensures DistinctIds(old(Items())) && !HasId(old(Items()), cartItemId) ==> DistinctIds(Items())
    {
      var cart := Items();
      var item := product.(id := cartItemId);
      if DistinctIds(cart) && !HasId(cart, cartItemId) {
        AppendKeepsIdsDistinct(cart, item);
      }
      TotalAfterAppend(cart, item);
      cart := cart + [item];
      SaveCartItems(cart);
    }

    /** Drops every line with id `itemId` and returns what was stored. */
    method RemoveFromCart(itemId: string) returns (updatedCart: seq<CartItem>)
      modifies this
      ensures updatedCart == Removed(old(Items()), itemId)
      ensures stored == Some(updatedCart) && Valid()
      ensures !HasId(old(Items()), itemId) ==> Items() == old(Items())
      ensures DistinctIds(old(Items())) ==> DistinctIds(Items())
    {
      var cart := Items();
      updatedCart := Removed(cart, itemId);
      RemoveAbsentIsIdentity(cart, itemId);
      if DistinctIds(cart) {
        RemoveKeepsIdsDistinct(cart, itemId);
      }
      SaveCartItems(updatedCart);
    }

    /** Sets the quantity of every line with id `itemId` to `quantity`, the
        parseInt of the value the caller passes, and returns what was stored. */
    method UpdateCartQuantity(itemId: string, quantity: Option<int>) returns (updatedCart: seq<CartItem>)
      modifies this
      ensures updatedCart == WithQuantity(old(Items()), itemId, quantity)
      ensures stored == Some(updatedCart) && Valid()
      ensures !HasId(old(Items()), itemId) ==> Items() == old(Items())
      ensures DistinctIds(old(Items())) ==> DistinctIds(Items())
    {
      var cart := Items();
      updatedCart := WithQuantity(cart, itemId, quantity);
      UpdateKeepsIds(cart, itemId, quantity);
      if !HasId(cart, itemId) {
        UpdateAbsentIsIdentity(cart, itemId, quantity);
      }
      SaveCartItems(updatedCart);
    }

    /** The "remove all" button: stores the empty list once the shopper has
        confirmed, and does nothing otherwise. */
    method RemoveAll(confirmed: bool)
      modifies this
      ensures confirmed ==> stored == Some([]) && Valid()
      ensures !confirmed ==> stored == old(stored) && badge == old(badge)
    {
      if confirmed {
        SaveCartItems([]);
      }
    }
  }
}
