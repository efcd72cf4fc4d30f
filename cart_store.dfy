/**
 The cart store owned by the `App` component: the cart entries, whether the cart
 overlay is open, and the log of success notifications the store has raised.
 Each handler replaces one piece of state with a value computed by `CartOps`.
 */
module CartStore {
  import opened Catalog
  import opened CartOps

  /** The fixed messages of the two success notifications. */
  const AddedMessage: string := "Added to cart!"
  const RemovedMessage: string := "Removed from cart!"

  datatype Option<T> = None | Some(value: T)

  /** What the cart overlay shows. */
  datatype Panel =
    | Hidden                                   // the overlay is closed
    | EmptyNotice                              // "Your cart is empty"
    | Listing(entries: seq<Product>, total: int)  // one row per entry, then the total

  class Store {
    var cart: seq<Product>
    var isOpen: bool
    var toasts: seq<string>   // notifications raised, oldest first

    /** The store's invariant: every entry is a catalog product. */
    ghost predicate Valid()
      reads this
    {
      FromCatalog(cart)
    }

    /** A session starts with an empty, closed cart and no notifications. */
    constructor ()
      ensures Valid()
      ensures cart == [] && !isOpen && toasts == []
    {
      cart := [];
      isOpen := false;
      toasts := [];
    }

    /** The derived total, recomputed from the current entries on every read. */
    function CartTotal(): int
      reads this
    {
      Total(cart)
    }

    /** The count badge on the cart button: present exactly when the cart has entries. */
    function Badge(): (b: Option<nat>)
      reads this
      ensures b.Some? <==> |cart| > 0
      ensures b.Some? ==> b.value == |cart|
    {
      if |cart| > 0 then Some(|cart|) else None
    }

    /**
     The overlay: nothing while closed; when open, the empty-cart notice exactly
     when there are no entries, otherwise every entry in order and the total.
     */
    function Overlay(): (v: Panel)
      reads this
      ensures v == Hidden <==> !isOpen
      ensures v == EmptyNotice <==> isOpen && |cart| == 0
      ensures v.Listing? ==> v.entries == cart && |cart| > 0 && v.total == CartTotal()
    {
      if !isOpen then Hidden
      else if |cart| == 0 then EmptyNotice
      else Listing(cart, CartTotal())
    }

    /** `addToCart`: the product becomes a new last entry and the total rises by its price. */
    method AddToCart(product: Product)
      modifies this
      ensures cart == Append(old(cart), product)
      ensures CartTotal() == old(CartTotal()) + product.price
      ensures Valid() <==> old(Valid()) && product in Products
      ensures isOpen == old(isOpen)
      ensures toasts == old(toasts) + [AddedMessage]
    {
      TotalAppend(cart, product);
      AppendFromCatalog(cart, product);
      cart := Append(cart, product);
      toasts := toasts + [AddedMessage];
    }

    /**
     `removeFromCart`: the entry at `index` leaves the cart and the others keep their
     order; an index that is not a position changes nothing but the notification log,
     which grows in both cases.
     */
    method RemoveFromCart(index: int)
      modifies this
      ensures cart == RemoveAt(old(cart), index)
      ensures 0 <= index < |old(cart)| ==>
        && cart == old(cart)[..index] + old(cart)[index + 1..]
        && CartTotal() == old(CartTotal()) - old(cart)[index].price
      ensures !(0 <= index < |old(cart)|) ==> cart == old(cart)
      ensures old(Valid()) ==> Valid()
      ensures isOpen == old(isOpen)
      ensures toasts == old(toasts) + [RemovedMessage]
    {
      if 0 <= index < |cart| {
        RemoveAtInRange(cart, index);
        TotalRemoveAt(cart, index);
      } else {
        RemoveAtOutOfRange(cart, index);
      }
      if Valid() {
        RemoveAtFromCatalog(cart, index);
      }
      cart := RemoveAt(cart, index);
      toasts := toasts + [RemovedMessage];
    }

    /** The cart button: opens the overlay and touches nothing else. */
    method OpenCart()
      modifies this
      ensures isOpen
      ensures cart == old(cart) && toasts == old(toasts)
      ensures CartTotal() == old(CartTotal()) && Badge() == old(Badge())
    {
      isOpen := true;
    }

    /** The close button: closes the overlay and touches nothing else. */
    method CloseCart()
      modifies this
      ensures !isOpen
      ensures cart == old(cart) && toasts == old(toasts)
      ensures CartTotal() == old(CartTotal()) && Badge() == old(Badge())
      ensures Overlay() == Hidden
    {
      isOpen := false;
    }
  }

  /**
   A session that adds one product twice and removes the first copy: the second copy
   stays, alone, and the total is its price.
   */
  method DuplicateSession(p: Product) returns (left: seq<Product>, total: int)
    ensures left == [p] && total == p.price
  {
    var store := new Store();
    store.AddToCart(p);
    store.AddToCart(p);
    store.RemoveFromCart(0);
    left, total := store.cart, store.CartTotal();
  }
}
