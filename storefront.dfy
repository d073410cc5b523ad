/** The page's module-level state: the cart, and which page section is visible.
    Each method is one user action; re-rendering and alerts are display only and
    are not modelled. */
module Storefront {
  import opened Catalog
  import opened CartStore

  class Store {
    /** The cart's lines, in the order they were first added. */
    var cart: seq<Line>
    /** Id of the page section the router last showed. */
    var page: string

    /** The cart store's invariant holds of the current cart. */
    predicate Valid()
      reads this
    {
      WellFormed(cart)
    }

    /** The state at load time: an empty cart on the given starting section. */
    constructor (initialPage: string)
      ensures cart == [] && page == initialPage && Valid()
    {
      cart := [];
      page := initialPage;
    }

    /** Add one unit of a catalog product: bump its line, or append a new line. */
    method AddToCart(productId: int)
      requires Find(productId).Some?
      modifies this
      ensures cart == AddLine(old(cart), Find(productId).value)
      ensures page == old(page)
      ensures old(Valid()) ==> Valid() && Count(cart) == old(Count(cart)) + 1
    {
      ghost var before := cart;
      var product := Find(productId).value;
      var existing := IndexOf(cart, productId);
      assert product.id == productId;
      match existing {
        case Some(i) =>
          cart := cart[i := cart[i].(qty := cart[i].qty + 1)];
        case None =>
          cart := cart + [NewLine(product)];
      }
      if WellFormed(before) {
        AddPreserves(before, product);
        AddCount(before, product);
      }
    }

    /** The badge count: the sum of the line quantities. */
    method UpdateCartCount() returns (count: int)
      ensures count == Count(cart)
      ensures Valid() ==> count >= |cart| && (count == 0 <==> cart == [])
    {
      count := Count(cart);
      if Valid() {
        CountAndTotalBounds(cart);
      }
    }

    /** The cart total in cents: the sum of price times quantity. */
    method CalculateTotal() returns (total: int)
      ensures total == Total(cart)
      ensures Valid() ==> total >= 0
    {
      total := Total(cart);
      if Valid() {
        CountAndTotalBounds(cart);
      }
    }

    /** Add `change` to the quantity of the line for `id`; a quantity that drops to
        zero or below removes the line. An id with no line is ignored. */
    method ChangeQty(id: int, change: int)
      modifies this
      ensures cart == ChangeQtyOf(old(cart), id, change)
      ensures page == old(page)
      ensures old(Valid()) ==> Valid()
    {
      var found := IndexOf(cart, id);
      if found.Some? {
        var i := found.value;
        cart := cart[i := cart[i].(qty := cart[i].qty + change)];
        if cart[i].qty <= 0 {
          RemoveItem(id);
        }
      }
      if old(Valid()) {
        ChangeEffect(old(cart), id, change);
      }
    }

    /** Drop every line whose id is `id`, keeping the others in order. */
    method RemoveItem(id: int)
      modifies this
      ensures cart == FilterOut(old(cart), id)
      ensures page == old(page)
      ensures old(Valid()) ==> Valid()
    {
      cart := FilterOut(cart, id);
      if old(Valid()) {
        RemoveEffect(old(cart), id);
      }
    }

    /** Show the section `pageId`; the cart is not touched. */
    method Router(pageId: string)
      modifies this
      ensures page == pageId
      ensures cart == old(cart)
    {
      page := pageId;
    }

    /** Submit the checkout form. Paying by "upi" needs a non-empty transaction id;
        otherwise nothing changes. An accepted order empties the cart and shows the
        "success" section. */
    method PlaceOrder(paymentMethod: string, upiId: string) returns (placed: bool)
      modifies this
      ensures placed <==> !(paymentMethod == "upi" && upiId == "")
      ensures placed ==> cart == [] && page == "success" && Valid()
      ensures placed ==> Count(cart) == 0 && Total(cart) == 0
      ensures !placed ==> cart == old(cart) && page == old(page)
    {
      if paymentMethod == "upi" {
        if upiId == "" {
          return false;
        }
      }
      cart := [];
      Router("success");
      placed := true;
    }
  }
}
