/** The session's two state cells, `cartState` and `shippingState`, and the
    click handlers that overwrite them. */
module Store {
  import opened Catalog
  import opened CartState
  import opened TotalsState

  class Session {
    var cart: Cart
    var shipping: string

    /** The session invariant: the cart keeps no zero quantity and no
        unknown item, and the selection is always a known destination. */
    ghost predicate Valid()
      reads this
      ensures Valid() ==> shipping in Destinations && ShippingPrice(shipping) >= 2500
      ensures Valid() ==> forall id :: Offered(cart, id) <==> id in cart
    {
      CartState.Valid(cart) && shipping in Destinations
    }

    /** A new session: empty cart, shipping to the default destination. */
    constructor ()
      ensures Valid()
      ensures cart == Empty && shipping == DefaultShipping
    {
      cart := Empty;
      shipping := DefaultShipping;
    }

    /** Click on "add" next to a catalogued item. */
    method AddItem(id: string)
      requires Valid() && id in Inventory
      modifies this
      ensures Valid()
      ensures cart == Add(old(cart), id) && shipping == old(shipping)
    {
      AddKeepsValid(cart, id);
      cart := Add(cart, id);
    }

    /** Click on "rem", which is rendered only for an item in the cart. */
    method RemoveItem(id: string)
      requires Valid() && Offered(cart, id)
      modifies this
      ensures Valid()
      ensures cart == Remove(old(cart), id) && shipping == old(shipping)
    {
      RemoveKeepsValid(cart, id);
      cart := Remove(cart, id);
    }

    /** Click on one of the destination buttons. */
    method SelectShipping(code: string)
      requires Valid() && code in Destinations
      modifies this
      ensures Valid()
      ensures shipping == code && cart == old(cart)
    {
      shipping := code;
    }

    /** Read the totals for the current state. */
    method CurrentTotals() returns (t: Totals)
      requires Valid()
      ensures t == TotalsOf(cart, shipping)
      ensures t.total == t.subtotal + ShippingPrice(shipping)
    {
      t := ComputeTotals(cart, shipping);
    }
  }

  /** A fresh session read straight away: nothing in the cart, 25.00 total. */
  method NewSessionTotals() returns (t: Totals)
    ensures t == Totals(0, 2500, 2500)
  {
    var s := new Session();
    t := s.CurrentTotals();
    DefaultTotals();
  }

  /** A fresh session switched to "CO" and read: 45.00 total. */
  method ShipToCOTotals() returns (t: Totals)
    ensures t.total == 4500
  {
    var s := new Session();
    s.SelectShipping("CO");
    t := s.CurrentTotals();
    EmptyCartToCO();
  }
}
