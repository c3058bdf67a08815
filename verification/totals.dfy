/** The totals selector: subtotal, shipping and total derived from the
    current cart and shipping selection on every read. */
module TotalsState {
  import opened Catalog
  import opened CartState

  datatype Totals = Totals(subtotal: Cents, shipping: Cents, total: Cents)

  /** What the selector promises: the order-free subtotal of the cart, the
      price of the selected destination, and their sum. */
  ghost function TotalsOf(c: Cart, shipping: string): (t: Totals)
    requires forall id :: id in c ==> id in Inventory
    requires shipping in Destinations
    ensures t.total == t.subtotal + t.shipping
    ensures t.shipping == ShippingPrice(shipping) <= t.total
    ensures Valid(c) ==> (t.total == t.shipping <==> c == Empty)
  {
    var s := Subtotal(c);
    Totals(s, ShippingPrice(shipping), s + ShippingPrice(shipping))
  }

  /** The selector's `get`: a fold over the cart's entries, taken in
      whatever order the runtime lists them, then the shipping lookup and
      one addition. */
  method ComputeTotals(c: Cart, shipping: string) returns (t: Totals)
    requires forall id :: id in c ==> id in Inventory
    requires shipping in Destinations
    ensures t == TotalsOf(c, shipping)
  {
    var rest := c;
    var acc: Cents := 0;
    while rest != map[]
      invariant forall id :: id in rest ==> id in Inventory
      invariant acc + Subtotal(rest) == Subtotal(c)
      decreases |rest|
    {
      var id :| id in rest;
      SubtotalSplit(rest, id);
      acc := acc + LineTotal(id, rest[id]);
      assert (rest - {id}).Keys < rest.Keys;
      rest := rest - {id};
    }
    var shippingTotal := Destinations[shipping];
    t := Totals(acc, shippingTotal, acc + shippingTotal);
  }

  /** Adding an item raises the total by its unit price and leaves the
      shipping price alone. */
  lemma {:induction false} AddRaisesTotal(c: Cart, shipping: string, id: string)
    requires Valid(c) && shipping in Destinations && id in Inventory
    ensures TotalsOf(Add(c, id), shipping).shipping == TotalsOf(c, shipping).shipping
    ensures TotalsOf(Add(c, id), shipping).total == TotalsOf(c, shipping).total + Price(id)
  {
    AddKeepsValid(c, id);
    AddRaisesSubtotal(c, id);
  }

  /** The empty default cart shipped to the default destination costs 25.00. */
  lemma {:induction false} DefaultTotals()
    ensures TotalsOf(Empty, DefaultShipping) == Totals(0, 2500, 2500)
  {
    SubtotalEmpty();
  }

  /** An empty cart shipped to "CO" costs 45.00. */
  lemma {:induction false} EmptyCartToCO()
    ensures TotalsOf(Empty, "CO").total == 4500
  {
    SubtotalEmpty();
  }

  /** Two "a" and one "c" shipped to "CA": 27.50 + 35.00 = 62.50. */
  lemma {:induction false} TotalsExample()
    ensures TotalsOf(map["a" := 2, "c" := 1], "CA") == Totals(2750, 3500, 6250)
  {
    SubtotalExample();
  }
}
