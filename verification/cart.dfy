/** The shopping cart: a map from item id to quantity, the two click
    handlers that produce a new cart from the old one, and the subtotal
    that the totals selector folds out of it. */
module CartState {
  import opened Catalog

  type Cart = map<string, nat>

  /** The cart every session starts with. */
  const Empty: Cart := map[]

  /** The cart invariant: every key is a catalogued item and no quantity
      is stored as zero. */
  ghost predicate Valid(c: Cart): (b: bool)
    ensures b ==> forall id :: id in c <==> Quantity(c, id) > 0
  {
    forall id :: id in c ==> id in Inventory && c[id] >= 1
  }

  /** Quantity of an item, 0 when it is not in the cart (`cart[id] || 0`). */
  function Quantity(c: Cart, id: string): (q: nat)
    ensures q > 0 ==> id in c
    ensures id in c ==> q == c[id]
  {
    if id in c then c[id] else 0
  }

  /** Whether the "rem" button is rendered for an item: `cart[id]` is truthy,
      that is, present and not zero. */
  predicate Offered(c: Cart, id: string): (b: bool)
    ensures b <==> Quantity(c, id) > 0
  {
    id in c && c[id] != 0
  }

  /** The "add" handler: a copy of the cart with the item's quantity one
      higher, inserted at 1 when absent. */
  function Add(c: Cart, id: string): (r: Cart)
    ensures id in r && r[id] == Quantity(c, id) + 1
    ensures r.Keys == c.Keys + {id}
    ensures forall k :: k in c && k != id ==> r[k] == c[k]
  {
    c[id := Quantity(c, id) + 1]
  }

  /** The "rem" handler, which is only reachable when the button is offered:
      a copy of the cart without the item when its quantity is 1, otherwise
      with the quantity one lower. */
  function Remove(c: Cart, id: string): (r: Cart)
    requires Offered(c, id)
    ensures c[id] == 1 ==> r.Keys == c.Keys - {id}
    ensures c[id] != 1 ==> r.Keys == c.Keys && r[id] == c[id] - 1
    ensures forall k :: k in r && k != id ==> r[k] == c[k]
  {
    if c[id] == 1 then c - {id} else c[id := c[id] - 1]
  }

  lemma {:induction false} AddKeepsValid(c: Cart, id: string)
    requires Valid(c) && id in Inventory
    ensures Valid(Add(c, id))
  {
  }

  lemma {:induction false} RemoveKeepsValid(c: Cart, id: string)
    requires Valid(c) && Offered(c, id)
    ensures Valid(Remove(c, id))
  {
  }

  /** On a valid cart the "rem" button is offered exactly for the items
      in the cart. */
  lemma {:induction false} OfferedIffInCart(c: Cart, id: string)
    requires Valid(c)
    ensures Offered(c, id) <==> id in c
  {
  }

  /** Removing an item right after adding it gives back the original cart. */
  lemma {:induction false} RemoveAfterAdd(c: Cart, id: string)
    requires Valid(c) && id in Inventory
    ensures Offered(Add(c, id), id)
    ensures Remove(Add(c, id), id) == c
  {
  }

  /** Adding an item right after removing it gives back the original cart. */
  lemma {:induction false} AddAfterRemove(c: Cart, id: string)
    requires Offered(c, id)
    ensures Add(Remove(c, id), id) == c
  {
  }

  // ---------------------------------------------------------------------
  // Click sequences

  /** One click on one of the item buttons. */
  datatype Click = AddClick(id: string) | RemClick(id: string)

  /** Whether the button the click lands on is rendered. Buttons are drawn
      only in the list of catalogued items: "add" for each of them, "rem"
      only when offered as well. */
  predicate Rendered(c: Cart, k: Click): (b: bool)
    ensures b ==> k.id in Inventory
    ensures k.AddClick? ==> (b <==> k.id in Inventory)
  {
    match k
    case AddClick(id) => id in Inventory
    case RemClick(id) => id in Inventory && Offered(c, id)
  }

  /** The cart after one click; a click on a button that is not rendered
      cannot happen and leaves the cart as it is. */
  function Step(c: Cart, k: Click): (r: Cart)
    ensures Valid(c) ==> Valid(r)
    ensures forall id :: id != k.id ==> Quantity(r, id) == Quantity(c, id)
  {
    if !Rendered(c, k) then c
    else match k
      case AddClick(id) => Add(c, id)
      case RemClick(id) => Remove(c, id)
  }

  /** The ids of the items a click sequence touches. */
  function ClickedIds(ks: seq<Click>): set<string> {
    set i | 0 <= i < |ks| :: ks[i].id
  }

  /** The cart after a sequence of clicks, first click first. Items that
      are never clicked keep their quantity. */
  function Run(c: Cart, ks: seq<Click>): (r: Cart)
    ensures forall id :: id !in ClickedIds(ks) ==> Quantity(r, id) == Quantity(c, id)
    decreases |ks|
  {
    if ks == [] then c else Run(Step(c, ks[0]), ks[1..])
  }

  /** Any sequence of clicks keeps the cart invariant. */
  lemma {:induction false} RunKeepsValid(c: Cart, ks: seq<Click>)
    requires Valid(c)
    ensures Valid(Run(c, ks))
    decreases |ks|
  {
    if ks != [] {
      RunKeepsValid(Step(c, ks[0]), ks[1..]);
    }
  }

  /** Starting from the empty default cart, no click sequence ever stores an
      unknown item or a quantity below 1. */
  lemma {:induction false} NoZeroQuantities(ks: seq<Click>)
    ensures forall id :: id in Run(Empty, ks) ==> Run(Empty, ks)[id] >= 1 && id in Inventory
  {
    RunKeepsValid(Empty, ks);
  }

  /** Adding "a" three times and then removing it twice leaves one "a". */
  lemma {:induction false} ThreeAddsTwoRemoves()
    ensures Run(Empty, [AddClick("a"), AddClick("a"), AddClick("a"), RemClick("a"), RemClick("a")])
            == map["a" := 1]
  {
  }

  // ---------------------------------------------------------------------
  // Subtotal

  /** Price of one cart line: unit price times quantity. */
  function LineTotal(id: string, q: nat): Cents
    requires id in Inventory
  {
    Price(id) * q
  }

  /** Some key of a non-empty cart. */
  ghost function Pick(c: Cart): (id: string)
    requires c != map[]
    ensures id in c
  {
    var id :| id in c; id
  }

  /** Sum of price times quantity over all lines of the cart, in no
      particular order. On a valid cart it is zero exactly when the cart
      is empty. */
  ghost function Subtotal(c: Cart): (s: Cents)
    requires forall id :: id in c ==> id in Inventory
    ensures Valid(c) ==> (s == 0 <==> c == Empty)
    decreases |c|
  {
    if c == map[] then 0
    else
      var id := Pick(c);
      assert |c - {id}| < |c| by { assert (c - {id}).Keys < c.Keys; }
      LineTotal(id, c[id]) + Subtotal(c - {id})
  }

  /** Any line can be split off the subtotal, not only the one Subtotal
      happens to pick, so the sum does not depend on the iteration order. */
  lemma {:induction false} SubtotalSplit(c: Cart, id: string)
    requires forall k :: k in c ==> k in Inventory
    requires id in c
    ensures Subtotal(c) == LineTotal(id, c[id]) + Subtotal(c - {id})
    decreases |c|
  {
    var p := Pick(c);
    if p != id {
      var c' := c - {p};
      assert (c - {p}).Keys < c.Keys;
      SubtotalSplit(c', id);
      var cId := c - {id};
      assert cId.Keys < c.Keys;
      SubtotalSplit(cId, p);
      assert c' - {id} == cId - {p};
    }
  }

  lemma {:induction false} SubtotalEmpty()
    ensures Subtotal(Empty) == 0
  {
  }

  /** Adding an item raises the subtotal by exactly its unit price. */
  lemma {:induction false} AddRaisesSubtotal(c: Cart, id: string)
    requires forall k :: k in c ==> k in Inventory
    requires id in Inventory
    ensures Subtotal(Add(c, id)) == Subtotal(c) + Price(id)
  {
    var r := c[id := Quantity(c, id) + 1];
    assert r == Add(c, id);
    SubtotalSplit(r, id);
    assert LineTotal(id, r[id]) == LineTotal(id, Quantity(c, id)) + Price(id);
    if id in c {
      SubtotalSplit(c, id);
      assert r - {id} == c - {id};
    } else {
      assert r - {id} == c;
    }
  }

  /** Removing an item lowers the subtotal by exactly its unit price. */
  lemma {:induction false} RemoveLowersSubtotal(c: Cart, id: string)
    requires forall k :: k in c ==> k in Inventory
    requires Offered(c, id)
    ensures Subtotal(Remove(c, id)) + Price(id) == Subtotal(c)
  {
    AddAfterRemove(c, id);
    AddRaisesSubtotal(Remove(c, id), id);
  }

  /** The worked example: two "a" and one "c" cost 27.50. */
  lemma {:induction false} SubtotalExample()
    ensures Subtotal(map["a" := 2, "c" := 1]) == 2750
  {
    var c := map["a" := 2, "c" := 1];
    SubtotalSplit(c, "a");
    assert c - {"a"} == map["c" := 1];
    SubtotalSplit(map["c" := 1], "c");
    assert map["c" := 1] - {"c"} == map[];
  }
}
