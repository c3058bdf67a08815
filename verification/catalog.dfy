/** The two fixed tables of the shop: the item inventory and the shipping
    destinations. Every amount is in integer cents, so that the dollar price
    7.50 of tea is exact. */
module Catalog {

  /** An amount of money in cents. */
  type Cents = nat

  /** Unit price of every purchasable item, keyed by item id. */
  const Inventory: map<string, Cents> := map["a" := 1000, "b" := 1500, "c" := 750]

  /** Flat shipping price of every destination, keyed by country code. */
  const Destinations: map<string, Cents> := map["US" := 2500, "CA" := 3500, "CO" := 4500]

  /** The destination selected when a session starts. */
  const DefaultShipping: string := "US"

  /** Unit price of a catalogued item. */
  function Price(id: string): (p: Cents)
    requires id in Inventory
    ensures p > 0
  {
    Inventory[id]
  }

  /** Shipping price of a known destination. */
  function ShippingPrice(code: string): (p: Cents)
    requires code in Destinations
    ensures 2500 <= p <= 4500
  {
    Destinations[code]
  }
}
