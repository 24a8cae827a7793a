/** The price swap helper: exchanges the `unit_price` of two records in
    place, through a temporary. */
module Methods {
  import opened Items

  /** The swap on record values: each record takes the other's price and
      keeps all its other fields. */
  function Exchange(a: Item, b: Item): (Item, Item) {
    (a.(unitPrice := b.unitPrice), b.(unitPrice := a.unitPrice))
  }

  /** `swap_prices(a, b)`. Only the two `unit_price` fields may be written;
      every other field and every other object is left alone. When `a` and
      `b` are the same object the call changes nothing. No object is
      allocated. */
  method SwapPrices(a: InventoryItem, b: InventoryItem)
    modifies a`unitPrice, b`unitPrice
    ensures a.unitPrice == old(b.unitPrice)
    ensures b.unitPrice == old(a.unitPrice)
    ensures a.others == old(a.others) && b.others == old(b.others)
    ensures a == b ==> a.unitPrice == old(a.unitPrice)
    ensures forall o: object {:trigger allocated(o)} :: allocated(o) ==> old(allocated(o))
    ensures (a.Snapshot(), b.Snapshot()) == Exchange(old(a.Snapshot()), old(b.Snapshot()))
  {
    var temp := b.unitPrice;
    b.unitPrice := a.unitPrice;
    a.unitPrice := temp;
  }

  /** Swapping twice restores both objects. */
  method SwapPricesTwice(a: InventoryItem, b: InventoryItem)
    modifies a`unitPrice, b`unitPrice
    ensures a.Snapshot() == old(a.Snapshot())
    ensures b.Snapshot() == old(b.Snapshot())
  {
    SwapPrices(a, b);
    SwapPrices(a, b);
  }

  /** The swap is its own inverse. */
  lemma ExchangeInvolutive(a: Item, b: Item)
    ensures Exchange(Exchange(a, b).0, Exchange(a, b).1) == (a, b)
  {
  }

  /** Equal prices make the swap a no-op; in particular swapping a record
      with itself changes nothing. */
  lemma ExchangeEqualPrices(a: Item, b: Item)
    requires a.unitPrice == b.unitPrice
    ensures Exchange(a, b) == (a, b)
  {
  }

  /** The swap keeps both records well-formed and exchanges exactly the
      `unit_price` entries of their field mappings. */
  lemma ExchangeFields(s: Schema, a: Item, b: Item)
    requires Fits(s, a) && Fits(s, b)
    ensures Fits(s, Exchange(a, b).0) && Fits(s, Exchange(a, b).1)
    ensures Fields(Exchange(a, b).0) == Fields(a)[PriceField := Fields(b)[PriceField]]
    ensures Fields(Exchange(a, b).1) == Fields(b)[PriceField := Fields(a)[PriceField]]
  {
  }
}
