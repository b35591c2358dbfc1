/** The two save hooks: a cart line snapshots its product on every save,
    and a buyer's ledger row fills in a missing seller from its product.
    The seller's ledger row has no hook at all. */
module SaveHooks {
  import opened Schema

  /** Two cart lines that agree on everything except the snapshot columns. */
  predicate SameLine(a: CartItem, b: CartItem)
  {
    a.cart == b.cart && a.product == b.product && a.quantity == b.quantity
  }

  /** The snapshot columns hold the product's title, its owner's username
      and its price. */
  predicate SnapshotOf(item: CartItem, p: Product, owner: User)
  {
    item.productName == p.title && item.sellerName == owner.username && item.amount == Some(p.price)
  }

  /** The cart line's save hook: copy the product's title, its owner's
      username and its price into the line; the line's own columns stay. */
  function TakeSnapshot(item: CartItem, p: Product, owner: User): (r: CartItem)
    ensures SameLine(r, item)
    ensures SnapshotOf(r, p, owner)
  {
    item.(productName := p.title, sellerName := owner.username, amount := Some(p.price))
  }

  /** Whatever stale snapshot the in-memory line carried, the saved line is
      the same: a save that changed only the quantity still refreshes it. */
  lemma SnapshotIgnoresStaleColumns(a: CartItem, b: CartItem, p: Product, owner: User)
    requires SameLine(a, b)
    ensures TakeSnapshot(a, p, owner) == TakeSnapshot(b, p, owner)
  {
  }

  /** Saving a line twice leaves it as saving it once. */
  lemma SnapshotIdempotent(item: CartItem, p: Product, owner: User)
    ensures TakeSnapshot(TakeSnapshot(item, p, owner), p, owner) == TakeSnapshot(item, p, owner)
  {
  }

  /** The buyer ledger's save hook: a row with a product and no seller takes
      the product's owner as seller; an explicit seller is never
      overwritten, and a row without product keeps the seller it was given. */
  function DeriveSeller(h: BuyerPurchase, products: map<Id, Product>): (r: BuyerPurchase)
    requires RefersOrNull(h.product, products)
    ensures r.buyer == h.buyer && r.product == h.product
    ensures h.seller.Some? ==> r.seller == h.seller
    ensures h.product.None? ==> r.seller == h.seller
    ensures h.product.Some? && h.seller.None? ==> r.seller == Some(products[h.product.value].owner)
  {
    if h.product.Some? && h.seller.None? then h.(seller := Some(products[h.product.value].owner)) else h
  }

  /** After the hook the row has a seller exactly when it had one before or
      it has a product. */
  lemma DerivedSellerPresence(h: BuyerPurchase, products: map<Id, Product>)
    requires RefersOrNull(h.product, products)
    ensures DeriveSeller(h, products).seller.Some? <==> h.seller.Some? || h.product.Some?
  {
  }

  /** Saving a buyer row twice leaves it as saving it once. */
  lemma DeriveSellerIdempotent(h: BuyerPurchase, products: map<Id, Product>)
    requires RefersOrNull(h.product, products)
    ensures DeriveSeller(DeriveSeller(h, products), products) == DeriveSeller(h, products)
  {
  }
}
