/** What deleting a product, a cart or a user does to the other tables,
    relation by relation as the foreign keys declare it:

      Product.owner               -> User     CASCADE
      Cart.user (one-to-one)      -> User     CASCADE
      CartItem.cart               -> Cart     CASCADE
      CartItem.product            -> Product  CASCADE
      BuyerPurchase.buyer         -> User     CASCADE
      BuyerPurchase.product       -> Product  SET NULL
      BuyerPurchase.seller        -> User     SET NULL
      SellerSale.seller           -> User     CASCADE
      SellerSale.product          -> Product  SET NULL
      SellerSale.soldTo           -> User     SET NULL
      Review.product/buyer/seller -> CASCADE

    A deletion removes a set of users, products and carts at once, closed
    under the cascades between those three tables; `Cascade` states what
    happens to every other row. Each single deletion is an instance. */
module Deletion {
  import opened Schema

  /** A nullable reference after the rows in `gone` are deleted (SET NULL). */
  function ClearRef(r: Option<Id>, gone: set<Id>): (c: Option<Id>)
    ensures r.Some? && r.value in gone ==> c.None?
    ensures !(r.Some? && r.value in gone) ==> c == r
  {
    if r.Some? && r.value in gone then None else r
  }

  /** Nulling against two sets in turn is nulling against their union. */
  lemma ClearRefTwice(r: Option<Id>, a: set<Id>, b: set<Id>)
    ensures ClearRef(ClearRef(r, a), b) == ClearRef(r, a + b)
  {
  }

  /* ---------------------------------------------------------------
     Row by row, what a deletion keeps
     --------------------------------------------------------------- */

  /** Cart lines go with their cart and with their product. */
  ghost predicate ItemsKept(items: map<Id, CartItem>, items2: map<Id, CartItem>, carts: set<Id>, products: set<Id>)
  {
    && (forall i :: i in items2 <==> i in items && items[i].cart !in carts && items[i].product !in products)
    && (forall i :: i in items2 ==> items2[i] == items[i])
  }

  /** Reviews go with their product, their buyer and their seller. */
  ghost predicate ReviewsKept(reviews: map<Id, Review>, reviews2: map<Id, Review>, products: set<Id>, users: set<Id>)
  {
    && (forall r :: r in reviews2 <==>
          r in reviews && reviews[r].product !in products && reviews[r].buyer !in users && reviews[r].seller !in users)
    && (forall r :: r in reviews2 ==> reviews2[r] == reviews[r])
  }

  /** Buyer rows go with their buyer; product and seller are nulled. */
  ghost predicate BuyerRowsKept(
    rows: map<Id, BuyerPurchase>, rows2: map<Id, BuyerPurchase>, products: set<Id>, users: set<Id>)
  {
    && (forall h :: h in rows2 <==> h in rows && rows[h].buyer !in users)
    && (forall h :: h in rows2 ==>
          rows2[h] == rows[h].(product := ClearRef(rows[h].product, products), seller := ClearRef(rows[h].seller, users)))
  }

  /** Seller rows go with their seller; product and buyer are nulled. */
  ghost predicate SellerRowsKept(
    rows: map<Id, SellerSale>, rows2: map<Id, SellerSale>, products: set<Id>, users: set<Id>)
  {
    && (forall h :: h in rows2 <==> h in rows && rows[h].seller !in users)
    && (forall h :: h in rows2 ==>
          rows2[h] == rows[h].(product := ClearRef(rows[h].product, products), soldTo := ClearRef(rows[h].soldTo, users)))
  }

  /** The cart lines a deletion keeps. */
  function KeepItems(items: map<Id, CartItem>, carts: set<Id>, products: set<Id>): (r: map<Id, CartItem>)
    ensures ItemsKept(items, r, carts, products)
  {
    map i | i in items && items[i].cart !in carts && items[i].product !in products :: items[i]
  }

  /** The reviews a deletion keeps. */
  function KeepReviews(reviews: map<Id, Review>, products: set<Id>, users: set<Id>): (r: map<Id, Review>)
    ensures ReviewsKept(reviews, r, products, users)
  {
    map k | k in reviews && reviews[k].product !in products && reviews[k].buyer !in users && reviews[k].seller !in users
      :: reviews[k]
  }

  /** The buyer rows a deletion keeps, with references to deleted rows nulled. */
  function KeepBuyerRows(rows: map<Id, BuyerPurchase>, products: set<Id>, users: set<Id>): (r: map<Id, BuyerPurchase>)
    ensures BuyerRowsKept(rows, r, products, users)
  {
    map h | h in rows && rows[h].buyer !in users
      :: rows[h].(product := ClearRef(rows[h].product, products), seller := ClearRef(rows[h].seller, users))
  }

  /** The seller rows a deletion keeps, with references to deleted rows nulled. */
  function KeepSellerRows(rows: map<Id, SellerSale>, products: set<Id>, users: set<Id>): (r: map<Id, SellerSale>)
    ensures SellerRowsKept(rows, r, products, users)
  {
    map h | h in rows && rows[h].seller !in users
      :: rows[h].(product := ClearRef(rows[h].product, products), soldTo := ClearRef(rows[h].soldTo, users))
  }

  /** Deleting the given users, products and carts takes `t` to `t2`. */
  ghost predicate Cascade(t: Tables, t2: Tables, users: set<Id>, products: set<Id>, carts: set<Id>)
  {
    && t2.users == t.users - users
    && t2.products == t.products - products
    && t2.carts == t.carts - carts
    && ItemsKept(t.items, t2.items, carts, products)
    && ReviewsKept(t.reviews, t2.reviews, products, users)
    && BuyerRowsKept(t.buyerHistory, t2.buyerHistory, products, users)
    && SellerRowsKept(t.sellerHistory, t2.sellerHistory, products, users)
  }

  /** Deletes the given users, products and carts and applies every
      on-delete policy to the rows that refer to them. */
  function Delete(t: Tables, users: set<Id>, products: set<Id>, carts: set<Id>): (t2: Tables)
    ensures Cascade(t, t2, users, products, carts)
  {
    Tables(
      t.users - users,
      t.products - products,
      t.carts - carts,
      KeepItems(t.items, carts, products),
      KeepBuyerRows(t.buyerHistory, products, users),
      KeepSellerRows(t.sellerHistory, products, users),
      KeepReviews(t.reviews, products, users))
  }

  /** The deleted sets follow the cascades from users to their products
      and their carts. */
  ghost predicate Closed(t: Tables, users: set<Id>, products: set<Id>, carts: set<Id>)
  {
    && (forall p :: p in t.products && t.products[p].owner in users ==> p in products)
    && (forall c :: c in t.carts && t.carts[c].user in users ==> c in carts)
  }

  /* ---------------------------------------------------------------
     The general theorems
     --------------------------------------------------------------- */

  /** A closed cascade keeps every reference resolvable. */
  lemma CascadeKeepsConsistency(t: Tables, t2: Tables, users: set<Id>, products: set<Id>, carts: set<Id>)
    requires Consistent(t) && Closed(t, users, products, carts)
    requires Cascade(t, t2, users, products, carts)
    ensures Consistent(t2)
  {
    CascadeKeepsOwners(t, t2, users, products, carts);
    CascadeKeepsItems(t, t2, users, products, carts);
    CascadeKeepsReviews(t, t2, users, products, carts);
    CascadeKeepsLedgers(t, t2, users, products, carts);
  }

  lemma CascadeKeepsOwners(t: Tables, t2: Tables, users: set<Id>, products: set<Id>, carts: set<Id>)
    requires UniqueUsernames(t.users) && OneCartPerUser(t.carts) && ProductsIntact(t.products, t.users) && CartsIntact(t.carts, t.users)
    requires Closed(t, users, products, carts)
    requires t2.users == t.users - users && t2.products == t.products - products && t2.carts == t.carts - carts
    ensures UniqueUsernames(t2.users) && OneCartPerUser(t2.carts) && ProductsIntact(t2.products, t2.users) && CartsIntact(t2.carts, t2.users)
  {
  }

  lemma CascadeKeepsItems(t: Tables, t2: Tables, users: set<Id>, products: set<Id>, carts: set<Id>)
    requires ItemsIntact(t.items, t.carts, t.products)
    requires t2.products == t.products - products && t2.carts == t.carts - carts
    requires ItemsKept(t.items, t2.items, carts, products)
    ensures ItemsIntact(t2.items, t2.carts, t2.products)
  {
  }

  lemma CascadeKeepsReviews(t: Tables, t2: Tables, users: set<Id>, products: set<Id>, carts: set<Id>)
    requires ReviewsIntact(t.reviews, t.products, t.users)
    requires t2.users == t.users - users && t2.products == t.products - products
    requires ReviewsKept(t.reviews, t2.reviews, products, users)
    ensures ReviewsIntact(t2.reviews, t2.products, t2.users)
  {
  }

  lemma CascadeKeepsLedgers(t: Tables, t2: Tables, users: set<Id>, products: set<Id>, carts: set<Id>)
    requires BuyerHistoryIntact(t.buyerHistory, t.products, t.users) && SellerHistoryIntact(t.sellerHistory, t.products, t.users)
    requires t2.users == t.users - users && t2.products == t.products - products
    requires BuyerRowsKept(t.buyerHistory, t2.buyerHistory, products, users)
    requires SellerRowsKept(t.sellerHistory, t2.sellerHistory, products, users)
    ensures BuyerHistoryIntact(t2.buyerHistory, t2.products, t2.users) && SellerHistoryIntact(t2.sellerHistory, t2.products, t2.users)
  {
  }

  /** Two cascades in a row are one cascade of the unions. */
  lemma {:induction false} CascadesCompose(
    t: Tables, t1: Tables, t2: Tables,
    users1: set<Id>, products1: set<Id>, carts1: set<Id>,
    users2: set<Id>, products2: set<Id>, carts2: set<Id>)
    requires Cascade(t, t1, users1, products1, carts1)
    requires Cascade(t1, t2, users2, products2, carts2)
    ensures Cascade(t, t2, users1 + users2, products1 + products2, carts1 + carts2)
  {
    var users, products := users1 + users2, products1 + products2;
    assert t2.users == t.users - users;
    assert t2.products == t.products - products;
    assert t2.carts == t.carts - (carts1 + carts2);
    forall h | h in t2.buyerHistory
      ensures t2.buyerHistory[h] == t.buyerHistory[h].(
        product := ClearRef(t.buyerHistory[h].product, products),
        seller := ClearRef(t.buyerHistory[h].seller, users))
    {
      ClearRefTwice(t.buyerHistory[h].product, products1, products2);
      ClearRefTwice(t.buyerHistory[h].seller, users1, users2);
    }
    forall h | h in t2.sellerHistory
      ensures t2.sellerHistory[h] == t.sellerHistory[h].(
        product := ClearRef(t.sellerHistory[h].product, products),
        soldTo := ClearRef(t.sellerHistory[h].soldTo, users))
    {
      ClearRefTwice(t.sellerHistory[h].product, products1, products2);
      ClearRefTwice(t.sellerHistory[h].soldTo, users1, users2);
    }
  }

  /* ---------------------------------------------------------------
     Deleting one product
     --------------------------------------------------------------- */

  /** Deleting product `p`: its cart lines and reviews go, both ledgers keep
      every row with the product reference nulled, users and carts stay. */
  ghost predicate ProductDeletion(t: Tables, t2: Tables, p: Id)
  {
    Cascade(t, t2, {}, {p}, {})
  }

  lemma ProductDeletionKeepsConsistency(t: Tables, t2: Tables, p: Id)
    requires Consistent(t) && ProductDeletion(t, t2, p)
    ensures Consistent(t2)
  {
    CascadeKeepsConsistency(t, t2, {}, {p}, {});
  }

  /** After the deletion no row refers to the product; a ledger row that did
      survives with a null product and nothing else changed, and every other
      row is kept as it was. */
  lemma ProductDeletionEffect(t: Tables, t2: Tables, p: Id)
    requires ProductDeletion(t, t2, p)
    ensures t2.users == t.users && t2.carts == t.carts
    ensures p !in t2.products
    ensures forall i :: i in t2.items ==> t2.items[i].product != p
    ensures forall i :: i in t.items && t.items[i].product != p ==> i in t2.items && t2.items[i] == t.items[i]
    ensures forall r :: r in t2.reviews ==> t2.reviews[r].product != p
    ensures forall r :: r in t.reviews && t.reviews[r].product != p ==> r in t2.reviews && t2.reviews[r] == t.reviews[r]
    ensures t2.buyerHistory.Keys == t.buyerHistory.Keys && t2.sellerHistory.Keys == t.sellerHistory.Keys
    ensures forall h :: h in t.buyerHistory ==>
              t2.buyerHistory[h].product == (if t.buyerHistory[h].product == Some(p) then None else t.buyerHistory[h].product)
              && t2.buyerHistory[h].buyer == t.buyerHistory[h].buyer
              && t2.buyerHistory[h].seller == t.buyerHistory[h].seller
    ensures forall h :: h in t.sellerHistory ==>
              t2.sellerHistory[h].product == (if t.sellerHistory[h].product == Some(p) then None else t.sellerHistory[h].product)
              && t2.sellerHistory[h].seller == t.sellerHistory[h].seller
              && t2.sellerHistory[h].soldTo == t.sellerHistory[h].soldTo
  {
  }

  /** Deleting a product that does not exist changes nothing. */
  lemma DeletingAbsentProduct(t: Tables, t2: Tables, p: Id)
    requires Consistent(t) && p !in t.products && ProductDeletion(t, t2, p)
    ensures t2 == t
  {
    AbsentProductKeepsLines(t, t2, p);
    AbsentProductKeepsLedgers(t, t2, p);
  }

  lemma AbsentProductKeepsLines(t: Tables, t2: Tables, p: Id)
    requires ItemsIntact(t.items, t.carts, t.products) && ReviewsIntact(t.reviews, t.products, t.users) && p !in t.products
    requires ItemsKept(t.items, t2.items, {}, {p}) && ReviewsKept(t.reviews, t2.reviews, {p}, {})
    ensures t2.items == t.items && t2.reviews == t.reviews
  {
  }

  lemma AbsentProductKeepsLedgers(t: Tables, t2: Tables, p: Id)
    requires BuyerHistoryIntact(t.buyerHistory, t.products, t.users) && SellerHistoryIntact(t.sellerHistory, t.products, t.users) && p !in t.products
    requires BuyerRowsKept(t.buyerHistory, t2.buyerHistory, {p}, {})
    requires SellerRowsKept(t.sellerHistory, t2.sellerHistory, {p}, {})
    ensures t2.buyerHistory == t.buyerHistory && t2.sellerHistory == t.sellerHistory
  {
  }

  /* ---------------------------------------------------------------
     Deleting one cart
     --------------------------------------------------------------- */

  /** Deleting cart `c`: its lines go, nothing else changes. */
  ghost predicate CartDeletion(t: Tables, t2: Tables, c: Id)
  {
    Cascade(t, t2, {}, {}, {c})
  }

  lemma CartDeletionKeepsConsistency(t: Tables, t2: Tables, c: Id)
    requires Consistent(t) && CartDeletion(t, t2, c)
    ensures Consistent(t2)
  {
    CascadeKeepsConsistency(t, t2, {}, {}, {c});
  }

  /* ---------------------------------------------------------------
     Deleting one user
     --------------------------------------------------------------- */

  /** The products a user owns. */
  function OwnedBy(t: Tables, u: Id): set<Id>
  {
    set p | p in t.products && t.products[p].owner == u
  }

  /** The carts of a user (at most one in a consistent store). */
  function CartsOf(t: Tables, u: Id): set<Id>
  {
    set c | c in t.carts && t.carts[c].user == u
  }

  /** Deleting user `u`: the user's products go with their own cascades, the
      user's cart goes with its lines, the ledger rows the user owns go,
      reviews the user wrote or received go, and a ledger row where the
      user is only the counter-party survives with that reference nulled. */
  ghost predicate UserDeletion(t: Tables, t2: Tables, u: Id)
  {
    Cascade(t, t2, {u}, OwnedBy(t, u), CartsOf(t, u))
  }

  lemma UserDeletionKeepsConsistency(t: Tables, t2: Tables, u: Id)
    requires Consistent(t) && UserDeletion(t, t2, u)
    ensures Consistent(t2)
  {
    CascadeKeepsConsistency(t, t2, {u}, OwnedBy(t, u), CartsOf(t, u));
  }

  /** After the deletion no row refers to the user, no product of the user
      is left, and no row refers to one of them. */
  lemma UserDeletionLeavesNoReference(t: Tables, t2: Tables, u: Id)
    requires Consistent(t) && UserDeletion(t, t2, u)
    ensures u !in t2.users
    ensures forall p :: p in t2.products ==> t2.products[p].owner != u
    ensures forall c :: c in t2.carts ==> t2.carts[c].user != u
    ensures forall i :: i in t2.items ==> t.products[t2.items[i].product].owner != u
    ensures forall r :: r in t2.reviews ==> t2.reviews[r].buyer != u && t2.reviews[r].seller != u
    ensures forall r :: r in t2.reviews ==> t.products[t2.reviews[r].product].owner != u
    ensures forall h :: h in t2.buyerHistory ==> t2.buyerHistory[h].buyer != u && t2.buyerHistory[h].seller != Some(u)
    ensures forall h :: h in t2.sellerHistory ==> t2.sellerHistory[h].seller != u && t2.sellerHistory[h].soldTo != Some(u)
  {
    var owned := OwnedBy(t, u);
    forall i | i in t2.items ensures t.products[t2.items[i].product].owner != u {
      assert i in t.items && t.items[i].product !in owned;
    }
    forall r | r in t2.reviews ensures t.products[t2.reviews[r].product].owner != u {
      assert r in t.reviews && t.reviews[r].product !in owned;
    }
  }

  /** The cascade is transitive: deleting one of a user's products first and
      then the user ends in exactly the state that deleting the user does. */
  lemma OwnedProductThenOwner(t: Tables, t1: Tables, t2: Tables, p: Id, u: Id)
    requires p in t.products && t.products[p].owner == u
    requires ProductDeletion(t, t1, p) && UserDeletion(t1, t2, u)
    ensures UserDeletion(t, t2, u)
  {
    CascadesCompose(t, t1, t2, {}, {p}, {}, {u}, OwnedBy(t1, u), CartsOf(t1, u));
    assert {p} + OwnedBy(t1, u) == OwnedBy(t, u);
    assert {} + CartsOf(t1, u) == CartsOf(t, u);
    assert {} + {u} == {u};
  }
}
