/** The marketplace's tables as one in-memory store. Every save validates
    and checks references before it writes, runs the row's save hook, and
    writes one row; every delete follows the foreign keys' on-delete
    policies. Ids come from one counter shared by all tables. */
module Marketplace {
  import opened Schema
  import opened SaveHooks
  import opened Ratings
  import opened Deletion

  /** Every key of one table lies below `n`. */
  predicate Below<V>(table: map<Id, V>, n: nat)
  {
    forall k :: k in table ==> k < n
  }

  /** Every table's keys lie below `n`. */
  predicate KeysBelow(t: Tables, n: nat)
  {
    && Below(t.users, n)
    && Below(t.products, n)
    && Below(t.carts, n)
    && Below(t.items, n)
    && Below(t.buyerHistory, n)
    && Below(t.sellerHistory, n)
    && Below(t.reviews, n)
  }

  /** Raising the bound and writing one key under it keeps a table below it. */
  lemma BelowAfterWrite<V>(table: map<Id, V>, n: nat, m: nat, k: Id, v: V)
    requires Below(table, n) && n <= m && k < m
    ensures Below(table[k := v], m)
  {
  }

  lemma KeysBelowRaised(t: Tables, n: nat, m: nat)
    requires KeysBelow(t, n) && n <= m
    ensures KeysBelow(t, m)
  {
    assert Below(t.users, m) && Below(t.products, m) && Below(t.carts, m);
    assert Below(t.items, m) && Below(t.buyerHistory, m);
    assert Below(t.sellerHistory, m) && Below(t.reviews, m);
  }

  /** Whether any review is about product `p`. */
  predicate HasReview(reviews: map<Id, Review>, p: Id)
  {
    exists k :: k in reviews && reviews[k].product == p
  }

  /* ---------------------------------------------------------------
     Each write keeps the invariant
     --------------------------------------------------------------- */

  /* Writing a row into one table. The lemmas below take one table at a
     time: the rows written must refer to existing rows, and a table that
     other tables refer to only gains keys. */

  lemma UsernamesAfterWrite(users: map<Id, User>, k: Id, u: User)
    requires UniqueUsernames(users)
    requires forall v :: v in users && v != k ==> users[v].username != u.username
    ensures UniqueUsernames(users[k := u])
  {
  }

  lemma UsersGrow(t: Tables, users: map<Id, User>)
    requires ProductsIntact(t.products, t.users) && CartsIntact(t.carts, t.users)
    requires BuyerHistoryIntact(t.buyerHistory, t.products, t.users)
    requires SellerHistoryIntact(t.sellerHistory, t.products, t.users)
    requires ReviewsIntact(t.reviews, t.products, t.users)
    requires t.users.Keys <= users.Keys
    ensures ProductsIntact(t.products, users) && CartsIntact(t.carts, users)
    ensures BuyerHistoryIntact(t.buyerHistory, t.products, users)
    ensures SellerHistoryIntact(t.sellerHistory, t.products, users)
    ensures ReviewsIntact(t.reviews, t.products, users)
  {
  }

  lemma ProductsGrow(t: Tables, products: map<Id, Product>)
    requires ItemsIntact(t.items, t.carts, t.products)
    requires BuyerHistoryIntact(t.buyerHistory, t.products, t.users)
    requires SellerHistoryIntact(t.sellerHistory, t.products, t.users)
    requires ReviewsIntact(t.reviews, t.products, t.users)
    requires t.products.Keys <= products.Keys
    ensures ItemsIntact(t.items, t.carts, products)
    ensures BuyerHistoryIntact(t.buyerHistory, products, t.users)
    ensures SellerHistoryIntact(t.sellerHistory, products, t.users)
    ensures ReviewsIntact(t.reviews, products, t.users)
  {
  }

  lemma UserWritten(t: Tables, n: nat, m: nat, k: Id, u: User)
    requires Consistent(t) && KeysBelow(t, n) && n <= m && k < m
    requires forall v :: v in t.users && v != k ==> t.users[v].username != u.username
    ensures Consistent(t.(users := t.users[k := u])) && KeysBelow(t.(users := t.users[k := u]), m)
  {
    UsernamesAfterWrite(t.users, k, u);
    UsersGrow(t, t.users[k := u]);
    KeysBelowRaised(t, n, m);
    BelowAfterWrite(t.users, m, m, k, u);
  }

  lemma ProductWritten(t: Tables, n: nat, m: nat, k: Id, p: Product)
    requires Consistent(t) && KeysBelow(t, n) && n <= m && k < m
    requires p.owner in t.users
    ensures Consistent(t.(products := t.products[k := p])) && KeysBelow(t.(products := t.products[k := p]), m)
  {
    assert ProductsIntact(t.products[k := p], t.users);
    ProductsGrow(t, t.products[k := p]);
    KeysBelowRaised(t, n, m);
    BelowAfterWrite(t.products, m, m, k, p);
  }

  lemma CartWritten(t: Tables, n: nat, k: Id, c: Cart)
    requires Consistent(t) && KeysBelow(t, n) && k == n
    requires c.user in t.users && !HasCart(t.carts, c.user)
    ensures Consistent(t.(carts := t.carts[k := c])) && KeysBelow(t.(carts := t.carts[k := c]), n + 1)
  {
    assert OneCartPerUser(t.carts[k := c]);
    assert CartsIntact(t.carts[k := c], t.users);
    assert ItemsIntact(t.items, t.carts[k := c], t.products);
    KeysBelowRaised(t, n, n + 1);
    BelowAfterWrite(t.carts, n + 1, n + 1, k, c);
  }

  lemma ItemWritten(t: Tables, n: nat, m: nat, k: Id, item: CartItem)
    requires Consistent(t) && KeysBelow(t, n) && n <= m && k < m
    requires item.cart in t.carts && item.product in t.products
    ensures Consistent(t.(items := t.items[k := item])) && KeysBelow(t.(items := t.items[k := item]), m)
  {
    assert ItemsIntact(t.items[k := item], t.carts, t.products);
    KeysBelowRaised(t, n, m);
    BelowAfterWrite(t.items, m, m, k, item);
  }

  lemma BuyerRowWritten(t: Tables, n: nat, m: nat, k: Id, h: BuyerPurchase)
    requires Consistent(t) && KeysBelow(t, n) && n <= m && k < m
    requires h.buyer in t.users && RefersOrNull(h.product, t.products) && RefersOrNull(h.seller, t.users)
    ensures Consistent(t.(buyerHistory := t.buyerHistory[k := h]))
    ensures KeysBelow(t.(buyerHistory := t.buyerHistory[k := h]), m)
  {
    assert BuyerHistoryIntact(t.buyerHistory[k := h], t.products, t.users);
    KeysBelowRaised(t, n, m);
    BelowAfterWrite(t.buyerHistory, m, m, k, h);
  }

  lemma SellerRowWritten(t: Tables, n: nat, m: nat, k: Id, s: SellerSale)
    requires Consistent(t) && KeysBelow(t, n) && n <= m && k < m
    requires s.seller in t.users && RefersOrNull(s.product, t.products) && RefersOrNull(s.soldTo, t.users)
    ensures Consistent(t.(sellerHistory := t.sellerHistory[k := s]))
    ensures KeysBelow(t.(sellerHistory := t.sellerHistory[k := s]), m)
  {
    assert SellerHistoryIntact(t.sellerHistory[k := s], t.products, t.users);
    KeysBelowRaised(t, n, m);
    BelowAfterWrite(t.sellerHistory, m, m, k, s);
  }

  lemma ReviewWritten(t: Tables, n: nat, m: nat, k: Id, rv: Review)
    requires Consistent(t) && KeysBelow(t, n) && n <= m && k < m
    requires rv.product in t.products && rv.buyer in t.users && rv.seller in t.users && ValidRating(rv.rating)
    ensures Consistent(t.(reviews := t.reviews[k := rv])) && KeysBelow(t.(reviews := t.reviews[k := rv]), m)
  {
    assert ReviewsIntact(t.reviews[k := rv], t.products, t.users);
    KeysBelowRaised(t, n, m);
    BelowAfterWrite(t.reviews, m, m, k, rv);
  }

  /** A deletion only removes keys. */
  lemma CascadeKeepsKeysBelow(t: Tables, t2: Tables, n: nat, users: set<Id>, products: set<Id>, carts: set<Id>)
    requires KeysBelow(t, n) && Cascade(t, t2, users, products, carts)
    ensures KeysBelow(t2, n)
  {
    assert t2.items.Keys <= t.items.Keys && t2.reviews.Keys <= t.reviews.Keys;
    assert t2.buyerHistory.Keys <= t.buyerHistory.Keys && t2.sellerHistory.Keys <= t.sellerHistory.Keys;
  }

  /** When every review id lies below `n`, the reviews of `p` below `n`
      are all the reviews of `p`. */
  lemma AllReviewsBelow(reviews: map<Id, Review>, p: Id, n: nat)
    requires Below(reviews, n)
    ensures ReviewsOf(reviews, p, n) == set k | k in reviews && reviews[k].product == p
    ensures HasReview(reviews, p) <==> ReviewsOf(reviews, p, n) != {}
  {
    if HasReview(reviews, p) {
      var k :| k in reviews && reviews[k].product == p;
      assert k in ReviewsOf(reviews, p, n);
    }
  }

  /** The average over the reviews of `p`, when every review id lies below
      `n`: 0 without reviews, otherwise between the ratings of its lowest and
      highest rated review. */
  lemma ReviewsAverage(reviews: map<Id, Review>, p: Id, n: nat)
    requires Below(reviews, n)
    ensures !HasReview(reviews, p) ==> AverageRating(ProductRatings(reviews, p, n)) == 0.0
    ensures ReviewsOf(reviews, p, n) == set k | k in reviews && reviews[k].product == p
    ensures HasReview(reviews, p) ==> exists lo, hi ::
      && lo in reviews && reviews[lo].product == p
      && hi in reviews && reviews[hi].product == p
      && reviews[lo].rating as real <= AverageRating(ProductRatings(reviews, p, n)) <= reviews[hi].rating as real
      && forall k :: k in reviews && reviews[k].product == p ==> reviews[lo].rating <= reviews[k].rating <= reviews[hi].rating
  {
    AllReviewsBelow(reviews, p, n);
    if HasReview(reviews, p) {
      RatingsBracket(reviews, p, n);
    }
  }

  class Store {
    var users: map<Id, User>
    var products: map<Id, Product>
    var carts: map<Id, Cart>
    var items: map<Id, CartItem>
    var buyerHistory: map<Id, BuyerPurchase>
    var sellerHistory: map<Id, SellerSale>
    var reviews: map<Id, Review>
    /** The key the next inserted row receives. */
    var nextId: Id

    function State(): Tables
      reads this
    {
      Tables(users, products, carts, items, buyerHistory, sellerHistory, reviews)
    }

    ghost predicate Valid()
      reads this
    {
      Consistent(State()) && KeysBelow(State(), nextId)
    }

    constructor ()
      ensures Valid() && State() == NoTables && nextId == 0
    {
      users, products, carts, items := map[], map[], map[], map[];
      buyerHistory, sellerHistory, reviews := map[], map[], map[];
      nextId := 0;
    }

    /** The key a save writes: the given row's, or a fresh one. */
    function KeyFor(id: Option<Id>): Id
      reads this
    {
      if id.Some? then id.value else nextId
    }

    /* ---------------------------------------------------------------
       Saves
       --------------------------------------------------------------- */

    /** Saves a user account; usernames are unique. */
    method SaveUser(id: Option<Id>, username: string) returns (r: Result<Id>)
      requires Valid()
      modifies this
      ensures Valid()
      ensures r.Ok? <==>
                (id.None? || id.value in old(users))
                && !(exists u :: u in old(users) && u != old(KeyFor(id)) && old(users)[u].username == username)
      ensures id.Some? && id.value !in old(users) ==> r == Err(MissingRow)
      ensures r.Err? && (id.None? || id.value in old(users)) ==> r.error == DuplicateUsername
      ensures r.Err? ==> State() == old(State()) && nextId == old(nextId)
      ensures r.Ok? ==> r.value == old(KeyFor(id))
                        && State() == old(State()).(users := old(users)[r.value := User(username)])
                        && nextId == (if id.None? then old(nextId) + 1 else old(nextId))
    {
      if id.Some? && id.value !in users {
        return Err(MissingRow);
      }
      var k := KeyFor(id);
      var m := if id.None? then nextId + 1 else nextId;
      if exists u :: u in users && u != k && users[u].username == username {
        return Err(DuplicateUsername);
      }
      UserWritten(State(), nextId, m, k, User(username));
      users := users[k := User(username)];
      if id.None? {
        nextId := nextId + 1;
      }
      r := Ok(k);
    }

    /** Saves a product. The category must be one of the declared choices
        and the owner must exist. Cart lines that snapshot this product
        keep their snapshot until they are saved again. */
    method SaveProduct(id: Option<Id>, owner: Id, title: string, description: string, category: string, price: int)
      returns (r: Result<Id>)
      requires Valid()
      modifies this
      ensures Valid()
      ensures r.Ok? <==>
                category in CategoryChoices && owner in old(users) && (id.None? || id.value in old(products))
      ensures category !in CategoryChoices ==> r == Err(InvalidCategory)
      ensures category in CategoryChoices && owner !in old(users) ==> r == Err(MissingUser)
      ensures r.Err? ==> State() == old(State()) && nextId == old(nextId)
      ensures r.Ok? ==>
                var row := Product(owner, title, description, ParseCategory(category).value, price);
                && r.value == old(KeyFor(id))
                && State() == old(State()).(products := old(products)[r.value := row])
                && nextId == (if id.None? then old(nextId) + 1 else old(nextId))
    {
      var c := ParseCategory(category);
      if c.None? {
        return Err(InvalidCategory);
      }
      if owner !in users {
        return Err(MissingUser);
      }
      if id.Some? && id.value !in products {
        return Err(MissingRow);
      }
      var k := KeyFor(id);
      var m := if id.None? then nextId + 1 else nextId;
      ProductWritten(State(), nextId, m, k, Product(owner, title, description, c.value, price));
      products := products[k := Product(owner, title, description, c.value, price)];
      if id.None? {
        nextId := nextId + 1;
      }
      r := Ok(k);
    }

    /** Creates a user's cart; a user has at most one. */
    method AddCart(user: Id) returns (r: Result<Id>)
      requires Valid()
      modifies this
      ensures Valid()
      ensures r.Ok? <==> user in old(users) && !HasCart(old(carts), user)
      ensures user !in old(users) ==> r == Err(MissingUser)
      ensures user in old(users) && HasCart(old(carts), user) ==> r == Err(DuplicateCart)
      ensures r.Err? ==> State() == old(State()) && nextId == old(nextId)
      ensures r.Ok? ==> r.value == old(nextId) && nextId == old(nextId) + 1
                        && State() == old(State()).(carts := old(carts)[r.value := Cart(user)])
    {
      if user !in users {
        return Err(MissingUser);
      }
      if exists c :: c in carts && carts[c].user == user {
        return Err(DuplicateCart);
      }
      CartWritten(State(), nextId, nextId, Cart(user));
      carts := carts[nextId := Cart(user)];
      r := Ok(nextId);
      nextId := nextId + 1;
    }

    /** Saves a cart line. Whatever snapshot the line carried, the stored
        line has the product's current title, owner's username and price;
        its cart, product and quantity are stored as given. */
    method SaveCartItem(id: Option<Id>, item: CartItem) returns (r: Result<Id>)
      requires Valid()
      modifies this
      ensures Valid()
      ensures r.Ok? <==>
                item.product in old(products) && item.cart in old(carts) && (id.None? || id.value in old(items))
      ensures item.product !in old(products) ==> r == Err(MissingProduct)
      ensures item.product in old(products) && item.cart !in old(carts) ==> r == Err(MissingCart)
      ensures r.Err? ==> State() == old(State()) && nextId == old(nextId)
      ensures r.Ok? ==>
                var p := old(products)[item.product];
                && r.value == old(KeyFor(id))
                && State() == old(State()).(items := old(items)[r.value := TakeSnapshot(item, p, old(users)[p.owner])])
                && nextId == (if id.None? then old(nextId) + 1 else old(nextId))
      ensures r.Ok? ==>
                && SameLine(items[r.value], item)
                && SnapshotOf(items[r.value], products[item.product], users[products[item.product].owner])
    {
      if item.product !in products {
        return Err(MissingProduct);
      }
      if item.cart !in carts {
        return Err(MissingCart);
      }
      if id.Some? && id.value !in items {
        return Err(MissingRow);
      }
      var k := KeyFor(id);
      var p := products[item.product];
      var saved := TakeSnapshot(item, p, users[p.owner]);
      ItemWritten(State(), nextId, if id.None? then nextId + 1 else nextId, k, saved);
      items := items[k := saved];
      if id.None? {
        nextId := nextId + 1;
      }
      r := Ok(k);
    }

    /** Saves a buyer's ledger row: a row with a product and no seller gets
        the product's owner as seller. */
    method SaveBuyerPurchase(id: Option<Id>, h: BuyerPurchase) returns (r: Result<Id>)
      requires Valid()
      modifies this
      ensures Valid()
      ensures r.Ok? <==>
                && RefersOrNull(h.product, old(products))
                && h.buyer in old(users) && RefersOrNull(h.seller, old(users))
                && (id.None? || id.value in old(buyerHistory))
      ensures !RefersOrNull(h.product, old(products)) ==> r == Err(MissingProduct)
      ensures RefersOrNull(h.product, old(products)) && h.buyer !in old(users) ==> r == Err(MissingUser)
      ensures r.Err? ==> State() == old(State()) && nextId == old(nextId)
      ensures r.Ok? ==>
                && r.value == old(KeyFor(id))
                && State() == old(State()).(buyerHistory := old(buyerHistory)[r.value := DeriveSeller(h, old(products))])
                && nextId == (if id.None? then old(nextId) + 1 else old(nextId))
      ensures r.Ok? && h.product.Some? && h.seller.None? ==>
                buyerHistory[r.value].seller == Some(products[h.product.value].owner)
      ensures r.Ok? && (h.product.None? || h.seller.Some?) ==> buyerHistory[r.value] == h
    {
      if h.product.Some? && h.product.value !in products {
        return Err(MissingProduct);
      }
      var row := DeriveSeller(h, products);
      if row.buyer !in users || (row.seller.Some? && row.seller.value !in users) {
        return Err(MissingUser);
      }
      if id.Some? && id.value !in buyerHistory {
        return Err(MissingRow);
      }
      var k := KeyFor(id);
      var m := if id.None? then nextId + 1 else nextId;
      BuyerRowWritten(State(), nextId, m, k, row);
      buyerHistory := buyerHistory[k := row];
      if id.None? {
        nextId := nextId + 1;
      }
      r := Ok(k);
    }

    /** Saves a seller's ledger row exactly as given: unlike the buyer's
        side there is no hook, so a missing buyer is never filled in. */
    method SaveSellerSale(id: Option<Id>, s: SellerSale) returns (r: Result<Id>)
      requires Valid()
      modifies this
      ensures Valid()
      ensures r.Ok? <==>
                && s.seller in old(users) && RefersOrNull(s.soldTo, old(users))
                && RefersOrNull(s.product, old(products))
                && (id.None? || id.value in old(sellerHistory))
      ensures !(s.seller in old(users) && RefersOrNull(s.soldTo, old(users))) ==> r == Err(MissingUser)
      ensures (s.seller in old(users) && RefersOrNull(s.soldTo, old(users)) && !RefersOrNull(s.product, old(products)))
                ==> r == Err(MissingProduct)
      ensures r.Err? ==> State() == old(State()) && nextId == old(nextId)
      ensures r.Ok? ==>
                && r.value == old(KeyFor(id))
                && State() == old(State()).(sellerHistory := old(sellerHistory)[r.value := s])
                && nextId == (if id.None? then old(nextId) + 1 else old(nextId))
    {
      if s.seller !in users || (s.soldTo.Some? && s.soldTo.value !in users) {
        return Err(MissingUser);
      }
      if s.product.Some? && s.product.value !in products {
        return Err(MissingProduct);
      }
      if id.Some? && id.value !in sellerHistory {
        return Err(MissingRow);
      }
      var k := KeyFor(id);
      var m := if id.None? then nextId + 1 else nextId;
      SellerRowWritten(State(), nextId, m, k, s);
      sellerHistory := sellerHistory[k := s];
      if id.None? {
        nextId := nextId + 1;
      }
      r := Ok(k);
    }

    /** Saves a review. A rating outside 1..5 is rejected before anything
        else is looked at. */
    method SaveReview(id: Option<Id>, rv: Review) returns (r: Result<Id>)
      requires Valid()
      modifies this
      ensures Valid()
      ensures r.Ok? <==>
                && ValidRating(rv.rating)
                && rv.product in old(products) && rv.buyer in old(users) && rv.seller in old(users)
                && (id.None? || id.value in old(reviews))
      ensures !ValidRating(rv.rating) ==> r == Err(InvalidRating)
      ensures ValidRating(rv.rating) && rv.product !in old(products) ==> r == Err(MissingProduct)
      ensures (ValidRating(rv.rating) && rv.product in old(products) && (rv.buyer !in old(users) || rv.seller !in old(users)))
                ==> r == Err(MissingUser)
      ensures r.Err? ==> State() == old(State()) && nextId == old(nextId)
      ensures r.Ok? ==>
                && r.value == old(KeyFor(id))
                && State() == old(State()).(reviews := old(reviews)[r.value := rv])
                && nextId == (if id.None? then old(nextId) + 1 else old(nextId))
    {
      if !ValidRating(rv.rating) {
        return Err(InvalidRating);
      }
      if rv.product !in products {
        return Err(MissingProduct);
      }
      if rv.buyer !in users || rv.seller !in users {
        return Err(MissingUser);
      }
      if id.Some? && id.value !in reviews {
        return Err(MissingRow);
      }
      var k := KeyFor(id);
      var m := if id.None? then nextId + 1 else nextId;
      ReviewWritten(State(), nextId, m, k, rv);
      reviews := reviews[k := rv];
      if id.None? {
        nextId := nextId + 1;
      }
      r := Ok(k);
    }

    /* ---------------------------------------------------------------
       Deletes
       --------------------------------------------------------------- */

    /** Deletes the given users, products and carts together and applies
        every on-delete policy to the rows that refer to them. */
    method ApplyCascade(goneUsers: set<Id>, goneProducts: set<Id>, goneCarts: set<Id>)
      requires Valid() && Closed(State(), goneUsers, goneProducts, goneCarts)
      modifies this
      ensures Valid() && nextId == old(nextId)
      ensures Cascade(old(State()), State(), goneUsers, goneProducts, goneCarts)
    {
      ghost var t := State();
      var t2 := Delete(State(), goneUsers, goneProducts, goneCarts);
      CascadeKeepsConsistency(t, t2, goneUsers, goneProducts, goneCarts);
      CascadeKeepsKeysBelow(t, t2, nextId, goneUsers, goneProducts, goneCarts);
      users, products, carts, items := t2.users, t2.products, t2.carts, t2.items;
      buyerHistory, sellerHistory, reviews := t2.buyerHistory, t2.sellerHistory, t2.reviews;
      assert State() == t2;
    }

    /** Deletes a product: its cart lines and reviews go, ledger rows keep
        a null product. */
    method DeleteProduct(p: Id)
      requires Valid()
      modifies this
      ensures Valid() && nextId == old(nextId)
      ensures ProductDeletion(old(State()), State(), p)
    {
      ApplyCascade({}, {p}, {});
    }

    /** Deletes a cart and its lines. */
    method DeleteCart(c: Id)
      requires Valid()
      modifies this
      ensures Valid() && nextId == old(nextId)
      ensures CartDeletion(old(State()), State(), c)
    {
      ApplyCascade({}, {}, {c});
    }

    /** Deletes a user, with the user's products, cart, own ledger rows and
        reviews; ledger rows naming the user as counter-party keep a null
        reference. */
    method DeleteUser(u: Id)
      requires Valid()
      modifies this
      ensures Valid() && nextId == old(nextId)
      ensures UserDeletion(old(State()), State(), u)
    {
      ApplyCascade({u}, OwnedBy(State(), u), CartsOf(State(), u));
    }

    /* ---------------------------------------------------------------
       Reads
       --------------------------------------------------------------- */

    /** The average rating of a product, unrounded: 0 when nobody has
        reviewed it, otherwise on the 1..5 scale. */
    function AverageRatingOf(p: Id): (r: real)
      reads this
      requires Valid()
      ensures !HasReview(reviews, p) ==> r == 0.0
      ensures ReviewsOf(reviews, p, nextId) == set k | k in reviews && reviews[k].product == p
      ensures |ReviewsOf(reviews, p, nextId)| > 0 ==>
        r == Sum(ProductRatings(reviews, p, nextId)) as real / |ReviewsOf(reviews, p, nextId)| as real
      ensures HasReview(reviews, p) ==> exists lo, hi ::
        && lo in reviews && reviews[lo].product == p
        && hi in reviews && reviews[hi].product == p
        && reviews[lo].rating as real <= r <= reviews[hi].rating as real
        && forall k :: k in reviews && reviews[k].product == p ==> reviews[lo].rating <= reviews[k].rating <= reviews[hi].rating
      ensures HasReview(reviews, p) ==> 1.0 <= r <= 5.0
    {
      ReviewsAverage(reviews, p, nextId);
      AverageRating(ProductRatings(reviews, p, nextId))
    }
  }
}
