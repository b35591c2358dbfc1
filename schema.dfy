/** The marketplace's tables: users, products, carts and their line items,
    the two purchase ledgers and reviews, each row keyed by an integer id,
    together with the referential-integrity invariant the foreign keys
    declare. */
module Schema {

  /** Primary keys. Every table draws its ids from non-negative integers. */
  type Id = nat

  datatype Option<T> = None | Some(value: T)

  /** Why a write is refused. The first two are validation failures,
      the rest are references or unique columns the database rejects. */
  datatype Error =
    | InvalidRating
    | InvalidCategory
    | MissingUser
    | MissingProduct
    | MissingCart
    | MissingRow
    | DuplicateUsername
    | DuplicateCart

  datatype Result<T> = Ok(value: T) | Err(error: Error)

  /* ---------------------------------------------------------------
     Product categories: a closed set of five choices
     --------------------------------------------------------------- */

  datatype Category = Electronics | Clothing | Books | Home | Other

  /** The stored string of each category, in the order they are declared. */
  const CategoryChoices: seq<string> := ["Electronics", "Clothing", "Books", "Home", "Other"]

  function CategoryName(c: Category): string
  {
    match c
    case Electronics => "Electronics"
    case Clothing => "Clothing"
    case Books => "Books"
    case Home => "Home"
    case Other => "Other"
  }

  /** Validates a category string against the declared choices. */
  function ParseCategory(s: string): (r: Option<Category>)
    ensures r.Some? <==> s in CategoryChoices
    ensures r.Some? ==> CategoryName(r.value) == s
  {
    if s == "Electronics" then Some(Electronics)
    else if s == "Clothing" then Some(Clothing)
    else if s == "Books" then Some(Books)
    else if s == "Home" then Some(Home)
    else if s == "Other" then Some(Other)
    else None
  }

  /** Every category's stored name parses back to the category. */
  lemma CategoryRoundTrip(c: Category)
    ensures CategoryName(c) in CategoryChoices
    ensures ParseCategory(CategoryName(c)) == Some(c)
  {
  }

  /* ---------------------------------------------------------------
     Rows
     --------------------------------------------------------------- */

  /** A user account; only the unique username matters to this model. */
  datatype User = User(username: string)

  /** A listing; `price` is in cents. */
  datatype Product = Product(owner: Id, title: string, description: string, category: Category, price: int)

  datatype Cart = Cart(user: Id)

  /** A cart line. `productName`, `sellerName` and `amount` are a snapshot
      of the product taken when the line is saved; `amount` is nullable. */
  datatype CartItem = CartItem(
    cart: Id, product: Id, quantity: nat,
    productName: string, sellerName: string, amount: Option<int>)

  /** The buyer's side of the purchase ledger. */
  datatype BuyerPurchase = BuyerPurchase(buyer: Id, product: Option<Id>, seller: Option<Id>)

  /** The seller's side of the purchase ledger. */
  datatype SellerSale = SellerSale(seller: Id, product: Option<Id>, soldTo: Option<Id>)

  datatype Review = Review(product: Id, buyer: Id, seller: Id, rating: nat, comment: string)

  /** The rating validators: at least 1 and at most 5. */
  predicate ValidRating(rating: int)
  {
    1 <= rating <= 5
  }

  /** The rating scale's boundaries: 1 and 5 pass, 0 and 6 do not. */
  lemma RatingBoundaries()
    ensures ValidRating(1) && ValidRating(5)
    ensures !ValidRating(0) && !ValidRating(6)
  {
  }

  /** The whole store as a value: one map from id to row per table. */
  datatype Tables = Tables(
    users: map<Id, User>,
    products: map<Id, Product>,
    carts: map<Id, Cart>,
    items: map<Id, CartItem>,
    buyerHistory: map<Id, BuyerPurchase>,
    sellerHistory: map<Id, SellerSale>,
    reviews: map<Id, Review>)

  const NoTables := Tables(map[], map[], map[], map[], map[], map[], map[])

  /* ---------------------------------------------------------------
     Integrity
     --------------------------------------------------------------- */

  /** A nullable reference is null or names an existing row. */
  predicate RefersOrNull<V>(r: Option<Id>, table: map<Id, V>)
  {
    r.None? || r.value in table
  }

  predicate HasCart(carts: map<Id, Cart>, user: Id)
  {
    exists c :: c in carts && carts[c].user == user
  }

  predicate UniqueUsernames(users: map<Id, User>)
  {
    forall a, b :: a in users && b in users && users[a].username == users[b].username ==> a == b
  }

  /** The cart's user column is one-to-one. */
  predicate OneCartPerUser(carts: map<Id, Cart>)
  {
    forall a, b :: a in carts && b in carts && carts[a].user == carts[b].user ==> a == b
  }

  predicate ProductsIntact(products: map<Id, Product>, users: map<Id, User>)
  {
    forall p :: p in products ==> products[p].owner in users
  }

  predicate CartsIntact(carts: map<Id, Cart>, users: map<Id, User>)
  {
    forall c :: c in carts ==> carts[c].user in users
  }

  predicate ItemsIntact(items: map<Id, CartItem>, carts: map<Id, Cart>, products: map<Id, Product>)
  {
    forall i :: i in items ==> items[i].cart in carts && items[i].product in products
  }

  predicate BuyerHistoryIntact(rows: map<Id, BuyerPurchase>, products: map<Id, Product>, users: map<Id, User>)
  {
    forall h :: h in rows ==>
      rows[h].buyer in users && RefersOrNull(rows[h].product, products) && RefersOrNull(rows[h].seller, users)
  }

  predicate SellerHistoryIntact(rows: map<Id, SellerSale>, products: map<Id, Product>, users: map<Id, User>)
  {
    forall h :: h in rows ==>
      rows[h].seller in users && RefersOrNull(rows[h].product, products) && RefersOrNull(rows[h].soldTo, users)
  }

  predicate ReviewsIntact(reviews: map<Id, Review>, products: map<Id, Product>, users: map<Id, User>)
  {
    forall r :: r in reviews ==>
      && reviews[r].product in products
      && reviews[r].buyer in users
      && reviews[r].seller in users
      && ValidRating(reviews[r].rating)
  }

  /** Every reference resolves, usernames are unique, each user has at
      most one cart, and every review's rating is on the 1..5 scale. */
  predicate Consistent(t: Tables)
  {
    && UniqueUsernames(t.users)
    && OneCartPerUser(t.carts)
    && ProductsIntact(t.products, t.users)
    && CartsIntact(t.carts, t.users)
    && ItemsIntact(t.items, t.carts, t.products)
    && BuyerHistoryIntact(t.buyerHistory, t.products, t.users)
    && SellerHistoryIntact(t.sellerHistory, t.products, t.users)
    && ReviewsIntact(t.reviews, t.products, t.users)
  }
}
