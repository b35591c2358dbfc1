/** Walks through the store's contracts as a caller sees them. */
module Scenario {
  import opened Schema
  import opened Deletion
  import opened Marketplace

  /** A store holding the users alice (id 0) and bob (id 1), and alice's
      widget (id 2) at 9.99. */
  method AliceSellsAWidget() returns (s: Store)
    ensures fresh(s) && s.Valid() && s.nextId == 3
    ensures s.users == map[0 := User("alice"), 1 := User("bob")]
    ensures s.products == map[2 := Product(0, "Widget", "A widget", Other, 999)]
    ensures s.carts == map[] && s.items == map[] && s.reviews == map[]
    ensures s.buyerHistory == map[] && s.sellerHistory == map[]
  {
    s := new Store();
    var alice := s.SaveUser(None, "alice");
    assert alice == Ok(0);
    var bob := s.SaveUser(None, "bob");
    assert bob == Ok(1);
    var widget := s.SaveProduct(None, 0, "Widget", "A widget", "Other", 999);
    assert widget == Ok(2);
  }

  /** A cart line keeps its snapshot while the product changes, and takes
      the new price when it is saved again with only a new quantity. */
  method RepricedWidget()
  {
    var s := AliceSellsAWidget();
    var unknown := s.SaveProduct(None, 0, "Gadget", "A gadget", "Toys", 500);
    assert unknown == Err(InvalidCategory);

    var cart := s.AddCart(1);
    assert cart == Ok(3);
    assert s.carts[3] == Cart(1);
    var second := s.AddCart(1);
    assert second == Err(DuplicateCart);

    var line := s.SaveCartItem(None, CartItem(3, 2, 2, "", "", None));
    assert line == Ok(4);
    assert s.items[4].amount == Some(999) && s.items[4].sellerName == "alice";
    assert s.items[4].productName == "Widget";

    var repriced := s.SaveProduct(Some(2), 0, "Widget", "A widget", "Other", 1250);
    assert repriced == Ok(2);
    assert s.items[4].amount == Some(999);

    var resaved := s.SaveCartItem(Some(4), s.items[4].(quantity := 3));
    assert resaved == Ok(4);
    assert s.items[4].amount == Some(1250) && s.items[4].quantity == 3;
  }

  /** Ratings outside 1..5 are refused; a product without reviews averages
      0, and one with a single review averages that review's rating. */
  method RatingTheWidget()
  {
    var s := AliceSellsAWidget();
    var tooHigh := s.SaveReview(None, Review(2, 1, 0, 6, "great"));
    assert tooHigh == Err(InvalidRating);
    assert !HasReview(s.reviews, 2);
    assert s.AverageRatingOf(2) == 0.0;
    var review := s.SaveReview(None, Review(2, 1, 0, 5, "great"));
    assert review == Ok(3);
    assert s.reviews[3].product == 2;
    assert s.reviews == map[3 := Review(2, 1, 0, 5, "great")];
    var average := s.AverageRatingOf(2);
    assert average == 5.0;
  }

  /** Only the buyer's side of the ledger fills in the counter-party, and
      deleting the seller keeps the buyer's row with nulled references. */
  method LedgerOutlivesSeller()
  {
    var s := AliceSellsAWidget();
    var bought := s.SaveBuyerPurchase(None, BuyerPurchase(1, Some(2), None));
    assert bought == Ok(3);
    assert s.buyerHistory[3].seller == Some(0);
    var sold := s.SaveSellerSale(None, SellerSale(0, Some(2), None));
    assert sold == Ok(4);
    assert s.sellerHistory[4].soldTo == None;

    ghost var before := s.State();
    s.DeleteUser(0);
    assert 2 in OwnedBy(before, 0);
    assert 2 !in s.products;
    assert 3 in s.buyerHistory && s.buyerHistory[3] == BuyerPurchase(1, None, None);
    assert 4 !in s.sellerHistory;
  }
}
