# Marketplace data model in Dafny

This project models the consistency core of a small marketplace's data
layer (`backend/api/models.py`, a Django models file). It covers users,
product listings, one cart per user with its cart lines, the two-sided
purchase ledger (buyer history and seller history) and reviews. Each table
is a map from integer id to row. Nullable foreign keys are `Option<Id>`.
The store is a class (`Marketplace.Store`) whose save and delete methods
reassign those maps.

What it models:

- **Cart line snapshot.** Every save of a cart line copies three values
  into the line: the product's title, its owner's username and its price.
  This happens on every save, not only on creation, so a stale snapshot is
  overwritten even when only the quantity changed. Between saves the
  snapshot is not kept live: saving a product leaves the lines alone.
- **Buyer ledger seller derivation.** Saving a buyer-history row that has
  a product but no seller fills in the product's owner as seller. An
  explicit seller is never overwritten. A row without product keeps the
  seller it was given. The seller-history table has no such hook, so its
  `soldTo` is never filled in. The model keeps this asymmetry.
- **Review ratings.** A rating is accepted iff it lies in 1..5. The average
  rating of a product is 0 when it has no reviews. Otherwise it is sum over
  count, and it lies between the smallest and the largest rating. Over the
  integers that is `count*min <= sum <= count*max`. So it lies in [1, 5].
- **On-delete policies.** Every foreign key is either CASCADE or SET NULL.
  Deleting a user, product or cart is specified as a relation between the
  tables before and after (`Deletion.Cascade`), one rule per table. It is
  proved to keep every reference resolvable, and proved transitive.
- **Store invariant** (`Schema.Consistent`): every reference resolves,
  usernames are unique, each user has at most one cart, and every stored
  rating is in 1..5. The category is one of the five declared choices: the
  row stores a `Category` enum, and a save parses the string against those
  choices.

Files:

- `schema.dfy`: rows, `Tables`, the invariant, categories.
- `hooks.dfy`: the two save hooks as functions.
- `ratings.dfy`: the average and its bounds.
- `deletion.dfy`: the on-delete relations and their theorems.
- `store.dfy`: the `Store` class.
- `scenario.dfy`: three client walk-throughs that use only the contracts.
  One is the reprice story: alice's widget at 9.99 is put in bob's cart,
  repriced to 12.50, and the line picks up the new price when it is saved
  with a new quantity.

Choices the model makes about the code:

- Quantity is a `PositiveIntegerField`, and Django accepts 0 for it. The
  model's quantity is a `nat`, so a line with quantity 0 is stored.
- A cart line's product reference is not nullable. Saving a line whose
  product does not exist fails when the snapshot dereferences the product,
  before anything is written. The model refuses that save with
  `MissingProduct`.
- The rating and category validators run in Django's `full_clean`, not in
  `save`. The model runs them in `SaveReview` and `SaveProduct`, as a caller
  that cleans before saving does. This is stricter than a bare `save`; see
  "## Left out".

## Model

| member | source | states |
|---|---|---|
| `Schema.ValidRating` | backend/api/models.py:117 | a rating passes the validators iff it is at least 1 and at most 5 |
| `Schema.Consistent` | backend/api/models.py:10-116 | the database constraints: unique usernames, one cart per user, every non-null foreign key names an existing row, and every stored rating passes its validators |
| `Schema.ParseCategory` | backend/api/models.py:34-40 | a category string is accepted iff it is one of the five declared choices, and it then maps to the category of that name |
| `Schema.CategoryRoundTrip` | backend/api/models.py:34-40 | every category's stored name is a declared choice and parses back to the same category |
| `Schema.RatingBoundaries` | backend/api/models.py:117 | the rating validators accept 1 and 5 and reject 0 and 6 |
| `SaveHooks.TakeSnapshot` | backend/api/models.py:73-79 | the saved line keeps its cart, product and quantity; its name, seller name and amount equal the product's title, owner's username and price |
| `SaveHooks.SnapshotIgnoresStaleColumns` | backend/api/models.py:73-78 | two in-memory lines that differ only in their old snapshot columns are saved as the same row, so a quantity-only edit still refreshes the snapshot |
| `SaveHooks.SnapshotIdempotent` | backend/api/models.py:73-79 | saving a line twice gives the same row as saving it once |
| `SaveHooks.DeriveSeller` | backend/api/models.py:93-96 | buyer and product are unchanged; an explicit seller is kept; a row without product keeps its seller; a row with a product and no seller gets the product's owner |
| `SaveHooks.DerivedSellerPresence` | backend/api/models.py:94-95 | after the hook a seller is present iff one was given or a product is set |
| `SaveHooks.DeriveSellerIdempotent` | backend/api/models.py:93-96 | running the buyer hook twice gives the same row as running it once |
| `Ratings.SumBounds` | backend/api/models.py:128 | for a non-empty list of ratings, count times the smallest is at most the sum, and the sum is at most count times the largest |
| `Ratings.AverageRating` | backend/api/models.py:124-129 | the mean is 0 for no ratings; otherwise it lies between the smallest and largest rating, so in [1, 5] when every rating is valid |
| `Ratings.AverageOfThree` | backend/api/models.py:128 | the ratings 5, 3, 4 average to exactly 4 |
| `Ratings.ProductRatings` | backend/api/models.py:126-128 | one entry per review of the product; all in 1..5 when every stored rating is |
| `Ratings.ProductRatingsCounts` | backend/api/models.py:126-128 | each rating value occurs in the list exactly as often as there are reviews of the product with that rating, so the list is the product's ratings with their multiplicities |
| `Ratings.ProductRatingsMembers` | backend/api/models.py:126-128 | a value is in the list iff some review of the product has that rating |
| `Ratings.RatingsBracket` | backend/api/models.py:127-128 | when the product has a review, the mean of its ratings lies between the rating of its lowest rated review and that of its highest rated review |
| `Marketplace.ReviewsAverage` | backend/api/models.py:124-129 | with every review id below the counter, the ratings collected are those of all the product's reviews; the mean is 0 without reviews and otherwise between the lowest and highest of their ratings |
| `Deletion.ClearRef` | backend/api/models.py:89-90 | SET NULL: a reference to a deleted row becomes null; any other reference is unchanged |
| `Deletion.KeepItems` | backend/api/models.py:64-65 | a cart line survives iff neither its cart nor its product is deleted, and then unchanged |
| `Deletion.KeepReviews` | backend/api/models.py:114-116 | a review survives iff none of its product, buyer and seller is deleted, and then unchanged |
| `Deletion.KeepBuyerRows` | backend/api/models.py:88-90 | a buyer row survives iff its buyer is not deleted; its product and seller become null when deleted |
| `Deletion.KeepSellerRows` | backend/api/models.py:102-104 | a seller row survives iff its seller is not deleted; its product and buyer become null when deleted |
| `Deletion.Cascade` | backend/api/models.py:43-116 | the on-delete table: users, products and carts in the deleted sets go; cart lines and reviews go when a row they refer to goes (CASCADE); ledger rows go with their owning user (CASCADE) and otherwise have references to deleted rows cleared (SET NULL); nothing else changes |
| `Deletion.Delete` | backend/api/models.py:43-116 | computes the tables after deleting the given users, products and carts, and the result is exactly the deletion relation: deleted rows go, cascaded rows go, SET NULL columns are cleared, everything else is unchanged |
| `Deletion.CascadeKeepsConsistency` | backend/api/models.py:43-116 | a deletion closed under the user-to-product and user-to-cart cascades leaves every reference resolvable, usernames unique, at most one cart per user and every rating valid |
| `Deletion.CascadesCompose` | backend/api/models.py:43-116 | two deletions in a row are one deletion of the unions of the deleted sets |
| `Deletion.ProductDeletionKeepsConsistency` | backend/api/models.py:65-114 | deleting a product keeps the store invariant |
| `Deletion.ProductDeletionEffect` | backend/api/models.py:65-114 | deleting a product removes its cart lines and reviews; every ledger row survives with only its product nulled; users, carts and every other row are unchanged |
| `Deletion.DeletingAbsentProduct` | backend/api/models.py:65-114 | deleting a product that does not exist changes nothing |
| `Deletion.CartDeletionKeepsConsistency` | backend/api/models.py:64 | deleting a cart, with its lines, keeps the store invariant |
| `Deletion.UserDeletionKeepsConsistency` | backend/api/models.py:43-116 | deleting a user with everything that cascades from it keeps the store invariant |
| `Deletion.UserDeletionLeavesNoReference` | backend/api/models.py:43-116 | after deleting a user, no product, cart, review or ledger row names the user, and no cart line or review refers to a product the user owned |
| `Deletion.OwnedProductThenOwner` | backend/api/models.py:43-65 | deleting one of a user's products and then the user ends in the same state as deleting the user |
| `Marketplace.Store.SaveUser` | backend/api/models.py:10 | a save succeeds iff the row exists (or is new) and no other user has the username; on success only that user row changes; on failure nothing does |
| `Marketplace.Store.SaveProduct` | backend/api/models.py:42-49 | refuses an undeclared category, then a missing owner; on success only the product row changes, so cart snapshots keep their old values |
| `Marketplace.Store.AddCart` | backend/api/models.py:57-58 | refuses a missing user and a second cart for the same user; on success adds exactly one cart |
| `Marketplace.Store.SaveCartItem` | backend/api/models.py:63-79 | refuses a missing product, then a missing cart; on success writes only this line, with cart, product and quantity as given and the snapshot equal to the product's current title, owner's username and price |
| `Marketplace.Store.SaveBuyerPurchase` | backend/api/models.py:87-96 | refuses a missing product, buyer or seller; on success writes only this row; the seller becomes the product's owner when it was null and a product is set; otherwise the row is stored as given |
| `Marketplace.Store.SaveSellerSale` | backend/api/models.py:101-105 | refuses missing references; on success stores the row exactly as given, so a null buyer stays null even with a product |
| `Marketplace.Store.SaveReview` | backend/api/models.py:113-119 | refuses a rating outside 1..5 before any other check, then missing references; on success writes only this review |
| `Marketplace.Store.ApplyCascade` | backend/api/models.py:43-116 | deletes closed sets of users, products and carts, applying each foreign key's CASCADE or SET NULL, and keeps the store invariant |
| `Marketplace.Store.DeleteProduct` | backend/api/models.py:65-114 | the store after the call is the product deletion of the store before it, and stays consistent |
| `Marketplace.Store.DeleteCart` | backend/api/models.py:64 | the store after the call is the cart deletion of the store before it, and stays consistent |
| `Marketplace.Store.DeleteUser` | backend/api/models.py:43-116 | the store after the call is the user deletion of the store before it, and stays consistent |
| `Marketplace.Store.AverageRatingOf` | backend/api/models.py:124-129 | the reviews averaged are exactly the product's reviews; 0 when there are none, otherwise the sum of their ratings over their count, between the lowest and highest rating among them, hence in [1, 5] |

## Left out

- The ORM itself: `super().save`, querysets, `exists()` and `count()`. Rows live in in-memory maps.
- Transactions, concurrent writers and last-write-wins. These are concurrency, not modelled.
- `Ratings.AverageRating`: returns the exact mean over the reals. It does not model `round(..., 2)` on floating-point division.
- `Marketplace.Store.AverageRatingOf`: the same unrounded mean, over the product's ratings in id order.
- Image fields and their upload paths, and the `auto_now_add` timestamps. They depend on file storage and the clock.
- The `groups` and `user_permissions` relations, their renamed reverse names, and every inherited user field except `username`. Authentication comes from a library class that is not part of this model.
- Column limits (`max_length`, `max_digits`, `decimal_places`) and the `__str__` display strings. Prices and amounts are integer cents.
- `Marketplace.Store.SaveUser`, `SaveProduct`, `SaveCartItem`, `SaveBuyerPurchase`, `SaveSellerSale`, `SaveReview`: a save with an explicit id that matches no row is refused with `MissingRow`, where Django would insert a row under that id. New rows take ids from one counter shared by all tables.
- `Marketplace.Store.SaveReview`, `Marketplace.Store.SaveProduct`: they run the rating and category validators before writing, as `full_clean` does. A bare Django `save()` would store a rating outside 1..5 or a category string outside the five choices. The model does not capture that unvalidated path. So the store invariant's "every rating in 1..5" and the [1, 5] bound of `Marketplace.Store.AverageRatingOf` hold only for callers that clean before saving.
- Django's exception classes (`DoesNotExist`, `IntegrityError`, `ValidationError`) are collapsed into the `Error` values.
- Deleting a cart line, a ledger row or a review on its own. No other row refers to them, so no on-delete policy applies. Changing which user a cart belongs to. Carts are only created.
