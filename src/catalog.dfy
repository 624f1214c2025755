/**
 * What the storefront shows of a product, shared by the product card and the product dialog:
 * the stock badges, the add-to-cart gate, and the star rating.
 */
module Catalog {
  import opened Wrappers
  import opened Domain

  /** The "Low Stock" badge: fewer than ten in stock but not none. */
  predicate LowStock(stock: int) {
    stock < 10 && stock > 0
  }

  /** The "Out of Stock" badge. */
  predicate OutOfStock(stock: int) {
    stock == 0
  }

  /** The two badges never show together, and a product with stock between 1 and 9 shows exactly the low one. */
  lemma BadgesExclusive(stock: int)
    ensures !(LowStock(stock) && OutOfStock(stock))
    ensures LowStock(stock) <==> 0 < stock < 10
    ensures OutOfStock(stock) <==> stock == 0
  {
  }

  /** The add-to-cart button is disabled exactly when nothing is in stock. */
  predicate AddDisabled(p: Product) {
    p.stockAvailable == 0
  }

  /** `isactive !== false`: a product is active unless it says outright that it is not. */
  function IsActive(p: Product): (b: bool)
    ensures b <==> p.isActive.None? || p.isActive.value
    ensures !b <==> p.isActive == Some(false)
  {
    p.isActive != Some(false)
  }

  function RatingSum(reviews: seq<Review>): int {
    if reviews == [] then 0 else RatingSum(reviews[..|reviews| - 1]) + reviews[|reviews| - 1].rating
  }

  /**
   * `Math.floor(averageRating)`: 0 without reviews, otherwise the floor of the mean rating, the
   * unique integer whose multiple by the count lies within one count below the sum.
   */
  function AverageFloor(reviews: seq<Review>): (a: int)
    ensures |reviews| == 0 ==> a == 0
    ensures |reviews| > 0 ==> a * |reviews| <= RatingSum(reviews) < (a + 1) * |reviews|
  {
    if |reviews| > 0 then RatingSum(reviews) / |reviews| else 0
  }

  /** The first k stars of a row: star i is filled when i is below the bound. */
  function StarPrefix(k: nat, bound: int): (row: seq<bool>)
    ensures |row| == k
    ensures forall i :: 0 <= i < k ==> row[i] == (i < bound)
  {
    if k == 0 then [] else StarPrefix(k - 1, bound) + [k - 1 < bound]
  }

  /** The five stars `[...Array(5)].map((_, i) => i < bound)`. */
  function StarRow(bound: int): seq<bool> {
    StarPrefix(5, bound)
  }

  function FilledCount(row: seq<bool>): nat {
    if row == [] then 0 else FilledCount(row[..|row| - 1]) + (if row[|row| - 1] then 1 else 0)
  }

  function Clamp(x: int, lo: int, hi: int): int
    requires lo <= hi
  {
    if x < lo then lo else if x > hi then hi else x
  }

  lemma {:induction false} StarPrefixCount(k: nat, bound: int)
    ensures FilledCount(StarPrefix(k, bound)) == Clamp(bound, 0, k)
  {
    if k > 0 {
      StarPrefixCount(k - 1, bound);
      var row := StarPrefix(k, bound);
      assert row[..k - 1] == StarPrefix(k - 1, bound);
    }
  }

  /** The number of filled stars is the bound clamped to 0..5. */
  lemma FilledStars(bound: int)
    ensures FilledCount(StarRow(bound)) == Clamp(bound, 0, 5)
  {
    StarPrefixCount(5, bound);
  }

  /** The stars of a product: filled below the floor of its average rating. */
  function ProductStars(p: Product): (row: seq<bool>)
    ensures |row| == 5 && forall i :: 0 <= i < 5 ==> row[i] == (i < AverageFloor(p.reviews))
    ensures FilledCount(row) == Clamp(AverageFloor(p.reviews), 0, 5)
    ensures p.reviews == [] ==> FilledCount(row) == 0
  {
    FilledStars(AverageFloor(p.reviews));
    StarRow(AverageFloor(p.reviews))
  }
}
