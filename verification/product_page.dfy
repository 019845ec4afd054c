/** The product detail page: review statistics, size ordering, the selected
    variant and its price, quantity handling against stock, the add-to-cart
    and buy-now guards, and the similar-products list. */
module ProductPage {
  import opened Js
  import opened Sellers
  import opened Sorting

  // ---------------------------------------------------------------- reviews

  /** `averageRating`, `totalRatings`, the star total, and the distribution
      with `distribution[k - 1]` counting the reviews of `k` stars. */
  datatype ReviewStats = ReviewStats(averageRating: real, totalRatings: nat, totalStars: int, distribution: seq<nat>)

  /** Ratings are given as `review.rating || 0`. */
  function SumStars(ratings: seq<int>): int {
    if |ratings| == 0 then 0 else SumStars(ratings[..|ratings| - 1]) + ratings[|ratings| - 1]
  }

  function CountRating(ratings: seq<int>, k: int): nat {
    if |ratings| == 0 then 0
    else CountRating(ratings[..|ratings| - 1], k) + (if ratings[|ratings| - 1] == k then 1 else 0)
  }

  predicate InStarRange(r: int) {
    1 <= r <= 5
  }

  function CountInRange(ratings: seq<int>): nat {
    if |ratings| == 0 then 0
    else CountInRange(ratings[..|ratings| - 1]) + (if InStarRange(ratings[|ratings| - 1]) then 1 else 0)
  }

  function DistSum(d: seq<nat>): int
    requires |d| == 5
  {
    d[0] + d[1] + d[2] + d[3] + d[4]
  }

  /** `fetchReviews`' aggregation over the fetched ratings. */
  method FetchReviewStats(ratings: seq<int>) returns (st: ReviewStats)
    ensures st.totalRatings == |ratings|
    ensures st.totalStars == SumStars(ratings)
    ensures |st.distribution| == 5
    ensures forall k :: 1 <= k <= 5 ==> st.distribution[k - 1] == CountRating(ratings, k)
    ensures |ratings| == 0 ==> st.averageRating == 0.0
    ensures |ratings| > 0 ==> st.averageRating == st.totalStars as real / |ratings| as real
  {
    var totalStars := 0;
    var dist: seq<nat> := [0, 0, 0, 0, 0];
    var i := 0;
    while i < |ratings|
      invariant 0 <= i <= |ratings|
      invariant totalStars == SumStars(ratings[..i])
      invariant |dist| == 5
      invariant forall k :: 1 <= k <= 5 ==> dist[k - 1] == CountRating(ratings[..i], k)
    {
      var r := ratings[i];
      assert ratings[..i + 1][..i] == ratings[..i];
      totalStars := totalStars + r;
      if InStarRange(r) {
        dist := dist[r - 1 := dist[r - 1] + 1];
      }
      i := i + 1;
    }
    assert ratings[..i] == ratings;
    var average := if |ratings| > 0 then totalStars as real / |ratings| as real else 0.0;
    st := ReviewStats(average, |ratings|, totalStars, dist);
  }

  /** The distribution counts exactly the ratings from 1 to 5, so it never
      exceeds the number of reviews, and equals it exactly when every rating
      is in range. */
  lemma {:induction false} DistributionCountsInRange(ratings: seq<int>)
    ensures CountRating(ratings, 1) + CountRating(ratings, 2) + CountRating(ratings, 3)
            + CountRating(ratings, 4) + CountRating(ratings, 5) == CountInRange(ratings)
    ensures CountInRange(ratings) <= |ratings|
    ensures CountInRange(ratings) == |ratings| <==> forall i :: 0 <= i < |ratings| ==> InStarRange(ratings[i])
  {
    if |ratings| > 0 {
      var init := ratings[..|ratings| - 1];
      DistributionCountsInRange(init);
      if CountInRange(ratings) == |ratings| {
        assert CountInRange(init) == |init|;
        forall i | 0 <= i < |ratings| ensures InStarRange(ratings[i]) {
          if i < |init| {
            assert init[i] == ratings[i];
          }
        }
      }
      if forall i :: 0 <= i < |ratings| ==> InStarRange(ratings[i]) {
        assert forall i :: 0 <= i < |init| ==> InStarRange(init[i]) by {
          forall i | 0 <= i < |init| ensures InStarRange(init[i]) {
            assert init[i] == ratings[i];
          }
        }
      }
    }
  }

  lemma {:induction false} SumStarsBounds(ratings: seq<int>)
    requires forall i :: 0 <= i < |ratings| ==> InStarRange(ratings[i])
    ensures |ratings| <= SumStars(ratings) <= 5 * |ratings|
  {
    if |ratings| > 0 {
      var init := ratings[..|ratings| - 1];
      assert forall i :: 0 <= i < |init| ==> init[i] == ratings[i];
      SumStarsBounds(init);
    }
  }

  /** With every rating between 1 and 5 stars, a non-empty average is too. */
  lemma AverageWithinStars(ratings: seq<int>, st: ReviewStats)
    requires |ratings| > 0 && forall i :: 0 <= i < |ratings| ==> InStarRange(ratings[i])
    requires st.totalStars == SumStars(ratings) && st.averageRating == st.totalStars as real / |ratings| as real
    ensures 1.0 <= st.averageRating <= 5.0
  {
    SumStarsBounds(ratings);
    QuotientBounds(st.totalStars as real, |ratings| as real);
  }

  lemma QuotientBounds(s: real, n: real)
    requires n > 0.0 && n <= s <= 5.0 * n
    ensures 1.0 <= s / n <= 5.0
  {
    var q := s / n;
    assert q * n == s;
    assert (q - 1.0) * n == s - n;
    assert (5.0 - q) * n == 5.0 * n - s;
    NonNegativeFactor(q - 1.0, n);
    NonNegativeFactor(5.0 - q, n);
  }

  lemma NonNegativeFactor(x: real, n: real)
    requires n > 0.0 && x * n >= 0.0
    ensures x >= 0.0
  {
  }

  // ----------------------------------------------------------------- sizes

  /** A size variant; a missing `stock` (or `price`) is 0. */
  datatype Variant = Variant(size: Option<string>, price: int, stock: int)

  const SizeOrder: seq<string> := ["S", "M", "L", "XL", "XXL", "XXXL"]

  /** `toUpperCase` on ASCII letters. */
  function UpperAscii(s: string): (r: string)
    ensures |r| == |s|
    ensures forall i :: 0 <= i < |s| ==> r[i] == (if 'a' <= s[i] <= 'z' then (s[i] as int - 32) as char else s[i])
  {
    seq(|s|, i requires 0 <= i < |s| => if 'a' <= s[i] <= 'z' then (s[i] as int - 32) as char else s[i])
  }

  function IndexOf(xs: seq<string>, x: string): (r: Option<nat>)
    ensures r.Some? ==> r.value < |xs| && xs[r.value] == x && forall j :: 0 <= j < r.value ==> xs[j] != x
    ensures r.None? <==> x !in xs
  {
    if |xs| == 0 then None
    else if xs[0] == x then Some(0)
    else match IndexOf(xs[1..], x)
      case None => None
      case Some(j) => Some(j + 1)
  }

  /** `sizeIndexMap[v.size?.toUpperCase()] ?? Infinity`, with `None` for Infinity. */
  function SizeRank(v: Variant): Option<nat> {
    if v.size.None? then None else IndexOf(SizeOrder, UpperAscii(v.size.value))
  }

  /** The comparator `indexA - indexB` is at most 0: a known size precedes
      every larger or unknown one, and two unknown sizes give `NaN`, which
      the sort treats as a tie. */
  predicate RankLe(a: Variant, b: Variant) {
    match (SizeRank(a), SizeRank(b))
    case (Some(x), Some(y)) => x <= y
    case (Some(_), None) => true
    case (None, Some(_)) => false
    case (None, None) => true
  }

  lemma RankLeIsTotalPreorder()
    ensures TotalPreorder(RankLe)
  {
    forall a, b ensures Le(RankLe, a, b) || Le(RankLe, b, a) {
    }
    forall a, b, c | Le(RankLe, a, b) && Le(RankLe, b, c) ensures Le(RankLe, a, c) {
    }
  }

  /** `sortedVariants`. */
  function SortedVariants(vs: seq<Variant>): seq<Variant> {
    Sort(vs, RankLe)
  }

  /** Sorting keeps the variants: the result is a rearrangement. */
  lemma SortedVariantsPermutation(vs: seq<Variant>)
    ensures multiset(SortedVariants(vs)) == multiset(vs)
    ensures |SortedVariants(vs)| == |vs|
  {
  }

  /** Known sizes come in S, M, L, XL, XXL, XXXL order and before every
      unknown size. */
  lemma SortedVariantsOrdered(vs: seq<Variant>)
    ensures forall i, j :: 0 <= i < j < |SortedVariants(vs)| && SizeRank(SortedVariants(vs)[j]).Some? ==>
              SizeRank(SortedVariants(vs)[i]).Some?
              && SizeRank(SortedVariants(vs)[i]).value <= SizeRank(SortedVariants(vs)[j]).value
  {
    var r := SortedVariants(vs);
    RankLeIsTotalPreorder();
    SortSorted(vs, RankLe);
    forall i, j | 0 <= i < j < |r| && SizeRank(r[j]).Some?
      ensures SizeRank(r[i]).Some? && SizeRank(r[i]).value <= SizeRank(r[j]).value
    {
      assert RankLe(r[i], r[j]);
    }
  }

  /** Variants of equal rank, all the unknown sizes among them, keep their
      original order. */
  lemma SortedVariantsStable(vs: seq<Variant>, x: Variant)
    ensures TiedWith(SortedVariants(vs), x, RankLe) == TiedWith(vs, x, RankLe)
  {
    RankLeIsTotalPreorder();
    SortStable(vs, x, RankLe);
  }

  /** Upper-casing twice changes nothing more. */
  lemma UpperAsciiIdempotent(s: string)
    ensures UpperAscii(UpperAscii(s)) == UpperAscii(s)
  {
    var u := UpperAscii(s);
    forall i | 0 <= i < |u| ensures UpperAscii(u)[i] == u[i] {
      assert !('a' <= u[i] <= 'z');
    }
  }

  /** Sizes are compared case-insensitively: a size ranks as its upper-case
      spelling does, so "xl", "Xl" and "XL" all rank as XL. */
  lemma SizeRankIgnoresCase(s: string, price: int, stock: int)
    ensures SizeRank(Variant(Some(UpperAscii(s)), price, stock)) == SizeRank(Variant(Some(s), price, stock))
  {
    UpperAsciiIdempotent(s);
  }

  /** "xl" ranks fourth; "Free" matches no known size. */
  lemma SizeRankExamples()
    ensures SizeRank(Variant(Some("xl"), 0, 0)) == SizeRank(Variant(Some("XL"), 0, 0)) == Some(3)
    ensures SizeRank(Variant(Some("Free"), 0, 0)).None?
  {
    UpperXl();
    XlRank();
    FreeUnranked();
  }

  lemma UpperXl()
    ensures UpperAscii("xl") == "XL" && UpperAscii("XL") == "XL"
  {
  }

  lemma XlRank()
    ensures IndexOf(SizeOrder, "XL") == Some(3)
  {
    assert SizeOrder[1..][1..][1..][0] == "XL";
  }

  lemma FreeUnranked()
    ensures IndexOf(SizeOrder, UpperAscii("Free")) == None
  {
    assert UpperAscii("Free") == "FREE";
  }

  /** `productVariants.find(v => v.size === size)`: the first variant whose
      size is `size`. `None` is `undefined`, the size of a variant stored
      without one. */
  function FindSize(vs: seq<Variant>, size: Option<string>): (r: Option<Variant>)
    ensures r.Some? ==> exists i :: 0 <= i < |vs| && vs[i] == r.value && vs[i].size == size
                                    && forall j :: 0 <= j < i ==> vs[j].size != size
    ensures r.None? <==> forall i :: 0 <= i < |vs| ==> vs[i].size != size
  {
    if |vs| == 0 then None
    else if vs[0].size == size then Some(vs[0])
    else
      assert forall i :: 0 < i < |vs| ==> vs[i] == vs[1..][i - 1];
      var r := FindSize(vs[1..], size);
      assert r.Some? ==> exists i :: 1 <= i < |vs| && vs[i] == r.value && vs[i].size == size
                                     && forall j :: 0 <= j < i ==> vs[j].size != size;
      r
  }

  const NoSize := "N/A"

  /** `currentVariant`: none without variants or without a real selection,
      else the first variant of the selected size. `None` as the selection is
      `null`. */
  function CurrentVariant(vs: seq<Variant>, selected: Option<string>): (r: Option<Variant>)
    ensures r.Some? ==> Truthy(selected) && selected != Some(NoSize)
    ensures r.Some? ==> exists i :: 0 <= i < |vs| && vs[i] == r.value && vs[i].size == selected
                                    && forall j :: 0 <= j < i ==> vs[j].size != selected
    ensures |vs| > 0 && Truthy(selected) && selected != Some(NoSize) && (exists i :: 0 <= i < |vs| && vs[i].size == selected)
            ==> r.Some?
  {
    if |vs| == 0 || !Truthy(selected) || selected.value == NoSize then None
    else FindSize(vs, selected)
  }

  /** The product as the page loads it; a missing number is 0. */
  datatype Product = Product(id: string, name: Option<string>, title: Option<string>, price: int, stock: int, sellers: SellerFields)

  const ExchangeRate := 1

  /** `calculatedPriceINR`: the variant's price, else the product's, else 0. */
  function UnitPrice(product: Option<Product>, current: Option<Variant>): (r: int)
    ensures product.None? ==> r == 0
    ensures product.Some? && current.Some? && current.value.price != 0 ==> r == current.value.price
    ensures product.Some? && (current.None? || current.value.price == 0) ==> r == product.value.price
  {
    if product.None? then 0
    else NumOr(if current.Some? then current.value.price else 0, NumOr(product.value.price, 0)) * ExchangeRate
  }

  // ------------------------------------------------------------- quantity

  /** `maxStock`; `None` is `Infinity`, which a stock of 0 also gives. */
  function MaxStock(vs: seq<Variant>, current: Option<Variant>, product: Option<Product>): (r: Option<int>)
    ensures r.Some? ==> r.value != 0
    ensures |vs| > 0 ==> (r.Some? <==> current.Some? && current.value.stock != 0)
                         && (r.Some? ==> r.value == current.value.stock)
    ensures |vs| == 0 ==> (r.Some? <==> product.Some? && product.value.stock != 0)
                          && (r.Some? ==> r.value == product.value.stock)
  {
    var stock := if |vs| > 0 then (if current.Some? then current.value.stock else 0)
                 else (if product.Some? then product.value.stock else 0);
    if stock != 0 then Some(stock) else None
  }

  predicate AtOrAbove(q: int, max: Option<int>) {
    max.Some? && q >= max.value
  }

  /** `handleIncrementQuantity`: refused at or above the stock, else one more. */
  function Increment(q: int, max: Option<int>): (r: int)
    ensures AtOrAbove(q, max) ==> r == q
    ensures !AtOrAbove(q, max) ==> r == q + 1
  {
    if AtOrAbove(q, max) then q else q + 1
  }

  /** The decrement button. */
  function Decrement(q: int): (r: int)
    ensures r >= 1
    ensures q > 1 ==> r == q - 1
    ensures q <= 1 ==> r == 1
  {
    if q - 1 > 1 then q - 1 else 1
  }

  /** `handleQuantityChange`: `parsed` is `parseInt` of the typed text
      (`None` for `NaN`); the value is at least 1, then capped at the stock. */
  function TypedQuantity(parsed: Option<int>, max: Option<int>): (r: int)
    ensures max.Some? ==> r <= max.value
    ensures max.None? || max.value >= 1 ==> r >= 1
    ensures var v := if parsed.Some? && parsed.value > 1 then parsed.value else 1;
            r == v || (max.Some? && v > max.value && r == max.value)
  {
    var typed := NumOr(parsed.GetOr(0), 1);
    var value := if typed > 1 then typed else 1;
    if max.Some? && value > max.value then max.value else value
  }

  /** Stepping up from a quantity within the stock stays within the stock. */
  lemma IncrementStaysWithinStock(q: int, max: Option<int>)
    requires max.Some? && q <= max.value
    ensures Increment(q, max) <= max.value
  {
  }

  /** On the page, the stock bound is the current variant's stock (the
      product's without variants): a typed quantity stays within it when it
      is set, and is the typed value, at least 1, when it is not. */
  lemma TypedQuantityWithinPageStock(vs: seq<Variant>, selected: Option<string>, product: Option<Product>,
                                     parsed: Option<int>)
    ensures var cur := CurrentVariant(vs, selected);
            var r := TypedQuantity(parsed, MaxStock(vs, cur, product));
            && (|vs| > 0 && cur.Some? && cur.value.stock != 0 ==> r <= cur.value.stock)
            && (|vs| == 0 && product.Some? && product.value.stock != 0 ==> r <= product.value.stock)
            && (MaxStock(vs, cur, product).None? ==> r == (if parsed.Some? && parsed.value > 1 then parsed.value else 1))
  {
  }

  /** On the page, stepping up from within the current stock stays within
      it; with no stock set (or a stock of 0) the step always succeeds. */
  lemma IncrementWithinPageStock(vs: seq<Variant>, selected: Option<string>, product: Option<Product>, q: int)
    ensures var cur := CurrentVariant(vs, selected);
            var r := Increment(q, MaxStock(vs, cur, product));
            && (|vs| > 0 && cur.Some? && cur.value.stock != 0 && q <= cur.value.stock ==> r <= cur.value.stock)
            && (|vs| == 0 && product.Some? && product.value.stock != 0 && q <= product.value.stock ==> r <= product.value.stock)
            && (MaxStock(vs, cur, product).None? ==> r == q + 1)
  {
  }

  /** `handleSizeSelect`: selects the size, and with variants resets the
      quantity to 1 when the first variant of that size has less stock.
      A variant stored without a size passes `undefined` (`None`), which
      `find` matches against that variant. */
  function SelectSize(vs: seq<Variant>, size: Option<string>, q: int): (r: (Option<string>, int))
    ensures r.0 == size
    ensures r.1 == 1 || r.1 == q
    ensures r.1 != q <==> q != 1 && FindSize(vs, size).Some? && q > FindSize(vs, size).value.stock
  {
    if |vs| > 0 then
      match FindSize(vs, size)
      case Some(v) => (size, if q > v.stock then 1 else q)
      case None => (size, q)
    else (size, q)
  }

  /** After a size change the quantity never exceeds a positive stock of
      that size. */
  lemma SelectSizeWithinStock(vs: seq<Variant>, size: Option<string>, q: int)
    requires FindSize(vs, size).Some? && FindSize(vs, size).value.stock >= 1
    ensures SelectSize(vs, size, q).1 <= FindSize(vs, size).value.stock
  {
  }

  /** Only the first of two variants of one size counts: its stock decides
      the reset, even when a later one of that size has more. */
  lemma SelectSizeFirstVariantExample()
    ensures SelectSize([Variant(Some("M"), 100, 1), Variant(Some("M"), 100, 5)], Some("M"), 3) == (Some("M"), 1)
    ensures SelectSize([Variant(None, 100, 2)], None, 3) == (None, 1)
  {
    var two := [Variant(Some("M"), 100, 1), Variant(Some("M"), 100, 5)];
    assert FindSize(two[1..], Some("M")).Some?;
    var one := [Variant(None, 100, 2)];
    assert one[0].size == None;
  }

  // ------------------------------------------------------ add to cart / buy

  datatype Refusal = SelectSizeFirst | Incomplete | VariantMissing | OutOfStock

  /** The line dispatched to the cart or handed to checkout. */
  datatype CartLine = CartLine(
    id: string,
    title: Option<string>,
    price: int,
    quantity: int,
    size: Option<string>,
    variant: Option<Variant>,
    sellerId: string)

  datatype Attempt = Refused(reason: Refusal) | Accepted(line: CartLine)

  /** The shared first guard of both buttons. */
  predicate Blocked(product: Option<Product>, vs: seq<Variant>, selected: Option<string>) {
    product.None? || (|vs| > 0 && !Truthy(selected)) || selected.None?
  }

  function FirstRefusal(vs: seq<Variant>): Refusal {
    if |vs| > 0 then SelectSizeFirst else Incomplete
  }

  /** `product.name || product.title`: the name when it is truthy, else the
      title as it is, empty or missing. */
  function NameOrTitle(p: Product): (r: Option<string>)
    ensures Truthy(p.name) ==> r == p.name
    ensures !Truthy(p.name) ==> r == p.title
  {
    if Truthy(p.name) then p.name else p.title
  }

  /** `${product.name || product.title} (${size})`; a template renders a
      missing value as "undefined" and `null` as "null". */
  function VariantTitle(p: Product, selected: Option<string>): string {
    NameOrTitle(p).GetOr("undefined") + " (" + selected.GetOr("null") + ")"
  }

  /** The seller id on the line: the fetched seller's id, else the product's
      `sellerId`, else the default. `fetched` is the page's loaded seller. */
  function LineSeller(p: Product, fetched: Option<string>): (r: string)
    ensures r != ""
    ensures Truthy(fetched) ==> r == fetched.value
    ensures !Truthy(fetched) && Truthy(p.sellers.sellerId) ==> r == p.sellers.sellerId.value
    ensures !Truthy(fetched) && !Truthy(p.sellers.sellerId) ==> r == DefaultSeller
  {
    var cands := [fetched, p.sellers.sellerId];
    assert cands[0] == fetched && cands[1] == p.sellers.sellerId;
    OrElse(cands, DefaultSeller)
  }

  /** The line both buttons build once their guards pass: with variants the
      title carries the size and the line the current variant; without, the
      title is the bare name and there is no variant. */
  function MakeLine(p: Product, vs: seq<Variant>, selected: Option<string>, q: int, fetched: Option<string>): (l: CartLine)
    ensures l.id == p.id && l.quantity == q && l.size == selected && l.sellerId == LineSeller(p, fetched)
    ensures |vs| > 0 ==> l.title == Some(VariantTitle(p, selected)) && l.variant == CurrentVariant(vs, selected)
    ensures |vs| == 0 ==> l.title == NameOrTitle(p) && l.variant.None?
    ensures l.price == UnitPrice(Some(p), if |vs| > 0 then CurrentVariant(vs, selected) else None)
  {
    var current := CurrentVariant(vs, selected);
    if |vs| > 0 then CartLine(p.id, Some(VariantTitle(p, selected)), UnitPrice(Some(p), current), q, selected, current, LineSeller(p, fetched))
    else CartLine(p.id, NameOrTitle(p), UnitPrice(Some(p), None), q, selected, None, LineSeller(p, fetched))
  }

  /** The stock check of add-to-cart: the current variant must exist and be
      in stock, or, without variants, the product itself. */
  predicate CartStockOk(p: Product, vs: seq<Variant>, selected: Option<string>) {
    if |vs| > 0 then CurrentVariant(vs, selected).Some? && CurrentVariant(vs, selected).value.stock != 0
    else p.stock != 0
  }

  /** The stock check of buy-now: only a current variant known to be out of
      stock is refused; without variants, the product's stock decides. */
  predicate BuyStockOk(p: Product, vs: seq<Variant>, selected: Option<string>) {
    if |vs| > 0 then CurrentVariant(vs, selected).None? || CurrentVariant(vs, selected).value.stock != 0
    else p.stock != 0
  }

  /** `handleAddToCart`. */
  function AddToCart(product: Option<Product>, vs: seq<Variant>, selected: Option<string>, q: int, fetched: Option<string>): (r: Attempt)
    ensures r.Accepted? <==> !Blocked(product, vs, selected) && CartStockOk(product.value, vs, selected)
    ensures Blocked(product, vs, selected) ==> r == Refused(FirstRefusal(vs))
    ensures !Blocked(product, vs, selected) && |vs| > 0 && CurrentVariant(vs, selected).None? ==> r == Refused(VariantMissing)
    ensures r.Refused? && !Blocked(product, vs, selected) && CurrentVariant(vs, selected).Some? ==> r.reason == OutOfStock
    ensures r.Refused? && !Blocked(product, vs, selected) && |vs| == 0 ==> r.reason == OutOfStock
    ensures r.Accepted? ==> product.Some? && selected.Some?
    ensures r.Accepted? && |vs| > 0 ==>
              (CurrentVariant(vs, selected).Some? && CurrentVariant(vs, selected).value.stock != 0
               && r.line.variant == CurrentVariant(vs, selected))
    ensures r.Accepted? && |vs| == 0 ==> product.value.stock != 0
    ensures r.Accepted? ==> r.line.quantity == q && r.line.price == UnitPrice(product, CurrentVariant(vs, selected))
    ensures r.Accepted? ==> r.line.id == product.value.id && r.line.size == selected
                            && r.line.sellerId == LineSeller(product.value, fetched)
    ensures r.Accepted? ==> r.line.title == (if |vs| > 0 then Some(VariantTitle(product.value, selected))
                                             else NameOrTitle(product.value))
  {
    if Blocked(product, vs, selected) then Refused(FirstRefusal(vs))
    else
      var p := product.value;
      var current := CurrentVariant(vs, selected);
      if |vs| > 0 && current.None? then Refused(VariantMissing)
      else if |vs| > 0 && current.value.stock == 0 then Refused(OutOfStock)
      else if |vs| == 0 && p.stock == 0 then Refused(OutOfStock)
      else Accepted(MakeLine(p, vs, selected, q, fetched))
  }

  datatype BuyNow = BuyRefused(reason: Refusal) | ToCheckout(line: CartLine) | ToLogin(line: CartLine)

  /** `handleBuyNow`: the same guards except that a missing variant is not
      refused; a signed-in buyer goes to checkout, anyone else to the login. */
  function BuyNowClick(product: Option<Product>, vs: seq<Variant>, selected: Option<string>, q: int,
                       fetched: Option<string>, loggedIn: bool): (r: BuyNow)
    ensures !r.BuyRefused? <==> !Blocked(product, vs, selected) && BuyStockOk(product.value, vs, selected)
    ensures Blocked(product, vs, selected) ==> r == BuyRefused(FirstRefusal(vs))
    ensures r.BuyRefused? && !Blocked(product, vs, selected) ==> r.reason == OutOfStock
    ensures !r.BuyRefused? ==> product.Some? && selected.Some?
    ensures !r.BuyRefused? ==> r.line == MakeLine(product.value, vs, selected, q, fetched)
    ensures !r.BuyRefused? ==> (r.ToCheckout? <==> loggedIn)
    ensures r.ToCheckout? ==> loggedIn
    ensures r.ToLogin? ==> !loggedIn
  {
    if Blocked(product, vs, selected) then BuyRefused(FirstRefusal(vs))
    else
      var p := product.value;
      var current := CurrentVariant(vs, selected);
      if |vs| > 0 && current.Some? && current.value.stock == 0 then BuyRefused(OutOfStock)
      else if |vs| == 0 && p.stock == 0 then BuyRefused(OutOfStock)
      else if loggedIn then ToCheckout(MakeLine(p, vs, selected, q, fetched))
      else ToLogin(MakeLine(p, vs, selected, q, fetched))
  }

  /** Whatever add-to-cart accepts, buy-now lets through with the very same
      line; whatever buy-now refuses, add-to-cart refuses for the same reason. */
  lemma AddToCartImpliesBuyNow(product: Option<Product>, vs: seq<Variant>, selected: Option<string>, q: int,
                               fetched: Option<string>, loggedIn: bool)
    ensures AddToCart(product, vs, selected, q, fetched).Accepted? ==>
              && !BuyNowClick(product, vs, selected, q, fetched, loggedIn).BuyRefused?
              && BuyNowClick(product, vs, selected, q, fetched, loggedIn).line == AddToCart(product, vs, selected, q, fetched).line
    ensures BuyNowClick(product, vs, selected, q, fetched, loggedIn).BuyRefused? ==>
              AddToCart(product, vs, selected, q, fetched) == Refused(BuyNowClick(product, vs, selected, q, fetched, loggedIn).reason)
  {
  }

  /** Both buttons refuse exactly the same clicks except one: a selection
      that matches no variant (as the initial "N/A" does), which add-to-cart
      refuses and buy-now lets through at the product's own price. */
  lemma BuyNowSkipsVariantCheck(p: Product, vs: seq<Variant>, selected: Option<string>, q: int, fetched: Option<string>)
    requires |vs| > 0 && !Blocked(Some(p), vs, selected) && CurrentVariant(vs, selected).None?
    ensures AddToCart(Some(p), vs, selected, q, fetched) == Refused(VariantMissing)
    ensures BuyNowClick(Some(p), vs, selected, q, fetched, true).ToCheckout?
    ensures BuyNowClick(Some(p), vs, selected, q, fetched, true).line.price == p.price
  {
  }

  /** Once the seller lookup has completed, the line's seller is the one the
      product record resolves to. */
  lemma LineSellerMatchesProductRule(p: Product)
    ensures LineSeller(p, PageSellerId(p.sellers)) == ProductSeller(p.sellers)
  {
    PageSellerMatchesProductSeller(p.sellers);
    if !Truthy(PageSellerId(p.sellers)) {
      assert !Truthy(p.sellers.sellerId) by {
        assert ProductProbe(p.sellers)[0] == p.sellers.sellerId;
      }
    }
  }

  // ---------------------------------------------------------- similar items

  /** A fetched product of the same category. `rating` is the rating object
      when there is one, holding its `rate` (0 when that is missing). */
  datatype CategoryDoc = CategoryDoc(id: string, name: Option<string>, price: int, rating: Option<real>)

  datatype Similar = Similar(id: string, name: Option<string>, priceValue: int, rate: real)

  const DefaultRate := 4.0
  const DefaultFilterPrice := 50000

  function ToSimilar(d: CategoryDoc): (s: Similar)
    ensures s.id == d.id && s.priceValue == d.price * ExchangeRate
    ensures s.rate == (if d.rating.Some? then d.rating.value else DefaultRate)
  {
    Similar(d.id, d.name, NumOr(d.price, 0) * ExchangeRate, d.rating.GetOr(DefaultRate))
  }

  /** The fetched list without the product being viewed. */
  function CategoryProducts(docs: seq<CategoryDoc>, currentId: string): (r: seq<Similar>)
    ensures forall s :: s in r ==> s.id != currentId
    ensures forall s :: s in r <==> exists d :: d in docs && d.id != currentId && s == ToSimilar(d)
  {
    if |docs| == 0 then []
    else
      var rest := CategoryProducts(docs[1..], currentId);
      assert forall d :: d in docs <==> d == docs[0] || d in docs[1..];
      if docs[0].id != currentId then [ToSimilar(docs[0])] + rest else rest
  }

  function WithinPrice(list: seq<Similar>, filterPrice: int): (r: seq<Similar>)
    ensures forall s :: s in r <==> s in list && s.priceValue <= filterPrice
    ensures |r| <= |list|
  {
    if |list| == 0 then []
    else
      var rest := WithinPrice(list[1..], filterPrice);
      assert forall s :: s in list <==> s == list[0] || s in list[1..];
      if list[0].priceValue <= filterPrice then [list[0]] + rest else rest
  }

  /** Dropping the viewed product is a filter: it keeps the fetched order,
      one document at a time. */
  lemma {:induction false} CategoryProductsAppend(a: seq<CategoryDoc>, b: seq<CategoryDoc>, currentId: string)
    ensures CategoryProducts(a + b, currentId) == CategoryProducts(a, currentId) + CategoryProducts(b, currentId)
  {
    if |a| == 0 {
      assert a + b == b;
    } else {
      assert (a + b)[0] == a[0] && (a + b)[1..] == a[1..] + b;
      CategoryProductsAppend(a[1..], b, currentId);
    }
  }

  lemma CategoryProductsSingle(d: CategoryDoc, currentId: string)
    ensures CategoryProducts([d], currentId) == if d.id != currentId then [ToSimilar(d)] else []
  {
    assert [d][1..] == [];
  }

  /** The price filter keeps the order of the list, one product at a time. */
  lemma {:induction false} WithinPriceAppend(a: seq<Similar>, b: seq<Similar>, filterPrice: int)
    ensures WithinPrice(a + b, filterPrice) == WithinPrice(a, filterPrice) + WithinPrice(b, filterPrice)
  {
    if |a| == 0 {
      assert a + b == b;
    } else {
      assert (a + b)[0] == a[0] && (a + b)[1..] == a[1..] + b;
      WithinPriceAppend(a[1..], b, filterPrice);
    }
  }

  lemma WithinPriceSingle(x: Similar, filterPrice: int)
    ensures WithinPrice([x], filterPrice) == if x.priceValue <= filterPrice then [x] else []
  {
    assert [x][1..] == [];
  }

  /** `(a, b) => a.priceValue - b.priceValue` and its mirror image. */
  predicate PriceAsc(a: Similar, b: Similar) {
    a.priceValue <= b.priceValue
  }

  predicate PriceDesc(a: Similar, b: Similar) {
    b.priceValue <= a.priceValue
  }

  /** The default order: by rating, highest first. */
  predicate RatingDesc(a: Similar, b: Similar) {
    b.rate <= a.rate
  }

  /** `localeCompare`, taken as code-unit order. */
  predicate LexLe(a: string, b: string)
    decreases |a|
  {
    |a| == 0 || (|b| > 0 && (a[0] < b[0] || (a[0] == b[0] && LexLe(a[1..], b[1..]))))
  }

  predicate NameAsc(a: Similar, b: Similar) {
    LexLe(a.name.GetOr(""), b.name.GetOr(""))
  }

  lemma {:induction false} LexLeTotal(a: string, b: string)
    ensures LexLe(a, b) || LexLe(b, a)
    decreases |a|
  {
    if |a| > 0 && |b| > 0 && a[0] == b[0] {
      LexLeTotal(a[1..], b[1..]);
    }
  }

  lemma {:induction false} LexLeTransitive(a: string, b: string, c: string)
    requires LexLe(a, b) && LexLe(b, c)
    ensures LexLe(a, c)
    decreases |a|
  {
    if |a| > 0 && a[0] == b[0] && b[0] == c[0] {
      LexLeTransitive(a[1..], b[1..], c[1..]);
    }
  }

  function SortKey(sortBy: string): (Similar, Similar) -> bool {
    if sortBy == "price-asc" then PriceAsc
    else if sortBy == "price-desc" then PriceDesc
    else if sortBy == "name-asc" then NameAsc
    else RatingDesc
  }

  lemma SortKeyIsTotalPreorder(sortBy: string)
    ensures TotalPreorder(SortKey(sortBy))
  {
    var le := SortKey(sortBy);
    forall a, b ensures Le(le, a, b) || Le(le, b, a) {
      LexLeTotal(a.name.GetOr(""), b.name.GetOr(""));
    }
    forall a, b, c | Le(le, a, b) && Le(le, b, c) ensures Le(le, a, c) {
      if sortBy == "name-asc" {
        LexLeTransitive(a.name.GetOr(""), b.name.GetOr(""), c.name.GetOr(""));
      }
    }
  }

  /** `filteredAndSortedCategory`. */
  function FilteredAndSorted(list: seq<Similar>, sortBy: string, filterPrice: int): seq<Similar> {
    Sort(WithinPrice(list, filterPrice), SortKey(sortBy))
  }

  /** The similar-products list is a rearrangement of the products within the
      price filter, ordered by the chosen key, with ties in fetched order. */
  lemma FilteredAndSortedSpec(list: seq<Similar>, sortBy: string, filterPrice: int)
    ensures multiset(FilteredAndSorted(list, sortBy, filterPrice)) == multiset(WithinPrice(list, filterPrice))
    ensures forall s :: s in FilteredAndSorted(list, sortBy, filterPrice) <==> s in list && s.priceValue <= filterPrice
    ensures SortedBy(FilteredAndSorted(list, sortBy, filterPrice), SortKey(sortBy))
    ensures forall x :: TiedWith(FilteredAndSorted(list, sortBy, filterPrice), x, SortKey(sortBy))
                        == TiedWith(WithinPrice(list, filterPrice), x, SortKey(sortBy))
  {
    var w := WithinPrice(list, filterPrice);
    SortKeyIsTotalPreorder(sortBy);
    SortSorted(w, SortKey(sortBy));
    forall s ensures s in FilteredAndSorted(list, sortBy, filterPrice) <==> s in w {
      assert s in multiset(Sort(w, SortKey(sortBy))) <==> s in multiset(w);
    }
    forall x ensures TiedWith(FilteredAndSorted(list, sortBy, filterPrice), x, SortKey(sortBy)) == TiedWith(w, x, SortKey(sortBy)) {
      SortStable(w, x, SortKey(sortBy));
    }
  }

  /** The product being viewed never appears among its similar products. */
  lemma SimilarExcludesCurrent(docs: seq<CategoryDoc>, currentId: string, sortBy: string, filterPrice: int)
    ensures forall s :: s in FilteredAndSorted(CategoryProducts(docs, currentId), sortBy, filterPrice) ==> s.id != currentId
  {
    FilteredAndSortedSpec(CategoryProducts(docs, currentId), sortBy, filterPrice);
  }
}
