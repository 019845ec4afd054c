/** The checkout page's cart normalisation: SKU fallback, merging the
    "buy now" item into the cart, and the order total. */
module Cart {
  import opened Js
  import opened Sellers

  /** A cart line as stored in the cart (or handed over by "buy now").
      `price` and `quantity` are whole rupees and units; `0` also stands
      for a missing number, which `x || d` treats the same way. */
  datatype CartItem = CartItem(
    id: string,
    title: Option<string>,
    name: Option<string>,
    price: int,
    quantity: int,
    sku: Option<string>,
    SKU: Option<string>,
    product_sku: Option<string>,
    skuCode: Option<string>,
    sellers: SellerFields)

  const NoSku := "N/A"

  /** The SKU aliases probed, in order. */
  function SkuProbe(item: CartItem): seq<Option<string>> {
    [item.sku, item.SKU, item.product_sku, item.skuCode]
  }

  /** `sku || SKU || product_sku || skuCode || "N/A"`. */
  function ResolveSku(item: CartItem): (r: string)
    ensures r != ""
    ensures Truthy(item.sku) ==> r == item.sku.value
    ensures forall k :: 0 <= k < 4 && Truthy(SkuProbe(item)[k]) && (forall j :: 0 <= j < k ==> !Truthy(SkuProbe(item)[j])) ==>
              r == SkuProbe(item)[k].value
    ensures (forall j :: 0 <= j < 4 ==> !Truthy(SkuProbe(item)[j])) <==> r == NoSku
                                                                          && !(exists j :: 0 <= j < 4 && SkuProbe(item)[j] == Some(NoSku))
  {
    OrElse(SkuProbe(item), NoSku)
  }

  /** The SKU rule written out as the chain of `||` it is. */
  function SkuChain(item: CartItem): string {
    if Truthy(item.sku) then item.sku.value
    else if Truthy(item.SKU) then item.SKU.value
    else if Truthy(item.product_sku) then item.product_sku.value
    else if Truthy(item.skuCode) then item.skuCode.value
    else NoSku
  }

  /** The probe-list rule and the written-out chain agree on every item. */
  lemma ResolveSkuIsChain(item: CartItem)
    ensures ResolveSku(item) == SkuChain(item)
  {
    var p := SkuProbe(item);
    assert p[0] == item.sku && p[1] == item.SKU && p[2] == item.product_sku && p[3] == item.skuCode;
    if Truthy(item.sku) {
    } else if Truthy(item.SKU) {
      assert forall j :: 0 <= j < 1 ==> !Truthy(p[j]);
    } else if Truthy(item.product_sku) {
      assert forall j :: 0 <= j < 2 ==> !Truthy(p[j]);
    } else if Truthy(item.skuCode) {
      assert forall j :: 0 <= j < 3 ==> !Truthy(p[j]);
    } else {
      assert forall j :: 0 <= j < 4 ==> !Truthy(p[j]);
    }
  }

  /** The item with its `sku` field replaced by the resolved SKU. */
  function WithSku(item: CartItem): (r: CartItem)
    ensures r.sku == Some(ResolveSku(item))
    ensures r == item.(sku := r.sku)
  {
    item.(sku := Some(ResolveSku(item)))
  }

  function NormaliseAll(cart: seq<CartItem>): (r: seq<CartItem>)
    ensures |r| == |cart|
    ensures forall i :: 0 <= i < |cart| ==> r[i] == WithSku(cart[i])
  {
    seq(|cart|, i requires 0 <= i < |cart| => WithSku(cart[i]))
  }

  /** The "buy now" item: its quantity is the passed quantity or 1. */
  function BuyNowItem(product: CartItem, quantity: int): (r: CartItem)
    ensures r.quantity == (if quantity != 0 then quantity else 1)
    ensures r.sku == Some(ResolveSku(product))
    ensures r.id == product.id && r.price == product.price
  {
    WithSku(product).(quantity := NumOr(quantity, 1))
  }

  predicate SameLine(a: CartItem, b: CartItem) {
    a.id == b.id && a.sku == b.sku
  }

  /** Index of the first line with the same `(id, sku)` as `b`, as `find` locates it. */
  function FindLine(lines: seq<CartItem>, b: CartItem): (r: Option<nat>)
    ensures r.Some? ==> r.value < |lines| && SameLine(lines[r.value], b)
                        && forall j :: 0 <= j < r.value ==> !SameLine(lines[j], b)
    ensures r.None? ==> forall j :: 0 <= j < |lines| ==> !SameLine(lines[j], b)
  {
    if |lines| == 0 then None
    else if SameLine(lines[0], b) then Some(0)
    else match FindLine(lines[1..], b)
      case None => None
      case Some(k) => Some(k + 1)
  }

  /** Adds the "buy now" item `b` to the already normalised `lines`. */
  function Absorb(lines: seq<CartItem>, b: CartItem): seq<CartItem> {
    match FindLine(lines, b)
    case Some(i) => lines[i := lines[i].(quantity := lines[i].quantity + b.quantity)]
    case None => lines + [b]
  }

  /** The merged cart the checkout page works with. Its total is the cart's
      total, plus, with a "buy now" product, that product's quantity (1 when
      none is passed) priced at the cart line it joins, or at its own price
      when it joins none; only in that last case does it add a line. */
  function MergeCart(cart: seq<CartItem>, buyNow: Option<CartItem>, quantity: int): (r: seq<CartItem>)
    ensures buyNow.None? ==> |r| == |cart| && Total(r) == Total(cart)
    ensures buyNow.Some? ==>
              var f := FindLine(NormaliseAll(cart), BuyNowItem(buyNow.value, quantity));
              && |r| == |cart| + (if f.Some? then 0 else 1)
              && Total(r) == Total(cart) + (if f.Some? then cart[f.value].price else buyNow.value.price)
                                           * (if quantity != 0 then quantity else 1)
  {
    TotalNormalise(cart);
    match buyNow
    case None => NormaliseAll(cart)
    case Some(p) =>
      TotalAfterAbsorb(NormaliseAll(cart), BuyNowItem(p, quantity));
      Absorb(NormaliseAll(cart), BuyNowItem(p, quantity))
  }

  /** `sum(price * quantity)`, the checkout page's `totalPrice`. */
  function Total(lines: seq<CartItem>): int {
    if |lines| == 0 then 0
    else Total(lines[..|lines| - 1]) + lines[|lines| - 1].price * lines[|lines| - 1].quantity
  }

  /** A matching line absorbs the "buy now" quantity: the first such line
      grows, the line count and every other line stay as they were. */
  lemma AbsorbIntoExisting(lines: seq<CartItem>, b: CartItem, i: nat)
    requires i < |lines| && SameLine(lines[i], b)
    requires forall j :: 0 <= j < i ==> !SameLine(lines[j], b)
    ensures var r := Absorb(lines, b);
            && |r| == |lines|
            && r[i] == lines[i].(quantity := lines[i].quantity + b.quantity)
            && forall j :: 0 <= j < |lines| && j != i ==> r[j] == lines[j]
  {
    FindLineFirst(lines, b, i);
  }

  lemma FindLineFirst(lines: seq<CartItem>, b: CartItem, i: nat)
    requires i < |lines| && SameLine(lines[i], b)
    requires forall j :: 0 <= j < i ==> !SameLine(lines[j], b)
    ensures FindLine(lines, b) == Some(i)
  {
  }

  /** With no matching line the "buy now" item is appended at the end. */
  lemma AbsorbAppends(lines: seq<CartItem>, b: CartItem)
    requires forall j :: 0 <= j < |lines| ==> !SameLine(lines[j], b)
    ensures Absorb(lines, b) == lines + [b]
  {
  }

  lemma {:induction false} TotalAppend(a: seq<CartItem>, b: CartItem)
    ensures Total(a + [b]) == Total(a) + b.price * b.quantity
  {
    assert (a + [b])[..|a + [b]| - 1] == a;
  }

  lemma {:induction false} TotalNormalise(cart: seq<CartItem>)
    ensures Total(NormaliseAll(cart)) == Total(cart)
  {
    if |cart| > 0 {
      var init := cart[..|cart| - 1];
      assert NormaliseAll(cart)[..|cart| - 1] == NormaliseAll(init);
      TotalNormalise(init);
    }
  }

  /** Raising one line's quantity by `d` raises the total by `price * d`. */
  lemma {:induction false} TotalBump(lines: seq<CartItem>, i: nat, d: int)
    requires i < |lines|
    ensures Total(lines[i := lines[i].(quantity := lines[i].quantity + d)])
            == Total(lines) + lines[i].price * d
  {
    var r := lines[i := lines[i].(quantity := lines[i].quantity + d)];
    var n := |lines|;
    if i == n - 1 {
      assert r[..n - 1] == lines[..n - 1];
    } else {
      assert r[..n - 1] == lines[..n - 1][i := lines[i].(quantity := lines[i].quantity + d)];
      TotalBump(lines[..n - 1], i, d);
    }
  }

  /** The order total after absorbing `b`: the previous total plus the "buy
      now" quantity priced at the line that absorbed it (an existing cart line
      keeps its own price), or at the item's own price when appended. */
  lemma TotalAfterAbsorb(lines: seq<CartItem>, b: CartItem)
    ensures var f := FindLine(lines, b);
            Total(Absorb(lines, b))
              == Total(lines) + (if f.Some? then lines[f.value].price else b.price) * b.quantity
  {
    match FindLine(lines, b)
    case Some(i) => TotalBump(lines, i, b.quantity);
    case None => TotalAppend(lines, b);
  }
}
