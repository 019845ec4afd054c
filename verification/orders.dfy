/** Order composition shared in shape by the two checkout paths: product
    lookups, order lines, the order record, and grouping lines by seller. */
module Orders {
  import opened Js
  import opened Seqs
  import opened Sellers
  import opened Cart

  /** The fields of a product document the checkout page reads. */
  datatype ProductDoc = ProductDoc(sku: Option<string>, basesku: Option<string>, sellers: SellerFields)

  /** `data.sku || data.basesku || productId`. */
  function MainSku(productId: string, doc: ProductDoc): (r: string)
    ensures Truthy(doc.sku) ==> r == doc.sku.value
    ensures !Truthy(doc.sku) && Truthy(doc.basesku) ==> r == doc.basesku.value
    ensures !Truthy(doc.sku) && !Truthy(doc.basesku) ==> r == productId
  {
    var probe := [doc.sku, doc.basesku];
    assert probe[1..] == [doc.basesku];
    assert PickFirst(probe) == if Truthy(doc.sku) then doc.sku else PickFirst([doc.basesku]);
    OrElse(probe, productId)
  }

  /** The checkout page's `productSkus` and `productSellers` maps. */
  datatype ProductInfo = ProductInfo(skus: map<string, string>, sellers: map<string, string>)

  function AddProduct(info: ProductInfo, id: string, catalog: map<string, ProductDoc>): ProductInfo {
    if id in catalog then
      ProductInfo(info.skus[id := MainSku(id, catalog[id])],
                  info.sellers[id := ProductSeller(catalog[id].sellers)])
    else info
  }

  /** One lookup per id in turn; a product that does not exist, or whose
      read fails, adds nothing (both come back as `null`). */
  function FetchInto(info: ProductInfo, ids: seq<string>, catalog: map<string, ProductDoc>): (r: ProductInfo)
    requires info.skus.Keys == info.sellers.Keys
    ensures r.skus.Keys == r.sellers.Keys
    ensures forall id :: id in r.skus <==> id in info.skus || (id in ids && id in catalog)
    ensures forall id :: id in ids && id in catalog ==>
              r.skus[id] == MainSku(id, catalog[id]) && r.sellers[id] == ProductSeller(catalog[id].sellers)
    ensures forall id :: id in info.skus && !(id in ids && id in catalog) ==>
              r.skus[id] == info.skus[id] && r.sellers[id] == info.sellers[id]
    decreases |ids|
  {
    if |ids| == 0 then info
    else
      var r := FetchInto(AddProduct(info, ids[0], catalog), ids[1..], catalog);
      assert forall id :: id in ids <==> id == ids[0] || id in ids[1..];
      r
  }

  function CartIds(cart: seq<CartItem>): (r: seq<string>)
    ensures |r| == |cart| && forall i :: 0 <= i < |cart| ==> r[i] == cart[i].id
  {
    seq(|cart|, i requires 0 <= i < |cart| => cart[i].id)
  }

  /** The lookups run over the distinct product ids of the stored cart (not
      the "buy now" item). */
  function FetchProductInfo(cart: seq<CartItem>, catalog: map<string, ProductDoc>): (r: ProductInfo)
    ensures r.skus.Keys == r.sellers.Keys
    ensures forall id :: id in r.skus <==> id in CartIds(cart) && id in catalog
    ensures forall id :: id in r.skus ==>
              r.skus[id] == MainSku(id, catalog[id]) && r.sellers[id] == ProductSeller(catalog[id].sellers)
  {
    FetchInto(ProductInfo(map[], map[]), Distinct(CartIds(cart)), catalog)
  }

  function Lookup(m: map<string, string>, k: string): Option<string> {
    if k in m then Some(m[k]) else None
  }

  /** Checkout page: the fetched product seller, then `item.sellerId`, then
      `item.sellerid`, then the default. */
  function CheckoutItemSeller(item: CartItem, sellers: map<string, string>): (r: string)
    ensures r != ""
    ensures item.id in sellers && sellers[item.id] != "" ==> r == sellers[item.id]
    ensures !(item.id in sellers && sellers[item.id] != "") && Truthy(item.sellers.sellerId) ==>
              r == item.sellers.sellerId.value
    ensures !(item.id in sellers && sellers[item.id] != "") && !Truthy(item.sellers.sellerId) && Truthy(item.sellers.sellerid) ==>
              r == item.sellers.sellerid.value
    ensures (!(item.id in sellers && sellers[item.id] != "") && !Truthy(item.sellers.sellerId)
             && !Truthy(item.sellers.sellerid)) ==> r == DefaultSeller
  {
    var probe := [Lookup(sellers, item.id), item.sellers.sellerId, item.sellers.sellerid];
    assert probe[1..] == [item.sellers.sellerId, item.sellers.sellerid];
    assert probe[1..][1..] == [item.sellers.sellerid];
    assert PickFirst(probe) == if Truthy(probe[0]) then probe[0] else PickFirst(probe[1..]);
    assert PickFirst(probe[1..]) == if Truthy(probe[1]) then probe[1] else PickFirst(probe[1..][1..]);
    OrElse(probe, DefaultSeller)
  }

  /** The checkout page's item rule written out as its chain of `||`. */
  function CheckoutChain(item: CartItem, sellers: map<string, string>): string {
    if item.id in sellers && sellers[item.id] != "" then sellers[item.id]
    else if Truthy(item.sellers.sellerId) then item.sellers.sellerId.value
    else if Truthy(item.sellers.sellerid) then item.sellers.sellerid.value
    else DefaultSeller
  }

  lemma CheckoutItemSellerIsChain(item: CartItem, sellers: map<string, string>)
    ensures CheckoutItemSeller(item, sellers) == CheckoutChain(item, sellers)
  {
  }

  /** Once a cart product has been looked up, its document decides the seller,
      even when it resolves to the default and the cart item names one. */
  lemma FetchedSellerWins(cart: seq<CartItem>, catalog: map<string, ProductDoc>, item: CartItem)
    requires item.id in CartIds(cart) && item.id in catalog
    ensures CheckoutItemSeller(item, FetchProductInfo(cart, catalog).sellers)
            == ProductSeller(catalog[item.id].sellers)
  {
  }

  /** One product entry of a stored order. */
  datatype OrderLine = OrderLine(
    productId: string,
    name: string,
    price: int,
    quantity: int,
    sku: Option<string>,
    sellerId: string,
    totalAmount: int)

  function LineName(item: CartItem): string {
    OrElse([item.title, item.name], "Unnamed Product")
  }

  /** The fetched main SKU, else the item's own SKU unless it is `"N/A"`,
      else the product id. */
  function LineSku(item: CartItem, skus: map<string, string>): (r: Option<string>)
    ensures item.id in skus && skus[item.id] != "" ==> r == Some(skus[item.id])
    ensures !(item.id in skus && skus[item.id] != "") && item.sku != Some(NoSku) ==> r == item.sku
    ensures !(item.id in skus && skus[item.id] != "") && item.sku == Some(NoSku) ==> r == Some(item.id)
  {
    if Truthy(Lookup(skus, item.id)) then Lookup(skus, item.id)
    else if item.sku != Some(NoSku) then item.sku
    else Some(item.id)
  }

  /** Checkout page: a line keeps the item's price and quantity as they are. */
  function CheckoutLine(item: CartItem, info: ProductInfo): (l: OrderLine)
    ensures l.productId == item.id && l.price == item.price && l.quantity == item.quantity
    ensures l.totalAmount == l.price * l.quantity
    ensures l.sellerId == CheckoutItemSeller(item, info.sellers)
  {
    OrderLine(item.id, LineName(item), item.price, item.quantity, LineSku(item, info.skus),
              CheckoutItemSeller(item, info.sellers), item.price * item.quantity)
  }

  /** Cash-on-delivery page: a missing (or zero) price counts as 0 and a
      missing (or zero) quantity as 1. */
  function CodLine(item: CartItem, skus: map<string, string>): (l: OrderLine)
    ensures l.price == (if item.price != 0 then item.price else 0)
    ensures l.quantity == (if item.quantity != 0 then item.quantity else 1)
    ensures l.quantity != 0
    ensures l.totalAmount == l.price * l.quantity
    ensures l.sellerId == CodItemSeller(item.sellers) && l.sellerId != ""
  {
    var price := NumOr(item.price, 0);
    var quantity := NumOr(item.quantity, 1);
    OrderLine(item.id, LineName(item), price, quantity, LineSku(item, skus),
              CodItemSeller(item.sellers), price * quantity)
  }

  function CheckoutLines(items: seq<CartItem>, info: ProductInfo): (r: seq<OrderLine>)
    ensures |r| == |items| && forall i :: 0 <= i < |items| ==> r[i] == CheckoutLine(items[i], info)
  {
    seq(|items|, i requires 0 <= i < |items| => CheckoutLine(items[i], info))
  }

  function CodLines(items: seq<CartItem>, skus: map<string, string>): (r: seq<OrderLine>)
    ensures |r| == |items| && forall i :: 0 <= i < |items| ==> r[i] == CodLine(items[i], skus)
  {
    seq(|items|, i requires 0 <= i < |items| => CodLine(items[i], skus))
  }

  /** Which seller ids an order record carries, and under which key:
      the checkout page stores the list as `sellerIds`; the cash-on-delivery
      page stores `sellerid`, a bare string for one seller, else a list. */
  datatype SellerRef = SellerIdList(ids: seq<string>) | SellerScalar(id: string) | SellerArray(ids: seq<string>)

  /** The billing form; an empty string also stands for a missing field. */
  datatype Billing = Billing(fullName: string, email: string, phone: string, address: string, city: string, pincode: string)

  /** The stored order document (timestamps left out). */
  datatype Order = Order(
    userId: string,
    orderId: string,
    orderStatus: string,
    totalAmount: int,
    paymentMethod: string,
    phoneNumber: Option<string>,
    address: string,
    latitude: Option<real>,
    longitude: Option<real>,
    name: Option<string>,
    sellers: SellerRef,
    products: seq<OrderLine>,
    paymentId: Option<string>,
    shippingCharges: int)

  /** `${address} ,${city} ,${pincode} ,Karnataka`. */
  function FormatAddress(b: Billing): string {
    b.address + " ," + b.city + " ," + b.pincode + " ,Karnataka"
  }

  /** Checkout page: a line contributes its `totalAmount`. */
  function CheckoutValue(l: OrderLine): int {
    l.totalAmount
  }

  /** `lines.reduce((t, p) => t + value(p), 0)`. */
  function Subtotal(lines: seq<OrderLine>, value: OrderLine -> int): int {
    if |lines| == 0 then 0
    else Subtotal(lines[..|lines| - 1], value) + value(lines[|lines| - 1])
  }

  function CheckoutSellers(items: seq<CartItem>, info: ProductInfo): (r: seq<string>)
    ensures |r| == |items| && forall i :: 0 <= i < |items| ==> r[i] == CheckoutItemSeller(items[i], info.sellers)
  {
    seq(|items|, i requires 0 <= i < |items| => CheckoutItemSeller(items[i], info.sellers))
  }

  /** Checkout page: the order built in `saveOrderToFirestore`. */
  function CheckoutOrder(userId: string, orderId: string, status: string, paymentMethod: string,
                         paymentId: Option<string>, billing: Billing, lat: Option<real>, lng: Option<real>,
                         items: seq<CartItem>, info: ProductInfo): (o: Order)
    ensures o.products == CheckoutLines(items, info)
    ensures o.userId == userId && o.orderId == orderId && o.orderStatus == status
    ensures o.paymentMethod == paymentMethod && o.paymentId == paymentId
    ensures o.sellers == SellerIdList(Distinct(CheckoutSellers(items, info)))
    ensures o.totalAmount == Total(items) && o.shippingCharges == 0
  {
    Order(userId, orderId, status, Total(items), paymentMethod, Some(billing.phone), FormatAddress(billing),
          lat, lng, Some(billing.fullName), SellerIdList(Distinct(CheckoutSellers(items, info))),
          CheckoutLines(items, info), paymentId, 0)
  }

  lemma {:induction false} TotalIsLineSum(items: seq<CartItem>, info: ProductInfo)
    ensures Total(items) == Subtotal(CheckoutLines(items, info), CheckoutValue)
  {
    if |items| > 0 {
      var n := |items|;
      var init := items[..n - 1];
      var ls := CheckoutLines(items, info);
      assert ls[..n - 1] == CheckoutLines(init, info);
      TotalIsLineSum(init, info);
      var last := items[n - 1];
      assert ls[n - 1].totalAmount == last.price * last.quantity;
      calc {
        Subtotal(ls, CheckoutValue);
        Subtotal(ls[..n - 1], CheckoutValue) + ls[n - 1].totalAmount;
        Total(init) + last.price * last.quantity;
      }
    }
  }

  /** The checkout order's total is the sum of its line totals plus the
      (zero) shipping charge. */
  lemma CheckoutOrderTotal(userId: string, orderId: string, status: string, paymentMethod: string,
                           paymentId: Option<string>, billing: Billing, lat: Option<real>, lng: Option<real>,
                           items: seq<CartItem>, info: ProductInfo)
    ensures var o := CheckoutOrder(userId, orderId, status, paymentMethod, paymentId, billing, lat, lng, items, info);
            o.totalAmount == Subtotal(o.products, CheckoutValue) + o.shippingCharges
  {
    TotalIsLineSum(items, info);
  }

  /** Checkout page: `sellerIds` has no duplicates and names exactly the
      sellers of the order's lines. */
  lemma CheckoutSellerIdsMatchLines(userId: string, orderId: string, status: string, paymentMethod: string,
                                    paymentId: Option<string>, billing: Billing, lat: Option<real>, lng: Option<real>,
                                    items: seq<CartItem>, info: ProductInfo)
    ensures var o := CheckoutOrder(userId, orderId, status, paymentMethod, paymentId, billing, lat, lng, items, info);
            && o.sellers.SellerIdList?
            && NoDup(o.sellers.ids)
            && forall s :: s in o.sellers.ids <==> exists i :: 0 <= i < |o.products| && o.products[i].sellerId == s
  {
    var o := CheckoutOrder(userId, orderId, status, paymentMethod, paymentId, billing, lat, lng, items, info);
    var ss := CheckoutSellers(items, info);
    forall s ensures s in o.sellers.ids <==> exists i :: 0 <= i < |o.products| && o.products[i].sellerId == s {
      if s in ss {
        var i :| 0 <= i < |ss| && ss[i] == s;
        assert o.products[i].sellerId == s;
      }
    }
  }

  function CodSellers(items: seq<CartItem>): (r: seq<string>)
    ensures |r| == |items| && forall i :: 0 <= i < |items| ==> r[i] == CodItemSeller(items[i].sellers)
  {
    seq(|items|, i requires 0 <= i < |items| => CodItemSeller(items[i].sellers))
  }

  /** `.filter(Boolean)` on a list of strings. */
  function NonEmpty(s: seq<string>): (r: seq<string>)
    ensures forall x :: x in r <==> x in s && x != ""
    ensures NoDup(s) ==> NoDup(r)
  {
    if |s| == 0 then []
    else
      var rest := NonEmpty(s[1..]);
      assert forall x :: x in s <==> x == s[0] || x in s[1..];
      assert NoDup(s) ==> NoDup(s[1..]) && s[0] !in s[1..] by {
        if NoDup(s) {
          forall i, j | 0 <= i < j < |s[1..]| ensures s[1..][i] != s[1..][j] {
            assert s[1..][i] == s[i + 1] && s[1..][j] == s[j + 1];
          }
          forall j | 0 <= j < |s[1..]| ensures s[1..][j] != s[0] {
            assert s[1..][j] == s[j + 1];
          }
        }
      }
      if s[0] != "" then [s[0]] + rest else rest
  }

  /** Cash-on-delivery page: the distinct seller ids of the cart. */
  function CodSellerIds(items: seq<CartItem>): (r: seq<string>)
    ensures NoDup(r)
    ensures forall x :: x in r ==> x != ""
    ensures forall x :: x in r <==> exists i :: 0 <= i < |items| && CodItemSeller(items[i].sellers) == x
  {
    NonEmpty(Distinct(CodSellers(items)))
  }

  /** A bare string for exactly one seller, otherwise the list. */
  function SelleridField(ids: seq<string>): (r: SellerRef)
    ensures |ids| == 1 <==> r.SellerScalar?
    ensures r.SellerScalar? ==> r.id == ids[0]
    ensures r.SellerArray? ==> r.ids == ids
    ensures !r.SellerIdList?
  {
    if |ids| == 1 then SellerScalar(ids[0]) else SellerArray(ids)
  }

  function OrNullString(s: string): (r: Option<string>)
    ensures r.None? <==> s == ""
    ensures r.Some? ==> r.value == s
  {
    if s != "" then Some(s) else None
  }

  function OrNullCoordinate(c: Option<real>): (r: Option<real>)
    ensures r.None? <==> c.None? || c.value == 0.0
    ensures r.Some? ==> r == c
  {
    if c.Some? && c.value != 0.0 then c else None
  }

  /** Cash-on-delivery page: the order built in `saveOrderToFirestore`; the
      total is the amount handed over by the checkout page, not recomputed. */
  function CodOrder(userId: string, orderId: string, status: string, paymentMethod: string,
                    paymentId: Option<string>, billing: Billing, lat: Option<real>, lng: Option<real>,
                    items: seq<CartItem>, skus: map<string, string>, totalPrice: int): (o: Order)
    ensures o.totalAmount == totalPrice && o.shippingCharges == 0
    ensures o.userId == userId && o.orderId == orderId && o.orderStatus == status
    ensures o.paymentMethod == paymentMethod && o.paymentId == paymentId
    ensures o.products == CodLines(items, skus)
    ensures o.sellers == SelleridField(CodSellerIds(items))
    ensures o.phoneNumber.None? <==> billing.phone == ""
    ensures o.name.None? <==> billing.fullName == ""
  {
    Order(userId, orderId, status, totalPrice, paymentMethod, OrNullString(billing.phone), FormatAddress(billing),
          OrNullCoordinate(lat), OrNullCoordinate(lng), OrNullString(billing.fullName),
          SelleridField(CodSellerIds(items)), CodLines(items, skus), paymentId, 0)
  }

  /** Cash-on-delivery page: `sellerid` is a string exactly when the cart
      has one distinct seller, and then it is that seller. */
  lemma CodSelleridShape(items: seq<CartItem>)
    requires |items| > 0
    requires forall i :: 0 <= i < |items| ==> CodItemSeller(items[i].sellers) == CodItemSeller(items[0].sellers)
    ensures SelleridField(CodSellerIds(items)) == SellerScalar(CodItemSeller(items[0].sellers))
  {
    var ss := CodSellers(items);
    var s := CodItemSeller(items[0].sellers);
    DistinctConstant(ss, s);
    assert NonEmpty([s]) == [s] + NonEmpty([]);
  }

  lemma CodSelleridTwoSellers(items: seq<CartItem>, i: nat, j: nat)
    requires i < |items| && j < |items|
    requires CodItemSeller(items[i].sellers) != CodItemSeller(items[j].sellers)
    ensures SelleridField(CodSellerIds(items)).SellerArray?
    ensures |SelleridField(CodSellerIds(items)).ids| >= 2
  {
    var ids := CodSellerIds(items);
    var a, b := CodItemSeller(items[i].sellers), CodItemSeller(items[j].sellers);
    assert a in ids && b in ids;
    TwoDistinctMembers(ids, a, b);
  }

  lemma TwoDistinctMembers(ids: seq<string>, a: string, b: string)
    requires a in ids && b in ids && a != b
    ensures |ids| >= 2
  {
    var k :| 0 <= k < |ids| && ids[k] == a;
    var m :| 0 <= m < |ids| && ids[m] == b;
    assert k != m;
  }
}
