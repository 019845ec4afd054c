/** The order history page's conversion of a stored order document into the
    record the page displays. */
module OrderView {
  import opened Js
  import opened Orders

  /** A stored order document as read back; a field the document lacks is
      `None` (or 0 for the total). `orderDate` is the rendered date when the
      document holds a timestamp. */
  datatype OrderDoc = OrderDoc(
    orderStatus: Option<string>,
    orderDate: Option<string>,
    totalAmount: int,
    paymentMethod: Option<string>,
    name: Option<string>,
    address: Option<string>,
    latitude: Option<real>,
    longitude: Option<real>,
    phoneNumber: Option<string>,
    products: Option<seq<OrderLine>>)

  datatype ShippingView = ShippingView(name: string, address: string, latitude: Option<real>, longitude: Option<real>, phone: string)

  datatype Item = Item(name: string, quantity: int, price: int)

  datatype LocalOrder = LocalOrder(
    id: string,
    status: string,
    date: string,
    total: int,
    paymentMethod: string,
    shipping: ShippingView,
    items: seq<Item>)

  const NotAvailable := "N/A"
  const DefaultStatus := "Processing"

  function ItemOf(l: OrderLine): Item {
    Item(l.name, l.quantity, l.price)
  }

  function Items(lines: seq<OrderLine>): (r: seq<Item>)
    ensures |r| == |lines| && forall i :: 0 <= i < |lines| ==> r[i] == ItemOf(lines[i])
  {
    seq(|lines|, i requires 0 <= i < |lines| => ItemOf(lines[i]))
  }

  /** `mapFirestoreOrderToLocal(docData, docId)`. */
  function MapOrder(d: OrderDoc, docId: string): (r: LocalOrder)
    ensures r.id == docId
    ensures r.status == OrElse([d.orderStatus], DefaultStatus)
    ensures r.date == d.orderDate.GetOr(NotAvailable)
    ensures r.total == NumOr(d.totalAmount, 0) && r.paymentMethod == OrElse([d.paymentMethod], NotAvailable)
    ensures r.items == Items(d.products.GetOr([]))
    ensures r.shipping.name == (if Truthy(d.name) then d.name.value else NotAvailable)
    ensures r.shipping.address == (if Truthy(d.address) then d.address.value else NotAvailable)
    ensures r.shipping.phone == (if Truthy(d.phoneNumber) then d.phoneNumber.value else NotAvailable)
    ensures r.shipping.latitude.None? <==> d.latitude.None? || d.latitude.value == 0.0
    ensures r.shipping.latitude.Some? ==> r.shipping.latitude == d.latitude
    ensures r.shipping.longitude.None? <==> d.longitude.None? || d.longitude.value == 0.0
    ensures r.shipping.longitude.Some? ==> r.shipping.longitude == d.longitude
  {
    assert [d.name][0] == d.name && [d.address][0] == d.address && [d.phoneNumber][0] == d.phoneNumber;
    LocalOrder(
      docId,
      OrElse([d.orderStatus], DefaultStatus),
      d.orderDate.GetOr(NotAvailable),
      NumOr(d.totalAmount, 0),
      OrElse([d.paymentMethod], NotAvailable),
      ShippingView(OrElse([d.name], NotAvailable), OrElse([d.address], NotAvailable),
                   OrNullCoordinate(d.latitude), OrNullCoordinate(d.longitude), OrElse([d.phoneNumber], NotAvailable)),
      Items(d.products.GetOr([])))
  }

  /** The document as a checkout wrote it. */
  function AsDoc(o: Order, date: Option<string>): OrderDoc {
    OrderDoc(Some(o.orderStatus), date, o.totalAmount, Some(o.paymentMethod), o.name, Some(o.address),
             o.latitude, o.longitude, o.phoneNumber, Some(o.products))
  }

  /** Missing fields show their defaults, and an order without products
      shows no items. */
  lemma MapOrderDefaults(docId: string)
    ensures var r := MapOrder(OrderDoc(None, None, 0, None, None, None, None, None, None, None), docId);
            && r.status == DefaultStatus && r.date == NotAvailable && r.total == 0 && r.paymentMethod == NotAvailable
            && r.shipping == ShippingView(NotAvailable, NotAvailable, None, None, NotAvailable)
            && r.items == []
  {
  }

  /** Reading back a stored order shows its own values: the storage id (not
      the `ORD-` order id), its status and total, and one item per product
      line in the same order. */
  lemma MapStoredOrder(o: Order, date: Option<string>, docId: string)
    requires o.orderStatus != "" && o.paymentMethod != ""
    ensures var r := MapOrder(AsDoc(o, date), docId);
            && r.id == docId
            && r.status == o.orderStatus
            && r.total == o.totalAmount
            && r.paymentMethod == o.paymentMethod
            && r.shipping.address == (if o.address != "" then o.address else NotAvailable)
            && |r.items| == |o.products|
            && forall i :: 0 <= i < |o.products| ==>
                 r.items[i].name == o.products[i].name && r.items[i].quantity == o.products[i].quantity
                 && r.items[i].price == o.products[i].price
  {
  }
}
