/** The order confirmation page: the shipping block shown with defaults, the
    expected-delivery offset, the locally cached order history and the text
    receipt. */
module Confirmation {
  import opened Js
  import opened Cart
  import opened Orders

  /** The address block the page shows. */
  datatype Shipping = Shipping(fullName: string, address: string, city: string, pincode: string, phone: string)

  const NotAvailable := "N/A"
  const NoAddress := "Details not available"

  /** Each missing field falls back to its default; without billing details
      at all, every field is the default. */
  function ShippingFrom(billing: Option<Billing>): (r: Shipping)
    ensures billing.None? ==> r == Shipping(NotAvailable, NoAddress, NotAvailable, NotAvailable, NotAvailable)
    ensures billing.Some? ==>
              && r.fullName == (if billing.value.fullName != "" then billing.value.fullName else NotAvailable)
              && r.address == (if billing.value.address != "" then billing.value.address else NoAddress)
              && r.city == (if billing.value.city != "" then billing.value.city else NotAvailable)
              && r.pincode == (if billing.value.pincode != "" then billing.value.pincode else NotAvailable)
              && r.phone == (if billing.value.phone != "" then billing.value.phone else NotAvailable)
  {
    match billing
    case None => Shipping(NotAvailable, NoAddress, NotAvailable, NotAvailable, NotAvailable)
    case Some(b) =>
      Shipping(OrElse([Some(b.fullName)], NotAvailable), OrElse([Some(b.address)], NoAddress),
               OrElse([Some(b.city)], NotAvailable), OrElse([Some(b.pincode)], NotAvailable),
               OrElse([Some(b.phone)], NotAvailable))
  }

  /** No field of the shown address is ever blank, and a field the buyer did
      fill in is shown as given. */
  lemma ShippingNeverBlank(billing: Option<Billing>)
    ensures var r := ShippingFrom(billing);
            r.fullName != "" && r.address != "" && r.city != "" && r.pincode != "" && r.phone != ""
    ensures billing.Some? && billing.value.city != "" ==> ShippingFrom(billing).city == billing.value.city
  {
  }

  /** `Math.floor(Math.random() * 2) + 3` for a random draw `r` in [0, 1). */
  function DeliveryDays(r: real): (d: int)
    requires 0.0 <= r < 1.0
    ensures d == 3 || d == 4
    ensures d == 3 <==> r < 0.5
  {
    (r * 2.0).Floor + 3
  }

  /** What `Number(x)` gives for a total: a number, `NaN`, or, for numeric
      text beyond plain decimal digits (a sign, a point, an exponent, a
      radix prefix, surrounding white space), a value left unevaluated. */
  datatype JsNumber = Num(n: int) | NaN | Unevaluated(text: string)

  /** The `total` in the navigation state: text, as the cash-on-delivery
      page formats it, or a number. */
  datatype TotalArg = TotalText(text: string) | TotalNumber(n: int)

  predicate IsDigit(c: char) {
    '0' <= c <= '9'
  }

  /** A character some string accepted by `Number` can hold: white space and
      line terminators, digits, signs, the point, exponent and radix letters,
      hexadecimal digits and the letters of "Infinity". */
  predicate NumericChar(c: char) {
    || IsDigit(c)
    || c in "+-.eExXoObBaAcCdDfFInity"
    || c in "\t\n\U{B}\U{C}\r \U{A0}\U{1680}\U{2028}\U{2029}\U{202F}\U{205F}\U{3000}\U{FEFF}"
    || '\U{2000}' <= c <= '\U{200A}'
  }

  /** The value of a string of decimal digits. */
  function DigitsValue(s: string): (n: nat)
    requires forall i :: 0 <= i < |s| ==> IsDigit(s[i])
  {
    if |s| == 0 then 0
    else
      assert IsDigit(s[|s| - 1]);
      DigitsValue(s[..|s| - 1]) * 10 + (s[|s| - 1] as int - '0' as int)
  }

  /** `Number(text)`: empty text is 0, plain digits are their value, and a
      character no numeric string holds makes it `NaN`. */
  function NumberOfText(t: string): (r: JsNumber)
    ensures r == NaN <==> exists i :: 0 <= i < |t| && !NumericChar(t[i])
    ensures t == "" ==> r == Num(0)
    ensures |t| > 0 && (forall i :: 0 <= i < |t| ==> IsDigit(t[i])) ==> r == Num(DigitsValue(t))
    ensures r.Unevaluated? ==> r.text == t
  {
    if exists i :: 0 <= i < |t| && !NumericChar(t[i]) then NaN
    else if t == "" then Num(0)
    else if forall i :: 0 <= i < |t| ==> IsDigit(t[i]) then Num(DigitsValue(t))
    else Unevaluated(t)
  }

  /** `Number(total)`. */
  function NumberOf(t: TotalArg): (r: JsNumber)
    ensures t.TotalNumber? ==> r == Num(t.n)
    ensures t.TotalText? ==> r == NumberOfText(t.text)
  {
    match t
    case TotalNumber(n) => Num(n)
    case TotalText(text) => NumberOfText(text)
  }

  /** What the page's `formatCurrency` formats: `Number(val || 0)`. */
  function CurrencyInput(t: TotalArg): (r: JsNumber)
    ensures t == TotalText("") || t == TotalNumber(0) ==> r == Num(0)
    ensures t != TotalText("") && t != TotalNumber(0) ==> r == NumberOf(t)
  {
    if t == TotalText("") || t == TotalNumber(0) then Num(0) else NumberOf(t)
  }

  /** Plain decimal text reads back as the number it renders. */
  lemma {:induction false} NumberOfRenderedInt(n: nat)
    ensures NumberOfText(IntToString(n)) == Num(n)
    decreases n
  {
    var t := IntToString(n);
    assert forall i :: 0 <= i < |t| ==> IsDigit(t[i]);
    DigitsOfRenderedInt(n);
  }

  lemma {:induction false} DigitsOfRenderedInt(n: nat)
    ensures forall i :: 0 <= i < |IntToString(n)| ==> IsDigit(IntToString(n)[i])
    ensures DigitsValue(IntToString(n)) == n
    decreases n
  {
    var t := IntToString(n);
    if n < 10 {
      assert t == [DigitChar(n)];
      assert t[..0] == [];
      assert "0123456789"[n] as int == '0' as int + n;
    } else {
      DigitsOfRenderedInt(n / 10);
      var d := n % 10;
      assert t == IntToString(n / 10) + [DigitChar(d)];
      assert t[..|t| - 1] == IntToString(n / 10);
      assert "0123456789"[d] as int == '0' as int + d;
    }
  }

  /** The page's navigation state; `None` stands for `undefined`. */
  datatype Arrival = Arrival(
    paymentMethod: Option<string>,
    total: Option<TotalArg>,
    itemsCount: int,
    billing: Option<Billing>,
    cartItems: seq<CartItem>,
    sellerid: Option<SellerRef>)

  /** One entry of the cached order history. */
  datatype Entry = Entry(
    id: string,
    date: string,
    total: JsNumber,
    formattedTotal: string,
    paymentMethod: string,
    itemsCount: int,
    shipping: Shipping,
    expectedDelivery: string,
    sellerid: Option<SellerRef>,
    products: seq<CartItem>)

  /** The effect records an order only for a truthy payment method and a
      defined total. */
  predicate ShouldRecord(a: Arrival) {
    Truthy(a.paymentMethod) && a.total.Some?
  }

  /** `itemsCount || cartItems.length || 0`. */
  function ItemsCount(a: Arrival): (n: int)
    ensures a.itemsCount != 0 ==> n == a.itemsCount
    ensures a.itemsCount == 0 ==> n == |a.cartItems|
  {
    NumOr(a.itemsCount, NumOr(|a.cartItems|, 0))
  }

  /** The entry built for an arrival; `orderId`, `date` and `delivery` are
      the page's generated id, the current date text and the expected
      delivery date text, and `fmt` is the Intl currency formatter. */
  function NewEntry(a: Arrival, orderId: string, date: string, delivery: string, fmt: JsNumber -> string): (e: Entry)
    requires ShouldRecord(a)
    ensures e.id == orderId && e.paymentMethod == a.paymentMethod.value
    ensures a.total.value.TotalNumber? ==> e.total == Num(a.total.value.n)
    ensures a.total.value.TotalText? ==> e.total == NumberOfText(a.total.value.text)
    ensures e.formattedTotal == fmt(CurrencyInput(a.total.value))
    ensures e.itemsCount == ItemsCount(a) && e.sellerid == a.sellerid && e.products == a.cartItems
    ensures e.shipping == ShippingFrom(a.billing)
  {
    Entry(orderId, date, NumberOf(a.total.value), fmt(CurrencyInput(a.total.value)), a.paymentMethod.value, ItemsCount(a),
          ShippingFrom(a.billing), delivery, a.sellerid, a.cartItems)
  }

  /** As the cash-on-delivery page calls it, `total` is currency text holding
      the rupee sign, which no numeric string holds: the cached total is
      `NaN` and the formatted total is the formatter's rendering of `NaN`. */
  lemma FormattedTotalIsNaN(a: Arrival, orderId: string, date: string, delivery: string, fmt: JsNumber -> string)
    requires Truthy(a.paymentMethod) && a.total.Some? && a.total.value.TotalText? && '₹' in a.total.value.text
    ensures NewEntry(a, orderId, date, delivery, fmt).total == NaN
    ensures NewEntry(a, orderId, date, delivery, fmt).formattedTotal == fmt(NaN)
  {
    var t := a.total.value.text;
    RupeeTextIsNaN(t);
    assert a.total.value != TotalText("");
  }

  lemma RupeeTextIsNaN(t: string)
    requires '₹' in t
    ensures NumberOfText(t) == NaN
  {
    var i :| 0 <= i < |t| && t[i] == '₹';
    assert !NumericChar(t[i]);
  }

  /** Handed the order total as a number (or as its plain decimal text), the
      cached total is that amount and the formatter is given that amount. */
  lemma NumericTotalKept(a: Arrival, orderId: string, date: string, delivery: string, fmt: JsNumber -> string, n: nat)
    requires Truthy(a.paymentMethod)
    requires a.total == Some(TotalNumber(n)) || a.total == Some(TotalText(IntToString(n)))
    ensures NewEntry(a, orderId, date, delivery, fmt).total == Num(n)
    ensures NewEntry(a, orderId, date, delivery, fmt).formattedTotal == fmt(Num(n))
  {
    NumberOfRenderedInt(n);
  }

  predicate HasId(cache: seq<Entry>, id: string) {
    exists i :: 0 <= i < |cache| && cache[i].id == id
  }

  /** The duplicate check: a cached id leaves the cache as it is, a new one
      is put in front of the existing entries. */
  function Record(cache: seq<Entry>, e: Entry): (r: seq<Entry>)
    ensures HasId(cache, e.id) ==> r == cache
    ensures !HasId(cache, e.id) ==> |r| == |cache| + 1 && r[0] == e && r[1..] == cache
  {
    if HasId(cache, e.id) then cache else [e] + cache
  }

  /** The mount effect on the cache. */
  function OnArrival(cache: seq<Entry>, a: Arrival, orderId: string, date: string, delivery: string,
                     fmt: JsNumber -> string): (r: seq<Entry>)
    ensures !ShouldRecord(a) ==> r == cache
  {
    if ShouldRecord(a) then Record(cache, NewEntry(a, orderId, date, delivery, fmt)) else cache
  }

  function CountId(cache: seq<Entry>, id: string): nat {
    if |cache| == 0 then 0 else (if cache[0].id == id then 1 else 0) + CountId(cache[1..], id)
  }

  lemma {:induction false} CountIdZero(cache: seq<Entry>, id: string)
    ensures CountId(cache, id) == 0 <==> !HasId(cache, id)
  {
    if |cache| > 0 {
      CountIdZero(cache[1..], id);
      if HasId(cache, id) && cache[0].id != id {
        var i :| 0 <= i < |cache| && cache[i].id == id;
        assert cache[1..][i - 1].id == id;
      }
      if HasId(cache[1..], id) {
        var i :| 0 <= i < |cache[1..]| && cache[1..][i].id == id;
        assert cache[i + 1].id == id;
      }
    }
  }

  /** Recording is idempotent, and an order recorded once or twice appears
      exactly once. */
  lemma RecordTwice(cache: seq<Entry>, e: Entry)
    ensures Record(Record(cache, e), e) == Record(cache, e)
    ensures !HasId(cache, e.id) ==> CountId(Record(Record(cache, e), e), e.id) == 1
  {
    if !HasId(cache, e.id) {
      assert Record(cache, e)[0].id == e.id;
      CountIdZero(cache, e.id);
      assert Record(cache, e)[1..] == cache;
    }
  }

  /** Ids in the cache stay unique under recording. */
  lemma RecordKeepsIdsUnique(cache: seq<Entry>, e: Entry)
    requires forall i, j :: 0 <= i < j < |cache| ==> cache[i].id != cache[j].id
    ensures var r := Record(cache, e);
            forall i, j :: 0 <= i < j < |r| ==> r[i].id != r[j].id
  {
    var r := Record(cache, e);
    if !HasId(cache, e.id) {
      forall i, j | 0 <= i < j < |r| ensures r[i].id != r[j].id {
        assert r[j] == cache[j - 1];
        if i > 0 {
          assert r[i] == cache[i - 1];
        }
      }
    }
  }

  /** The receipt's seller line: a list is joined with ", ", anything else is
      shown as it is, falling back to "N/A". */
  function SellerText(s: Option<SellerRef>): (t: string)
    ensures s.None? ==> t == NotAvailable
    ensures s.Some? && s.value.SellerScalar? ==> t == (if s.value.id != "" then s.value.id else NotAvailable)
    ensures s.Some? && !s.value.SellerScalar? ==> t == Join(s.value.ids, ", ")
  {
    match s
    case None => NotAvailable
    case Some(SellerScalar(id)) => OrElse([Some(id)], NotAvailable)
    case Some(SellerArray(ids)) => Join(ids, ", ")
    case Some(SellerIdList(ids)) => Join(ids, ", ")
  }

  /** `  <n>. <name> x<quantity> - <amount>`, numbered from 1. */
  function ItemLine(idx: nat, it: CartItem, fmt: int -> string): string {
    var q := NumOr(it.quantity, 1);
    "  " + IntToString(idx + 1) + ". " + OrElse([it.title, it.name], "Product") + " x" + IntToString(q)
      + " - " + fmt(NumOr(it.price, 0) * q)
  }

  const NoProductData := "  (no product data)"

  /** The receipt: ten fixed lines, then one line per item or a single
      placeholder when there are none. `date` and `total` are the rendered
      date and total; `fmt` renders an amount. */
  function Receipt(orderId: string, date: string, paymentMethod: string, total: string, ship: Shipping,
                   sellerid: Option<SellerRef>, items: seq<CartItem>, fmt: int -> string): (r: seq<string>)
    ensures |r| == 10 + (if |items| == 0 then 1 else |items|)
    ensures r[0] == "Order ID: " + orderId && r[2] == "Payment Method: " + paymentMethod
    ensures r[5] == "Address: " + ship.address + ", " + ship.city + " - " + ship.pincode
    ensures r[7] == "Seller ID(s): " + SellerText(sellerid)
    ensures r[8] == "" && r[9] == "Products:"
    ensures |items| == 0 ==> r[10] == NoProductData
    ensures forall i :: 0 <= i < |items| ==> r[10 + i] == ItemLine(i, items[i], fmt)
  {
    var header := [
      "Order ID: " + orderId,
      "Date: " + date,
      "Payment Method: " + paymentMethod,
      "Total: " + total,
      "Buyer: " + ship.fullName,
      "Address: " + ship.address + ", " + ship.city + " - " + ship.pincode,
      "Phone: " + ship.phone,
      "Seller ID(s): " + SellerText(sellerid),
      "",
      "Products:"];
    header + (if |items| == 0 then [NoProductData]
              else seq(|items|, i requires 0 <= i < |items| => ItemLine(i, items[i], fmt)))
  }

  /** An item without quantity is listed once, at its price (or 0). */
  lemma ItemLineDefaults(idx: nat, it: CartItem, fmt: int -> string)
    requires it.quantity == 0
    ensures ItemLine(idx, it, fmt)
            == "  " + IntToString(idx + 1) + ". " + OrElse([it.title, it.name], "Product") + " x1 - " + fmt(it.price)
  {
    assert IntToString(1) == "1";
  }
}
