/** Seller-id resolution: which field of a product or cart record names the
    seller. The storefront has three different probe lists, kept apart here. */
module Sellers {
  import opened Js

  /** Every field any of the probe lists reads. */
  datatype SellerFields = SellerFields(
    sellerId: Option<string>,
    sellerid: Option<string>,
    seller: Option<string>,
    vendorId: Option<string>,
    vendor_id: Option<string>,
    sellersid: Option<string>,
    storeId: Option<string>,
    merchantId: Option<string>)

  const DefaultSeller := "default_seller"

  /** The five fields the checkout page and the product page probe, in order. */
  function ProductProbe(f: SellerFields): seq<Option<string>> {
    [f.sellerId, f.sellerid, f.vendorId, f.vendor_id, f.sellersid]
  }

  /** The eight fields the cash-on-delivery page probes, in order. */
  function CodProbe(f: SellerFields): seq<Option<string>> {
    [f.sellerId, f.sellerid, f.seller, f.vendorId, f.vendor_id, f.sellersid, f.storeId, f.merchantId]
  }

  /** Checkout page: seller of a product document (five fields, then the default). */
  function ProductSeller(f: SellerFields): (r: string)
    ensures r != ""
    ensures Truthy(f.sellerId) ==> r == f.sellerId.value
    ensures forall k :: 0 <= k < 5 && Truthy(ProductProbe(f)[k]) && (forall j :: 0 <= j < k ==> !Truthy(ProductProbe(f)[j])) ==>
              r == ProductProbe(f)[k].value
    ensures (forall j :: 0 <= j < 5 ==> !Truthy(ProductProbe(f)[j])) ==> r == DefaultSeller
  {
    OrElse(ProductProbe(f), DefaultSeller)
  }

  /** Cash-on-delivery page: seller of a cart item (eight fields, then the default). */
  function CodItemSeller(f: SellerFields): (r: string)
    ensures r != ""
    ensures Truthy(f.sellerId) ==> r == f.sellerId.value
    ensures forall k :: 0 <= k < 8 && Truthy(CodProbe(f)[k]) && (forall j :: 0 <= j < k ==> !Truthy(CodProbe(f)[j])) ==>
              r == CodProbe(f)[k].value
    ensures (forall j :: 0 <= j < 8 ==> !Truthy(CodProbe(f)[j])) ==> r == DefaultSeller
  {
    OrElse(CodProbe(f), DefaultSeller)
  }

  /** Product page: the seller id it looks up, with no default. */
  function PageSellerId(f: SellerFields): (r: Option<string>)
    ensures r.Some? ==> r.value != ""
    ensures r.None? <==> forall j :: 0 <= j < 5 ==> !Truthy(ProductProbe(f)[j])
    ensures forall k :: 0 <= k < 5 && Truthy(ProductProbe(f)[k]) && (forall j :: 0 <= j < k ==> !Truthy(ProductProbe(f)[j])) ==>
              r == ProductProbe(f)[k]
  {
    PickFirst(ProductProbe(f))
  }

  /** The five-field rule written out as the chain of `||` it is. */
  function ProductChain(f: SellerFields): string {
    if Truthy(f.sellerId) then f.sellerId.value
    else if Truthy(f.sellerid) then f.sellerid.value
    else if Truthy(f.vendorId) then f.vendorId.value
    else if Truthy(f.vendor_id) then f.vendor_id.value
    else if Truthy(f.sellersid) then f.sellersid.value
    else DefaultSeller
  }

  /** The eight-field rule written out as the chain of `||` it is. */
  function CodChain(f: SellerFields): string {
    if Truthy(f.sellerId) then f.sellerId.value
    else if Truthy(f.sellerid) then f.sellerid.value
    else if Truthy(f.seller) then f.seller.value
    else if Truthy(f.vendorId) then f.vendorId.value
    else if Truthy(f.vendor_id) then f.vendor_id.value
    else if Truthy(f.sellersid) then f.sellersid.value
    else if Truthy(f.storeId) then f.storeId.value
    else if Truthy(f.merchantId) then f.merchantId.value
    else DefaultSeller
  }

  /** The probe-list rule and the written-out chain agree on every record. */
  lemma ProductSellerIsChain(f: SellerFields)
    ensures ProductSeller(f) == ProductChain(f)
  {
    var p := ProductProbe(f);
    assert p[0] == f.sellerId && p[1] == f.sellerid && p[2] == f.vendorId && p[3] == f.vendor_id && p[4] == f.sellersid;
    if Truthy(f.sellerId) {
    } else if Truthy(f.sellerid) {
      assert forall j :: 0 <= j < 1 ==> !Truthy(p[j]);
    } else if Truthy(f.vendorId) {
      assert forall j :: 0 <= j < 2 ==> !Truthy(p[j]);
    } else if Truthy(f.vendor_id) {
      assert forall j :: 0 <= j < 3 ==> !Truthy(p[j]);
    } else if Truthy(f.sellersid) {
      assert forall j :: 0 <= j < 4 ==> !Truthy(p[j]);
    } else {
      assert forall j :: 0 <= j < 5 ==> !Truthy(p[j]);
    }
  }

  lemma CodItemSellerIsChain(f: SellerFields)
    ensures CodItemSeller(f) == CodChain(f)
  {
    var c := CodProbe(f);
    assert c[0] == f.sellerId && c[1] == f.sellerid && c[2] == f.seller && c[3] == f.vendorId;
    assert c[4] == f.vendor_id && c[5] == f.sellersid && c[6] == f.storeId && c[7] == f.merchantId;
    if Truthy(f.sellerId) {
    } else if Truthy(f.sellerid) {
      assert forall j :: 0 <= j < 1 ==> !Truthy(c[j]);
    } else if Truthy(f.seller) {
      assert forall j :: 0 <= j < 2 ==> !Truthy(c[j]);
    } else if Truthy(f.vendorId) {
      assert forall j :: 0 <= j < 3 ==> !Truthy(c[j]);
    } else if Truthy(f.vendor_id) {
      assert forall j :: 0 <= j < 4 ==> !Truthy(c[j]);
    } else if Truthy(f.sellersid) {
      assert forall j :: 0 <= j < 5 ==> !Truthy(c[j]);
    } else if Truthy(f.storeId) {
      assert forall j :: 0 <= j < 6 ==> !Truthy(c[j]);
    } else if Truthy(f.merchantId) {
      assert forall j :: 0 <= j < 7 ==> !Truthy(c[j]);
    } else {
      assert forall j :: 0 <= j < 8 ==> !Truthy(c[j]);
    }
  }

  /** The product page's lookup and the checkout page's rule agree, except
      that the latter falls back to the default seller. */
  lemma PageSellerMatchesProductSeller(f: SellerFields)
    ensures ProductSeller(f) == PageSellerId(f).GetOr(DefaultSeller)
  {
  }

  /** The two rules agree whenever `seller`, `storeId` and `merchantId` are
      all falsy; with only `seller` set they disagree. */
  lemma {:induction false} CodAgreesWithProductRule(f: SellerFields)
    requires !Truthy(f.seller) && !Truthy(f.storeId) && !Truthy(f.merchantId)
    ensures CodItemSeller(f) == ProductSeller(f)
  {
    var p, c := ProductProbe(f), CodProbe(f);
    if Truthy(f.sellerId) {
    } else if Truthy(f.sellerid) {
      assert PickFirst(c) == PickFirst(c[1..]);
      assert PickFirst(p) == PickFirst(p[1..]);
    } else {
      assert PickFirst(c) == PickFirst(c[1..]) == PickFirst(c[2..]) == PickFirst(c[3..]);
      assert PickFirst(p) == PickFirst(p[1..]) == PickFirst(p[2..]);
      assert c[3..] == p[2..] + [f.storeId, f.merchantId];
      PickFirstFalsyTail(p[2..], [f.storeId, f.merchantId]);
    }
  }

  /** Falsy candidates appended at the end change nothing. */
  lemma {:induction false} PickFirstFalsyTail(a: seq<Option<string>>, b: seq<Option<string>>)
    requires forall j :: 0 <= j < |b| ==> !Truthy(b[j])
    ensures PickFirst(a + b) == PickFirst(a)
  {
    if |a| == 0 {
      assert a + b == b;
    } else {
      assert (a + b)[1..] == a[1..] + b;
      PickFirstFalsyTail(a[1..], b);
    }
  }

  lemma ProbeListsDiffer()
    ensures var f := SellerFields(None, None, Some("S9"), None, None, None, None, None);
            CodItemSeller(f) == "S9" && ProductSeller(f) == DefaultSeller
  {
    var f := SellerFields(None, None, Some("S9"), None, None, None, None, None);
    assert PickFirst(CodProbe(f)[2..]) == Some("S9");
  }

  /** The priority examples: `sellerId` beats `vendorId`; `merchantId` alone
      is found by the eight-field rule; nothing set gives the default. */
  lemma ResolutionExamples()
    ensures CodItemSeller(SellerFields(Some("A"), None, None, Some("B"), None, None, None, None)) == "A"
    ensures ProductSeller(SellerFields(Some("A"), None, None, Some("B"), None, None, None, None)) == "A"
    ensures CodItemSeller(SellerFields(None, None, None, None, None, None, None, Some("C"))) == "C"
    ensures CodItemSeller(SellerFields(None, None, None, None, None, None, None, None)) == DefaultSeller
  {
    var m := SellerFields(None, None, None, None, None, None, None, Some("C"));
    var c := CodProbe(m);
    assert PickFirst(c[7..]) == Some("C");
  }
}
