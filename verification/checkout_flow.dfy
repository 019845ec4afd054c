/** The checkout page's save: the buyer's order document, then a copy per
    seller, then a summary on each seller's document. */
module CheckoutFlow {
  import opened Js
  import opened Seqs
  import opened Cart
  import opened Orders
  import opened Grouping
  import opened Store

  /** What the page holds when the save runs; `userId` is `""` when nobody is
      signed in, and the coordinates are those in the page state. */
  datatype Request = Request(
    userId: string,
    billing: Billing,
    lat: Option<real>,
    lng: Option<real>,
    items: seq<CartItem>,
    info: ProductInfo)

  /** The seller copy: every order field, the seller's lines, and their sum
      as `sellerSubtotal`; `totalAmount` stays the whole order's total. */
  function Copy(o: Order, docId: string, g: Group): (c: SellerCopy)
    ensures c.sellerId == g.sellerId && c.products == g.lines && c.order == o && c.orderDocId == docId
    ensures c.totalAmount == o.totalAmount
    ensures c.sellerSubtotal == Some(Subtotal(g.lines, CheckoutValue))
  {
    SellerCopy(g.sellerId, docId, o, g.lines, o.totalAmount, Some(Subtotal(g.lines, CheckoutValue)))
  }

  function Copies(o: Order, docId: string): (r: seq<SellerCopy>)
    ensures |r| == |GroupLines(o.products, SellerKey)|
    ensures forall i :: 0 <= i < |r| ==> r[i] == Copy(o, docId, GroupLines(o.products, SellerKey)[i])
  {
    var gs := GroupLines(o.products, SellerKey);
    seq(|gs|, i requires 0 <= i < |gs| => Copy(o, docId, gs[i]))
  }

  function SellerLines(o: Order, s: string): seq<OrderLine> {
    LinesOf(o.products, SellerKey, s)
  }

  function SellerSummary(o: Order, docId: string, s: string): Summary {
    SummaryFor(o, docId, SellerLines(o, s), Subtotal(SellerLines(o, s), CheckoutValue))
  }

  /** `updateSellerDocuments`: one `try` around the loop, so the first
      rejected update abandons the sellers still to come, and a refused
      summary abandons all of them; `totalSales` is overwritten with this
      order's subtotal. */
  function UpdateSellers(db: Db, o: Order, docId: string, ids: seq<string>, failing: set<Write>): (r: Db)
    ensures r.userOrders == db.userOrders && r.rootOrders == db.rootOrders && r.sellerOrders == db.sellerOrders
    ensures r.sellers.Keys == db.sellers.Keys
    ensures forall s :: s in db.sellers && s !in ids ==> r.sellers[s] == db.sellers[s]
    ensures RefuseSummary in failing ==> r == db
    decreases |ids|
  {
    if |ids| == 0 || RefuseSummary in failing then db
    else
      var s := ids[0];
      match UpdateSellerDoc(db, s, SellerSummary(o, docId, s), SetSales(Subtotal(SellerLines(o, s), CheckoutValue)), failing)
      case None => db
      case Some(db1) =>
        assert forall t :: t in ids[1..] ==> t in ids;
        UpdateSellers(db1, o, docId, ids[1..], failing)
  }

  /** What the buyer sees: a sign-in refusal (nothing happens), the error
      alert, or the success alert followed by navigation to `/orders`. */
  datatype Outcome = NotSignedIn | SaveFailed | Placed(docId: string)

  function BuildOrder(req: Request, orderId: string, status: string, paymentMethod: string, paymentId: Option<string>): Order {
    CheckoutOrder(req.userId, orderId, status, paymentMethod, paymentId, req.billing, req.lat, req.lng, req.items, req.info)
  }

  /** `saveOrderToFirestore`. `orderId` and `docId` stand for the generated
      `ORD-<time>` id and the id the store assigns. */
  function SaveOrder(db: Db, req: Request, orderId: string, docId: string, status: string, paymentMethod: string,
                     paymentId: Option<string>, failing: set<Write>): (Db, Outcome)
  {
    if req.userId == "" then (db, NotSignedIn)
    else if AddUserOrder in failing then (db, SaveFailed)
    else
      var o := BuildOrder(req, orderId, status, paymentMethod, paymentId);
      var db1 := AddUser(db, req.userId, docId, o);
      var db2 := WriteCopies(db1, Copies(o, docId), failing);
      (UpdateSellers(db2, o, docId, Distinct(CheckoutSellers(req.items, req.info)), failing), Placed(docId))
  }

  /** The Razorpay handler saves the order as paid, with the payment id:
      the buyer's new document is the last one and records all three. */
  function SavePaidOrder(db: Db, req: Request, orderId: string, docId: string, paymentId: string, failing: set<Write>): (r: (Db, Outcome))
    ensures req.userId != "" && AddUserOrder !in failing ==>
              && r.1 == Placed(docId)
              && var mine := Get(r.0.userOrders, req.userId);
              && |mine| > 0 && mine[|mine| - 1].docId == docId
              && mine[|mine| - 1].order.orderStatus == "Paid"
              && mine[|mine| - 1].order.paymentMethod == "Razorpay"
              && mine[|mine| - 1].order.paymentId == Some(paymentId)
    ensures req.userId == "" || AddUserOrder in failing ==> r.0 == db && !r.1.Placed?
  {
    if req.userId != "" && AddUserOrder !in failing then
      SaveOrderKeepsBuyerOrder(db, req, orderId, docId, "Paid", "Razorpay", Some(paymentId), failing);
      SaveOrder(db, req, orderId, docId, "Paid", "Razorpay", Some(paymentId), failing)
    else
      SaveOrderGuards(db, req, orderId, docId, "Paid", "Razorpay", Some(paymentId), failing);
      SaveOrder(db, req, orderId, docId, "Paid", "Razorpay", Some(paymentId), failing)
  }

  /** Nobody signed in, or the buyer's order rejected: the store is untouched. */
  lemma SaveOrderGuards(db: Db, req: Request, orderId: string, docId: string, status: string, paymentMethod: string,
                        paymentId: Option<string>, failing: set<Write>)
    ensures req.userId == "" ==> SaveOrder(db, req, orderId, docId, status, paymentMethod, paymentId, failing) == (db, NotSignedIn)
    ensures req.userId != "" && AddUserOrder in failing ==>
              SaveOrder(db, req, orderId, docId, status, paymentMethod, paymentId, failing) == (db, SaveFailed)
  {
  }

  /** With every seller document present and no update rejected, each
      seller gets the summary, and `totalSales` becomes this order's subtotal
      (whatever it was before). */
  lemma {:induction false} UpdateSellersAllSucceed(db: Db, o: Order, docId: string, ids: seq<string>, failing: set<Write>)
    requires NoDup(ids) && RefuseSummary !in failing
    requires forall s :: s in ids ==> s in db.sellers && UpdateSeller(s) !in failing
    ensures forall s :: s in ids ==>
              UpdateSellers(db, o, docId, ids, failing).sellers[s]
              == Applied(db.sellers[s], SellerSummary(o, docId, s), SetSales(Subtotal(SellerLines(o, s), CheckoutValue)))
    decreases |ids|
  {
    if |ids| > 0 {
      var s := ids[0];
      var p := Applied(db.sellers[s], SellerSummary(o, docId, s), SetSales(Subtotal(SellerLines(o, s), CheckoutValue)));
      var db1 := db.(sellers := db.sellers[s := p]);
      assert UpdateSellers(db, o, docId, ids, failing) == UpdateSellers(db1, o, docId, ids[1..], failing);
      assert NoDup(ids[1..]) && s !in ids[1..] by {
        forall i, j | 0 <= i < j < |ids[1..]| ensures ids[1..][i] != ids[1..][j] {
          assert ids[i + 1] != ids[j + 1];
        }
        forall j | 0 <= j < |ids[1..]| ensures ids[1..][j] != s {
          assert ids[j + 1] != ids[0];
        }
      }
      assert forall t :: t in ids[1..] ==> t in ids;
      UpdateSellersAllSucceed(db1, o, docId, ids[1..], failing);
    }
  }

  /** Once the update for `ids[i]` is rejected, no later seller's document changes. */
  lemma {:induction false} UpdateSellersAbort(db: Db, o: Order, docId: string, ids: seq<string>, failing: set<Write>, i: nat)
    requires NoDup(ids) && i < |ids|
    requires ids[i] !in db.sellers || UpdateSeller(ids[i]) in failing
    ensures forall j :: i <= j < |ids| && ids[j] in db.sellers ==>
              UpdateSellers(db, o, docId, ids, failing).sellers[ids[j]] == db.sellers[ids[j]]
    decreases |ids|
  {
    var s := ids[0];
    var step := UpdateSellerDoc(db, s, SellerSummary(o, docId, s), SetSales(Subtotal(SellerLines(o, s), CheckoutValue)), failing);
    if step.Some? && RefuseSummary !in failing {
      var db1 := step.value;
      assert UpdateSellers(db, o, docId, ids, failing) == UpdateSellers(db1, o, docId, ids[1..], failing);
      assert i > 0;
      assert NoDup(ids[1..]) by {
        forall a, b | 0 <= a < b < |ids[1..]| ensures ids[1..][a] != ids[1..][b] {
          assert ids[a + 1] != ids[b + 1];
        }
      }
      assert ids[1..][i - 1] == ids[i];
      UpdateSellersAbort(db1, o, docId, ids[1..], failing, i - 1);
      forall j | i <= j < |ids| && ids[j] in db.sellers
        ensures UpdateSellers(db, o, docId, ids, failing).sellers[ids[j]] == db.sellers[ids[j]]
      {
        assert ids[1..][j - 1] == ids[j];
        assert ids[j] != ids[0];
      }
    }
  }

  /** As the summary is written, the library refuses it at the first seller
      and the thrown error ends the loop: a placed order leaves every seller
      profile as it was. */
  lemma SummaryRefusedUpdatesNoSeller(db: Db, req: Request, orderId: string, docId: string, status: string,
                                      paymentMethod: string, paymentId: Option<string>, failing: set<Write>)
    requires RefuseSummary in failing
    ensures SaveOrder(db, req, orderId, docId, status, paymentMethod, paymentId, failing).0.sellers == db.sellers
  {
  }

  /** Once the buyer's order is accepted the page reports success, and the
      buyer's collection holds the new order after what was there, whatever
      happens to the seller writes that follow. */
  lemma SaveOrderKeepsBuyerOrder(db: Db, req: Request, orderId: string, docId: string, status: string, paymentMethod: string,
                                 paymentId: Option<string>, failing: set<Write>)
    requires req.userId != "" && AddUserOrder !in failing
    ensures var r := SaveOrder(db, req, orderId, docId, status, paymentMethod, paymentId, failing);
            && r.1 == Placed(docId)
            && Get(r.0.userOrders, req.userId)
               == Get(db.userOrders, req.userId) + [StoredOrder(docId, BuildOrder(req, orderId, status, paymentMethod, paymentId))]
            && (forall u :: u != req.userId ==> Get(r.0.userOrders, u) == Get(db.userOrders, u))
            && r.0.rootOrders == db.rootOrders
            && r.0.sellers.Keys == db.sellers.Keys
  {
    var o := BuildOrder(req, orderId, status, paymentMethod, paymentId);
    var db1 := AddUser(db, req.userId, docId, o);
    var cs := Copies(o, docId);
    WriteCopiesIsPrefix(db1, cs, failing);
    AppendCopiesContents(db1, cs[..0]);
    var k := FirstRejected(cs, failing);
    CopiesHaveDistinctSellers(o, docId);
    assert NoDup(CopyIds(cs[..k])) by {
      forall a, b | 0 <= a < b < k ensures CopyIds(cs[..k])[a] != CopyIds(cs[..k])[b] {
        assert CopyIds(cs)[a] != CopyIds(cs)[b];
      }
    }
    AppendCopiesContents(db1, cs[..k]);
  }

  /** One copy per seller of the order. */
  lemma CopiesHaveDistinctSellers(o: Order, docId: string)
    ensures NoDup(CopyIds(Copies(o, docId)))
    ensures forall s :: s in CopyIds(Copies(o, docId)) <==> exists i :: 0 <= i < |o.products| && o.products[i].sellerId == s
  {
    var gs := GroupLines(o.products, SellerKey);
    GroupLinesSpec(o.products, SellerKey);
    assert CopyIds(Copies(o, docId)) == Keys(gs);
    forall s ensures s in Keys(gs) <==> exists i :: 0 <= i < |o.products| && o.products[i].sellerId == s {
      if s in LineKeys(o.products, SellerKey) {
        var i :| 0 <= i < |o.products| && LineKeys(o.products, SellerKey)[i] == s;
        assert o.products[i].sellerId == s;
      }
      if exists i :: 0 <= i < |o.products| && o.products[i].sellerId == s {
        var i :| 0 <= i < |o.products| && o.products[i].sellerId == s;
        assert LineKeys(o.products, SellerKey)[i] == s;
      }
    }
  }

  /** Each copy holds exactly its seller's lines, in order. */
  lemma CopiesHoldSellerLines(o: Order, docId: string)
    ensures forall c :: c in Copies(o, docId) ==> c.products == SellerLines(o, c.sellerId)
  {
    GroupLinesSpec(o.products, SellerKey);
  }

  /** The copies' `sellerSubtotal`s add up to the order's `totalAmount`. */
  lemma SellerSubtotalsSumToTotal(req: Request, orderId: string, status: string, paymentMethod: string, paymentId: Option<string>)
    ensures var o := BuildOrder(req, orderId, status, paymentMethod, paymentId);
            GroupsTotal(GroupLines(o.products, SellerKey), CheckoutValue) == o.totalAmount
  {
    var o := BuildOrder(req, orderId, status, paymentMethod, paymentId);
    GroupsTotalIsSubtotal(o.products, SellerKey, CheckoutValue);
    TotalIsLineSum(req.items, req.info);
  }

  /** With no seller copy rejected, every seller of the order gets exactly
      one new copy in its collection, after what was there. */
  lemma SaveOrderWritesEveryCopy(db: Db, req: Request, orderId: string, docId: string, status: string, paymentMethod: string,
                                 paymentId: Option<string>, failing: set<Write>)
    requires req.userId != "" && AddUserOrder !in failing
    requires forall s :: AddSellerOrder(s) !in failing
    ensures var o := BuildOrder(req, orderId, status, paymentMethod, paymentId);
            var r := SaveOrder(db, req, orderId, docId, status, paymentMethod, paymentId, failing);
            forall c :: c in Copies(o, docId) ==> Get(r.0.sellerOrders, c.sellerId) == Get(db.sellerOrders, c.sellerId) + [c]
  {
    var o := BuildOrder(req, orderId, status, paymentMethod, paymentId);
    var db1 := AddUser(db, req.userId, docId, o);
    var cs := Copies(o, docId);
    WriteCopiesIsPrefix(db1, cs, failing);
    assert cs[..FirstRejected(cs, failing)] == cs;
    CopiesHaveDistinctSellers(o, docId);
    AppendCopiesContents(db1, cs);
  }
}
