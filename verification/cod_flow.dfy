/** The cash-on-delivery page: saving the order, the seller fan-out, and the
    final placement that clears the cart and opens the confirmation page. */
module CodFlow {
  import opened Js
  import opened Seqs
  import opened Sellers
  import opened Cart
  import opened Orders
  import opened Grouping
  import opened Store

  /** The navigation state the page is opened with, plus the signed-in user
      (`""` when nobody is signed in). The `productSellers` map the checkout
      page also passes along is never read here. */
  datatype Request = Request(
    userId: string,
    billing: Billing,
    lat: Option<real>,
    lng: Option<real>,
    items: seq<CartItem>,
    skus: map<string, string>,
    totalPrice: int)

  function BuildOrder(req: Request, orderId: string, status: string, paymentMethod: string, paymentId: Option<string>): Order {
    CodOrder(req.userId, orderId, status, paymentMethod, paymentId, req.billing, req.lat, req.lng, req.items, req.skus, req.totalPrice)
  }

  /** The seller copy: `totalAmount` is the seller's own subtotal and there is
      no `sellerSubtotal`. Of `order` the copy repeats the order and user ids,
      status, payment method, shipping charge, customer name and phone,
      address and coordinates. */
  function Copy(o: Order, docId: string, g: Group): (c: SellerCopy)
    ensures c.sellerId == g.sellerId && c.products == g.lines
    ensures c.orderDocId == docId && c.order == o
    ensures c.totalAmount == Subtotal(g.lines, CodValue) && c.sellerSubtotal.None?
  {
    SellerCopy(g.sellerId, docId, o, g.lines, Subtotal(g.lines, CodValue), None)
  }

  function Copies(o: Order, docId: string): (r: seq<SellerCopy>)
    ensures |r| == |GroupLines(o.products, CodKey)|
    ensures forall i :: 0 <= i < |r| ==> r[i] == Copy(o, docId, GroupLines(o.products, CodKey)[i])
  {
    var gs := GroupLines(o.products, CodKey);
    seq(|gs|, i requires 0 <= i < |gs| => Copy(o, docId, gs[i]))
  }

  /** The summary filters the lines on `p.sellerId === sellerId`, without the
      default the grouping applies. */
  function SellerLines(o: Order, s: string): seq<OrderLine> {
    LinesOf(o.products, SellerKey, s)
  }

  function SellerSummary(o: Order, docId: string, s: string): Summary {
    SummaryFor(o, docId, SellerLines(o, s), Subtotal(SellerLines(o, s), CodValue))
  }

  /** The bootstrap as the page writes it: an `updateDoc` setting an empty
      profile. It only runs when the document is missing, and the store
      rejects `updateDoc` on a missing document. */
  function BootstrapAsWritten(db: Db, s: string, failing: set<Write>): Db {
    if s !in db.sellers || InitSeller(s) in failing then db
    else db.(sellers := db.sellers[s := Profile([], 0)])
  }

  /** The bootstrap as intended: create the missing document with an empty
      profile (a create-or-merge write), unless that write fails. */
  function Bootstrap(db: Db, s: string, failing: set<Write>): (r: Db)
    ensures r.userOrders == db.userOrders && r.rootOrders == db.rootOrders && r.sellerOrders == db.sellerOrders
    ensures InitSeller(s) !in failing ==> r.sellers == db.sellers[s := Profile([], 0)]
    ensures InitSeller(s) in failing ==> r == db
  {
    if InitSeller(s) in failing then db
    else db.(sellers := db.sellers[s := Profile([], 0)])
  }

  /** The profile a seller's update starts from: its document, or the empty
      profile the bootstrap creates. */
  function Base(db: Db, s: string): Profile {
    if s in db.sellers then db.sellers[s] else Profile([], 0)
  }

  /** One seller of `updateSellerDocuments` after a successful read, as the
      page writes it: bootstrap a missing document, then append the summary
      and `increment` the sales. Both writes are rejected on a missing
      document and both have their own `.catch`, so a seller without a
      document is left without one and the loop goes on. */
  function UpdateOne(db: Db, o: Order, docId: string, s: string, failing: set<Write>): (r: Db)
    ensures r.userOrders == db.userOrders && r.rootOrders == db.rootOrders && r.sellerOrders == db.sellerOrders
    ensures r.sellers.Keys == db.sellers.Keys
    ensures forall t :: t in db.sellers && t != s ==> r.sellers[t] == db.sellers[t]
    ensures s in db.sellers && UpdateSeller(s) !in failing ==>
              r.sellers[s] == Applied(db.sellers[s], SellerSummary(o, docId, s), AddSales(Subtotal(SellerLines(o, s), CodValue)))
    ensures s in db.sellers && UpdateSeller(s) in failing ==> r.sellers[s] == db.sellers[s]
    ensures s !in db.sellers ==> r == db
  {
    var db1 := if s in db.sellers then db else BootstrapAsWritten(db, s, failing);
    UpdateSellerDoc(db1, s, SellerSummary(o, docId, s), AddSales(Subtotal(SellerLines(o, s), CodValue)), failing).GetOr(db1)
  }

  /** The same step with the bootstrap creating the missing document: every
      seller whose bootstrap succeeds ends up with a document, and the update
      starts from it. */
  function UpdateOneCorrected(db: Db, o: Order, docId: string, s: string, failing: set<Write>): (r: Db)
    ensures r.userOrders == db.userOrders && r.rootOrders == db.rootOrders && r.sellerOrders == db.sellerOrders
    ensures r.sellers.Keys == db.sellers.Keys + (if s in db.sellers || InitSeller(s) in failing then {} else {s})
    ensures forall t :: t in db.sellers && t != s ==> r.sellers[t] == db.sellers[t]
    ensures (s in db.sellers || InitSeller(s) !in failing) && UpdateSeller(s) !in failing ==>
              r.sellers[s] == Applied(Base(db, s), SellerSummary(o, docId, s), AddSales(Subtotal(SellerLines(o, s), CodValue)))
    ensures UpdateSeller(s) in failing && s in r.sellers ==> r.sellers[s] == Base(db, s)
  {
    var db1 := if s in db.sellers then db else Bootstrap(db, s, failing);
    UpdateSellerDoc(db1, s, SellerSummary(o, docId, s), AddSales(Subtotal(SellerLines(o, s), CodValue)), failing).GetOr(db1)
  }

  /** `updateSellerDocuments`: empty ids are skipped. A failing read of a
      seller document, or the library refusing the summary (a throw that
      bypasses the update's own `.catch`), ends the `try` around the loop
      and abandons the remaining sellers. */
  function UpdateSellers(db: Db, o: Order, docId: string, ids: seq<string>, failing: set<Write>): (r: Db)
    ensures r.userOrders == db.userOrders && r.rootOrders == db.rootOrders && r.sellerOrders == db.sellerOrders
    ensures r.sellers.Keys == db.sellers.Keys
    ensures forall s :: s in db.sellers && s !in ids ==> r.sellers[s] == db.sellers[s]
    decreases |ids|
  {
    if |ids| == 0 then db
    else
      assert forall t :: t in ids[1..] ==> t in ids;
      if ids[0] == "" then UpdateSellers(db, o, docId, ids[1..], failing)
      else if ReadSeller(ids[0]) in failing || RefuseSummary in failing then db
      else UpdateSellers(UpdateOne(db, o, docId, ids[0], failing), o, docId, ids[1..], failing)
  }

  /** What `saveOrderToFirestore` returns: `false` when nobody is signed in,
      `{success: false}` when the buyer's order is rejected, else the new
      document id and the `sellerid` field. */
  datatype Result = NoUser | Failed | Success(docId: string, sellerid: SellerRef)

  /** `saveOrderToFirestore`: the buyer's order, then a top-level copy, the
      seller copies and the seller summaries, whose failures are all swallowed. */
  function SaveOrder(db: Db, req: Request, orderId: string, docId: string, status: string, paymentMethod: string,
                     paymentId: Option<string>, failing: set<Write>): (Db, Result)
  {
    if req.userId == "" then (db, NoUser)
    else if AddUserOrder in failing then (db, Failed)
    else
      var o := BuildOrder(req, orderId, status, paymentMethod, paymentId);
      var db1 := AddUser(db, req.userId, docId, o);
      var db2 := if AddRootOrder in failing then db1 else db1.(rootOrders := db1.rootOrders + [RootCopy(o, docId)]);
      var db3 := WriteCopies(db2, Copies(o, docId), failing);
      (UpdateSellers(db3, o, docId, CodSellerIds(req.items), failing), Success(docId, o.sellers))
  }

  /** Nobody signed in, or the buyer's order rejected: the store is untouched. */
  lemma SaveOrderGuards(db: Db, req: Request, orderId: string, docId: string, status: string, paymentMethod: string,
                        paymentId: Option<string>, failing: set<Write>)
    ensures req.userId == "" ==> SaveOrder(db, req, orderId, docId, status, paymentMethod, paymentId, failing) == (db, NoUser)
    ensures req.userId != "" && AddUserOrder in failing ==>
              SaveOrder(db, req, orderId, docId, status, paymentMethod, paymentId, failing) == (db, Failed)
  {
  }

  lemma CopiesHaveDistinctSellers(o: Order, docId: string)
    ensures NoDup(CopyIds(Copies(o, docId)))
  {
    GroupLinesSpec(o.products, CodKey);
    assert CopyIds(Copies(o, docId)) == Keys(GroupLines(o.products, CodKey));
  }

  /** Once the buyer's order is accepted the result is a success carrying the
      `sellerid` field, the buyer's collection holds the order after what was
      there, and the top-level copy is added unless that write fails —
      whatever happens to the seller writes. */
  lemma SaveOrderKeepsBuyerOrder(db: Db, req: Request, orderId: string, docId: string, status: string, paymentMethod: string,
                                 paymentId: Option<string>, failing: set<Write>)
    requires req.userId != "" && AddUserOrder !in failing
    ensures var o := BuildOrder(req, orderId, status, paymentMethod, paymentId);
            var r := SaveOrder(db, req, orderId, docId, status, paymentMethod, paymentId, failing);
            && r.1 == Success(docId, SelleridField(CodSellerIds(req.items)))
            && Get(r.0.userOrders, req.userId) == Get(db.userOrders, req.userId) + [StoredOrder(docId, o)]
            && (forall u :: u != req.userId ==> Get(r.0.userOrders, u) == Get(db.userOrders, u))
            && r.0.rootOrders == db.rootOrders + (if AddRootOrder in failing then [] else [RootCopy(o, docId)])
            && r.0.sellers.Keys == db.sellers.Keys
  {
    var o := BuildOrder(req, orderId, status, paymentMethod, paymentId);
    var db1 := AddUser(db, req.userId, docId, o);
    var db2 := if AddRootOrder in failing then db1 else db1.(rootOrders := db1.rootOrders + [RootCopy(o, docId)]);
    var cs := Copies(o, docId);
    WriteCopiesIsPrefix(db2, cs, failing);
    var k := FirstRejected(cs, failing);
    CopiesHaveDistinctSellers(o, docId);
    assert NoDup(CopyIds(cs[..k])) by {
      forall a, b | 0 <= a < b < k ensures CopyIds(cs[..k])[a] != CopyIds(cs[..k])[b] {
        assert CopyIds(cs)[a] != CopyIds(cs)[b];
      }
    }
    AppendCopiesContents(db2, cs[..k]);
  }

  /** With every read accepted, each seller of the order whose own writes
      succeed ends up with the summary appended and its sales incremented by
      its subtotal — whatever the other sellers' writes did. */
  lemma {:induction false} UpdateSellersContinue(db: Db, o: Order, docId: string, ids: seq<string>, failing: set<Write>)
    requires NoDup(ids) && RefuseSummary !in failing
    requires forall s :: s in ids ==> ReadSeller(s) !in failing
    ensures forall s :: s in ids && s != "" && s in db.sellers && UpdateSeller(s) !in failing ==>
              UpdateSellers(db, o, docId, ids, failing).sellers[s]
              == Applied(db.sellers[s], SellerSummary(o, docId, s), AddSales(Subtotal(SellerLines(o, s), CodValue)))
    decreases |ids|
  {
    if |ids| > 0 {
      var s := ids[0];
      assert NoDup(ids[1..]) && s !in ids[1..] by {
        forall i, j | 0 <= i < j < |ids[1..]| ensures ids[1..][i] != ids[1..][j] {
          assert ids[i + 1] != ids[j + 1];
        }
        forall j | 0 <= j < |ids[1..]| ensures ids[1..][j] != s {
          assert ids[j + 1] != ids[0];
        }
      }
      assert forall t :: t in ids[1..] ==> t in ids;
      var db1 := if s == "" then db else UpdateOne(db, o, docId, s, failing);
      assert UpdateSellers(db, o, docId, ids, failing) == UpdateSellers(db1, o, docId, ids[1..], failing);
      var r := UpdateSellers(db1, o, docId, ids[1..], failing);
      UpdateSellersContinue(db1, o, docId, ids[1..], failing);
      forall t | t in ids && t != "" && t in db.sellers && UpdateSeller(t) !in failing
        ensures r.sellers[t] == Applied(db.sellers[t], SellerSummary(o, docId, t), AddSales(Subtotal(SellerLines(o, t), CodValue)))
      {
        if t == s {
          assert t !in ids[1..];
        } else {
          assert t in ids[1..] && db1.sellers[t] == db.sellers[t];
        }
      }
    }
  }

  /** A failing read of `ids[i]` abandons every seller from `ids[i]` on: their
      documents, present or missing, stay as they were. */
  lemma {:induction false} UpdateSellersReadAbort(db: Db, o: Order, docId: string, ids: seq<string>, failing: set<Write>, i: nat)
    requires NoDup(ids) && i < |ids|
    requires ids[i] != "" && ReadSeller(ids[i]) in failing
    ensures forall j :: i <= j < |ids| ==>
              && (ids[j] in UpdateSellers(db, o, docId, ids, failing).sellers <==> ids[j] in db.sellers)
              && (ids[j] in db.sellers ==> UpdateSellers(db, o, docId, ids, failing).sellers[ids[j]] == db.sellers[ids[j]])
    decreases |ids|
  {
    var s := ids[0];
    if s == "" || (ReadSeller(s) !in failing && RefuseSummary !in failing) {
      assert i > 0;
      var db1 := if s == "" then db else UpdateOne(db, o, docId, s, failing);
      assert UpdateSellers(db, o, docId, ids, failing) == UpdateSellers(db1, o, docId, ids[1..], failing);
      assert NoDup(ids[1..]) by {
        forall a, b | 0 <= a < b < |ids[1..]| ensures ids[1..][a] != ids[1..][b] {
          assert ids[a + 1] != ids[b + 1];
        }
      }
      assert ids[1..][i - 1] == ids[i];
      UpdateSellersReadAbort(db1, o, docId, ids[1..], failing, i - 1);
      forall j | i <= j < |ids|
        ensures && (ids[j] in UpdateSellers(db, o, docId, ids, failing).sellers <==> ids[j] in db.sellers)
                && (ids[j] in db.sellers ==> UpdateSellers(db, o, docId, ids, failing).sellers[ids[j]] == db.sellers[ids[j]])
      {
        assert ids[1..][j - 1] == ids[j];
        assert ids[j] != ids[0];
      }
    }
  }

  /** As the summary is written, the library refuses it at the first seller
      whose read succeeds, and the throw skips the `.catch` that would have
      kept the loop going: a placed order leaves every seller profile as it
      was. */
  lemma SummaryRefusedUpdatesNoSeller(db: Db, req: Request, orderId: string, docId: string, status: string,
                                      paymentMethod: string, paymentId: Option<string>, failing: set<Write>)
    requires RefuseSummary in failing
    ensures SaveOrder(db, req, orderId, docId, status, paymentMethod, paymentId, failing).0.sellers == db.sellers
  {
    if req.userId != "" && AddUserOrder !in failing {
      var o := BuildOrder(req, orderId, status, paymentMethod, paymentId);
      var db1 := AddUser(db, req.userId, docId, o);
      var db2 := if AddRootOrder in failing then db1 else db1.(rootOrders := db1.rootOrders + [RootCopy(o, docId)]);
      SummaryRefusedLoop(WriteCopies(db2, Copies(o, docId), failing), o, docId, CodSellerIds(req.items), failing);
    }
  }

  lemma {:induction false} SummaryRefusedLoop(db: Db, o: Order, docId: string, ids: seq<string>, failing: set<Write>)
    requires RefuseSummary in failing
    ensures UpdateSellers(db, o, docId, ids, failing) == db
    decreases |ids|
  {
    if |ids| > 0 && ids[0] == "" {
      SummaryRefusedLoop(db, o, docId, ids[1..], failing);
    }
  }

  /** As written, a seller without a document never gets one: the bootstrap
      changes nothing, and the update that follows is rejected, so the
      order's summary is lost even when no write fails. */
  lemma BootstrapAsWrittenLosesSummary(db: Db, o: Order, docId: string, s: string, summary: Summary, n: int)
    requires s !in db.sellers
    ensures BootstrapAsWritten(db, s, {}) == db
    ensures UpdateSellerDoc(BootstrapAsWritten(db, s, {}), s, summary, AddSales(n), {}).None?
    ensures s !in UpdateOne(db, o, docId, s, {}).sellers
  {
  }

  /** Over a whole fan-out, as written: a listed seller without a document
      still has none afterwards, even when no write fails, so its summary
      and sales are lost. */
  lemma UpdateSellersLosesNewSellers(db: Db, o: Order, docId: string, ids: seq<string>, s: string)
    requires s in ids && s != "" && s !in db.sellers
    ensures s !in UpdateSellers(db, o, docId, ids, {}).sellers
  {
  }

  /** With the bootstrap creating the document, a new seller's profile holds
      exactly this order's summary and its subtotal as sales. */
  lemma BootstrapCreatesProfile(db: Db, o: Order, docId: string, s: string)
    requires s !in db.sellers && s != ""
    ensures var r := UpdateOneCorrected(db, o, docId, s, {});
            && s in r.sellers
            && r.sellers[s].orders == [SellerSummary(o, docId, s)]
            && r.sellers[s].totalSales == Subtotal(SellerLines(o, s), CodValue)
  {
  }

  /** Grouping with the default seller and filtering on the raw seller id
      pick the same lines here, because every cash-on-delivery line carries a
      non-empty seller. */
  lemma {:induction false} LinesOfCodKey(lines: seq<OrderLine>, s: string)
    requires forall l :: l in lines ==> l.sellerId != ""
    ensures LinesOf(lines, CodKey, s) == LinesOf(lines, SellerKey, s)
  {
    if |lines| > 0 {
      assert forall l :: l in lines[..|lines| - 1] ==> l in lines;
      LinesOfCodKey(lines[..|lines| - 1], s);
    }
  }

  /** Each seller's summary repeats exactly what its copy holds: the same
      lines and the same amount. */
  lemma SummaryMatchesCopy(req: Request, orderId: string, docId: string, status: string, paymentMethod: string,
                           paymentId: Option<string>)
    ensures var o := BuildOrder(req, orderId, status, paymentMethod, paymentId);
            forall c :: c in Copies(o, docId) ==>
              && SellerSummary(o, docId, c.sellerId).products == c.products
              && SellerSummary(o, docId, c.sellerId).totalAmount == c.totalAmount
  {
    var o := BuildOrder(req, orderId, status, paymentMethod, paymentId);
    var gs := GroupLines(o.products, CodKey);
    var cs := Copies(o, docId);
    GroupLinesSpec(o.products, CodKey);
    forall l | l in o.products ensures l.sellerId != "" {
      var i :| 0 <= i < |o.products| && o.products[i] == l;
      assert l == CodLine(req.items[i], req.skus);
    }
    forall i | 0 <= i < |cs|
      ensures SellerSummary(o, docId, cs[i].sellerId).products == cs[i].products
      ensures SellerSummary(o, docId, cs[i].sellerId).totalAmount == cs[i].totalAmount
    {
      assert cs[i] == Copy(o, docId, gs[i]);
      LinesOfCodKey(o.products, gs[i].sellerId);
    }
  }

  lemma CodLineValue(it: CartItem, skus: map<string, string>)
    requires it.quantity != 0
    ensures CodValue(CodLine(it, skus)) == it.price * it.quantity
  {
    CodValueIsLineTotal(CodLine(it, skus));
  }

  lemma {:induction false} CodLinesSum(items: seq<CartItem>, skus: map<string, string>)
    requires forall i :: 0 <= i < |items| ==> items[i].quantity != 0
    ensures Subtotal(CodLines(items, skus), CodValue) == Total(items)
  {
    if |items| > 0 {
      var n := |items|;
      var ls := CodLines(items, skus);
      assert ls[..n - 1] == CodLines(items[..n - 1], skus);
      CodLinesSum(items[..n - 1], skus);
      CodLineValue(items[n - 1], skus);
      assert Subtotal(ls, CodValue) == Subtotal(ls[..n - 1], CodValue) + CodValue(ls[n - 1]);
    }
  }

  /** When the amount handed over is the checkout page's total and every
      line has a quantity, the sellers' copies add up to the order total. */
  lemma CopyTotalsSumToOrderTotal(req: Request, orderId: string, status: string, paymentMethod: string, paymentId: Option<string>)
    requires req.totalPrice == Total(req.items)
    requires forall i :: 0 <= i < |req.items| ==> req.items[i].quantity != 0
    ensures var o := BuildOrder(req, orderId, status, paymentMethod, paymentId);
            GroupsTotal(GroupLines(o.products, CodKey), CodValue) == o.totalAmount
  {
    var o := BuildOrder(req, orderId, status, paymentMethod, paymentId);
    GroupsTotalIsSubtotal(o.products, CodKey, CodValue);
    CodLinesSum(req.items, req.skus);
  }

  /** The state `navigate("/order-confirm", {state})` hands over. */
  datatype Confirmation = Confirmation(
    paymentMethod: string,
    total: string,
    itemsCount: int,
    billing: Billing,
    cartItems: seq<CartItem>,
    sellerid: SellerRef,
    orderDocId: string)

  datatype Screen = CodScreen | OrderConfirm(state: Confirmation)

  /** The page state the handlers read and write; `cart` is the shared cart
      that `clearCart` empties. */
  datatype Page = Page(isSaving: bool, showConfirmModal: bool, cart: seq<CartItem>, screen: Screen)

  const CashOnDelivery := "Cash on Delivery"

  /** `handleConfirmOrder`: opens the confirmation modal unless a save is
      running or nobody is signed in. */
  function ConfirmOrder(page: Page, userId: string): (r: Page)
    ensures page.isSaving || userId == "" ==> r == page
    ensures !page.isSaving && userId != "" ==> r == page.(showConfirmModal := true)
  {
    if page.isSaving || userId == "" then page else page.(showConfirmModal := true)
  }

  /** `handleFinalOrderPlacement`; `fmt` is the page's currency formatter. */
  function FinalPlacement(page: Page, db: Db, req: Request, orderId: string, docId: string,
                          fmt: int -> string, failing: set<Write>): (Page, Db)
  {
    if page.isSaving then (page, db)
    else
      var (db1, res) := SaveOrder(db, req, orderId, docId, "Pending", CashOnDelivery, None, failing);
      match res
      case Success(id, sellerid) =>
        (Page(false, false, [], OrderConfirm(Confirmation(CashOnDelivery, fmt(req.totalPrice), |req.items|,
                                                         req.billing, req.items, sellerid, id))), db1)
      case _ => (page.(isSaving := false, showConfirmModal := false), db1)
  }

  /** A second placement while one is saving does nothing. */
  lemma FinalPlacementBusy(page: Page, db: Db, req: Request, orderId: string, docId: string,
                           fmt: int -> string, failing: set<Write>)
    requires page.isSaving
    ensures FinalPlacement(page, db, req, orderId, docId, fmt, failing) == (page, db)
  {
  }

  /** A successful placement empties the cart, ends the save and opens the
      confirmation page with the new order's id and seller ids. */
  lemma FinalPlacementSuccess(page: Page, db: Db, req: Request, orderId: string, docId: string,
                              fmt: int -> string, failing: set<Write>)
    requires !page.isSaving && req.userId != "" && AddUserOrder !in failing
    ensures var (p, _) := FinalPlacement(page, db, req, orderId, docId, fmt, failing);
            && p.cart == [] && !p.isSaving && !p.showConfirmModal
            && p.screen == OrderConfirm(Confirmation(CashOnDelivery, fmt(req.totalPrice), |req.items|, req.billing,
                                                     req.items, SelleridField(CodSellerIds(req.items)), docId))
  {
    SaveOrderKeepsBuyerOrder(db, req, orderId, docId, "Pending", CashOnDelivery, None, failing);
  }

  /** A placement that saves nothing keeps the cart and the screen, and
      leaves the store as it was. */
  lemma FinalPlacementFailure(page: Page, db: Db, req: Request, orderId: string, docId: string,
                              fmt: int -> string, failing: set<Write>)
    requires !page.isSaving && (req.userId == "" || AddUserOrder in failing)
    ensures var (p, d) := FinalPlacement(page, db, req, orderId, docId, fmt, failing);
            && d == db && p.cart == page.cart && p.screen == page.screen && !p.isSaving
  {
  }
}
