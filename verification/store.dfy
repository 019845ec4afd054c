/** The document store the checkout writes to, reduced to the collections
    the order fan-out touches. Whether a single write is rejected is decided
    by a set of failing writes handed in from outside; a document update on a
    seller document that does not exist is always rejected, as the store's
    `updateDoc` is documented to do. */
module Store {
  import opened Js
  import opened Seqs
  import opened Orders

  /** `users/{uid}/orders/{docId}`. */
  datatype StoredOrder = StoredOrder(docId: string, order: Order)

  /** A copy in the top-level `orders` collection, pointing back at the buyer's document. */
  datatype RootCopy = RootCopy(order: Order, originalUserOrdersDocId: string)

  /** A document in `sellers/{sellerId}/orders`. `order` carries the order
      fields the copy repeats; `totalAmount` is what the copy stores under
      that name; `sellerSubtotal` is present only where the page writes it. */
  datatype SellerCopy = SellerCopy(
    sellerId: string,
    orderDocId: string,
    order: Order,
    products: seq<OrderLine>,
    totalAmount: int,
    sellerSubtotal: Option<int>)

  /** The order summary appended to a seller document's `orders` array. */
  datatype Summary = Summary(
    orderId: string,
    orderDocId: string,
    customerName: Option<string>,
    customerPhone: Option<string>,
    totalAmount: int,
    orderStatus: string,
    products: seq<OrderLine>,
    address: string)

  /** The fields of `sellers/{sellerId}` the fan-out reads and writes. */
  datatype Profile = Profile(orders: seq<Summary>, totalSales: int)

  datatype Db = Db(
    userOrders: map<string, seq<StoredOrder>>,
    rootOrders: seq<RootCopy>,
    sellerOrders: map<string, seq<SellerCopy>>,
    sellers: map<string, Profile>)

  /** The individual store calls the fan-out makes, as named in the failure
      set. `UpdateSeller(s)` is a rejected profile update. `RefuseSummary` is
      the client library refusing every profile update while it reads the
      data, before anything is sent: the summary puts `serverTimestamp()`
      inside an `arrayUnion` element, which the library does not allow. That
      refusal is thrown, not returned as a rejected promise. */
  datatype Write =
    | AddUserOrder
    | AddRootOrder
    | AddSellerOrder(sellerId: string)
    | ReadSeller(sellerId: string)
    | InitSeller(sellerId: string)
    | UpdateSeller(sellerId: string)
    | RefuseSummary

  /** A collection that was never written reads as empty. */
  function Get<T>(m: map<string, seq<T>>, k: string): seq<T> {
    if k in m then m[k] else []
  }

  function AddUser(db: Db, uid: string, docId: string, o: Order): (r: Db)
    ensures Get(r.userOrders, uid) == Get(db.userOrders, uid) + [StoredOrder(docId, o)]
    ensures forall u :: u != uid ==> Get(r.userOrders, u) == Get(db.userOrders, u)
    ensures r.rootOrders == db.rootOrders && r.sellerOrders == db.sellerOrders && r.sellers == db.sellers
  {
    db.(userOrders := db.userOrders[uid := Get(db.userOrders, uid) + [StoredOrder(docId, o)]])
  }

  function AddCopy(db: Db, c: SellerCopy): (r: Db)
    ensures Get(r.sellerOrders, c.sellerId) == Get(db.sellerOrders, c.sellerId) + [c]
    ensures forall s :: s != c.sellerId ==> Get(r.sellerOrders, s) == Get(db.sellerOrders, s)
    ensures r.userOrders == db.userOrders && r.rootOrders == db.rootOrders && r.sellers == db.sellers
  {
    db.(sellerOrders := db.sellerOrders[c.sellerId := Get(db.sellerOrders, c.sellerId) + [c]])
  }

  function CopyIds(cs: seq<SellerCopy>): (r: seq<string>)
    ensures |r| == |cs| && forall i :: 0 <= i < |cs| ==> r[i] == cs[i].sellerId
  {
    seq(|cs|, i requires 0 <= i < |cs| => cs[i].sellerId)
  }

  /** Every copy written, none rejected. */
  function AppendCopies(db: Db, cs: seq<SellerCopy>): Db
    decreases |cs|
  {
    if |cs| == 0 then db else AppendCopies(AddCopy(db, cs[0]), cs[1..])
  }

  /** Index of the first copy whose write is rejected, or the number of copies. */
  function FirstRejected(cs: seq<SellerCopy>, failing: set<Write>): (k: nat)
    ensures k <= |cs|
    ensures forall i :: 0 <= i < k ==> AddSellerOrder(cs[i].sellerId) !in failing
    ensures k < |cs| ==> AddSellerOrder(cs[k].sellerId) in failing
  {
    if |cs| == 0 then 0
    else if AddSellerOrder(cs[0].sellerId) in failing then 0
    else 1 + FirstRejected(cs[1..], failing)
  }

  /** The seller-copy loop: one `try` around the whole `for`, so the first
      rejected `addDoc` abandons the copies still to come. */
  function WriteCopies(db: Db, cs: seq<SellerCopy>, failing: set<Write>): (r: Db)
    ensures r.userOrders == db.userOrders && r.rootOrders == db.rootOrders && r.sellers == db.sellers
    decreases |cs|
  {
    if |cs| == 0 then db
    else if AddSellerOrder(cs[0].sellerId) in failing then db
    else WriteCopies(AddCopy(db, cs[0]), cs[1..], failing)
  }

  /** The loop writes exactly the copies before the first rejected one. */
  lemma {:induction false} WriteCopiesIsPrefix(db: Db, cs: seq<SellerCopy>, failing: set<Write>)
    ensures WriteCopies(db, cs, failing) == AppendCopies(db, cs[..FirstRejected(cs, failing)])
    decreases |cs|
  {
    if |cs| > 0 && AddSellerOrder(cs[0].sellerId) !in failing {
      var k := FirstRejected(cs, failing);
      WriteCopiesIsPrefix(AddCopy(db, cs[0]), cs[1..], failing);
      assert cs[..k][0] == cs[0];
      assert cs[..k][1..] == cs[1..][..k - 1];
    }
  }

  /** Copies to pairwise different sellers each land in their seller's
      collection, after what was there; only the seller collections change. */
  lemma {:induction false} AppendCopiesContents(db: Db, cs: seq<SellerCopy>)
    requires NoDup(CopyIds(cs))
    ensures forall i :: 0 <= i < |cs| ==>
              Get(AppendCopies(db, cs).sellerOrders, cs[i].sellerId) == Get(db.sellerOrders, cs[i].sellerId) + [cs[i]]
    ensures forall s :: s !in CopyIds(cs) ==> Get(AppendCopies(db, cs).sellerOrders, s) == Get(db.sellerOrders, s)
    ensures AppendCopies(db, cs).userOrders == db.userOrders
    ensures AppendCopies(db, cs).rootOrders == db.rootOrders
    ensures AppendCopies(db, cs).sellers == db.sellers
    decreases |cs|
  {
    if |cs| > 0 {
      var db1 := AddCopy(db, cs[0]);
      assert CopyIds(cs[1..]) == CopyIds(cs)[1..];
      assert NoDup(CopyIds(cs[1..])) by {
        forall i, j | 0 <= i < j < |cs[1..]| ensures CopyIds(cs[1..])[i] != CopyIds(cs[1..])[j] {
          assert CopyIds(cs)[i + 1] != CopyIds(cs)[j + 1];
        }
      }
      AppendCopiesContents(db1, cs[1..]);
      assert cs[0].sellerId !in CopyIds(cs[1..]) by {
        forall j | 0 <= j < |cs[1..]| ensures CopyIds(cs[1..])[j] != cs[0].sellerId {
          assert CopyIds(cs)[j + 1] != CopyIds(cs)[0];
        }
      }
      forall i | 0 <= i < |cs|
        ensures Get(AppendCopies(db, cs).sellerOrders, cs[i].sellerId) == Get(db.sellerOrders, cs[i].sellerId) + [cs[i]]
      {
        if i > 0 {
          assert cs[i] == cs[1..][i - 1];
          assert CopyIds(cs)[i] != CopyIds(cs)[0];
        }
      }
      forall s | s !in CopyIds(cs)
        ensures Get(AppendCopies(db, cs).sellerOrders, s) == Get(db.sellerOrders, s)
      {
        assert CopyIds(cs)[0] == cs[0].sellerId;
        assert forall j :: 0 <= j < |cs[1..]| ==> CopyIds(cs[1..])[j] == CopyIds(cs)[j + 1];
      }
    }
  }

  /** `arrayUnion`: the element is appended unless an equal one is already there. */
  function ArrayUnion(xs: seq<Summary>, x: Summary): (r: seq<Summary>)
    ensures x in r
    ensures forall y :: y in r <==> y in xs || y == x
    ensures x in xs ==> r == xs
    ensures |r| <= |xs| + 1
  {
    if x in xs then xs else xs + [x]
  }

  /** How an update sets `totalSales`: overwritten, or `increment(n)`. */
  datatype Sales = SetSales(amount: int) | AddSales(amount: int)

  function Applied(p: Profile, summary: Summary, sales: Sales): (r: Profile)
    ensures r.orders == ArrayUnion(p.orders, summary)
    ensures sales.SetSales? ==> r.totalSales == sales.amount
    ensures sales.AddSales? ==> r.totalSales == p.totalSales + sales.amount
  {
    Profile(ArrayUnion(p.orders, summary),
            match sales
            case SetSales(n) => n
            case AddSales(n) => p.totalSales + n)
  }

  /** `updateDoc(doc(db, "sellers", s), …)`: rejected when the document is
      missing or the write fails; otherwise only that seller's profile changes. */
  function UpdateSellerDoc(db: Db, s: string, summary: Summary, sales: Sales, failing: set<Write>): (r: Option<Db>)
    ensures r.None? <==> s !in db.sellers || UpdateSeller(s) in failing
    ensures r.Some? ==> r.value.sellers == db.sellers[s := Applied(db.sellers[s], summary, sales)]
    ensures r.Some? ==> r.value.userOrders == db.userOrders && r.value.rootOrders == db.rootOrders
                        && r.value.sellerOrders == db.sellerOrders
  {
    if s !in db.sellers || UpdateSeller(s) in failing then None
    else Some(db.(sellers := db.sellers[s := Applied(db.sellers[s], summary, sales)]))
  }

  /** The summary both pages append for one seller. */
  function SummaryFor(o: Order, docId: string, lines: seq<OrderLine>, subtotal: int): (r: Summary)
    ensures r.orderId == o.orderId && r.orderDocId == docId
    ensures r.products == lines && r.totalAmount == subtotal
    ensures r.customerName == o.name && r.customerPhone == o.phoneNumber
  {
    Summary(o.orderId, docId, o.name, o.phoneNumber, subtotal, o.orderStatus, lines, o.address)
  }
}
