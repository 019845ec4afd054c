/** Partitioning an order's lines by seller (`productsBySeller`) and the
    per-seller subtotals. */
module Grouping {
  import opened Js
  import opened Seqs
  import opened Sellers
  import opened Orders

  /** One entry of `productsBySeller`: a seller and its lines, in order. */
  datatype Group = Group(sellerId: string, lines: seq<OrderLine>)

  /** Checkout page: lines are grouped under `product.sellerId`. */
  function SellerKey(l: OrderLine): string {
    l.sellerId
  }

  /** Cash-on-delivery page: lines are grouped under `product.sellerId || "default_seller"`. */
  function CodKey(l: OrderLine): (k: string)
    ensures l.sellerId != "" ==> k == l.sellerId
    ensures l.sellerId == "" ==> k == DefaultSeller
  {
    OrElse([Some(l.sellerId)], DefaultSeller)
  }

  /** Cash-on-delivery page: `p.totalAmount || p.price * p.quantity || 0`. */
  function CodValue(l: OrderLine): int {
    NumOr(l.totalAmount, NumOr(l.price * l.quantity, 0))
  }

  /** For the lines the cash-on-delivery page builds, the fallback chain is
      just the line total. */
  lemma CodValueIsLineTotal(l: OrderLine)
    requires l.totalAmount == l.price * l.quantity
    ensures CodValue(l) == l.totalAmount
  {
  }

  function Keys(gs: seq<Group>): (r: seq<string>)
    ensures |r| == |gs| && forall i :: 0 <= i < |gs| ==> r[i] == gs[i].sellerId
  {
    seq(|gs|, i requires 0 <= i < |gs| => gs[i].sellerId)
  }

  function LineKeys(lines: seq<OrderLine>, key: OrderLine -> string): (r: seq<string>)
    ensures |r| == |lines| && forall i :: 0 <= i < |lines| ==> r[i] == key(lines[i])
  {
    seq(|lines|, i requires 0 <= i < |lines| => key(lines[i]))
  }

  /** Position of the group for seller `k`, if there is one. */
  function GroupIndex(gs: seq<Group>, k: string): (r: Option<nat>)
    ensures r.Some? ==> r.value < |gs| && gs[r.value].sellerId == k
    ensures r.None? <==> k !in Keys(gs)
  {
    if |gs| == 0 then None
    else if gs[0].sellerId == k then Some(0)
    else
      assert Keys(gs)[1..] == Keys(gs[1..]);
      match GroupIndex(gs[1..], k)
      case None => None
      case Some(j) => Some(j + 1)
  }

  /** One step of the `forEach`: append the line to its seller's group,
      opening a new group at the end for a seller not seen before. */
  function AddLine(gs: seq<Group>, k: string, l: OrderLine): seq<Group> {
    match GroupIndex(gs, k)
    case Some(i) => gs[i := Group(k, gs[i].lines + [l])]
    case None => gs + [Group(k, [l])]
  }

  /** `productsBySeller`, in the order its entries are visited. */
  function GroupLines(lines: seq<OrderLine>, key: OrderLine -> string): seq<Group> {
    if |lines| == 0 then []
    else
      var l := lines[|lines| - 1];
      AddLine(GroupLines(lines[..|lines| - 1], key), key(l), l)
  }

  /** The lines whose key is `k`, in order: `filter(p => key(p) === k)`. */
  function LinesOf(lines: seq<OrderLine>, key: OrderLine -> string, k: string): (r: seq<OrderLine>)
    ensures |r| <= |lines|
    ensures forall x :: x in r ==> x in lines && key(x) == k
  {
    if |lines| == 0 then []
    else
      var l := lines[|lines| - 1];
      LinesOf(lines[..|lines| - 1], key, k) + (if key(l) == k then [l] else [])
  }

  function GroupsTotal(gs: seq<Group>, value: OrderLine -> int): int {
    if |gs| == 0 then 0
    else GroupsTotal(gs[..|gs| - 1], value) + Subtotal(gs[|gs| - 1].lines, value)
  }

  lemma {:induction false} LinesOfNone(lines: seq<OrderLine>, key: OrderLine -> string, k: string)
    requires forall i :: 0 <= i < |lines| ==> key(lines[i]) != k
    ensures LinesOf(lines, key, k) == []
  {
    if |lines| > 0 {
      LinesOfNone(lines[..|lines| - 1], key, k);
    }
  }

  /** The groups visit each seller once, in order of first appearance. */
  lemma {:induction false} GroupLinesKeys(lines: seq<OrderLine>, key: OrderLine -> string)
    ensures Keys(GroupLines(lines, key)) == Distinct(LineKeys(lines, key))
  {
    if |lines| > 0 {
      var n := |lines|;
      var init, l := lines[..n - 1], lines[n - 1];
      var k := key(l);
      var g0 := GroupLines(init, key);
      GroupLinesKeys(init, key);
      assert LineKeys(lines, key) == LineKeys(init, key) + [k];
      DistinctSnoc(LineKeys(init, key), k);
      AddLineKeys(g0, k, l);
    }
  }

  /** A step adds the seller's key at the end only when it is new. */
  lemma AddLineKeys(gs: seq<Group>, k: string, l: OrderLine)
    ensures Keys(AddLine(gs, k, l)) == if k in Keys(gs) then Keys(gs) else Keys(gs) + [k]
  {
    match GroupIndex(gs, k)
    case Some(i) =>
      assert Keys(AddLine(gs, k, l)) == Keys(gs);
    case None =>
      assert Keys(AddLine(gs, k, l)) == Keys(gs) + [k];
  }

  lemma LinesOfSnoc(init: seq<OrderLine>, l: OrderLine, key: OrderLine -> string, k: string)
    ensures LinesOf(init + [l], key, k) == LinesOf(init, key, k) + (if key(l) == k then [l] else [])
  {
    assert (init + [l])[..|init|] == init;
  }

  /** One step of the grouping keeps every group equal to its seller's
      lines, given that it did so before the step. */
  lemma AddLineKeepsLines(init: seq<OrderLine>, l: OrderLine, key: OrderLine -> string, g0: seq<Group>)
    requires NoDup(Keys(g0))
    requires forall i :: 0 <= i < |g0| ==> g0[i].lines == LinesOf(init, key, g0[i].sellerId)
    requires key(l) !in Keys(g0) ==> LinesOf(init, key, key(l)) == []
    ensures var g := AddLine(g0, key(l), l);
            forall j :: 0 <= j < |g| ==> g[j].lines == LinesOf(init + [l], key, g[j].sellerId)
  {
    var k := key(l);
    var g := AddLine(g0, k, l);
    match GroupIndex(g0, k)
    case Some(i) =>
      assert g == g0[i := Group(k, g0[i].lines + [l])];
      forall j | 0 <= j < |g| ensures g[j].lines == LinesOf(init + [l], key, g[j].sellerId) {
        LinesOfSnoc(init, l, key, g[j].sellerId);
        if j != i {
          assert Keys(g0)[j] != Keys(g0)[i];
        }
      }
    case None =>
      assert g == g0 + [Group(k, [l])];
      forall j | 0 <= j < |g| ensures g[j].lines == LinesOf(init + [l], key, g[j].sellerId) {
        LinesOfSnoc(init, l, key, g[j].sellerId);
        if j < |g0| {
          assert Keys(g0)[j] != k;
        }
      }
  }

  /** Each group holds exactly its seller's lines, in their original order. */
  lemma {:induction false} GroupLinesLines(lines: seq<OrderLine>, key: OrderLine -> string)
    ensures forall i :: 0 <= i < |GroupLines(lines, key)| ==>
              GroupLines(lines, key)[i].lines == LinesOf(lines, key, GroupLines(lines, key)[i].sellerId)
  {
    if |lines| > 0 {
      var n := |lines|;
      var init, l := lines[..n - 1], lines[n - 1];
      var g0 := GroupLines(init, key);
      GroupLinesLines(init, key);
      GroupLinesKeys(init, key);
      if key(l) !in Keys(g0) {
        forall i | 0 <= i < |init| ensures key(init[i]) != key(l) {
          assert LineKeys(init, key)[i] == key(init[i]);
        }
        LinesOfNone(init, key, key(l));
      }
      AddLineKeepsLines(init, l, key, g0);
      assert lines == init + [l];
      assert GroupLines(lines, key) == AddLine(g0, key(l), l);
    }
  }

  /** The groups visit each seller once, in order of first appearance, and
      each group holds exactly that seller's lines in their original order. */
  lemma GroupLinesSpec(lines: seq<OrderLine>, key: OrderLine -> string)
    ensures Keys(GroupLines(lines, key)) == Distinct(LineKeys(lines, key))
    ensures forall i :: 0 <= i < |GroupLines(lines, key)| ==>
              GroupLines(lines, key)[i].lines == LinesOf(lines, key, GroupLines(lines, key)[i].sellerId)
  {
    GroupLinesKeys(lines, key);
    GroupLinesLines(lines, key);
  }

  /** Every line lands in exactly one group. */
  lemma EachLineInOneGroup(lines: seq<OrderLine>, key: OrderLine -> string, n: nat)
    requires n < |lines|
    ensures Count(Keys(GroupLines(lines, key)), key(lines[n])) == 1
  {
    GroupLinesSpec(lines, key);
    assert LineKeys(lines, key)[n] == key(lines[n]);
    NoDupCountOne(Keys(GroupLines(lines, key)), key(lines[n]));
  }

  lemma {:induction false} SubtotalSnoc(a: seq<OrderLine>, l: OrderLine, value: OrderLine -> int)
    ensures Subtotal(a + [l], value) == Subtotal(a, value) + value(l)
  {
    assert (a + [l])[..|a|] == a;
  }

  lemma {:induction false} GroupsTotalUpdate(gs: seq<Group>, i: nat, g: Group, value: OrderLine -> int)
    requires i < |gs|
    ensures GroupsTotal(gs[i := g], value)
            == GroupsTotal(gs, value) - Subtotal(gs[i].lines, value) + Subtotal(g.lines, value)
  {
    var n := |gs|;
    if i == n - 1 {
      assert gs[i := g][..n - 1] == gs[..n - 1];
    } else {
      assert gs[i := g][..n - 1] == gs[..n - 1][i := g];
      GroupsTotalUpdate(gs[..n - 1], i, g, value);
    }
  }

  /** The per-seller subtotals add up to the subtotal of all lines. */
  lemma {:induction false} GroupsTotalIsSubtotal(lines: seq<OrderLine>, key: OrderLine -> string, value: OrderLine -> int)
    ensures GroupsTotal(GroupLines(lines, key), value) == Subtotal(lines, value)
  {
    if |lines| > 0 {
      var n := |lines|;
      var init, l := lines[..n - 1], lines[n - 1];
      var g0 := GroupLines(init, key);
      GroupsTotalIsSubtotal(init, key, value);
      match GroupIndex(g0, key(l))
      case Some(i) =>
        GroupsTotalUpdate(g0, i, Group(key(l), g0[i].lines + [l]), value);
        SubtotalSnoc(g0[i].lines, l, value);
      case None =>
        var g := g0 + [Group(key(l), [l])];
        assert g[..|g0|] == g0;
        SubtotalSnoc([], l, value);
    }
  }

  /** A seller's subtotal is the subtotal of its lines. */
  function SellerSubtotal(lines: seq<OrderLine>, key: OrderLine -> string, value: OrderLine -> int, k: string): int {
    Subtotal(LinesOf(lines, key, k), value)
  }
}
