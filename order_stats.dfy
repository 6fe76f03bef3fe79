/**
 * getOrderStats: `$group` by status with `count: { $sum: 1 }` and
 * `totalAmount: { $sum: '$totalAmount' }`, the document count, and the
 * revenue total (`totalRevenue[0]?.total || 0`).
 */
module OrderStats {
  import opened OrderModel

  datatype Group = Group(count: nat, totalAmount: int)

  /** `byStatus` holds one group per status that occurs; group order is not modelled. */
  datatype Stats = Stats(totalOrders: nat, totalRevenue: int, byStatus: map<Status, Group>)

  /** Adds one order to its status group, opening the group on first sight. */
  function Tally(m: map<Status, Group>, o: Order): map<Status, Group>
  {
    var g := if o.status in m then m[o.status] else Group(0, 0);
    m[o.status := Group(g.count + 1, g.totalAmount + o.totalAmount)]
  }

  /** The `$group` stage as a left fold over the collection. */
  function GroupByStatus(orders: seq<Order>): map<Status, Group>
  {
    if orders == [] then map[]
    else Tally(GroupByStatus(orders[..|orders| - 1]), orders[|orders| - 1])
  }

  /** Sum of `totalAmount` over all orders (the `_id: null` group). */
  function Revenue(orders: seq<Order>): int
  {
    if orders == [] then 0 else Revenue(orders[..|orders| - 1]) + orders[|orders| - 1].totalAmount
  }

  /**
   * The `stats` object: a group exists exactly for each status some order
   * has, every group agrees with the per-status reference count and sum, and
   * the groups add up to both totals.
   */
  function Summarize(orders: seq<Order>): (r: Stats)
    ensures r.totalOrders == |orders| && r.totalRevenue == Revenue(orders)
    ensures forall s :: CountOf(r.byStatus, s) == CountWith(orders, s) && AmountOf(r.byStatus, s) == AmountWith(orders, s)
    ensures SumCounts(r.byStatus) == r.totalOrders && SumAmounts(r.byStatus) == r.totalRevenue
    ensures forall s :: s in r.byStatus <==> exists i :: 0 <= i < |orders| && orders[i].status == s
  {
    GroupsSumToTotals(orders);
    var m := GroupByStatus(orders);
    assert forall s :: (CountOf(m, s) == CountWith(orders, s) && AmountOf(m, s) == AmountWith(orders, s)) &&
                       (s in m <==> exists i :: 0 <= i < |orders| && orders[i].status == s) by {
      forall s {
        GroupsAreExact(orders, s);
      }
    }
    Stats(|orders|, if orders == [] then 0 else Revenue(orders), GroupByStatus(orders))
  }

  // ---------------------------------------------------------------------------
  // Reference definitions: what `countDocuments({ status })` and a filtered sum would give

  function CountWith(orders: seq<Order>, s: Status): nat
  {
    if orders == [] then 0
    else CountWith(orders[..|orders| - 1], s) + (if orders[|orders| - 1].status == s then 1 else 0)
  }

  function AmountWith(orders: seq<Order>, s: Status): int
  {
    if orders == [] then 0
    else AmountWith(orders[..|orders| - 1], s) + (if orders[|orders| - 1].status == s then orders[|orders| - 1].totalAmount else 0)
  }

  function CountOf(m: map<Status, Group>, s: Status): nat
  {
    if s in m then m[s].count else 0
  }

  function AmountOf(m: map<Status, Group>, s: Status): int
  {
    if s in m then m[s].totalAmount else 0
  }

  function SumCounts(m: map<Status, Group>): nat
  {
    CountOf(m, Pending) + CountOf(m, Processing) + CountOf(m, Shipped) + CountOf(m, Delivered) + CountOf(m, Cancelled)
  }

  function SumAmounts(m: map<Status, Group>): int
  {
    AmountOf(m, Pending) + AmountOf(m, Processing) + AmountOf(m, Shipped) + AmountOf(m, Delivered) + AmountOf(m, Cancelled)
  }

  // ---------------------------------------------------------------------------
  // What the statistics promise

  /**
   * A status has a group exactly when some order has that status, and the
   * group's count and amount are that status's order count and amount sum.
   */
  lemma {:induction false} GroupsAreExact(orders: seq<Order>, s: Status)
    ensures s in GroupByStatus(orders) <==> exists i :: 0 <= i < |orders| && orders[i].status == s
    ensures CountOf(GroupByStatus(orders), s) == CountWith(orders, s)
    ensures AmountOf(GroupByStatus(orders), s) == AmountWith(orders, s)
  {
    if orders != [] {
      var init := orders[..|orders| - 1];
      GroupsAreExact(init, s);
      if s in GroupByStatus(init) {
        var i :| 0 <= i < |init| && init[i].status == s;
        assert orders[i].status == s;
      }
      if exists i :: 0 <= i < |orders| && orders[i].status == s {
        var i :| 0 <= i < |orders| && orders[i].status == s;
        if i < |init| {
          assert init[i].status == s;
        }
      }
    }
  }

  /** The per-status counts add up to the order count and the amounts to the revenue. */
  lemma {:induction false} GroupsSumToTotals(orders: seq<Order>)
    ensures SumCounts(GroupByStatus(orders)) == |orders|
    ensures SumAmounts(GroupByStatus(orders)) == Revenue(orders)
  {
    if orders != [] {
      GroupsSumToTotals(orders[..|orders| - 1]);
      TallyAddsOne(GroupByStatus(orders[..|orders| - 1]), orders[|orders| - 1]);
    }
  }

  lemma TallyAddsOne(m: map<Status, Group>, o: Order)
    ensures SumCounts(Tally(m, o)) == SumCounts(m) + 1
    ensures SumAmounts(Tally(m, o)) == SumAmounts(m) + o.totalAmount
  {
    var t := Tally(m, o);
    forall s: Status | s != o.status
      ensures CountOf(t, s) == CountOf(m, s) && AmountOf(t, s) == AmountOf(m, s)
    {
    }
    match o.status
    case Pending =>
    case Processing =>
    case Shipped =>
    case Delivered =>
    case Cancelled =>
  }

  /** totalOrders is the collection size and totalRevenue the sum of every order's total, 0 when empty. */
  lemma StatsTotals(orders: seq<Order>)
    ensures Summarize(orders).totalOrders == |orders|
    ensures Summarize(orders).totalRevenue == Revenue(orders)
    ensures orders == [] ==> Summarize(orders).totalRevenue == 0 && Summarize(orders).byStatus == map[]
    ensures SumCounts(Summarize(orders).byStatus) == Summarize(orders).totalOrders
    ensures SumAmounts(Summarize(orders).byStatus) == Summarize(orders).totalRevenue
  {
    GroupsSumToTotals(orders);
  }

  /** Two pending orders of 10 and 20 and a cancelled one of 5. */
  lemma ThreeOrderExample(a: Order, b: Order, c: Order)
    requires a.status == Pending && a.totalAmount == 10
    requires b.status == Pending && b.totalAmount == 20
    requires c.status == Cancelled && c.totalAmount == 5
    ensures Summarize([a, b, c]) ==
      Stats(3, 35, map[Pending := Group(2, 30), Cancelled := Group(1, 5)])
  {
    assert [a, b, c][..2] == [a, b];
    assert [a, b][..1] == [a];
    assert [a][..0] == [];
    assert GroupByStatus([a]) == map[Pending := Group(1, 10)];
    assert GroupByStatus([a, b]) == map[Pending := Group(2, 30)];
    assert GroupByStatus([a, b, c]) == map[Pending := Group(2, 30), Cancelled := Group(1, 5)];
    assert Revenue([a]) == 10;
    assert Revenue([a, b]) == 30;
    assert Revenue([a, b, c]) == 35;
  }
}
