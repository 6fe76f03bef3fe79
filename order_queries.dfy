/**
 * The listing queries of getMyOrders and getAllOrders:
 * `Order.find(query).sort({ createdAt: -1 }).limit(limit).skip((page - 1) * limit)`
 * with `countDocuments(query)` and `totalPages = Math.ceil(count / limit)`.
 */
module OrderQueries {
  import opened Wrappers
  import opened OrderModel

  /**
   * A query document. `owner` is the `userId` condition when present; `status`
   * is the raw query-string value, and the empty string adds no condition
   * (`if (status) query.status = status`). A status string outside the enum
   * matches nothing.
   */
  datatype Filter = Filter(owner: Option<string>, status: string)

  predicate Matches(f: Filter, o: Order)
  {
    (f.owner.None? || o.userId == f.owner.value) &&
    (f.status == "" || StatusName(o.status) == f.status)
  }

  /**
   * The documents the query matches, in store order: each matching document as
   * often as it is stored, and no other, so `|Select(orders, f)|` is the
   * `countDocuments` count.
   */
  function Select(orders: seq<Order>, f: Filter): (r: seq<Order>)
    ensures |r| <= |orders|
    ensures forall o :: o in r <==> o in orders && Matches(f, o)
    ensures forall o :: multiset(r)[o] == if Matches(f, o) then multiset(orders)[o] else 0
  {
    if orders == [] then []
    else
      assert orders == [orders[0]] + orders[1..];
      if Matches(f, orders[0]) then [orders[0]] + Select(orders[1..], f)
      else Select(orders[1..], f)
  }

  predicate NewestFirst(s: seq<Order>)
  {
    forall i, j :: 0 <= i < j < |s| ==> s[i].createdAt >= s[j].createdAt
  }

  /** Places `o` before the first element that is not newer than it, so ties keep `o` in front. */
  function InsertNewestFirst(o: Order, s: seq<Order>): (r: seq<Order>)
    requires NewestFirst(s)
    ensures NewestFirst(r)
    ensures multiset(r) == multiset(s) + multiset{o}
    ensures |r| == |s| + 1 && (r[0] == o || (s != [] && r[0] == s[0]))
  {
    if s == [] then [o]
    else if o.createdAt >= s[0].createdAt then PrependNewest(o, s); [o] + s
    else
      NewestFirstSplit(s);
      var rest := InsertNewestFirst(o, s[1..]);
      InsertBehind(s[0], s[1..], o, rest);
      [s[0]] + rest
  }

  /** The recursive case of the insertion: `o` goes behind the newer head `x`. */
  lemma InsertBehind(x: Order, tail: seq<Order>, o: Order, rest: seq<Order>)
    requires NewestFirst(rest) && multiset(rest) == multiset(tail) + multiset{o} && |rest| == |tail| + 1
    requires rest[0] == o || (tail != [] && rest[0] == tail[0])
    requires o.createdAt < x.createdAt && (tail != [] ==> tail[0].createdAt <= x.createdAt)
    ensures NewestFirst([x] + rest)
    ensures multiset([x] + rest) == multiset([x] + tail) + multiset{o}
    ensures |[x] + rest| == |[x] + tail| + 1 && ([x] + rest)[0] == x
  {
    PrependNewest(x, rest);
  }

  lemma NewestFirstSplit(s: seq<Order>)
    requires NewestFirst(s) && s != []
    ensures s == [s[0]] + s[1..] && NewestFirst(s[1..])
    ensures |s| > 1 ==> s[1].createdAt <= s[0].createdAt
  {
    var tail := s[1..];
    forall i, j | 0 <= i < j < |tail| ensures tail[i].createdAt >= tail[j].createdAt {
      assert tail[i] == s[i + 1] && tail[j] == s[j + 1];
    }
  }

  lemma PrependNewest(x: Order, s: seq<Order>)
    requires NewestFirst(s) && s != [] && s[0].createdAt <= x.createdAt
    ensures NewestFirst([x] + s)
  {
    var r := [x] + s;
    forall i, j | 0 <= i < j < |r| ensures r[i].createdAt >= r[j].createdAt {
      if i == 0 {
        assert r[j] == s[j - 1];
        assert s[0].createdAt >= s[j - 1].createdAt || j == 1;
      } else {
        assert r[i] == s[i - 1] && r[j] == s[j - 1];
      }
    }
  }

  /**
   * `sort({ createdAt: -1 })`, as a stable insertion sort: equal timestamps
   * keep store order (`SortKeepsTies`).
   */
  function SortNewestFirst(s: seq<Order>): (r: seq<Order>)
    ensures NewestFirst(r)
    ensures multiset(r) == multiset(s)
  {
    if s == [] then []
    else
      assert s == [s[0]] + s[1..];
      InsertNewestFirst(s[0], SortNewestFirst(s[1..]))
  }

  /** The orders of one timestamp, in sequence order. */
  function AtTime(s: seq<Order>, t: nat): seq<Order>
  {
    if s == [] then [] else (if s[0].createdAt == t then [s[0]] else []) + AtTime(s[1..], t)
  }

  lemma {:induction false} AtTimeAppend(a: seq<Order>, b: seq<Order>, t: nat)
    ensures AtTime(a + b, t) == AtTime(a, t) + AtTime(b, t)
  {
    if a == [] {
      assert a + b == b;
    } else {
      var c := a + b;
      assert c[0] == a[0] && c[1..] == a[1..] + b;
      AtTimeAppend(a[1..], b, t);
      var h := if a[0].createdAt == t then [a[0]] else [];
      assert AtTime(c, t) == h + (AtTime(a[1..], t) + AtTime(b, t));
      assert AtTime(a, t) == h + AtTime(a[1..], t);
    }
  }

  lemma AtTimeOne(x: Order, t: nat)
    ensures AtTime([x], t) == if x.createdAt == t then [x] else []
  {
    assert [x][1..] == [];
  }

  /** Two sequences of which one is empty commute in front of a third. */
  lemma SwapFront(a: seq<Order>, b: seq<Order>, c: seq<Order>)
    requires a == [] || b == []
    ensures b + (a + c) == a + (b + c)
  {
    if a == [] {
      assert a + c == c && a + (b + c) == b + c;
    } else {
      assert b + (a + c) == a + c && b + c == c;
    }
  }

  /** One step past an element `x` whose timestamp differs from the inserted `o`'s. */
  lemma TieStep(o: Order, x: Order, tail: seq<Order>, rest: seq<Order>, t: nat)
    requires o.createdAt != x.createdAt
    requires AtTime(rest, t) == AtTime([o] + tail, t)
    ensures AtTime([x] + rest, t) == AtTime([o] + ([x] + tail), t)
  {
    AtTimeOne(o, t);
    AtTimeOne(x, t);
    AtTimeAppend([x], rest, t);
    AtTimeAppend([o], tail, t);
    AtTimeAppend([x], tail, t);
    AtTimeAppend([o], [x] + tail, t);
    SwapFront(AtTime([o], t), AtTime([x], t), AtTime(tail, t));
  }

  /** Inserting `o` orders its ties as if it had been put in front. */
  lemma {:induction false} InsertKeepsTies(o: Order, s: seq<Order>, t: nat)
    requires NewestFirst(s)
    ensures AtTime(InsertNewestFirst(o, s), t) == AtTime([o] + s, t)
  {
    if s != [] && o.createdAt < s[0].createdAt {
      var x, tail := s[0], s[1..];
      assert s == [x] + tail;
      assert NewestFirst(tail);
      InsertKeepsTies(o, tail, t);
      TieStep(o, x, tail, InsertNewestFirst(o, tail), t);
    }
  }

  /** The sort is stable: the orders of each timestamp come out in store order. */
  lemma {:induction false} SortKeepsTies(s: seq<Order>, t: nat)
    ensures AtTime(SortNewestFirst(s), t) == AtTime(s, t)
  {
    if s != [] {
      SortKeepsTies(s[1..], t);
      InsertKeepsTies(s[0], SortNewestFirst(s[1..]), t);
      AtTimeAppend([s[0]], SortNewestFirst(s[1..]), t);
      AtTimeAppend([s[0]], s[1..], t);
      assert s == [s[0]] + s[1..];
    }
  }

  /** Two orders created at the same time are listed in store order. */
  lemma TiesKeepStoreOrder(a: Order, b: Order)
    requires a.createdAt == b.createdAt
    ensures SortNewestFirst([a, b]) == [a, b]
  {
    assert [a, b][1..] == [b];
  }

  function Skip(page: nat, limit: nat): nat
    requires page >= 1
  {
    (page - 1) * limit
  }

  /** `skip((page - 1) * limit)` then `limit(limit)`. */
  function PageOf(s: seq<Order>, page: nat, limit: nat): (r: seq<Order>)
    requires page >= 1 && limit >= 1
    ensures Skip(page, limit) >= |s| ==> r == []
    ensures Skip(page, limit) < |s| ==>
      |r| == (if Skip(page, limit) + limit <= |s| then limit else |s| - Skip(page, limit))
    ensures forall i :: 0 <= i < |r| ==> Skip(page, limit) + i < |s| && r[i] == s[Skip(page, limit) + i]
  {
    var from := Skip(page, limit);
    if from >= |s| then []
    else if from + limit <= |s| then s[from..from + limit]
    else s[from..]
  }

  /** `Math.ceil(count / limit)`: the least number of pages of `limit` that hold `count`. */
  function TotalPages(count: nat, limit: nat): (r: nat)
    requires limit >= 1
    ensures r * limit >= count
    ensures r == 0 || (r - 1) * limit < count
  {
    var q := (count + limit - 1) / limit;
    assert q * limit + (count + limit - 1) % limit == count + limit - 1;
    q
  }

  datatype Listing = Listing(orders: seq<Order>, totalPages: nat, currentPage: nat, total: nat)

  /**
   * The response fields of a listing: one page of the sorted matches, the
   * match count, its page count, and the requested page.
   */
  function List(orders: seq<Order>, f: Filter, page: nat, limit: nat): (r: Listing)
    requires page >= 1 && limit >= 1
    ensures r.total == |Select(orders, f)| && r.currentPage == page
    ensures r.totalPages == TotalPages(r.total, limit)
    ensures |r.orders| <= limit
  {
    var matching := Select(orders, f);
    var window := PageOf(SortNewestFirst(matching), page, limit);
    Listing(window, TotalPages(|matching|, limit), page, |matching|)
  }

  // ---------------------------------------------------------------------------
  // What a listing promises

  /** Every listed order is a stored order that the query matches. */
  lemma ListedOrdersMatch(orders: seq<Order>, f: Filter, page: nat, limit: nat)
    requires page >= 1 && limit >= 1
    ensures forall o :: o in List(orders, f, page, limit).orders ==> o in orders && Matches(f, o)
  {
    var matching := Select(orders, f);
    var sorted := SortNewestFirst(matching);
    var r := PageOf(sorted, page, limit);
    forall o | o in r ensures o in orders && Matches(f, o) {
      var i :| 0 <= i < |r| && r[i] == o;
      assert o == sorted[Skip(page, limit) + i];
      assert o in multiset(sorted);
    }
  }

  /** A listing is newest first. */
  lemma ListedNewestFirst(orders: seq<Order>, f: Filter, page: nat, limit: nat)
    requires page >= 1 && limit >= 1
    ensures NewestFirst(List(orders, f, page, limit).orders)
  {
    var sorted := SortNewestFirst(Select(orders, f));
    var r := PageOf(sorted, page, limit);
    forall i, j | 0 <= i < j < |r| ensures r[i].createdAt >= r[j].createdAt {
      assert r[i] == sorted[Skip(page, limit) + i] && r[j] == sorted[Skip(page, limit) + j];
    }
  }

  /**
   * `total` counts every match, and the listing is exactly the window of the
   * sorted matches that starts at `(page - 1) * limit`: `limit` orders, or what
   * is left at the end, or none past the end.
   */
  lemma ListingIsWindow(orders: seq<Order>, f: Filter, page: nat, limit: nat)
    requires page >= 1 && limit >= 1
    ensures var l := List(orders, f, page, limit);
      var all := SortNewestFirst(Select(orders, f));
      l.total == |all| &&
      l.orders == PageOf(all, page, limit) &&
      |l.orders| == (if Skip(page, limit) >= |all| then 0
                     else if Skip(page, limit) + limit <= |all| then limit
                     else |all| - Skip(page, limit)) &&
      forall i :: 0 <= i < |l.orders| ==> Skip(page, limit) + i < |all| && l.orders[i] == all[Skip(page, limit) + i]
  {
    var matching := Select(orders, f);
    var all := SortNewestFirst(matching);
    assert |all| == |multiset(all)| == |multiset(matching)| == |matching|;
  }

  /** An empty query matches the whole collection, in store order. */
  lemma {:induction false} SelectAll(orders: seq<Order>, f: Filter)
    ensures f.owner.None? && f.status == "" ==> Select(orders, f) == orders
  {
    if orders != [] && f.owner.None? && f.status == "" {
      SelectAll(orders[1..], f);
      assert orders == [orders[0]] + orders[1..];
    }
  }

  /** A page is non-empty exactly when its number is at most `totalPages`. */
  lemma PageNonEmptyIff(count: nat, page: nat, limit: nat)
    requires page >= 1 && limit >= 1
    ensures Skip(page, limit) < count <==> page <= TotalPages(count, limit)
  {
    var t := TotalPages(count, limit);
    if page <= t {
      MulMonotone(page - 1, t - 1, limit);
    } else {
      MulMonotone(t, page - 1, limit);
    }
  }

  lemma MulMonotone(a: nat, b: nat, m: nat)
    requires a <= b
    ensures a * m <= b * m
  {
  }

  /** Fifteen matches, page 2, limit 10: five orders and two pages. */
  lemma FifteenMatchesSecondPage(orders: seq<Order>, f: Filter)
    requires |Select(orders, f)| == 15
    ensures |List(orders, f, 2, 10).orders| == 5
    ensures List(orders, f, 2, 10).totalPages == 2
    ensures List(orders, f, 2, 10).total == 15
  {
    var sorted := SortNewestFirst(Select(orders, f));
    assert |sorted| == |multiset(sorted)| == 15;
  }
}
