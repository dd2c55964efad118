/**
  The dashboard's recent-orders panel: the fetched orders sorted newest first,
  the first five of them kept, and a badge style per status.
 */
module RecentOrders {
  import opened Outcomes

  /** An order as the panel shows it; `createdAt` is the order's time as a timestamp. */
  datatype RecentOrder = RecentOrder(
    id: string, itemType: string, totalAmount: int, status: string, paymentRef: string, createdAt: int)

  /** How many orders the panel shows. */
  const ShownCount := 5

  // ---------------------------------------------------------------------------
  // Sorting newest first
  // ---------------------------------------------------------------------------

  predicate SortedNewestFirst(xs: seq<RecentOrder>)
  {
    forall i, j :: 0 <= i < j < |xs| ==> xs[i].createdAt >= xs[j].createdAt
  }

  /** Places `x` after every order of `sorted` at least as new as it, so that of two orders
      with the same time the one met first stays first, as the stable `Array.prototype.sort`
      keeps them. */
  function Insert(x: RecentOrder, sorted: seq<RecentOrder>): (r: seq<RecentOrder>)
    ensures |r| == |sorted| + 1
  {
    if sorted == [] then [x]
    else if sorted[0].createdAt >= x.createdAt then [sorted[0]] + Insert(x, sorted[1..])
    else [x] + sorted
  }

  /** Insertion keeps the list sorted and adds exactly `x`. */
  lemma InsertSpec(x: RecentOrder, sorted: seq<RecentOrder>)
    requires SortedNewestFirst(sorted)
    ensures SortedNewestFirst(Insert(x, sorted))
    ensures multiset(Insert(x, sorted)) == multiset(sorted) + multiset{x}
  {
    InsertSorted(x, sorted);
    InsertMultiset(x, sorted);
  }

  lemma {:induction false} InsertMultiset(x: RecentOrder, sorted: seq<RecentOrder>)
    ensures multiset(Insert(x, sorted)) == multiset(sorted) + multiset{x}
  {
    if sorted != [] {
      assert sorted == [sorted[0]] + sorted[1..];
      if sorted[0].createdAt >= x.createdAt {
        InsertMultiset(x, sorted[1..]);
      }
    }
  }

  lemma {:induction false} InsertSorted(x: RecentOrder, sorted: seq<RecentOrder>)
    requires SortedNewestFirst(sorted)
    ensures SortedNewestFirst(Insert(x, sorted))
    ensures Insert(x, sorted)[0] == x || (sorted != [] && Insert(x, sorted)[0] == sorted[0])
  {
    if sorted != [] && sorted[0].createdAt >= x.createdAt {
      var h := sorted[0];
      var rest := Insert(x, sorted[1..]);
      var r := Insert(x, sorted);
      InsertSorted(x, sorted[1..]);
      assert r == [h] + rest;
      assert h.createdAt >= rest[0].createdAt;
      forall i, j | 0 <= i < j < |r| ensures r[i].createdAt >= r[j].createdAt {
        assert r[j] == rest[j - 1];
        if i > 0 {
          assert r[i] == rest[i - 1];
        }
      }
    }
  }

  /** `orders.sort((a, b) => b.createdAt - a.createdAt)`, as a stable insertion sort. */
  function SortNewestFirst(xs: seq<RecentOrder>): (r: seq<RecentOrder>)
    ensures |r| == |xs|
  {
    if xs == [] then [] else Insert(xs[|xs| - 1], SortNewestFirst(xs[..|xs| - 1]))
  }

  /** The sorted list is newest first and holds the same orders. */
  lemma SortNewestFirstSpec(xs: seq<RecentOrder>)
    ensures SortedNewestFirst(SortNewestFirst(xs))
    ensures multiset(SortNewestFirst(xs)) == multiset(xs)
  {
    SortSorted(xs);
    SortMultiset(xs);
  }

  lemma {:induction false} SortSorted(xs: seq<RecentOrder>)
    ensures SortedNewestFirst(SortNewestFirst(xs))
  {
    if xs != [] {
      SortSorted(xs[..|xs| - 1]);
      InsertSorted(xs[|xs| - 1], SortNewestFirst(xs[..|xs| - 1]));
    }
  }

  lemma {:induction false} SortMultiset(xs: seq<RecentOrder>)
    ensures multiset(SortNewestFirst(xs)) == multiset(xs)
  {
    if xs != [] {
      var init := xs[..|xs| - 1];
      SortMultiset(init);
      InsertMultiset(xs[|xs| - 1], SortNewestFirst(init));
      assert xs == init + [xs[|xs| - 1]];
    }
  }

  /** An order no newer than any in the list goes at the end. */
  lemma {:induction false} InsertOldest(x: RecentOrder, sorted: seq<RecentOrder>)
    requires forall k :: 0 <= k < |sorted| ==> sorted[k].createdAt >= x.createdAt
    ensures Insert(x, sorted) == sorted + [x]
  {
    if sorted != [] {
      InsertOldest(x, sorted[1..]);
      assert sorted == [sorted[0]] + sorted[1..];
    }
  }

  /** The sort is stable in the sense that it leaves a list already newest first untouched,
      ties included. */
  lemma {:induction false} SortKeepsSorted(xs: seq<RecentOrder>)
    requires SortedNewestFirst(xs)
    ensures SortNewestFirst(xs) == xs
  {
    if xs != [] {
      var init := xs[..|xs| - 1];
      assert SortedNewestFirst(init);
      SortKeepsSorted(init);
      InsertOldest(xs[|xs| - 1], init);
      assert xs == init + [xs[|xs| - 1]];
    }
  }

  // ---------------------------------------------------------------------------
  // The five newest
  // ---------------------------------------------------------------------------

  function Min(a: int, b: int): int
  {
    if a <= b then a else b
  }

  /** `latest.slice(0, 5)` */
  function Latest(xs: seq<RecentOrder>): (r: seq<RecentOrder>)
  {
    SortNewestFirst(xs)[..Min(ShownCount, |xs|)]
  }

  /** The orders the panel leaves out. */
  function Omitted(xs: seq<RecentOrder>): (r: seq<RecentOrder>)
  {
    SortNewestFirst(xs)[Min(ShownCount, |xs|)..]
  }

  /** The panel shows min(5, n) orders, newest first, all taken from the fetched list, none
      older than any order left out, and together with the omitted ones they are exactly the
      fetched orders. */
  lemma LatestSpec(xs: seq<RecentOrder>)
    ensures |Latest(xs)| == Min(ShownCount, |xs|)
    ensures SortedNewestFirst(Latest(xs))
    ensures multiset(Latest(xs)) <= multiset(xs)
    ensures forall o :: o in Latest(xs) ==> o in xs
    ensures forall i, j :: 0 <= i < |Latest(xs)| && 0 <= j < |Omitted(xs)| ==>
      Latest(xs)[i].createdAt >= Omitted(xs)[j].createdAt
    ensures multiset(Latest(xs)) + multiset(Omitted(xs)) == multiset(xs)
  {
    SortNewestFirstSpec(xs);
    LatestOrder(xs);
    LatestParts(xs);
  }

  /** The shown orders are newest first and none is older than an omitted one. */
  lemma LatestOrder(xs: seq<RecentOrder>)
    requires SortedNewestFirst(SortNewestFirst(xs))
    ensures SortedNewestFirst(Latest(xs))
    ensures forall i, j :: 0 <= i < |Latest(xs)| && 0 <= j < |Omitted(xs)| ==>
      Latest(xs)[i].createdAt >= Omitted(xs)[j].createdAt
  {
    var s := SortNewestFirst(xs);
    var n := Min(ShownCount, |xs|);
    forall i, j | 0 <= i < |Latest(xs)| && 0 <= j < |Omitted(xs)|
      ensures Latest(xs)[i].createdAt >= Omitted(xs)[j].createdAt
    {
      assert Latest(xs)[i] == s[i] && Omitted(xs)[j] == s[n + j];
    }
  }

  /** The shown and the omitted orders split the fetched ones. */
  lemma LatestParts(xs: seq<RecentOrder>)
    requires multiset(SortNewestFirst(xs)) == multiset(xs)
    ensures multiset(Latest(xs)) + multiset(Omitted(xs)) == multiset(xs)
    ensures multiset(Latest(xs)) <= multiset(xs)
    ensures forall o :: o in Latest(xs) ==> o in xs
  {
    var s := SortNewestFirst(xs);
    var n := Min(ShownCount, |xs|);
    assert s == s[..n] + s[n..];
    forall o | o in Latest(xs) ensures o in xs {
      assert o in multiset(Latest(xs));
      assert o in multiset(xs);
    }
  }

  // ---------------------------------------------------------------------------
  // Status badge
  // ---------------------------------------------------------------------------

  const PaidClass := "bg-green-100 text-green-800 dark:bg-green-900 dark:text-green-200"
  const PendingClass := "bg-yellow-100 text-yellow-800 dark:bg-yellow-900 dark:text-yellow-200"
  const ShippedClass := "bg-blue-100 text-blue-800 dark:bg-blue-900 dark:text-blue-200"
  const DeliveredClass := "bg-green-200 text-green-900 dark:bg-green-800 dark:text-green-100"
  const FallbackClass := "bg-gray-100 text-gray-800"

  /** The badge style table. */
  const StatusColors: map<string, string> :=
    map["paid" := PaidClass, "pending" := PendingClass, "shipped" := ShippedClass, "delivered" := DeliveredClass]

  /** `statusColors[status] || "bg-gray-100 text-gray-800"` */
  function StatusBadgeClass(status: string): (r: string)
  {
    if status in StatusColors then StatusColors[status] else FallbackClass
  }

  /** The four known statuses get their own style, which is never the fallback; every other
      status gets the gray fallback. */
  lemma StatusBadgeSpec(status: string)
    ensures status in StatusColors ==> StatusBadgeClass(status) != FallbackClass
    ensures status !in StatusColors ==> StatusBadgeClass(status) == FallbackClass
    ensures StatusBadgeClass("paid") == PaidClass && StatusBadgeClass("delivered") == DeliveredClass
    ensures StatusBadgeClass("pending") == PendingClass && StatusBadgeClass("shipped") == ShippedClass
  {
    assert |FallbackClass| == 25;
    assert |PaidClass| == 65 && |DeliveredClass| == 65 && |PendingClass| == 69 && |ShippedClass| == 61;
  }

  // ---------------------------------------------------------------------------
  // The panel's state
  // ---------------------------------------------------------------------------

  class RecentOrdersPanel {
    var orders: seq<RecentOrder>
    var loading: bool

    constructor ()
      ensures orders == [] && loading
    {
      orders, loading := [], true;
    }

    /** The fetch on mount: on success the five newest orders are kept; on failure the list
        stays as it was (empty on the first load); loading ends either way. */
    method FetchOrders(response: Result<seq<RecentOrder>, string>)
      modifies this
      ensures orders == if response.Success? then Latest(response.value) else old(orders)
      ensures !loading
    {
      if response.Success? {
        orders := Latest(response.value);
      }
      loading := false;
    }
  }
}
