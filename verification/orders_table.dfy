/**
  The orders table of the admin console: the search and status filter over the
  fetched orders, the local updates that follow a successful status change,
  tracking change or delete, and the per-order pending tracking inputs.
 */
module OrdersTable {
  import opened Outcomes
  import opened Text
  import opened Seqs

  /** One line of an order. A missing name field and an empty one are both the empty
      string here: the table only reads them through `||`, which skips both. */
  datatype Item = Item(name: string, title: string, productName: string)

  /** Tracking details; each part may be missing (the table reads them through `??`). */
  datatype Tracking = Tracking(status: Option<string>, code: Option<string>)

  /** An order as the table uses it. A missing `items` or `itemNames` list is the empty list. */
  datatype Order = Order(
    id: string, paymentRef: string, status: string,
    items: seq<Item>, itemNames: seq<string>, tracking: Option<Tracking>)

  // ---------------------------------------------------------------------------
  // Search and status filter
  // ---------------------------------------------------------------------------

  /** An item's label: its name, else its title, else its product name. */
  function ItemLabel(it: Item): string
  {
    if it.name != "" then it.name else if it.title != "" then it.title else it.productName
  }

  /** The text searched for item names: the item labels joined by spaces, or, for an order
      without items, its `itemNames` joined by spaces. */
  function ItemsText(o: Order): string
  {
    if |o.items| > 0 then Join(seq(|o.items|, i requires 0 <= i < |o.items| => ItemLabel(o.items[i])), ' ')
    else Join(o.itemNames, ' ')
  }

  predicate MatchesSearch(o: Order, term: string)
  {
    Contains(Lower(ItemsText(o)), Lower(term)) || Contains(Lower(o.paymentRef), Lower(term))
  }

  /** The "completed" filter button stands for the stored status "delivered". */
  function NormalizeFilter(statusFilter: string): string
  {
    if statusFilter == "completed" then "delivered" else statusFilter
  }

  predicate MatchesStatus(o: Order, statusFilter: string)
  {
    NormalizeFilter(statusFilter) == "all" || o.status == NormalizeFilter(statusFilter)
  }

  predicate Shown(o: Order, term: string, statusFilter: string)
  {
    MatchesSearch(o, term) && MatchesStatus(o, statusFilter)
  }

  /** The rows the table shows. */
  function FilteredOrders(orders: seq<Order>, term: string, statusFilter: string): (r: seq<Order>)
  {
    Filter(orders, o => Shown(o, term, statusFilter))
  }

  /** The shown rows are an order-preserving sub-list of the orders, holding exactly those
      that match the search and the status filter, each as often as in the orders. */
  lemma FilteredOrdersSpec(orders: seq<Order>, term: string, statusFilter: string)
    ensures IsSubsequence(FilteredOrders(orders, term, statusFilter), orders)
    ensures forall o :: o in FilteredOrders(orders, term, statusFilter) <==>
      o in orders && MatchesSearch(o, term) && MatchesStatus(o, statusFilter)
    ensures forall o :: (multiset(FilteredOrders(orders, term, statusFilter))[o] ==
      if MatchesSearch(o, term) && MatchesStatus(o, statusFilter) then multiset(orders)[o] else 0)
  {
    FilterSpec(orders, o => Shown(o, term, statusFilter));
  }

  /** "all" filters on the search alone; "completed" shows exactly what "delivered" shows;
      any other filter shows only orders whose status is that filter. */
  lemma StatusFilterSpec(orders: seq<Order>, term: string, statusFilter: string)
    ensures FilteredOrders(orders, term, "all") == Filter(orders, o => MatchesSearch(o, term))
    ensures FilteredOrders(orders, term, "completed") == FilteredOrders(orders, term, "delivered")
    ensures statusFilter != "all" && statusFilter != "completed" ==>
      forall o :: o in FilteredOrders(orders, term, statusFilter) ==> o.status == statusFilter
  {
    FilterCongruent(orders, o => Shown(o, term, "all"), o => MatchesSearch(o, term));
    FilterCongruent(orders, o => Shown(o, term, "completed"), o => Shown(o, term, "delivered"));
    FilteredOrdersSpec(orders, term, statusFilter);
  }

  /** The search ignores the case of the search term. */
  lemma SearchIgnoresCase(orders: seq<Order>, term: string, statusFilter: string)
    ensures FilteredOrders(orders, term, statusFilter) == FilteredOrders(orders, Lower(term), statusFilter)
  {
    LowerIdempotent(term);
    FilterCongruent(orders, o => Shown(o, term, statusFilter), o => Shown(o, Lower(term), statusFilter));
  }

  /** An empty search with the "all" filter shows every order. */
  lemma EmptySearchShowsAll(orders: seq<Order>)
    ensures FilteredOrders(orders, "", "all") == orders
  {
    forall k | 0 <= k < |orders| ensures Shown(orders[k], "", "all") {
      assert OccursAt(Lower(orders[k].paymentRef), "", 0);
    }
    FilterAll(orders, o => Shown(o, "", "all"));
  }

  // ---------------------------------------------------------------------------
  // Local updates after a successful request
  // ---------------------------------------------------------------------------

  function Ids(orders: seq<Order>): seq<string>
  {
    seq(|orders|, i requires 0 <= i < |orders| => orders[i].id)
  }

  /** `orders.map(o => o._id === id ? { ...o, status } : o)` */
  function SetStatus(orders: seq<Order>, id: string, status: string): (r: seq<Order>)
  {
    seq(|orders|, i requires 0 <= i < |orders| => if orders[i].id == id then orders[i].(status := status) else orders[i])
  }

  /** `orders.map(o => o._id === id ? { ...o, tracking } : o)` */
  function SetTracking(orders: seq<Order>, id: string, tracking: Tracking): (r: seq<Order>)
  {
    seq(|orders|, i requires 0 <= i < |orders| => if orders[i].id == id then orders[i].(tracking := Some(tracking)) else orders[i])
  }

  /** `orders.filter(o => o._id !== id)` */
  function RemoveOrders(orders: seq<Order>, id: string): (r: seq<Order>)
  {
    Filter(orders, (o: Order) => o.id != id)
  }

  /** A status update keeps the length and the ids; exactly the orders with that id get the
      new status and nothing else about them changes; every other order is untouched;
      repeating it changes nothing more. */
  lemma SetStatusSpec(orders: seq<Order>, id: string, status: string)
    ensures |SetStatus(orders, id, status)| == |orders|
    ensures Ids(SetStatus(orders, id, status)) == Ids(orders)
    ensures forall i :: 0 <= i < |orders| && orders[i].id == id ==>
      SetStatus(orders, id, status)[i].status == status
      && SetStatus(orders, id, status)[i].(status := orders[i].status) == orders[i]
    ensures forall i :: 0 <= i < |orders| && orders[i].id != id ==> SetStatus(orders, id, status)[i] == orders[i]
    ensures SetStatus(SetStatus(orders, id, status), id, status) == SetStatus(orders, id, status)
  {
  }

  /** A tracking update keeps the length and the ids, replaces only the matching orders'
      tracking and leaves every other order untouched. */
  lemma SetTrackingSpec(orders: seq<Order>, id: string, tracking: Tracking)
    ensures |SetTracking(orders, id, tracking)| == |orders|
    ensures Ids(SetTracking(orders, id, tracking)) == Ids(orders)
    ensures forall i :: 0 <= i < |orders| && orders[i].id == id ==>
      SetTracking(orders, id, tracking)[i] == orders[i].(tracking := Some(tracking))
    ensures forall i :: 0 <= i < |orders| && orders[i].id != id ==> SetTracking(orders, id, tracking)[i] == orders[i]
  {
  }

  /** A delete removes every order with that id and keeps the others, in order and as often
      as they occur. */
  lemma RemoveOrdersSpec(orders: seq<Order>, id: string)
    ensures IsSubsequence(RemoveOrders(orders, id), orders)
    ensures forall o :: o in RemoveOrders(orders, id) <==> o in orders && o.id != id
    ensures forall o: Order :: o.id != id ==> multiset(RemoveOrders(orders, id))[o] == multiset(orders)[o]
    ensures (forall o :: o in orders ==> o.id != id) ==> RemoveOrders(orders, id) == orders
  {
    FilterSpec(orders, (o: Order) => o.id != id);
    if forall o :: o in orders ==> o.id != id {
      FilterAll(orders, (o: Order) => o.id != id);
    }
  }

  // ---------------------------------------------------------------------------
  // Pending tracking inputs
  // ---------------------------------------------------------------------------

  /** `a ?? b` */
  function OrElse(a: Option<string>, b: Option<string>): Option<string>
  {
    if a.Some? then a else b
  }

  /** `prev[id] || {}` */
  function PendingFor(inputs: map<string, Tracking>, id: string): Tracking
  {
    if id in inputs then inputs[id] else Tracking(None, None)
  }

  /** The status dropdown of one row changed. */
  function WithPendingStatus(inputs: map<string, Tracking>, id: string, v: string): (r: map<string, Tracking>)
  {
    inputs[id := PendingFor(inputs, id).(status := Some(v))]
  }

  /** The tracking code box of one row changed. */
  function WithPendingCode(inputs: map<string, Tracking>, id: string, v: string): (r: map<string, Tracking>)
  {
    inputs[id := PendingFor(inputs, id).(code := Some(v))]
  }

  /** Editing one pending field of one order sets that field, keeps the order's other
      pending field, and leaves every other order's entry as it was. */
  lemma PendingEditSpec(inputs: map<string, Tracking>, id: string, v: string)
    ensures PendingFor(WithPendingStatus(inputs, id, v), id) == Tracking(Some(v), PendingFor(inputs, id).code)
    ensures PendingFor(WithPendingCode(inputs, id, v), id) == Tracking(PendingFor(inputs, id).status, Some(v))
    ensures forall k :: k != id ==>
      (k in WithPendingStatus(inputs, id, v) <==> k in inputs) && (k in WithPendingCode(inputs, id, v) <==> k in inputs)
    ensures forall k :: k != id && k in inputs ==>
      WithPendingStatus(inputs, id, v)[k] == inputs[k] && WithPendingCode(inputs, id, v)[k] == inputs[k]
  {
  }

  function StoredTracking(o: Order): Tracking
  {
    match o.tracking
    case Some(t) => t
    case None => Tracking(None, None)
  }

  /** The tracking the row's "Update" button sends: each part from the pending input when
      there is one, otherwise from the order's stored tracking. */
  function TrackingToSend(inputs: map<string, Tracking>, o: Order): (t: Tracking)
  {
    Tracking(OrElse(PendingFor(inputs, o.id).status, StoredTracking(o).status),
             OrElse(PendingFor(inputs, o.id).code, StoredTracking(o).code))
  }

  /** With no pending input the stored tracking is sent back as it is; after editing the
      status to `v` the status sent is `v` and the code sent is what it was before. */
  lemma TrackingToSendSpec(inputs: map<string, Tracking>, o: Order, v: string)
    ensures o.id !in inputs ==> TrackingToSend(inputs, o) == StoredTracking(o)
    ensures TrackingToSend(WithPendingStatus(inputs, o.id, v), o).status == Some(v)
    ensures TrackingToSend(WithPendingStatus(inputs, o.id, v), o).code == TrackingToSend(inputs, o).code
    ensures TrackingToSend(WithPendingCode(inputs, o.id, v), o).code == Some(v)
    ensures TrackingToSend(WithPendingCode(inputs, o.id, v), o).status == TrackingToSend(inputs, o).status
  {
  }

  // ---------------------------------------------------------------------------
  // The table's state
  // ---------------------------------------------------------------------------

  class OrdersTableState {
    var orders: seq<Order>
    var trackingInputs: map<string, Tracking>
    var searchTerm: string
    var statusFilter: string
    var loading: bool

    constructor ()
      ensures orders == [] && trackingInputs == map[] && searchTerm == "" && statusFilter == "all" && !loading
    {
      orders, trackingInputs := [], map[];
      searchTerm, statusFilter := "", "all";
      loading := false;
    }

    /** The rows currently shown. */
    function Visible(): (r: seq<Order>)
      reads this
    {
      FilteredOrders(orders, searchTerm, statusFilter)
    }

    /** Loading the orders: the fetched list replaces the old one; a failed request keeps it. */
    method FetchOrders(response: Result<seq<Order>, string>)
      modifies this`orders, this`loading
      ensures orders == if response.Success? then response.value else old(orders)
      ensures !loading
    {
      loading := true;
      if response.Success? {
        orders := response.value;
      }
      loading := false;
    }

    /** Changing an order's status: on success exactly the orders with that id get the new
        status; on failure the list is untouched. */
    method UpdateOrderStatus(id: string, status: string, reply: Reply)
      modifies this`orders
      ensures orders == if reply.Ok? then SetStatus(old(orders), id, status) else old(orders)
      ensures |orders| == |old(orders)| && Ids(orders) == Ids(old(orders))
    {
      if reply.Ok? {
        SetStatusSpec(orders, id, status);
        orders := SetStatus(orders, id, status);
      }
    }

    /** Changing an order's tracking: on success only the matching orders' tracking is
        replaced; on failure the list is untouched. */
    method UpdateTracking(id: string, tracking: Tracking, reply: Reply)
      modifies this`orders
      ensures orders == if reply.Ok? then SetTracking(old(orders), id, tracking) else old(orders)
      ensures |orders| == |old(orders)| && Ids(orders) == Ids(old(orders))
    {
      if reply.Ok? {
        SetTrackingSpec(orders, id, tracking);
        orders := SetTracking(orders, id, tracking);
      }
    }

    /** A row's "Update" button: sends the merged pending and stored tracking. */
    method SaveTracking(o: Order, reply: Reply)
      modifies this`orders
      ensures orders == if reply.Ok? then SetTracking(old(orders), o.id, TrackingToSend(trackingInputs, o)) else old(orders)
    {
      UpdateTracking(o.id, TrackingToSend(trackingInputs, o), reply);
    }

    /** Deleting an order: only when the operator confirms and the request succeeds is every
        order with that id removed. */
    method DeleteOrder(id: string, confirmed: bool, reply: Reply)
      modifies this`orders
      ensures orders == if confirmed && reply.Ok? then RemoveOrders(old(orders), id) else old(orders)
    {
      if !confirmed {
        return;
      }
      if reply.Ok? {
        orders := RemoveOrders(orders, id);
      }
    }

    /** The status dropdown of a row. */
    method EditPendingStatus(id: string, v: string)
      modifies this`trackingInputs
      ensures trackingInputs == WithPendingStatus(old(trackingInputs), id, v)
    {
      trackingInputs := WithPendingStatus(trackingInputs, id, v);
    }

    /** The tracking code box of a row. */
    method EditPendingCode(id: string, v: string)
      modifies this`trackingInputs
      ensures trackingInputs == WithPendingCode(old(trackingInputs), id, v)
    {
      trackingInputs := WithPendingCode(trackingInputs, id, v);
    }
  }
}
