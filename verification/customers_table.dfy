/**
  The customers table of the admin console: a fixed list of five customers,
  filtered by a search term and a status button, with a style per status and
  one expandable row at a time.
 */
module CustomersTable {
  import opened Outcomes
  import opened Text
  import opened Seqs

  datatype Customer = Customer(
    id: int, name: string, email: string, phone: string,
    orders: nat, spent: string, status: string, joinDate: string)

  /** The customers the table lists. */
  const CustomersData: seq<Customer> := [
    Customer(1, "John Doe", "john@example.com", "+1 (555) 123-4567", 5, "$6,200", "VIP", "Jan 15, 2024"),
    Customer(2, "Jane Smith", "jane@example.com", "+1 (555) 234-5678", 3, "$2,897", "Regular", "Feb 20, 2024"),
    Customer(3, "Bob Wilson", "bob@example.com", "+1 (555) 345-6789", 1, "$499", "New", "Oct 30, 2024"),
    Customer(4, "Alice Johnson", "alice@example.com", "+1 (555) 456-7890", 8, "$12,450", "VIP", "Dec 10, 2023"),
    Customer(5, "Charlie Brown", "charlie@example.com", "+1 (555) 567-8901", 2, "$1,200", "Regular", "Mar 5, 2024")
  ]

  // ---------------------------------------------------------------------------
  // Filter
  // ---------------------------------------------------------------------------

  /** Name and email are searched ignoring case; the phone number is searched as typed. */
  predicate MatchesSearch(c: Customer, term: string)
  {
    Contains(Lower(c.name), Lower(term)) || Contains(Lower(c.email), Lower(term)) || Contains(c.phone, term)
  }

  /** The status buttons pass lower-case names ("vip", "regular", "new") or "all". */
  predicate MatchesStatus(c: Customer, statusFilter: string)
  {
    statusFilter == "all" || Lower(c.status) == statusFilter
  }

  predicate Shown(c: Customer, term: string, statusFilter: string)
  {
    MatchesSearch(c, term) && MatchesStatus(c, statusFilter)
  }

  function FilterCustomers(customers: seq<Customer>, term: string, statusFilter: string): (r: seq<Customer>)
  {
    Filter(customers, c => Shown(c, term, statusFilter))
  }

  /** The rows the table shows. */
  function FilteredCustomers(term: string, statusFilter: string): (r: seq<Customer>)
  {
    FilterCustomers(CustomersData, term, statusFilter)
  }

  /** The shown rows keep the list's order and hold exactly the customers that match the
      search and the status filter, each as often as in the list. */
  lemma FilterCustomersSpec(customers: seq<Customer>, term: string, statusFilter: string)
    ensures IsSubsequence(FilterCustomers(customers, term, statusFilter), customers)
    ensures forall c :: c in FilterCustomers(customers, term, statusFilter) <==>
      c in customers && MatchesSearch(c, term) && MatchesStatus(c, statusFilter)
    ensures forall c :: (multiset(FilterCustomers(customers, term, statusFilter))[c] ==
      if MatchesSearch(c, term) && MatchesStatus(c, statusFilter) then multiset(customers)[c] else 0)
  {
    FilterSpec(customers, c => Shown(c, term, statusFilter));
  }

  /** A status filter holding an upper-case letter (other than "all") matches nobody, since
      it is compared with the lower-cased status. */
  lemma UpperCaseFilterMatchesNobody(customers: seq<Customer>, term: string, statusFilter: string)
    requires statusFilter != "all" && !IsLower(statusFilter)
    ensures FilterCustomers(customers, term, statusFilter) == []
  {
    forall k | 0 <= k < |customers| ensures !Shown(customers[k], term, statusFilter) {
      LowerSpec(customers[k].status);
    }
    FilterNone(customers, c => Shown(c, term, statusFilter));
  }

  lemma EmptySearchMatches(c: Customer)
    ensures MatchesSearch(c, "")
  {
    assert OccursAt(c.phone, "", 0);
  }

  /** With an empty search and "all", the table lists all five customers in their order. */
  lemma EmptySearchShowsAll()
    ensures FilteredCustomers("", "all") == CustomersData
    ensures |FilteredCustomers("", "all")| == 5
  {
    forall k | 0 <= k < |CustomersData| ensures Shown(CustomersData[k], "", "all") {
      EmptySearchMatches(CustomersData[k]);
    }
    FilterAll(CustomersData, c => Shown(c, "", "all"));
  }

  /** With an empty search, each status button lists exactly the customers of that status. */
  lemma VipButton()
    ensures FilteredCustomers("", "vip") == [CustomersData[0], CustomersData[3]]
  {
    StatusesLowered();
    StatusButton(CustomersData, "vip");
  }

  lemma RegularButton()
    ensures FilteredCustomers("", "regular") == [CustomersData[1], CustomersData[4]]
  {
    StatusesLowered();
    StatusButton(CustomersData, "regular");
  }

  lemma NewButton()
    ensures FilteredCustomers("", "new") == [CustomersData[2]]
  {
    StatusesLowered();
    StatusButton(CustomersData, "new");
  }

  lemma StatusesLowered()
    ensures Lower(CustomersData[0].status) == "vip" && Lower(CustomersData[3].status) == "vip"
    ensures Lower(CustomersData[1].status) == "regular" && Lower(CustomersData[4].status) == "regular"
    ensures Lower(CustomersData[2].status) == "new"
  {
    assert Lower("VIP") == "vip";
    assert Lower("Regular") == "regular";
    assert Lower("New") == "new";
  }

  /** A status button over five rows with an empty search keeps the rows of that status. */
  lemma StatusButton(cs: seq<Customer>, statusFilter: string)
    requires |cs| == 5 && statusFilter != "all"
    ensures FilterCustomers(cs, "", statusFilter) ==
      Keep(cs[0], statusFilter) + Keep(cs[1], statusFilter) + Keep(cs[2], statusFilter)
      + Keep(cs[3], statusFilter) + Keep(cs[4], statusFilter)
  {
    var p := c => Shown(c, "", statusFilter);
    forall k | 0 <= k < |cs| ensures Filter(cs[k..k + 1], p) == Keep(cs[k], statusFilter) {
      EmptySearchMatches(cs[k]);
      FilterStep(cs[k..k + 1], 0, p);
      assert cs[k..k + 1][1..] == [];
    }
    assert cs == cs[0..1] + cs[1..2] + cs[2..3] + cs[3..4] + cs[4..5];
    FilterAppend(cs[0..1], cs[1..2], p);
    FilterAppend(cs[0..1] + cs[1..2], cs[2..3], p);
    FilterAppend(cs[0..1] + cs[1..2] + cs[2..3], cs[3..4], p);
    FilterAppend(cs[0..1] + cs[1..2] + cs[2..3] + cs[3..4], cs[4..5], p);
  }

  /** The row a status button keeps of one customer under an empty search. */
  function Keep(c: Customer, statusFilter: string): seq<Customer>
  {
    if Lower(c.status) == statusFilter then [c] else []
  }

  /** Whether the "no customers found" message shows. */
  predicate ShowsEmptyMessage(term: string, statusFilter: string)
  {
    |FilteredCustomers(term, statusFilter)| == 0
  }

  /** The message shows exactly when no customer matches both the search and the filter. */
  lemma EmptyMessageSpec(term: string, statusFilter: string)
    ensures ShowsEmptyMessage(term, statusFilter) <==>
      forall c :: c in CustomersData ==> !(MatchesSearch(c, term) && MatchesStatus(c, statusFilter))
  {
    FilterCustomersSpec(CustomersData, term, statusFilter);
    var r := FilteredCustomers(term, statusFilter);
    if r != [] {
      assert r[0] in r;
    }
  }

  // ---------------------------------------------------------------------------
  // Status style
  // ---------------------------------------------------------------------------

  const VipClass := "bg-purple-500/10 text-purple-600 border-purple-200"
  const RegularClass := "bg-blue-500/10 text-blue-600 border-blue-200"
  const NewClass := "bg-slate-500/10 text-slate-600 border-slate-200"

  function GetStatusColor(status: string): (r: string)
  {
    if status == "VIP" then VipClass
    else if status == "Regular" then RegularClass
    else if status == "New" then NewClass
    else NewClass
  }

  /** VIP, Regular and New get three different styles; any other status, including a
      differently cased one, gets New's style. */
  lemma StatusColorSpec(status: string)
    ensures GetStatusColor("VIP") != GetStatusColor("Regular")
    ensures GetStatusColor("VIP") != GetStatusColor("New")
    ensures GetStatusColor("Regular") != GetStatusColor("New")
    ensures status != "VIP" && status != "Regular" ==> GetStatusColor(status) == GetStatusColor("New")
  {
    assert |VipClass| == 50 && |RegularClass| == 44 && |NewClass| == 47;
  }

  // ---------------------------------------------------------------------------
  // Expanded row
  // ---------------------------------------------------------------------------

  /** The row expanded after clicking the button of customer `id`. */
  function NextExpanded(expanded: Option<int>, id: int): (r: Option<int>)
  {
    if expanded == Some(id) then None else Some(id)
  }

  /** Clicking collapses the customer's own expanded row and otherwise expands that row,
      collapsing whichever was open; clicking twice from nothing open leaves nothing open. */
  lemma NextExpandedSpec(expanded: Option<int>, id: int, other: int)
    ensures NextExpanded(expanded, id) == None <==> expanded == Some(id)
    ensures NextExpanded(expanded, id) == Some(id) <==> expanded != Some(id)
    ensures other != id ==> NextExpanded(Some(other), id) == Some(id)
    ensures NextExpanded(NextExpanded(None, id), id) == None
  {
  }

  class CustomersTableState {
    var expandedId: Option<int>

    constructor ()
      ensures expandedId == None
    {
      expandedId := None;
    }

    /** A row's expand button. */
    method ToggleExpanded(id: int)
      modifies this
      ensures expandedId == NextExpanded(old(expandedId), id)
    {
      expandedId := if expandedId == Some(id) then None else Some(id);
    }
  }
}
