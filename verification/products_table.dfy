/**
  The products table of the admin console: the title and category filter, the
  selection of product ids (one at a time or all shown), the stock flip, delete,
  and the edit dialog's load and save.
 */
module ProductsTable {
  import opened Outcomes
  import opened Text
  import opened Seqs

  /** A catalogue product. A missing `inStock` reads as false, which is how `!product.inStock`
      and the stock badge treat it. The price is kept as the opaque text it is edited as. */
  datatype Product = Product(id: string, title: string, category: string, price: string, inStock: bool)

  /** The product being edited. A missing `_id` is the empty string: `!editData._id` treats
      both alike. */
  datatype EditData = EditData(id: string, title: string, category: string, price: string)

  // ---------------------------------------------------------------------------
  // Filter
  // ---------------------------------------------------------------------------

  predicate Shown(p: Product, term: string, categoryFilter: string)
  {
    Contains(Lower(p.title), Lower(term)) && (categoryFilter == "all" || p.category == categoryFilter)
  }

  /** The rows the table shows. */
  function FilteredProducts(products: seq<Product>, term: string, categoryFilter: string): (r: seq<Product>)
  {
    Filter(products, p => Shown(p, term, categoryFilter))
  }

  /** The shown rows keep the catalogue's order and hold exactly the products whose title
      contains the term, ignoring case, and whose category passes the filter, each as often as
      in the catalogue; an empty term with "all" shows the whole catalogue. */
  lemma FilteredProductsSpec(products: seq<Product>, term: string, categoryFilter: string)
    ensures IsSubsequence(FilteredProducts(products, term, categoryFilter), products)
    ensures forall p :: p in FilteredProducts(products, term, categoryFilter) <==>
      p in products && Contains(Lower(p.title), Lower(term)) && (categoryFilter == "all" || p.category == categoryFilter)
    ensures forall p :: (multiset(FilteredProducts(products, term, categoryFilter))[p] ==
      if Contains(Lower(p.title), Lower(term)) && (categoryFilter == "all" || p.category == categoryFilter)
      then multiset(products)[p] else 0)
    ensures FilteredProducts(products, term, categoryFilter) == FilteredProducts(products, Lower(term), categoryFilter)
    ensures FilteredProducts(products, "", "all") == products
  {
    FilterSpec(products, p => Shown(p, term, categoryFilter));
    SearchIgnoresCase(products, term, categoryFilter);
    EmptySearchShowsAll(products);
  }

  /** The term is compared lower-cased, so its case does not matter. */
  lemma SearchIgnoresCase(products: seq<Product>, term: string, categoryFilter: string)
    ensures FilteredProducts(products, term, categoryFilter) == FilteredProducts(products, Lower(term), categoryFilter)
  {
    LowerIdempotent(term);
    FilterCongruent(products, p => Shown(p, term, categoryFilter), p => Shown(p, Lower(term), categoryFilter));
  }

  /** Every title contains the empty term, and "all" passes every category. */
  lemma EmptySearchShowsAll(products: seq<Product>)
    ensures FilteredProducts(products, "", "all") == products
  {
    forall k | 0 <= k < |products| ensures Shown(products[k], "", "all") {
      assert OccursAt(Lower(products[k].title), "", 0);
    }
    FilterAll(products, p => Shown(p, "", "all"));
  }

  // ---------------------------------------------------------------------------
  // Selection
  // ---------------------------------------------------------------------------

  function ProductIds(products: seq<Product>): (r: seq<string>)
  {
    seq(|products|, i requires 0 <= i < |products| => products[i].id)
  }

  /** One row's checkbox: an id already selected is removed, any other is appended. */
  function ToggleId(selected: seq<string>, id: string): (r: seq<string>)
  {
    if id in selected then RemoveAll(selected, id) else selected + [id]
  }

  /** A toggle flips the id's membership and no other; it never creates a duplicate;
      toggling twice gives back the same members, and exactly the same list when the id was
      not selected. */
  lemma ToggleIdSpec(selected: seq<string>, id: string)
    ensures id in ToggleId(selected, id) <==> id !in selected
    ensures forall x :: x != id ==> (x in ToggleId(selected, id) <==> x in selected)
    ensures NoDup(selected) ==> NoDup(ToggleId(selected, id))
    ensures forall x :: x in ToggleId(ToggleId(selected, id), id) <==> x in selected
    ensures id !in selected ==> ToggleId(ToggleId(selected, id), id) == selected
  {
    if id in selected {
      RemoveAllSpec(selected, id);
      var once := RemoveAll(selected, id);
      assert ToggleId(selected, id) == once;
      assert ToggleId(once, id) == once + [id];
    } else {
      var once := selected + [id];
      assert ToggleId(selected, id) == once;
      if NoDup(selected) {
        forall i, j | 0 <= i < j < |once| ensures once[i] != once[j] {
          if j == |selected| {
            assert once[i] == selected[i];
          }
        }
      }
      RemoveAllAppend(selected, [id], id);
      RemoveAllSpec(selected, id);
      RemoveAllSpec([id], id);
      assert ToggleId(once, id) == RemoveAll(once, id);
    }
  }

  /** The header checkbox: the selection clears when its length equals the number of shown
      rows, and otherwise becomes the shown rows' ids in order. */
  function SelectAllResult(selected: seq<string>, shown: seq<Product>): (r: seq<string>)
  {
    if |selected| == |shown| then [] else ProductIds(shown)
  }

  /** The header checkbox is ticked when some row is shown and the selection has as many ids
      as there are shown rows. */
  predicate SelectAllChecked(selected: seq<string>, shown: seq<Product>)
  {
    |shown| > 0 && |selected| == |shown|
  }

  /** Clicking the header checkbox ticks it exactly when it was unticked with some row shown,
      and then selects every shown id; clicking it when ticked clears the selection. Only
      lengths are compared, so the outcome does not depend on which ids were selected. */
  lemma SelectAllSpec(selected: seq<string>, other: seq<string>, shown: seq<Product>)
    ensures SelectAllChecked(SelectAllResult(selected, shown), shown) <==>
      !SelectAllChecked(selected, shown) && |shown| > 0
    ensures SelectAllChecked(selected, shown) ==> SelectAllResult(selected, shown) == []
    ensures !SelectAllChecked(selected, shown) && |shown| > 0 ==>
      forall p :: p in shown ==> p.id in SelectAllResult(selected, shown)
    ensures |other| == |selected| ==> SelectAllResult(other, shown) == SelectAllResult(selected, shown)
  {
    if !SelectAllChecked(selected, shown) && |shown| > 0 {
      forall p | p in shown ensures p.id in SelectAllResult(selected, shown) {
        var i :| 0 <= i < |shown| && shown[i] == p;
        assert ProductIds(shown)[i] == p.id;
      }
    }
  }

  // ---------------------------------------------------------------------------
  // Stock flip and delete
  // ---------------------------------------------------------------------------

  /** `products.find(p => p._id === id)` */
  function FirstWithId(products: seq<Product>, id: string): (r: Option<Product>)
    ensures r.Some? ==> r.value in products && r.value.id == id
    ensures r.None? <==> forall p :: p in products ==> p.id != id
    ensures r.Some? ==> exists i :: (0 <= i < |products| && products[i] == r.value
      && forall j :: 0 <= j < i ==> products[j].id != id)
  {
    if products == [] then None
    else if products[0].id == id then Some(products[0])
    else
      var r := FirstWithId(products[1..], id);
      assert forall p :: p in products ==> p == products[0] || p in products[1..];
      if r.Some? then
        var i :| 0 <= i < |products[1..]| && products[1..][i] == r.value
          && forall j :: 0 <= j < i ==> products[1..][j].id != id;
        assert products[i + 1] == r.value;
        r
      else r
  }

  /** `products.map(p => p._id === id ? { ...p, inStock } : p)` */
  function SetStock(products: seq<Product>, id: string, inStock: bool): (r: seq<Product>)
  {
    seq(|products|, i requires 0 <= i < |products| => if products[i].id == id then products[i].(inStock := inStock) else products[i])
  }

  /** The local effect of a successful stock toggle: the stock taken from the first product
      with that id, negated, and written to every product with that id. */
  function StockToggled(products: seq<Product>, id: string): (r: seq<Product>)
  {
    match FirstWithId(products, id)
    case None => products
    case Some(p) => SetStock(products, id, !p.inStock)
  }

  /** The stock flip keeps the length and the ids; an unknown id changes nothing; when ids
      are unique only the product with that id changes, and only its stock, which it negates;
      flipping twice gives the catalogue back. */
  lemma StockToggledSpec(products: seq<Product>, id: string)
    ensures |StockToggled(products, id)| == |products|
    ensures ProductIds(StockToggled(products, id)) == ProductIds(products)
    ensures (forall p :: p in products ==> p.id != id) ==> StockToggled(products, id) == products
    ensures forall i :: 0 <= i < |products| && products[i].id != id ==> StockToggled(products, id)[i] == products[i]
    ensures NoDup(ProductIds(products)) ==>
      forall i :: 0 <= i < |products| && products[i].id == id ==>
        StockToggled(products, id)[i] == products[i].(inStock := !products[i].inStock)
    ensures NoDup(ProductIds(products)) ==> StockToggled(StockToggled(products, id), id) == products
  {
    if NoDup(ProductIds(products)) {
      StockToggledUnique(products, id);
    }
  }

  /** With unique ids, the product with that id is the one found, so its stock is negated
      and a second flip reads the negated stock back. */
  lemma StockToggledUnique(products: seq<Product>, id: string)
    requires NoDup(ProductIds(products))
    ensures forall i :: 0 <= i < |products| && products[i].id == id ==>
      StockToggled(products, id)[i] == products[i].(inStock := !products[i].inStock)
    ensures StockToggled(StockToggled(products, id), id) == products
  {
    match FirstWithId(products, id)
    case None =>
    case Some(p) =>
      var once := SetStock(products, id, !p.inStock);
      var i :| 0 <= i < |products| && products[i] == p;
      OnlyIndexWithId(products, id, i);
      assert once[i] in once;
      var q := FirstWithId(once, id).value;
      var k :| 0 <= k < |once| && once[k] == q;
      assert ProductIds(once)[k] == id;
      assert k == i;
      assert SetStock(once, id, !q.inStock) == products;
  }

  lemma OnlyIndexWithId(products: seq<Product>, id: string, i: int)
    requires NoDup(ProductIds(products))
    requires 0 <= i < |products| && products[i].id == id
    ensures forall j :: 0 <= j < |products| && products[j].id == id ==> j == i
  {
    var ids := ProductIds(products);
    forall j | 0 <= j < |products| && products[j].id == id
      ensures j == i
    {
      assert ids[j] == ids[i];
    }
  }

  /** `products.filter(p => p._id !== id)` */
  function RemoveProducts(products: seq<Product>, id: string): (r: seq<Product>)
  {
    Filter(products, (p: Product) => p.id != id)
  }

  /** A delete removes every product with that id and keeps the others, in order and as often
      as they occur. */
  lemma RemoveProductsSpec(products: seq<Product>, id: string)
    ensures IsSubsequence(RemoveProducts(products, id), products)
    ensures forall p :: p in RemoveProducts(products, id) <==> p in products && p.id != id
    ensures forall p: Product :: p.id != id ==> multiset(RemoveProducts(products, id))[p] == multiset(products)[p]
    ensures (forall p :: p in products ==> p.id != id) ==> RemoveProducts(products, id) == products
  {
    FilterSpec(products, (p: Product) => p.id != id);
    if forall p :: p in products ==> p.id != id {
      FilterAll(products, (p: Product) => p.id != id);
    }
  }

  // ---------------------------------------------------------------------------
  // The table's state
  // ---------------------------------------------------------------------------

  class ProductsTableState {
    var products: seq<Product>
    var selected: seq<string>
    var loading: bool
    var editOpen: bool
    var editData: EditData
    /** The edit dialog's image preview; the empty string when there is none. */
    var imagePreview: string

    constructor ()
      ensures products == [] && selected == [] && loading && !editOpen
      ensures editData == EditData("", "", "", "") && imagePreview == ""
    {
      products, selected := [], [];
      loading, editOpen := true, false;
      editData, imagePreview := EditData("", "", "", ""), "";
    }

    /** The rows shown for the search term and category filter the page passes in. */
    function Visible(term: string, categoryFilter: string): (r: seq<Product>)
      reads this
    {
      FilteredProducts(products, term, categoryFilter)
    }

    /** Loading the catalogue: the fetched list replaces the old one; a failure keeps it. */
    method LoadProducts(response: Result<seq<Product>, string>)
      modifies this`products, this`loading
      ensures products == if response.Success? then response.value else old(products)
      ensures !loading
    {
      loading := true;
      if response.Success? {
        products := response.value;
      }
      loading := false;
    }

    /** The stock button of a row: with an unknown id, or when the operator declines, nothing
        happens; otherwise the request is sent and, if it succeeds, the stock is flipped. */
    method HandleToggleStock(id: string, confirmed: bool, reply: Reply)
      modifies this`products, this`loading
      ensures products == if FirstWithId(old(products), id).Some? && confirmed && reply.Ok?
                          then StockToggled(old(products), id) else old(products)
      ensures loading == if FirstWithId(old(products), id).Some? && confirmed then false else old(loading)
    {
      var product := FirstWithId(products, id);
      if product.None? {
        return;
      }
      if !confirmed {
        return;
      }
      loading := true;
      if reply.Ok? {
        products := SetStock(products, id, !product.value.inStock);
      }
      loading := false;
    }

    /** Opening the edit dialog: the fetched product becomes the edit data, the preview is
        cleared and the dialog opens; a failed fetch leaves everything as it was. */
    method HandleEdit(response: Result<EditData, string>)
      modifies this`editData, this`imagePreview, this`editOpen
      ensures response.Success? ==> editData == response.value && imagePreview == "" && editOpen
      ensures response.Failure? ==>
        editData == old(editData) && imagePreview == old(imagePreview) && editOpen == old(editOpen)
    {
      if response.Success? {
        editData := response.value;
        imagePreview := "";
        editOpen := true;
      }
    }

    /** The delete button of a row: only a confirmed, successful delete removes the product. */
    method HandleDelete(id: string, confirmed: bool, reply: Reply)
      modifies this`products
      ensures products == if confirmed && reply.Ok? then RemoveProducts(old(products), id) else old(products)
    {
      if !confirmed {
        return;
      }
      if reply.Ok? {
        products := RemoveProducts(products, id);
      }
    }

    /** Saving the edit dialog: without an id nothing happens; otherwise, when the update
        succeeds the catalogue is reloaded and the dialog closes, and when it fails the dialog
        stays open with the catalogue as it was. */
    method SaveEdit(putReply: Reply, reload: Result<seq<Product>, string>)
      modifies this`products, this`loading, this`editOpen
      ensures editData.id == "" ==>
        products == old(products) && loading == old(loading) && editOpen == old(editOpen)
      ensures editData.id != "" ==>
        && !loading
        && products == (if putReply.Ok? && reload.Success? then reload.value else old(products))
        && editOpen == (if putReply.Ok? then false else old(editOpen))
    {
      if editData.id == "" {
        return;
      }
      loading := true;
      if putReply.Ok? {
        LoadProducts(reload);
        editOpen := false;
      }
      loading := false;
    }

    /** A row's checkbox. */
    method ToggleSelect(id: string)
      modifies this`selected
      ensures selected == ToggleId(old(selected), id)
    {
      selected := ToggleId(selected, id);
    }

    /** The header checkbox, for the rows shown under the given term and filter. */
    method ToggleSelectAll(term: string, categoryFilter: string)
      modifies this`selected
      ensures selected == SelectAllResult(old(selected), Visible(term, categoryFilter))
    {
      var shown := FilteredProducts(products, term, categoryFilter);
      if |selected| == |shown| {
        selected := [];
      } else {
        selected := seq(|shown|, i requires 0 <= i < |shown| => shown[i].id);
      }
    }

    /** Whether the header checkbox is ticked. */
    predicate HeaderChecked(term: string, categoryFilter: string)
      reads this
    {
      SelectAllChecked(selected, Visible(term, categoryFilter))
    }
  }
}
