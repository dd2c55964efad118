/**
  The Add Product form of the admin console: the editable size list, the
  operator-extensible item-type and category lists, the category to
  size-preset lookup, and the submit handler that validates, uploads the
  selected images one after another, posts one product and then either
  resets the draft or keeps it and shows an error.
 */
module AddProduct {
  import opened Outcomes
  import opened Text
  import opened Seqs

  // ---------------------------------------------------------------------------
  // Taxonomy: size presets and operator-added options
  // ---------------------------------------------------------------------------

  /** The generic size list, also shown when no category is selected. */
  const SizeOptions: seq<string> := ["XS", "S", "M", "L", "XL", "XXL", "3XL"]

  /** A category's preset: a list of size labels, or "numeric" (shoe sizes typed by hand). */
  datatype Preset = Labels(sizes: seq<string>) | Numeric

  /** The preset table, keyed by category. */
  const SizePresets: map<string, Preset> := map[
    "clothing" := Labels(SizeOptions),
    "luxury dress" := Labels(SizeOptions),
    "shorts" := Labels(["28", "30", "32", "34", "36", "38", "40"]),
    "bags" := Labels(["Small", "Medium", "Large"]),
    "shoes" := Numeric,
    "accessories" := Labels(["One Size"])
  ]

  /** What the size section of the form offers. */
  datatype SizeSection = Checkboxes(labels: seq<string>) | NumericHint | NoPresets

  /** The size section for the selected category, looking the category up among the
      table's own entries: the generic list for no category, the preset's checkboxes,
      the numeric hint for "shoes", and nothing for any other category. */
  function SizeSectionFor(category: string): (r: SizeSection)
  {
    if category == "" then Checkboxes(SizeOptions)
    else if category in SizePresets then
      match SizePresets[category]
      case Labels(l) => Checkboxes(l)
      case Numeric => NumericHint
    else NoPresets
  }

  /** The checkbox labels the size section shows for each category. */
  lemma SizeSectionByCategory(category: string)
    ensures category == "" ==> SizeSectionFor(category) == Checkboxes(SizeOptions)
    ensures category in {"clothing", "luxury dress"} ==> SizeSectionFor(category) == Checkboxes(SizeOptions)
    ensures category == "shorts" ==> SizeSectionFor(category) == Checkboxes(["28", "30", "32", "34", "36", "38", "40"])
    ensures category == "bags" ==> SizeSectionFor(category) == Checkboxes(["Small", "Medium", "Large"])
    ensures category == "accessories" ==> SizeSectionFor(category) == Checkboxes(["One Size"])
    ensures category == "shoes" ==> SizeSectionFor(category) == NumericHint
    ensures category != "" && category !in SizePresets.Keys ==> SizeSectionFor(category) == NoPresets
    ensures SizePresets.Keys == {"clothing", "luxury dress", "shorts", "bags", "shoes", "accessories"}
  {
  }

  /** The names every plain object inherits from `Object.prototype`. */
  const InheritedKeys: set<string> := {
    "constructor", "__proto__", "hasOwnProperty", "isPrototypeOf", "propertyIsEnumerable",
    "toString", "toLocaleString", "valueOf",
    "__defineGetter__", "__defineSetter__", "__lookupGetter__", "__lookupSetter__"
  }

  /** What `SIZE_PRESETS[category]` yields on a plain object: an own entry, an inherited
      member (a function or the prototype object, truthy and never "numeric"), or undefined. */
  datatype PropertyRead = Own(preset: Preset) | InheritedMember | Undefined

  function PresetPropertyAsWritten(category: string): (r: PropertyRead)
  {
    if category in SizePresets then Own(SizePresets[category])
    else if category in InheritedKeys then InheritedMember
    else Undefined
  }

  /** The size section as components/admin/add-product.tsx renders it: an inherited member
      passes the truthiness guard and is then mapped over as a list, which throws. */
  datatype Render = Rendered(section: SizeSection) | RenderError

  function SizeSectionAsWritten(category: string): (r: Render)
  {
    if category == "" then Rendered(Checkboxes(SizeOptions))
    else
      match PresetPropertyAsWritten(category)
      case Own(Labels(l)) => Rendered(Checkboxes(l))
      case Own(Numeric) => Rendered(NumericHint)
      case InheritedMember => RenderError
      case Undefined => Rendered(NoPresets)
  }

  /** The rendering as written fails exactly on the inherited names, and agrees with
      SizeSectionFor everywhere else. */
  lemma SizeSectionAsWrittenAgrees(category: string)
    ensures SizeSectionAsWritten(category) == RenderError <==> category in InheritedKeys
    ensures category !in InheritedKeys ==> SizeSectionAsWritten(category) == Rendered(SizeSectionFor(category))
  {
    assert InheritedKeys !! SizePresets.Keys;
  }

  /** A custom category is trimmed and lower-cased before it is stored and selected. */
  function NormalizeOption(raw: string): (r: string)
  {
    Lower(Trim(raw))
  }

  /** The operator can reach the failing render: saving the custom category "Constructor"
      selects "constructor", whose size section throws. */
  lemma ConstructorCategoryBreaksSizes()
    ensures NormalizeOption("Constructor") == "constructor"
    ensures SizeSectionAsWritten(NormalizeOption("Constructor")) == RenderError
    ensures SizeSectionFor(NormalizeOption("Constructor")) == NoPresets
  {
    var s := "Constructor";
    assert s[0] == 'C' && s[|s| - 1] == 'r';
    TrimTrimmed(s);
    var l := Lower(s);
    assert |l| == 11;
    assert l[0] == 'c';
    forall i | 1 <= i < 11 ensures l[i] == s[i] {
    }
    assert l == "constructor";
  }

  // ---------------------------------------------------------------------------
  // Comma-separated inputs
  // ---------------------------------------------------------------------------

  function TrimAll(xs: seq<string>): (r: seq<string>)
  {
    seq(|xs|, i requires 0 <= i < |xs| => Trim(xs[i]))
  }

  function NormalizeAll(xs: seq<string>): (r: seq<string>)
  {
    seq(|xs|, i requires 0 <= i < |xs| => NormalizeOption(xs[i]))
  }

  predicate NonEmpty(s: string)
  {
    s != ""
  }

  /** The size tokens of the custom size box: the trimmed input split on commas,
      each piece trimmed, empty pieces dropped. */
  function SizeTokens(input: string): (r: seq<string>)
  {
    Filter(TrimAll(Split(Trim(input), ',')), NonEmpty)
  }

  /** The colors and tags boxes: "" gives no values; otherwise split on commas,
      each piece trimmed and lower-cased, empty pieces dropped. */
  function ParseList(s: string): (r: seq<string>)
  {
    if s == "" then [] else Filter(NormalizeAll(Split(s, ',')), NonEmpty)
  }

  /** A value as the colors and tags boxes produce it. */
  predicate IsListValue(t: string)
  {
    t != "" && IsTrimmed(t) && IsLower(t) && ',' !in t
  }

  lemma TrimKeepsChars(s: string, c: char)
    requires c !in s
    ensures c !in Trim(s)
  {
    TrimSpec(s);
    var k :| OccursAt(s, Trim(s), k);
    assert Trim(s) == s[k..k + |Trim(s)|];
  }

  lemma NormalizeOptionSpec(s: string)
    ensures IsTrimmed(NormalizeOption(s)) && IsLower(NormalizeOption(s))
    ensures NormalizeOption(s) == "" <==> Trim(s) == ""
    ensures ',' !in s ==> ',' !in NormalizeOption(s)
  {
    var t := Trim(s);
    TrimSpec(s);
    LowerSpec(t);
    LowerTrimmed(t);
    if ',' !in s {
      TrimKeepsChars(s, ',');
      LowerKeepsAbsent(t, ',');
    }
  }

  /** Every size token is non-empty, trimmed and free of commas. */
  lemma SizeTokensSpec(input: string)
    ensures forall k :: 0 <= k < |SizeTokens(input)| ==>
      SizeTokens(input)[k] != "" && IsTrimmed(SizeTokens(input)[k]) && ',' !in SizeTokens(input)[k]
  {
    var pieces := Split(Trim(input), ',');
    var trimmed := TrimAll(pieces);
    forall k | 0 <= k < |trimmed| ensures IsTrimmed(trimmed[k]) && ',' !in trimmed[k] {
      TrimSpec(pieces[k]);
      TrimKeepsChars(pieces[k], ',');
    }
    FilterSpec(trimmed, NonEmpty);
    forall k | 0 <= k < |SizeTokens(input)|
      ensures IsTrimmed(SizeTokens(input)[k]) && ',' !in SizeTokens(input)[k]
    {
      assert SizeTokens(input)[k] in trimmed;
    }
  }

  /** Every parsed color or tag is non-empty, trimmed, lower-case and free of commas. */
  lemma ParseListValues(s: string)
    ensures forall k :: 0 <= k < |ParseList(s)| ==> IsListValue(ParseList(s)[k])
  {
    if s != "" {
      var pieces := Split(s, ',');
      var normalized := NormalizeAll(pieces);
      forall k | 0 <= k < |normalized| ensures IsTrimmed(normalized[k]) && IsLower(normalized[k]) && ',' !in normalized[k] {
        NormalizeOptionSpec(pieces[k]);
      }
      FilterSpec(normalized, NonEmpty);
      forall k | 0 <= k < |ParseList(s)| ensures IsListValue(ParseList(s)[k]) {
        assert ParseList(s)[k] in normalized;
      }
    }
  }

  /** Typing back a list of such values, comma-separated, yields the same list. */
  lemma ParseListJoin(xs: seq<string>)
    requires forall k :: 0 <= k < |xs| ==> IsListValue(xs[k])
    ensures ParseList(Join(xs, ',')) == xs
  {
    if xs != [] {
      SplitJoin(xs, ',');
      assert Join(xs, ',') != "" by {
        if |xs| > 1 {
          assert |Join(xs, ',')| >= |xs[0]|;
        }
      }
      forall k | 0 <= k < |xs| ensures NormalizeOption(xs[k]) == xs[k] {
        TrimTrimmed(xs[k]);
        LowerOfLower(xs[k]);
      }
      assert NormalizeAll(xs) == xs;
      FilterAll(xs, NonEmpty);
    }
  }

  // ---------------------------------------------------------------------------
  // The size list
  // ---------------------------------------------------------------------------

  /** The size list after adding `parts` one by one, each only when not already present. */
  function AppendNew(prev: seq<string>, parts: seq<string>): (r: seq<string>)
    ensures |prev| <= |r| <= |prev| + |parts|
    decreases |parts|
  {
    if parts == [] then prev
    else
      var acc := AppendNew(prev, parts[..|parts| - 1]);
      var p := parts[|parts| - 1];
      if p in acc then acc else acc + [p]
  }

  /** Adding the parts up to position `i` inclusive is adding those before it, then part `i`. */
  lemma AppendNewStep(prev: seq<string>, parts: seq<string>, i: nat)
    requires i < |parts|
    ensures AppendNew(prev, parts[..i + 1]) ==
      var acc := AppendNew(prev, parts[..i]);
      if parts[i] in acc then acc else acc + [parts[i]]
  {
    assert parts[..i + 1][..i] == parts[..i];
  }

  /** The loop of the "+" handler: each part not yet in the list is appended, in turn. */
  method AppendEach(prev: seq<string>, parts: seq<string>) returns (next: seq<string>)
    ensures next == AppendNew(prev, parts)
  {
    next := prev;
    var i := 0;
    assert parts[..0] == [];
    while i < |parts|
      invariant 0 <= i <= |parts|
      invariant next == AppendNew(prev, parts[..i])
    {
      AppendNewStep(prev, parts, i);
      if parts[i] !in next {
        next := next + [parts[i]];
      }
      i := i + 1;
    }
    assert parts[..|parts|] == parts;
  }

  /** Where `x` first occurs in `xs`. */
  function FirstIndex(xs: seq<string>, x: string): (k: nat)
    requires x in xs
    ensures k < |xs| && xs[k] == x && x !in xs[..k]
  {
    if xs[0] == x then 0 else 1 + FirstIndex(xs[1..], x)
  }

  lemma FirstIndexPrefix(xs: seq<string>, m: nat, x: string)
    requires m <= |xs| && x in xs[..m]
    ensures FirstIndex(xs, x) == FirstIndex(xs[..m], x)
  {
  }

  /** Adding sizes keeps the old list as a prefix; appends only values that were not in it,
      each once, in the order they first occur in `parts`; afterwards every part is present;
      and a duplicate-free list stays duplicate-free. */
  lemma AppendNewSpec(prev: seq<string>, parts: seq<string>)
    ensures |prev| <= |AppendNew(prev, parts)| && AppendNew(prev, parts)[..|prev|] == prev
    ensures forall x :: x in AppendNew(prev, parts) <==> x in prev || x in parts
    ensures forall i :: |prev| <= i < |AppendNew(prev, parts)| ==> AppendNew(prev, parts)[i] !in prev
    ensures NoDup(AppendNew(prev, parts)[|prev|..])
    ensures NoDup(prev) ==> NoDup(AppendNew(prev, parts))
    ensures forall i, j :: |prev| <= i < j < |AppendNew(prev, parts)| ==>
      AppendNew(prev, parts)[i] in parts && AppendNew(prev, parts)[j] in parts &&
      FirstIndex(parts, AppendNew(prev, parts)[i]) < FirstIndex(parts, AppendNew(prev, parts)[j])
  {
    AppendNewGrows(prev, parts);
    AppendNewFresh(prev, parts);
    AppendNewOrder(prev, parts);
  }

  /** The old list stays a prefix, the members are the old ones and the parts, and what is
      appended was not in the old list. */
  lemma {:induction false} AppendNewGrows(prev: seq<string>, parts: seq<string>)
    ensures |prev| <= |AppendNew(prev, parts)| && AppendNew(prev, parts)[..|prev|] == prev
    ensures forall x :: x in AppendNew(prev, parts) <==> x in prev || x in parts
    ensures forall i :: |prev| <= i < |AppendNew(prev, parts)| ==> AppendNew(prev, parts)[i] !in prev
    decreases |parts|
  {
    if parts != [] {
      var init, p := parts[..|parts| - 1], parts[|parts| - 1];
      var acc := AppendNew(prev, init);
      AppendNewGrows(prev, init);
      assert parts == init + [p];
      var r := AppendNew(prev, parts);
      forall x ensures x in r <==> x in prev || x in parts {
        assert x in parts <==> x in init || x == p;
      }
      if p !in acc {
        assert r == acc + [p];
        assert r[..|prev|] == acc[..|prev|];
      }
    }
  }

  /** Nothing is appended twice, so a duplicate-free list stays duplicate-free. */
  lemma {:induction false} AppendNewFresh(prev: seq<string>, parts: seq<string>)
    ensures NoDup(AppendNew(prev, parts)[|prev|..])
    ensures NoDup(prev) ==> NoDup(AppendNew(prev, parts))
    decreases |parts|
  {
    AppendNewGrows(prev, parts);
    if parts != [] {
      var init, p := parts[..|parts| - 1], parts[|parts| - 1];
      var acc := AppendNew(prev, init);
      AppendNewFresh(prev, init);
      var r := AppendNew(prev, parts);
      if p !in acc {
        assert r == acc + [p];
        assert r[|prev|..] == acc[|prev|..] + [p];
        forall i | 0 <= i < |acc| ensures r[i] != p {
          assert r[i] == acc[i];
        }
      }
    }
  }

  /** What is appended comes from the parts, in the order the parts first mention it. */
  lemma {:induction false} AppendNewOrder(prev: seq<string>, parts: seq<string>)
    ensures forall i, j :: |prev| <= i < j < |AppendNew(prev, parts)| ==>
      AppendNew(prev, parts)[i] in parts && AppendNew(prev, parts)[j] in parts &&
      FirstIndex(parts, AppendNew(prev, parts)[i]) < FirstIndex(parts, AppendNew(prev, parts)[j])
    decreases |parts|
  {
    if parts == [] {
      assert AppendNew(prev, parts) == prev;
    } else {
      var n := |parts|;
      var init, p := parts[..n - 1], parts[n - 1];
      var acc := AppendNew(prev, init);
      AppendNewOrder(prev, init);
      AppendNewGrows(prev, init);
      assert parts == init + [p];
      forall i | |prev| <= i < |acc|
        ensures acc[i] in init && FirstIndex(parts, acc[i]) == FirstIndex(init, acc[i])
      {
        FirstIndexPrefix(parts, n - 1, acc[i]);
      }
      var r := AppendNew(prev, parts);
      if p !in acc {
        assert p !in init;
        assert FirstIndex(parts, p) == n - 1;
        assert r == acc + [p];
      } else {
        assert r == acc;
      }
      forall i, j | |prev| <= i < j < |r|
        ensures r[i] in parts && r[j] in parts && FirstIndex(parts, r[i]) < FirstIndex(parts, r[j])
      {
        assert r[i] == acc[i];
        if j < |acc| {
          assert r[j] == acc[j];
        }
      }
    }
  }

  // ---------------------------------------------------------------------------
  // Images
  // ---------------------------------------------------------------------------

  /** A file the operator selected; only its identity matters here. */
  datatype ImageFile = ImageFile(handle: nat)

  /** The local address `URL.createObjectURL` gives a file. */
  datatype Preview = ObjectUrl(file: ImageFile)

  /** One preview per file, in file order. */
  function PreviewsOf(files: seq<ImageFile>): (r: seq<Preview>)
  {
    seq(|files|, i requires 0 <= i < |files| => ObjectUrl(files[i]))
  }

  /** Every file of the selection uploads successfully. */
  predicate AllUploaded(files: seq<ImageFile>, upload: ImageFile -> Result<string, string>)
  {
    forall i :: 0 <= i < |files| ==> upload(files[i]).Success?
  }

  /** The position of the first file whose upload fails. */
  function FirstFailure(files: seq<ImageFile>, upload: ImageFile -> Result<string, string>): (k: nat)
    requires !AllUploaded(files, upload)
    ensures k < |files| && upload(files[k]).Failure? && AllUploaded(files[..k], upload)
  {
    if upload(files[0]).Failure? then 0
    else
      var k := FirstFailure(files[1..], upload);
      assert files[..k + 1] == [files[0]] + files[1..][..k];
      k + 1
  }

  function UrlOf(r: Result<string, string>): string
  {
    match r
    case Success(u) => u
    case Failure(_) => ""
  }

  /** What uploading the selection one file at a time gives: every file's URL in selection
      order, or the first failure's error (URLs already obtained are dropped). */
  function Uploaded(files: seq<ImageFile>, upload: ImageFile -> Result<string, string>): (r: Result<seq<string>, string>)
  {
    if AllUploaded(files, upload) then
      Success(seq(|files|, i requires 0 <= i < |files| => UrlOf(upload(files[i]))))
    else Failure(upload(files[FirstFailure(files, upload)]).error)
  }

  /** How many upload requests the sequential loop makes: all of them, or up to and
      including the first one that fails. */
  function UploadCalls(files: seq<ImageFile>, upload: ImageFile -> Result<string, string>): (n: nat)
  {
    if AllUploaded(files, upload) then |files| else FirstFailure(files, upload) + 1
  }

  /** The upload loop of the submit handler: one request at a time, in selection order,
      stopping at the first rejection. */
  method UploadAll(files: seq<ImageFile>, upload: ImageFile -> Result<string, string>)
    returns (r: Result<seq<string>, string>, calls: nat)
    ensures r == Uploaded(files, upload)
    ensures calls == UploadCalls(files, upload)
    ensures r.Success? ==>
      (|r.value| == |files| && forall i :: 0 <= i < |files| ==> upload(files[i]) == Success(r.value[i]))
    ensures r.Failure? ==>
      (1 <= calls <= |files| && upload(files[calls - 1]) == Failure(r.error)
       && AllUploaded(files[..calls - 1], upload))
  {
    var urls: seq<string> := [];
    var i := 0;
    while i < |files|
      invariant 0 <= i <= |files|
      invariant |urls| == i
      invariant forall k :: 0 <= k < i ==> upload(files[k]) == Success(urls[k])
    {
      var res := upload(files[i]);
      if res.Failure? {
        assert !AllUploaded(files, upload);
        assert FirstFailure(files, upload) == i;
        return Failure(res.error), i + 1;
      }
      urls := urls + [res.value];
      i := i + 1;
    }
    assert AllUploaded(files, upload);
    assert urls == seq(|files|, i requires 0 <= i < |files| => UrlOf(upload(files[i])));
    r, calls := Success(urls), |files|;
  }

  // ---------------------------------------------------------------------------
  // Payload and messages
  // ---------------------------------------------------------------------------

  /** The creation request body for one product. `price` is the text the operator typed;
      the request sends its numeric coercion. */
  datatype Payload = Payload(
    title: string, itemType: string, category: string, imageUrls: seq<string>,
    price: string, sizes: seq<string>, colors: seq<string>, tags: seq<string>,
    customizable: bool, isFeatured: bool, description: Option<string>)

  /** The form fields that a successful submit clears. */
  datatype Draft = Draft(
    title: string, itemType: string, category: string, price: string,
    sizes: seq<string>, colors: string, description: string,
    customizable: bool, isFeatured: bool, tags: string,
    imageFiles: seq<ImageFile>, imagePreviews: seq<Preview>)

  const EmptyDraft: Draft := Draft("", "", "", "", [], "", "", false, false, "", [], [])

  function MakePayload(d: Draft, urls: seq<string>): (p: Payload)
  {
    Payload(d.title, d.itemType, d.category, urls, d.price, d.sizes,
            ParseList(d.colors), ParseList(d.tags), d.customizable, d.isFeatured,
            if d.description == "" then None else Some(d.description))
  }

  /** The payload carries the uploaded URLs and every draft field the request sends; colors
      and tags hold only normalised values, and an empty box gives an empty list; an empty
      description is sent as null. */
  lemma PayloadShape(d: Draft, urls: seq<string>)
    ensures MakePayload(d, urls).imageUrls == urls
    ensures MakePayload(d, urls).sizes == d.sizes && MakePayload(d, urls).title == d.title
    ensures MakePayload(d, urls).itemType == d.itemType && MakePayload(d, urls).category == d.category
    ensures MakePayload(d, urls).price == d.price
    ensures MakePayload(d, urls).customizable == d.customizable && MakePayload(d, urls).isFeatured == d.isFeatured
    ensures forall k :: 0 <= k < |MakePayload(d, urls).colors| ==> IsListValue(MakePayload(d, urls).colors[k])
    ensures forall k :: 0 <= k < |MakePayload(d, urls).tags| ==> IsListValue(MakePayload(d, urls).tags[k])
    ensures d.colors == "" ==> MakePayload(d, urls).colors == []
    ensures d.tags == "" ==> MakePayload(d, urls).tags == []
    ensures MakePayload(d, urls).description == None <==> d.description == ""
    ensures d.description != "" ==> MakePayload(d, urls).description == Some(d.description)
  {
    ParseListValues(d.colors);
    ParseListValues(d.tags);
  }

  const NoImageMessage: string := "At least one image is required."
  const NoTaxonomyMessage: string := "Select or create item type & category."
  const FailurePrefix: string := "Failed to create product. "

  /** The message shown when an upload or the creation request fails. */
  function FailureMessage(serverMsg: string): (m: string)
  {
    Trim(FailurePrefix + serverMsg)
  }

  /** The failure message always starts with "Failed to create product.", is exactly that
      when the server gave no detail, and carries a trimmed non-empty detail verbatim. */
  lemma FailureMessageSpec(serverMsg: string)
    ensures |FailureMessage(serverMsg)| >= 25
    ensures FailureMessage(serverMsg)[..25] == "Failed to create product."
    ensures serverMsg == "" ==> FailureMessage(serverMsg) == "Failed to create product."
    ensures serverMsg != "" && IsTrimmed(serverMsg) ==> FailureMessage(serverMsg) == FailurePrefix + serverMsg
  {
    var s := FailurePrefix + serverMsg;
    assert !IsSpace(s[0]);
    assert TrimStart(s) == s;
    var r := TrimEnd(s);
    assert !IsSpace(s[24]);
    assert |r| >= 25;
    assert r[..25] == s[..25];
    if serverMsg == "" {
      assert IsSpace(s[25]);
      assert |r| == 25;
    }
    if serverMsg != "" && IsTrimmed(serverMsg) {
      assert !IsSpace(s[|s| - 1]);
    }
  }

  // ---------------------------------------------------------------------------
  // The form
  // ---------------------------------------------------------------------------

  const ItemTypeDefaults: seq<string> := ["t-shirt", "hoodie", "sweatshirt", "cap", "mug",
    "phone case", "poster", "sticker", "jacket", "long sleeve"]

  const CategoryDefaults: seq<string> := ["all", "clothing", "luxury dress", "bags", "shoes",
    "accessories", "shorts", "home & living", "print items", "stickers", "others"]

  /** The state of the Add Product modal, one field per state slot. */
  class AddProductForm {
    var title: string
    var itemType: string
    var category: string
    var price: string
    var sizes: seq<string>
    var colors: string
    var description: string
    var customizable: bool
    var isFeatured: bool
    var tags: string
    var itemTypeOptions: seq<string>
    var categoryOptions: seq<string>
    var showCustomItemType: bool
    var customItemType: string
    var showCustomCategory: bool
    var customCategory: string
    var customSizeInput: string
    var imageFiles: seq<ImageFile>
    var imagePreviews: seq<Preview>
    var uploadingImg: bool
    var loading: bool
    var error: string

    /** Between handlers: one preview per selected file, the selected item type and
        category are blank or among the offered options, and nothing is busy. */
    ghost predicate Valid()
      reads this
    {
      && imagePreviews == PreviewsOf(imageFiles)
      && (itemType == "" || itemType in itemTypeOptions)
      && (category == "" || category in categoryOptions)
      && !loading && !uploadingImg
    }

    function CurrentDraft(): (d: Draft)
      reads this
    {
      Draft(title, itemType, category, price, sizes, colors, description,
            customizable, isFeatured, tags, imageFiles, imagePreviews)
    }

    /** The size section shown for the selected category (own preset entries only). */
    function SizeSectionShown(): (r: SizeSection)
      reads this
    {
      SizeSectionFor(category)
    }

    constructor ()
      ensures Valid()
      ensures CurrentDraft() == EmptyDraft
      ensures itemTypeOptions == ItemTypeDefaults && categoryOptions == CategoryDefaults
      ensures !showCustomItemType && customItemType == "" && !showCustomCategory && customCategory == ""
      ensures customSizeInput == "" && error == ""
    {
      title, itemType, category, price := "", "", "", "";
      sizes, colors, description := [], "", "";
      customizable, isFeatured, tags := false, false, "";
      itemTypeOptions, categoryOptions := ItemTypeDefaults, CategoryDefaults;
      showCustomItemType, customItemType := false, "";
      showCustomCategory, customCategory := false, "";
      customSizeInput := "";
      imageFiles, imagePreviews := [], [];
      uploadingImg, loading, error := false, false, "";
    }

    /** Picking an item type from the dropdown, which offers only the listed options. */
    method SelectItemType(option: string)
      requires Valid() && option in itemTypeOptions
      modifies this`itemType
      ensures Valid() && itemType == option
    {
      itemType := option;
    }

    /** Picking a category from the dropdown, which offers only the listed options. */
    method SelectCategory(option: string)
      requires Valid() && option in categoryOptions
      modifies this`category
      ensures Valid() && category == option
    {
      category := option;
    }

    /** A preset checkbox: checking appends the size, unchecking removes every occurrence. */
    method ToggleSize(size: string, checked: bool)
      requires Valid()
      modifies this`sizes
      ensures Valid()
      ensures sizes == if checked then old(sizes) + [size] else RemoveAll(old(sizes), size)
    {
      if checked {
        sizes := sizes + [size];
      } else {
        sizes := RemoveAll(sizes, size);
      }
    }

    /** The "x" on a size chip: removes every occurrence of the size. */
    method RemoveSize(size: string)
      requires Valid()
      modifies this`sizes
      ensures Valid()
      ensures sizes == RemoveAll(old(sizes), size)
    {
      sizes := RemoveAll(sizes, size);
    }

    /** The "+" next to the custom size box: a blank box changes nothing; otherwise each
        comma-separated token not yet listed is appended and the box is cleared. */
    method AddCustomSize()
      requires Valid()
      modifies this`sizes, this`customSizeInput
      ensures Valid()
      ensures Trim(old(customSizeInput)) == "" ==>
        sizes == old(sizes) && customSizeInput == old(customSizeInput)
      ensures Trim(old(customSizeInput)) != "" ==>
        sizes == AppendNew(old(sizes), SizeTokens(old(customSizeInput))) && customSizeInput == ""
    {
      var val := Trim(customSizeInput);
      if val == "" {
        return;
      }
      var next := AppendEach(sizes, SizeTokens(customSizeInput));
      sizes := next;
      customSizeInput := "";
    }

    /** "Save" beside the custom item type box: a blank box changes nothing; otherwise the
        trimmed, lower-cased value is appended to the options (even if already listed),
        selected, and the box is cleared and hidden. */
    method AddCustomItemType()
      requires Valid()
      modifies this`itemTypeOptions, this`itemType, this`customItemType, this`showCustomItemType
      ensures Valid()
      ensures Trim(old(customItemType)) == "" ==>
        && itemTypeOptions == old(itemTypeOptions) && itemType == old(itemType)
        && customItemType == old(customItemType) && showCustomItemType == old(showCustomItemType)
      ensures Trim(old(customItemType)) != "" ==>
        && itemTypeOptions == old(itemTypeOptions) + [NormalizeOption(old(customItemType))]
        && itemType == NormalizeOption(old(customItemType))
        && customItemType == "" && !showCustomItemType
    {
      if Trim(customItemType) == "" {
        return;
      }
      var option := NormalizeOption(customItemType);
      itemTypeOptions := itemTypeOptions + [option];
      itemType := option;
      customItemType := "";
      showCustomItemType := false;
    }

    /** "Save" beside the custom category box, the same way as for item types. */
    method AddCustomCategory()
      requires Valid()
      modifies this`categoryOptions, this`category, this`customCategory, this`showCustomCategory
      ensures Valid()
      ensures Trim(old(customCategory)) == "" ==>
        && categoryOptions == old(categoryOptions) && category == old(category)
        && customCategory == old(customCategory) && showCustomCategory == old(showCustomCategory)
      ensures Trim(old(customCategory)) != "" ==>
        && categoryOptions == old(categoryOptions) + [NormalizeOption(old(customCategory))]
        && category == NormalizeOption(old(customCategory))
        && customCategory == "" && !showCustomCategory
    {
      if Trim(customCategory) == "" {
        return;
      }
      var option := NormalizeOption(customCategory);
      categoryOptions := categoryOptions + [option];
      category := option;
      customCategory := "";
      showCustomCategory := false;
    }

    /** The file picker: an empty selection is ignored; otherwise it replaces the previous
        files and makes one preview per file. */
    method HandleImageChange(files: seq<ImageFile>)
      requires Valid()
      modifies this`imageFiles, this`imagePreviews
      ensures Valid()
      ensures files == [] ==> imageFiles == old(imageFiles) && imagePreviews == old(imagePreviews)
      ensures files != [] ==> imageFiles == files && |imagePreviews| == |files|
    {
      if |files| == 0 {
        return;
      }
      imageFiles := files;
      imagePreviews := PreviewsOf(files);
    }

    /** The submit handler. `upload` stands for the image host and `post` for the reply to
        the creation request. Returns the request body sent (if any), whether the parent's
        success and close callbacks ran, and how many upload requests were made. */
    method HandleSubmit(upload: ImageFile -> Result<string, string>, post: Reply)
      returns (sent: Option<Payload>, notified: bool, uploadRequests: nat)
      requires Valid()
      modifies this`title, this`itemType, this`category, this`price, this`sizes, this`colors,
        this`description, this`customizable, this`isFeatured, this`tags,
        this`imageFiles, this`imagePreviews, this`uploadingImg, this`loading, this`error
      ensures Valid()
      // validation, in this order, before anything is uploaded or posted
      ensures old(imageFiles) == [] ==>
        && error == NoImageMessage && CurrentDraft() == old(CurrentDraft())
        && sent == None && !notified && uploadRequests == 0
      ensures old(imageFiles) != [] && (old(itemType) == "" || old(category) == "") ==>
        && error == NoTaxonomyMessage && CurrentDraft() == old(CurrentDraft())
        && sent == None && !notified && uploadRequests == 0
      // uploads, then one creation request
      ensures old(imageFiles) != [] && old(itemType) != "" && old(category) != "" ==>
        var uploaded := Uploaded(old(imageFiles), upload);
        && uploadRequests == UploadCalls(old(imageFiles), upload)
        && (uploaded.Failure? ==>
              && sent == None && !notified && CurrentDraft() == old(CurrentDraft())
              && error == FailureMessage(uploaded.error))
        && (uploaded.Success? ==>
              && sent == Some(MakePayload(old(CurrentDraft()), uploaded.value))
              && (post.Ok? ==> notified && CurrentDraft() == EmptyDraft && error == "")
              && (post.Failed? ==>
                    && !notified && CurrentDraft() == old(CurrentDraft())
                    && error == FailureMessage(post.message)))
    {
      error := "";
      loading := true;
      sent, notified, uploadRequests := None, false, 0;

      if |imageFiles| == 0 {
        error := NoImageMessage;
        loading, uploadingImg := false, false;
        return;
      }
      if itemType == "" || category == "" {
        error := NoTaxonomyMessage;
        loading, uploadingImg := false, false;
        return;
      }

      uploadingImg := true;
      var uploaded;
      uploaded, uploadRequests := UploadAll(imageFiles, upload);
      if uploaded.Failure? {
        error := FailureMessage(uploaded.error);
        loading, uploadingImg := false, false;
        return;
      }
      uploadingImg := false;

      var payload := MakePayload(CurrentDraft(), uploaded.value);
      sent := Some(payload);
      if post.Failed? {
        error := FailureMessage(post.message);
        loading, uploadingImg := false, false;
        return;
      }

      notified := true;
      ResetDraft();
      loading, uploadingImg := false, false;
    }

    /** The reset after a successful submit: every draft field and the image selection
        cleared; option lists, custom boxes and busy flags untouched. */
    method ResetDraft()
      modifies this`title, this`itemType, this`category, this`price, this`sizes, this`colors,
        this`description, this`customizable, this`isFeatured, this`tags,
        this`imageFiles, this`imagePreviews
      ensures CurrentDraft() == EmptyDraft
    {
      title, itemType, category, price := "", "", "", "";
      sizes, colors, description := [], "", "";
      customizable, isFeatured, tags := false, false, "";
      imageFiles, imagePreviews := [], [];
    }
  }
}
