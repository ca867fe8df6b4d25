/**
 * The admin page for the top-viral sections: the tag input's Enter/comma handling
 * and tag removal, the search and status filter over sections, the four stats
 * cards, the per-section view of active products, and the status badge styles.
 */
module AdminPage {
  import opened Common
  import opened Sorting
  import opened Text

  /** The fields of a product the admin page's rules read. */
  datatype AdminProduct = AdminProduct(id: string, title: string, isFeatured: bool, order: int, status: string)

  /** A section as the page holds it: `description` is optional. */
  datatype AdminSection = AdminSection(
    id: string,
    title: string,
    description: Option<string>,
    products: seq<AdminProduct>,
    status: string,
    order: int)

  // ---------------------------------------------------------------------------
  // Tag input

  /** No tag occurs twice. */
  ghost predicate Distinct(tags: seq<string>) {
    forall i, j :: 0 <= i < j < |tags| ==> tags[i] != tags[j]
  }

  /** What one key press does: the list handed to `onChange` (if any) and the input left behind.
      Enter adds the trimmed text; a comma adds the trimmed text without its first comma; in
      both cases only a non-empty tag not yet listed is added, and the input is cleared even
      when nothing is added. Any other key, or blank input, changes nothing. */
  function KeyDown(key: string, input: string, tags: seq<string>): (r: (Option<seq<string>>, string))
    ensures (key == "Enter" || key == ",") && !IsBlank(input) ==> r.1 == ""
    ensures !((key == "Enter" || key == ",") && !IsBlank(input)) ==> r == (None, input)
    ensures key == "Enter" && !IsBlank(input) ==>
      (r.0.Some? <==> Trim(input) !in tags) && (r.0.Some? ==> r.0.value == tags + [Trim(input)])
    ensures key == "," && !IsBlank(input) ==>
      var t := RemoveFirst(Trim(input), ',');
      (r.0.Some? <==> t != "" && t !in tags) && (r.0.Some? ==> r.0.value == tags + [t])
    ensures r.0.Some? ==>
      && |r.0.value| == |tags| + 1 && r.0.value[..|tags|] == tags
      && r.0.value[|tags|] != "" && r.0.value[|tags|] !in tags
  {
    if key == "Enter" && !IsBlank(input) then
      var t := Trim(input);
      (if t !in tags then Some(tags + [t]) else None, "")
    else if key == "," && !IsBlank(input) then
      var t := RemoveFirst(Trim(input), ',');
      (if t != "" && t !in tags then Some(tags + [t]) else None, "")
    else
      (None, input)
  }

  /** A tag list without duplicates never gets one from the tag input. */
  lemma KeyDownKeepsDistinct(key: string, input: string, tags: seq<string>)
    requires Distinct(tags)
    ensures var r := KeyDown(key, input, tags);
      r.0.Some? ==> Distinct(r.0.value) && multiset(r.0.value) == multiset(tags) + multiset{r.0.value[|tags|]}
  {
    var r := KeyDown(key, input, tags);
    if r.0.Some? {
      var u := r.0.value;
      assert u == tags + [u[|tags|]];
      forall i, j | 0 <= i < j < |u| ensures u[i] != u[j] {
        if j == |tags| {
          assert u[i] == tags[i];
        }
      }
    }
  }

  /** `removeTag`: every occurrence of the tag goes; the others stay in order. */
  function RemoveTag(tags: seq<string>, tag: string): (r: seq<string>)
    ensures tag !in r
    ensures forall i :: 0 <= i < |tags| && tags[i] != tag ==> tags[i] in r
    ensures forall i :: 0 <= i < |r| ==> r[i] in tags
  {
    Filter(tags, (t: string) => t != tag)
  }

  /** Removal keeps the order and the count of every other tag. */
  lemma RemoveTagSpec(tags: seq<string>, tag: string, other: string)
    ensures IsSubsequence(RemoveTag(tags, tag), tags)
    ensures other != tag ==> multiset(RemoveTag(tags, tag))[other] == multiset(tags)[other]
  {
    FilterIsSubsequence(tags, (t: string) => t != tag);
    FilterMultiset(tags, (t: string) => t != tag, other);
  }

  /** Removing a tag just added by Enter or comma gives back the list before it. */
  lemma RemoveUndoesAdd(key: string, input: string, tags: seq<string>)
    ensures var r := KeyDown(key, input, tags);
      r.0.Some? ==> RemoveTag(r.0.value, r.0.value[|tags|]) == tags
  {
    var r := KeyDown(key, input, tags);
    if r.0.Some? {
      var t := r.0.value[|tags|];
      var p := (x: string) => x != t;
      assert r.0.value == tags + [t];
      FilterAppend(tags, [t], p);
      FilterAll(tags, p);
      assert Filter([t], p) == [];
    }
  }

  /** The tag input's own state: the text typed so far. */
  class TagInput {
    var inputValue: string

    constructor ()
      ensures inputValue == ""
    {
      inputValue := "";
    }

    /** The input's `onChange`. */
    method SetInput(text: string)
      modifies this
      ensures inputValue == text
    {
      inputValue := text;
    }

    /** `handleKeyDown` with the current tag list: `emitted` is the list passed to `onChange`. */
    method HandleKeyDown(key: string, tags: seq<string>) returns (emitted: Option<seq<string>>)
      modifies this
      ensures (emitted, inputValue) == KeyDown(key, old(inputValue), tags)
    {
      var t := Trim(inputValue);
      if key == "Enter" && t != [] {
        emitted := if t !in tags then Some(tags + [t]) else None;
        inputValue := "";
      } else if key == "," && t != [] {
        var c := RemoveFirst(t, ',');
        emitted := if c != "" && c !in tags then Some(tags + [c]) else None;
        inputValue := "";
      } else {
        emitted := None;
      }
    }
  }

  // ---------------------------------------------------------------------------
  // Section list: search, status filter and order

  /** The lower-cased title, or the lower-cased description when there is one, contains the
      lower-cased search text. */
  predicate MatchesSearch(s: AdminSection, term: string) {
    || Includes(ToLower(s.title), ToLower(term))
    || (s.description.Some? && Includes(ToLower(s.description.value), ToLower(term)))
  }

  predicate MatchesStatus(s: AdminSection, statusFilter: string) {
    statusFilter == "all" || s.status == statusFilter
  }

  function Shown(term: string, statusFilter: string): AdminSection -> bool {
    (s: AdminSection) => MatchesSearch(s, term) && MatchesStatus(s, statusFilter)
  }

  /** `filteredSections`. */
  function FilteredSections(sections: seq<AdminSection>, term: string, statusFilter: string): (r: seq<AdminSection>)
    ensures forall i :: 0 <= i < |r| ==> r[i] in sections && MatchesSearch(r[i], term) && MatchesStatus(r[i], statusFilter)
    ensures forall i :: 0 <= i < |sections| ==>
      (MatchesSearch(sections[i], term) && MatchesStatus(sections[i], statusFilter) ==> sections[i] in r)
  {
    Filter(sections, Shown(term, statusFilter))
  }

  /** With an empty search the list is exactly the status filter, and with "all" as well it is
      every section in the same order. */
  lemma EmptySearchShowsAll(sections: seq<AdminSection>, statusFilter: string)
    ensures FilteredSections(sections, "", statusFilter)
      == Filter(sections, (s: AdminSection) => statusFilter == "all" || s.status == statusFilter)
    ensures FilteredSections(sections, "", "all") == sections
  {
    EmptySearchIsStatusFilter(sections, statusFilter);
    EmptySearchIsStatusFilter(sections, "all");
    FilterAll(sections, (s: AdminSection) => "all" == "all" || s.status == "all");
  }

  lemma {:induction false} EmptySearchIsStatusFilter(sections: seq<AdminSection>, statusFilter: string)
    ensures Filter(sections, Shown("", statusFilter))
      == Filter(sections, (s: AdminSection) => statusFilter == "all" || s.status == statusFilter)
  {
    if sections != [] {
      EmptySearchIsStatusFilter(sections[1..], statusFilter);
      assert ToLower("") == "";
      assert Includes(ToLower(sections[0].title), "");
    }
  }

  /** The section order key: `order` ascending. */
  function SectionOrder(): AdminSection -> real {
    (s: AdminSection) => s.order as real
  }

  /** `fetchData` on success: the fetched sections ascending by order (a stable sort). */
  function FetchedSections(data: seq<AdminSection>): (r: seq<AdminSection>)
    ensures |r| == |data| && multiset(r) == multiset(data)
    ensures forall i, j :: 0 <= i < j < |r| ==> r[i].order <= r[j].order
  {
    var r := SortBy(data, SectionOrder());
    assert forall i, j :: 0 <= i < j < |r| ==> SectionOrder()(r[i]) <= SectionOrder()(r[j]);
    r
  }

  /** Filtering a list held in order keeps it in order, so the page always lists sections
      ascending by order. */
  lemma FilteredStaysOrdered(data: seq<AdminSection>, term: string, statusFilter: string)
    ensures var r := FilteredSections(FetchedSections(data), term, statusFilter);
      forall i, j :: 0 <= i < j < |r| ==> r[i].order <= r[j].order
  {
    FilterKeepsSorted(FetchedSections(data), SectionOrder(), Shown(term, statusFilter));
    var r := FilteredSections(FetchedSections(data), term, statusFilter);
    assert forall i, j :: 0 <= i < j < |r| ==> SectionOrder()(r[i]) <= SectionOrder()(r[j]);
  }

  // ---------------------------------------------------------------------------
  // Per-section product view

  function IsActive(): AdminProduct -> bool {
    (p: AdminProduct) => p.status == "active"
  }

  function ProductOrder(): AdminProduct -> real {
    (p: AdminProduct) => p.order as real
  }

  /** The products a section card shows: the active ones, ascending by order. */
  function ActiveProductView(products: seq<AdminProduct>): (r: seq<AdminProduct>)
    ensures forall i :: 0 <= i < |r| ==> r[i].status == "active" && r[i] in products
    ensures forall i :: 0 <= i < |products| && products[i].status == "active" ==> products[i] in r
    ensures forall i, j :: 0 <= i < j < |r| ==> r[i].order <= r[j].order
  {
    var active := Filter(products, IsActive());
    var r := SortBy(active, ProductOrder());
    assert forall i, j :: 0 <= i < j < |r| ==> ProductOrder()(r[i]) <= ProductOrder()(r[j]);
    assert forall i :: 0 <= i < |r| ==> r[i] in multiset(active);
    forall i | 0 <= i < |products| && products[i].status == "active"
      ensures products[i] in r
    {
      assert products[i] in active;
      assert products[i] in multiset(r);
    }
    r
  }

  /** The view shows each active product exactly as often as the section holds it, and a list
      already in order with only active products is shown unchanged. */
  lemma ActiveProductViewSpec(products: seq<AdminProduct>, p: AdminProduct)
    ensures multiset(ActiveProductView(products))[p] == if p.status == "active" then multiset(products)[p] else 0
    ensures (forall i :: 0 <= i < |products| ==> products[i].status == "active")
      && (forall i, j :: 0 <= i < j < |products| ==> products[i].order <= products[j].order)
      ==> ActiveProductView(products) == products
  {
    FilterMultiset(products, IsActive(), p);
    if (forall i :: 0 <= i < |products| ==> products[i].status == "active")
      && (forall i, j :: 0 <= i < j < |products| ==> products[i].order <= products[j].order)
    {
      FilterAll(products, IsActive());
      assert SortedBy(products, ProductOrder());
      SortBySorted(products, ProductOrder());
    }
  }

  // ---------------------------------------------------------------------------
  // Stats cards

  /** "Total Products": the sum of the sections' product counts. */
  function TotalProducts(sections: seq<AdminSection>): (r: nat)
    ensures r == 0 <==> NoProducts(sections)
  {
    if sections == [] then 0 else |sections[0].products| + TotalProducts(sections[1..])
  }

  /** Every section is empty. */
  predicate NoProducts(sections: seq<AdminSection>) {
    forall i :: 0 <= i < |sections| ==> sections[i].products == []
  }

  /** No product of any section is featured. */
  predicate NoneFeatured(sections: seq<AdminSection>) {
    forall i, j :: 0 <= i < |sections| && 0 <= j < |sections[i].products| ==>
      !sections[i].products[j].isFeatured
  }

  function Featured(): AdminProduct -> bool {
    (p: AdminProduct) => p.isFeatured
  }

  /** "Featured Products": the sum of each section's count of featured products. */
  function FeaturedProducts(sections: seq<AdminSection>): nat {
    if sections == [] then 0
    else Count(sections[0].products, Featured()) + FeaturedProducts(sections[1..])
  }

  /** The card shows 0 exactly when no product of any section is featured. */
  lemma {:induction false} FeaturedZeroIff(sections: seq<AdminSection>)
    ensures FeaturedProducts(sections) == 0 <==> NoneFeatured(sections)
  {
    if sections != [] {
      FeaturedZeroIff(sections[1..]);
      CountZeroIff(sections[0].products, Featured());
      assert forall i :: 1 <= i < |sections| ==> sections[1..][i - 1] == sections[i];
    }
  }

  function IsActiveSection(): AdminSection -> bool {
    (s: AdminSection) => s.status == "active"
  }

  datatype Stats = Stats(totalSections: nat, totalProducts: nat, activeSections: nat, featuredProducts: nat)

  /** The four stats cards. */
  function PageStats(sections: seq<AdminSection>): (r: Stats)
    ensures r.totalSections == |sections|
    ensures r.activeSections <= r.totalSections
    ensures r.featuredProducts <= r.totalProducts
    ensures r.totalProducts == TotalProducts(sections)
    ensures r.featuredProducts == FeaturedProducts(sections)
    ensures r.activeSections == Count(sections, IsActiveSection())
  {
    FeaturedWithinTotal(sections);
    Stats(|sections|, TotalProducts(sections), Count(sections, IsActiveSection()), FeaturedProducts(sections))
  }

  /** No more products are featured than there are products. */
  lemma {:induction false} FeaturedWithinTotal(sections: seq<AdminSection>)
    ensures FeaturedProducts(sections) <= TotalProducts(sections)
  {
    if sections != [] {
      FeaturedWithinTotal(sections[1..]);
    }
  }

  /** The totals add up over any split of the section list, so they do not depend on the order
      the sections are listed in. */
  lemma TotalsAdditive(a: seq<AdminSection>, b: seq<AdminSection>)
    ensures TotalProducts(a + b) == TotalProducts(a) + TotalProducts(b)
    ensures FeaturedProducts(a + b) == FeaturedProducts(a) + FeaturedProducts(b)
  {
    TotalProductsAdditive(a, b);
    FeaturedAdditive(a, b);
  }

  lemma {:induction false} TotalProductsAdditive(a: seq<AdminSection>, b: seq<AdminSection>)
    ensures TotalProducts(a + b) == TotalProducts(a) + TotalProducts(b)
  {
    if a == [] {
      assert a + b == b;
    } else {
      TotalProductsAdditive(a[1..], b);
      assert (a + b)[1..] == a[1..] + b;
    }
  }

  lemma {:induction false} FeaturedAdditive(a: seq<AdminSection>, b: seq<AdminSection>)
    ensures FeaturedProducts(a + b) == FeaturedProducts(a) + FeaturedProducts(b)
  {
    if a == [] {
      assert a + b == b;
    } else {
      FeaturedAdditive(a[1..], b);
      assert (a + b)[1..] == a[1..] + b;
    }
  }

  // ---------------------------------------------------------------------------
  // Status badge

  datatype Icon = CheckCircle | EyeOff | Clock | AlertCircle

  datatype StatusConfig = StatusConfig(bg: string, text: string, icon: Icon)

  /** `getStatusConfig`: green for "active", grey for "inactive", yellow for "draft", and grey
      with a warning icon for anything else. */
  function GetStatusConfig(status: string): (r: StatusConfig)
    ensures r.icon == CheckCircle <==> status == "active"
    ensures r.icon == EyeOff <==> status == "inactive"
    ensures r.icon == Clock <==> status == "draft"
    ensures r.icon == AlertCircle <==> status !in {"active", "inactive", "draft"}
    ensures r.bg == "bg-green-100" <==> status == "active"
    ensures r.bg == "bg-yellow-100" <==> status == "draft"
    ensures status != "active" && status != "draft" ==> r.bg == "bg-gray-100" && r.text == "text-gray-800"
  {
    if status == "active" then StatusConfig("bg-green-100", "text-green-800", CheckCircle)
    else if status == "inactive" then StatusConfig("bg-gray-100", "text-gray-800", EyeOff)
    else if status == "draft" then StatusConfig("bg-yellow-100", "text-yellow-800", Clock)
    else StatusConfig("bg-gray-100", "text-gray-800", AlertCircle)
  }

  // ---------------------------------------------------------------------------
  // The page's own state

  class AdminPageState {
    var sections: seq<AdminSection>
    var searchTerm: string
    var statusFilter: string

    constructor ()
      ensures sections == [] && searchTerm == "" && statusFilter == "all"
    {
      sections := [];
      searchTerm := "";
      statusFilter := "all";
    }

    /** A successful fetch: the sections are stored in order. */
    method FetchSucceeded(data: seq<AdminSection>)
      modifies this
      ensures sections == FetchedSections(data)
      ensures searchTerm == old(searchTerm) && statusFilter == old(statusFilter)
    {
      sections := FetchedSections(data);
    }

    method SetSearchTerm(term: string)
      modifies this
      ensures searchTerm == term && sections == old(sections) && statusFilter == old(statusFilter)
    {
      searchTerm := term;
    }

    method SetStatusFilter(filter: string)
      modifies this
      ensures statusFilter == filter && sections == old(sections) && searchTerm == old(searchTerm)
    {
      statusFilter := filter;
    }

    /** The sections the page lists. */
    function Visible(): (r: seq<AdminSection>)
      reads this
      ensures |r| <= |sections| && IsSubsequence(r, sections)
      ensures forall i :: 0 <= i < |r| ==>
        r[i] in sections && MatchesSearch(r[i], searchTerm) && MatchesStatus(r[i], statusFilter)
      ensures forall i :: 0 <= i < |sections| ==>
        (MatchesSearch(sections[i], searchTerm) && MatchesStatus(sections[i], statusFilter) ==> sections[i] in r)
    {
      FilterIsSubsequence(sections, Shown(searchTerm, statusFilter));
      FilteredSections(sections, searchTerm, statusFilter)
    }
  }
}
