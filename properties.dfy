/** The properties page (`src/pages/Properties.tsx`): the search, budget,
    BHK and amenity filters applied to the fetched list, and the controls that
    set them. */
module Properties {
  import opened Wrappers
  import opened Strings
  import opened Js
  import opened Seqs

  /** The fields of a fetched property the filters read. */
  datatype Property = Property(
    id: string,
    title: Option<string>,
    address: Option<string>,
    price: int,
    bhk: int,
    tags: Option<seq<string>>)

  /** The filter controls: the shared search text, the budget slider, the BHK
      buttons and the amenity checkboxes. */
  datatype Filters = Filters(search: string, budgetLow: int, budgetHigh: int, bhk: Option<int>, selectedTags: seq<string>)

  const BudgetMax := 500000

  /** The state the page starts in and "Clear All" returns to. */
  const InitialFilters := Filters("", 0, BudgetMax, None, [])

  /** `(p.title?.toLowerCase() || "").includes(q) || (address likewise)`. */
  predicate TextHit(p: Property, q: string) {
    Contains(Lower(Or(p.title, "")), q) || Contains(Lower(Or(p.address, "")), q)
  }

  /** The search step: a blank search is skipped; otherwise the raw search,
      lower-cased but not trimmed, must occur in the title or the address. */
  predicate SearchOk(p: Property, search: string) {
    Trim(search) == "" || TextHit(p, Lower(search))
  }

  /** The budget step, inclusive at both ends. */
  predicate BudgetOk(p: Property, low: int, high: int) {
    low <= p.price <= high
  }

  /** The BHK step: an exact match when a BHK is chosen. */
  predicate BhkOk(p: Property, bhk: Option<int>) {
    bhk.None? || p.bhk == bhk.value
  }

  /** `p.tags?.includes(tag)`: a property without tags has none of them. */
  predicate HasTag(p: Property, tag: string) {
    p.tags.Some? && tag in p.tags.value
  }

  /** The amenity step: every selected tag is present. */
  predicate TagsOk(p: Property, selected: seq<string>) {
    forall k :: 0 <= k < |selected| ==> HasTag(p, selected[k])
  }

  /** A property survives all four steps. */
  predicate Keep(p: Property, f: Filters) {
    SearchOk(p, f.search) && BudgetOk(p, f.budgetLow, f.budgetHigh)
    && BhkOk(p, f.bhk) && TagsOk(p, f.selectedTags)
  }

  /** The conjunction as a filter function. */
  function KeepAll(f: Filters): Property -> bool {
    (p: Property) => Keep(p, f)
  }

  /** The filtered list as one filter with the conjunction. */
  function FilteredProperties(properties: seq<Property>, f: Filters): (r: seq<Property>)
    ensures IsSubsequence(r, properties)
    ensures forall p :: p in r <==> p in properties && Keep(p, f)
  {
    FilterIsSubsequence(properties, KeepAll(f));
    FilterMembershipAll(properties, KeepAll(f));
    Filter(properties, KeepAll(f))
  }

  /** The filter functions of the single steps, and of the first two and three
      steps together. */
  function TextKeep(q: string): Property -> bool {
    (p: Property) => TextHit(p, q)
  }

  function SearchKeep(f: Filters): Property -> bool {
    (p: Property) => SearchOk(p, f.search)
  }

  function BudgetKeep(f: Filters): Property -> bool {
    (p: Property) => BudgetOk(p, f.budgetLow, f.budgetHigh)
  }

  function ExactBhk(bhk: int): Property -> bool {
    (p: Property) => p.bhk == bhk
  }

  function TagsKeep(f: Filters): Property -> bool {
    (p: Property) => TagsOk(p, f.selectedTags)
  }

  function Keep2(f: Filters): Property -> bool {
    (p: Property) => SearchOk(p, f.search) && BudgetOk(p, f.budgetLow, f.budgetHigh)
  }

  function Keep3(f: Filters): Property -> bool {
    (p: Property) => Keep2(f)(p) && BhkOk(p, f.bhk)
  }

  /** The search step, skipped for a blank search, is the search filter. */
  lemma SearchStep(properties: seq<Property>, f: Filters)
    ensures (if Trim(f.search) != "" then Filter(properties, TextKeep(Lower(f.search))) else properties)
            == Filter(properties, SearchKeep(f))
  {
    if Trim(f.search) != "" {
      FilterExt(properties, TextKeep(Lower(f.search)), SearchKeep(f));
    } else {
      FilterKeepsAll(properties, SearchKeep(f));
    }
  }

  /** The budget step after the search step filters by both. */
  lemma BudgetStep(properties: seq<Property>, f: Filters)
    ensures Filter(Filter(properties, SearchKeep(f)), BudgetKeep(f)) == Filter(properties, Keep2(f))
  {
    FilterFilter(properties, SearchKeep(f), BudgetKeep(f), Keep2(f));
  }

  /** The BHK step, skipped without a choice, adds the BHK condition. */
  lemma BhkStep(properties: seq<Property>, f: Filters)
    ensures (if f.bhk.Some? then Filter(Filter(properties, Keep2(f)), ExactBhk(f.bhk.value))
             else Filter(properties, Keep2(f)))
            == Filter(properties, Keep3(f))
  {
    if f.bhk.Some? {
      FilterFilter(properties, Keep2(f), ExactBhk(f.bhk.value), Keep3(f));
    } else {
      FilterExt(properties, Keep2(f), Keep3(f));
    }
  }

  /** The amenity step, skipped without a selection, completes the conjunction. */
  lemma TagsStep(properties: seq<Property>, f: Filters)
    ensures (if |f.selectedTags| > 0 then Filter(Filter(properties, Keep3(f)), TagsKeep(f))
             else Filter(properties, Keep3(f)))
            == Filter(properties, KeepAll(f))
  {
    forall p: Property
      ensures KeepAll(f)(p) == (Keep3(f)(p) && TagsKeep(f)(p))
    {
      assert Keep2(f)(p) == (SearchOk(p, f.search) && BudgetOk(p, f.budgetLow, f.budgetHigh));
      assert Keep3(f)(p) == (SearchOk(p, f.search) && BudgetOk(p, f.budgetLow, f.budgetHigh) && BhkOk(p, f.bhk));
    }
    if |f.selectedTags| > 0 {
      FilterFilter(properties, Keep3(f), TagsKeep(f), KeepAll(f));
    } else {
      FilterExt(properties, Keep3(f), KeepAll(f));
    }
  }

  /** The filter effect as the source runs it: one step after another, each
      optional step skipped when its control is unset. */
  method ApplyFilters(properties: seq<Property>, f: Filters) returns (filtered: seq<Property>)
    ensures filtered == FilteredProperties(properties, f)
  {
    filtered := properties;
    if Trim(f.search) != "" {
      filtered := Filter(filtered, TextKeep(Lower(f.search)));
    }
    SearchStep(properties, f);
    filtered := Filter(filtered, BudgetKeep(f));
    BudgetStep(properties, f);
    if f.bhk.Some? {
      filtered := Filter(filtered, ExactBhk(f.bhk.value));
    }
    BhkStep(properties, f);
    if |f.selectedTags| > 0 {
      filtered := Filter(filtered, TagsKeep(f));
    }
    TagsStep(properties, f);
  }

  /** A blank or white-space-only search constrains nothing. */
  lemma BlankSearchIgnored(p: Property, search: string)
    requires IsBlank(search)
    ensures SearchOk(p, search)
  {
    TrimBlank(search);
  }

  /** Any other search keeps exactly the properties whose title or address
      holds it, letter case aside. */
  lemma SearchMatchesText(p: Property, search: string)
    requires !IsBlank(search)
    ensures SearchOk(p, search) <==>
              Contains(Lower(Or(p.title, "")), Lower(search)) || Contains(Lower(Or(p.address, "")), Lower(search))
  {
    TrimBlank(search);
  }

  /** The budget bounds are inclusive and the BHK match is exact: a bigger
      or smaller flat is dropped, so a bigger one is not "at least" the
      chosen size. */
  lemma BoundsAndBhk(p: Property, f: Filters)
    ensures p.price == f.budgetLow && f.budgetLow <= f.budgetHigh ==> BudgetOk(p, f.budgetLow, f.budgetHigh)
    ensures p.price == f.budgetHigh && f.budgetLow <= f.budgetHigh ==> BudgetOk(p, f.budgetLow, f.budgetHigh)
    ensures f.bhk.Some? && p.bhk != f.bhk.value ==> !Keep(p, f)
    ensures f.bhk.Some? ==> (BhkOk(p, f.bhk) <==> p.bhk == f.bhk.value)
  {
  }

  /** With tags selected, a property is kept only when it carries every one;
      with none selected, tags constrain nothing. */
  lemma TagsRequired(p: Property, selected: seq<string>)
    ensures selected == [] ==> TagsOk(p, selected)
    ensures TagsOk(p, selected) <==> forall t :: t in selected ==> HasTag(p, t)
  {
  }

  /** At the initial filters, every property whose price is within the
      slider's range and whose price is not negative is shown. */
  lemma InitialFiltersKeep(p: Property)
    requires 0 <= p.price <= BudgetMax
    ensures Keep(p, InitialFilters)
  {
    assert Trim("") == "";
  }

  /** The BHK button: clicking the selected value clears it, any other selects it. */
  function ToggledBhk(bhk: Option<int>, num: int): (r: Option<int>)
    ensures bhk == Some(num) ==> r == None
    ensures bhk != Some(num) ==> r == Some(num)
  {
    if bhk == Some(num) then None else Some(num)
  }

  /** An amenity checkbox: checking appends the tag, unchecking removes
      every occurrence of it. */
  function CheckedTags(tags: seq<string>, tag: string, checked: bool): (r: seq<string>)
    ensures checked ==> r == tags + [tag]
    ensures !checked ==> tag !in r && IsSubsequence(r, tags)
    ensures !checked ==> forall t :: t != tag ==> (t in r <==> t in tags)
  {
    if checked then tags + [tag]
    else
      var other := (t: string) => t != tag;
      FilterIsSubsequence(tags, other);
      FilterMembershipAll(tags, other);
      Filter(tags, other)
  }

  /** The page's state. */
  class PropertiesPage {
    var properties: seq<Property>
    var filtered: seq<Property>
    var filters: Filters

    /** The shown list is the filtered fetched list. */
    predicate Valid()
      reads this
    {
      filtered == FilteredProperties(properties, filters)
    }

    constructor ()
      ensures Valid() && properties == [] && filters == InitialFilters
    {
      properties, filtered, filters := [], [], InitialFilters;
    }

    /** A fetch resolves: the fetch handler shows the whole list, then the
        effect refilters it. */
    method Fetched(data: seq<Property>)
      modifies this
      ensures Valid() && properties == data && filters == old(filters)
    {
      properties := data;
      filtered := data;
      filtered := ApplyFilters(properties, filters);
    }

    /** Any change of a control runs the filter effect again. */
    method SetFilters(f: Filters)
      modifies this
      ensures Valid() && filters == f && properties == old(properties)
    {
      filters := f;
      filtered := ApplyFilters(properties, filters);
    }

    /** "Clear All". */
    method ClearFilters()
      modifies this
      ensures Valid() && filters == InitialFilters && properties == old(properties)
    {
      SetFilters(InitialFilters);
    }

    /** A BHK button. */
    method ToggleBhk(num: int)
      modifies this
      ensures Valid() && filters == old(filters).(bhk := ToggledBhk(old(filters).bhk, num))
      ensures properties == old(properties)
    {
      SetFilters(filters.(bhk := ToggledBhk(filters.bhk, num)));
    }

    /** An amenity checkbox. */
    method SetAmenity(tag: string, checked: bool)
      modifies this
      ensures Valid() && properties == old(properties)
      ensures filters == old(filters).(selectedTags := CheckedTags(old(filters).selectedTags, tag, checked))
    {
      SetFilters(filters.(selectedTags := CheckedTags(filters.selectedTags, tag, checked)));
    }
  }
}
