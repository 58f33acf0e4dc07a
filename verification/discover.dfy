/**
 * The discover page's filter panel and search box: four multi-choice
 * filter categories toggled value by value, three single-value filters,
 * a reset to the initial filters, and the `search` URL parameter the
 * search box sets.
 */
module Discover {
  import opened Wrappers
  import opened Text
  import opened Lists

  /** The multi-choice filter categories. */
  datatype Category = ClassYear | InclusionFocus | Industry | OpportunityType

  /** The page's `filters` state. */
  datatype Filters = Filters(
    classYear: seq<string>,
    gpa: string,
    inclusionFocus: seq<string>,
    industry: seq<string>,
    opportunityType: seq<string>,
    location: string,
    compensation: string)

  /** The filters the page starts with and `clearAllFilters` restores. */
  const InitialFilters := Filters([], "", [], [], [], "all", "")

  /** `filters[category]`. */
  function Selected(f: Filters, c: Category): seq<string> {
    match c
    case ClassYear => f.classYear
    case InclusionFocus => f.inclusionFocus
    case Industry => f.industry
    case OpportunityType => f.opportunityType
  }

  /** The filters with category `c` replaced. */
  function WithSelected(f: Filters, c: Category, values: seq<string>): (r: Filters)
    ensures Selected(r, c) == values
    ensures forall c' :: c' != c ==> Selected(r, c') == Selected(f, c')
    ensures r.gpa == f.gpa && r.location == f.location && r.compensation == f.compensation
  {
    match c
    case ClassYear => f.(classYear := values)
    case InclusionFocus => f.(inclusionFocus := values)
    case Industry => f.(industry := values)
    case OpportunityType => f.(opportunityType := values)
  }

  /**
   * `handleFilterChange(category, value)`'s updater: a selected value is
   * deselected (every copy), an unselected one appended; no other category
   * and no single-value filter changes.
   */
  function ToggleFilter(f: Filters, c: Category, value: string): (r: Filters)
    ensures value in Selected(f, c) ==>
      value !in Selected(r, c) && IsSubsequence(Selected(r, c), Selected(f, c))
    ensures value in Selected(f, c) ==>
      forall y :: y != value ==> multiset(Selected(r, c))[y] == multiset(Selected(f, c))[y]
    ensures value !in Selected(f, c) ==> Selected(r, c) == Selected(f, c) + [value]
    ensures forall c' :: c' != c ==> Selected(r, c') == Selected(f, c')
    ensures r.gpa == f.gpa && r.location == f.location && r.compensation == f.compensation
  {
    WithSelected(f, c, Toggle(Selected(f, c), value))
  }

  /** Toggling an unselected value twice gives back the same filters. */
  lemma ToggleFilterTwice(f: Filters, c: Category, value: string)
    requires value !in Selected(f, c)
    ensures ToggleFilter(ToggleFilter(f, c, value), c, value) == f
  {
    ToggleTwice(Selected(f, c), value);
  }

  /** Selections made only through toggling never hold a value twice. */
  lemma ToggleFilterNoDuplicates(f: Filters, c: Category, value: string)
    requires NoDuplicates(Selected(f, c))
    ensures NoDuplicates(Selected(ToggleFilter(f, c, value), c))
  {
    ToggleNoDuplicates(Selected(f, c), value);
  }

  /** The GPA control replaces only the GPA filter. */
  function SetGpa(f: Filters, gpa: string): (r: Filters)
    ensures r.gpa == gpa && r.location == f.location && r.compensation == f.compensation
    ensures forall c :: Selected(r, c) == Selected(f, c)
  {
    f.(gpa := gpa)
  }

  /** The location control replaces only the location filter. */
  function SetLocation(f: Filters, location: string): (r: Filters)
    ensures r.location == location && r.gpa == f.gpa && r.compensation == f.compensation
    ensures forall c :: Selected(r, c) == Selected(f, c)
  {
    f.(location := location)
  }

  /** The compensation control replaces only the compensation filter. */
  function SetCompensation(f: Filters, compensation: string): (r: Filters)
    ensures r.compensation == compensation && r.gpa == f.gpa && r.location == f.location
    ensures forall c :: Selected(r, c) == Selected(f, c)
  {
    f.(compensation := compensation)
  }

  /**
   * `handleSearch`'s URL parameters: `search` holds the query as typed
   * (untrimmed) when the trimmed query is non-empty, and is absent otherwise.
   */
  function SearchParam(query: string): (param: Option<string>)
    ensures param.Some? <==> exists i :: 0 <= i < |query| && !IsSpace(query[i])
    ensures param.Some? ==> param.value == query
  {
    if Trim(query) != "" then Some(query) else None
  }

  /** The page state the filter panel and the search box change. */
  class DiscoverPage {
    var filters: Filters
    var searchQuery: string
    var searchParam: Option<string>

    /** The page opens with the initial filters and the query taken from the URL. */
    constructor(initialParam: Option<string>)
      ensures filters == InitialFilters && searchParam == initialParam
      ensures searchQuery == if initialParam.Some? then initialParam.value else ""
    {
      filters := InitialFilters;
      searchParam := initialParam;
      searchQuery := if initialParam.Some? then initialParam.value else "";
    }

    method HandleFilterChange(c: Category, value: string)
      modifies this
      ensures filters == ToggleFilter(old(filters), c, value)
      ensures searchQuery == old(searchQuery) && searchParam == old(searchParam)
    {
      filters := ToggleFilter(filters, c, value);
    }

    method ClearAllFilters()
      modifies this
      ensures filters == InitialFilters
      ensures searchQuery == old(searchQuery) && searchParam == old(searchParam)
    {
      filters := InitialFilters;
    }

    method HandleSearch()
      modifies this
      ensures searchParam == SearchParam(old(searchQuery))
      ensures filters == old(filters) && searchQuery == old(searchQuery)
    {
      searchParam := SearchParam(searchQuery);
    }
  }
}
