/**
 * The job listing page: the three filter selections, the current page,
 * the request it sends, and the strip of page buttons under the results.
 *
 * React state is modelled as settled state: a method applies a setter and
 * then the effect that resets the page, as one step. The effect's
 * dependencies are the two URL strings, compared by value, and the three
 * selection arrays, compared by reference; `toggleFilter` and
 * `clearFilters` always build new arrays, so they always reset the page.
 */
module JobsPage {
  import opened Wrappers
  import opened Seqs
  import Api
  import Text

  const PageSize := 10

  function Min(a: int, b: int): int { if a <= b then a else b }
  function Max(a: int, b: int): int { if a >= b then a else b }

  predicate Distinct(s: seq<string>) {
    forall i, j :: 0 <= i < j < |s| ==> s[i] != s[j]
  }

  function Other(value: string): string -> bool {
    v => v != value
  }

  // -------------------------------------------------------- toggleFilter

  /** `selected.includes(value) ? selected.filter(v => v !== value) : [...selected, value]` */
  function ToggleFilter(value: string, selected: seq<string>): (r: seq<string>)
    ensures value in selected ==> value !in r && forall x :: x in r <==> x in selected && x != value
    ensures value !in selected ==> r == selected + [value]
  {
    if value in selected then Filter(selected, Other(value)) else selected + [value]
  }

  /** Toggling a value that is not selected, twice, gives back the selection. */
  lemma ToggleTwice(value: string, selected: seq<string>)
    requires value !in selected
    ensures ToggleFilter(value, ToggleFilter(value, selected)) == selected
  {
    FilterAppend(selected, [value], Other(value));
    FilterAll(selected, Other(value));
    assert Filter([value], Other(value)) == [];
  }

  /** A selection built by toggles has no duplicates, and a toggle changes its length by one. */
  lemma ToggleDistinct(value: string, selected: seq<string>)
    requires Distinct(selected)
    ensures Distinct(ToggleFilter(value, selected))
    ensures |ToggleFilter(value, selected)| == if value in selected then |selected| - 1 else |selected| + 1
  {
    if value in selected {
      assert UniqueBy(selected, (x: string) => x);
      FilterUnique(selected, Other(value), (x: string) => x);
      RemoveOne(value, selected);
    }
  }

  lemma {:induction false} RemoveOne(value: string, s: seq<string>)
    requires Distinct(s) && value in s
    ensures |Filter(s, Other(value))| == |s| - 1
  {
    if s[0] == value {
      assert forall i :: 0 <= i < |s[1..]| ==> s[1..][i] == s[i + 1] != s[0];
      FilterAll(s[1..], Other(value));
    } else {
      RemoveOne(value, s[1..]);
    }
  }

  // ------------------------------------------------------ the page strip

  /** The page the `i`-th button of the strip shows. */
  function PageAt(totalPages: nat, currentPage: int, i: int): int {
    if totalPages <= 5 then i + 1
    else if currentPage <= 3 then i + 1
    else if currentPage >= totalPages - 2 then totalPages - 4 + i
    else currentPage - 2 + i
  }

  /** `Array.from({ length: Math.min(5, totalPages) }, (_, i) => pageNum)` */
  function PageWindow(totalPages: nat, currentPage: int): (w: seq<int>)
    ensures |w| == Min(5, totalPages)
    ensures forall i :: 0 <= i < |w| ==> w[i] == PageAt(totalPages, currentPage, i)
  {
    seq(Min(5, totalPages), i => PageAt(totalPages, currentPage, i))
  }

  /** Up to five pages there is a button for each page, in order. */
  lemma PageWindowSmall(totalPages: nat, currentPage: int)
    requires totalPages <= 5
    ensures PageWindow(totalPages, currentPage) == seq(totalPages, i => i + 1)
  {
  }

  /**
   * Beyond five pages the strip shows five consecutive pages inside
   * `[1, totalPages]`; in every case each button is a page that exists and
   * no page appears twice.
   */
  lemma PageWindowLarge(totalPages: nat, currentPage: int)
    ensures var w := PageWindow(totalPages, currentPage);
      (totalPages > 5 ==> |w| == 5 && forall i :: 0 <= i < 4 ==> w[i + 1] == w[i] + 1)
      && (forall i :: 0 <= i < |w| ==> 1 <= w[i] <= totalPages)
      && (forall i, j :: 0 <= i < j < |w| ==> w[i] < w[j])
  {
  }

  /** The current page has a button exactly when it is a page that exists. */
  lemma PageWindowHasCurrent(totalPages: nat, currentPage: int)
    ensures currentPage in PageWindow(totalPages, currentPage) <==> 1 <= currentPage <= totalPages
  {
    var w := PageWindow(totalPages, currentPage);
    PageWindowLarge(totalPages, currentPage);
    if 1 <= currentPage <= totalPages {
      var i := currentPage - PageAt(totalPages, currentPage, 0);
      assert 0 <= i < |w| && w[i] == currentPage;
    }
  }

  // ---------------------------------------------------- the request sent

  /** `searchApiParams`: blank strings and empty selections are left out. */
  function SearchParamsOf(query: string, location: string, types: seq<string>, experience: seq<string>,
                          locations: seq<string>, currentPage: int): Api.JobSearchParams
  {
    Api.JobSearchParams(
      query := if query != "" then Some(query) else None,
      location := if location != "" then Some(location) else None,
      locations := if |locations| > 0 then Some(locations) else None,
      jobType := None,
      jobTypes := if |types| > 0 then Some(types) else None,
      experienceLevels := if |experience| > 0 then Some(experience) else None,
      categoryId := None,
      companyId := None,
      page := Some(currentPage),
      pageSize := Some(PageSize))
  }

  /**
   * What the server receives from this page: each selection element by
   * element (nothing for an empty one), the search text and location only
   * when non-empty, the page, and a page size of 10.
   */
  lemma RequestCarriesSelection(query: string, location: string, types: seq<string>, experience: seq<string>,
                                locations: seq<string>, currentPage: int)
    requires currentPage >= 1
    ensures var q := Api.JobsQuery(SearchParamsOf(query, location, types, experience, locations, currentPage));
      && Api.Values(q, "jobTypes") == types
      && Api.Values(q, "experienceLevels") == experience
      && Api.Values(q, "locations") == locations
      && Api.Values(q, "query") == (if query == "" then [] else [query])
      && Api.Values(q, "location") == (if location == "" then [] else [location])
      && Api.Values(q, "page") == [Text.IntToString(currentPage)]
      && Api.Values(q, "pageSize") == ["10"]
      && Api.Values(q, "jobType") == [] && Api.Values(q, "categoryId") == []
  {
    var p := SearchParamsOf(query, location, types, experience, locations, currentPage);
    Api.JobsQueryValues(p, "jobTypes");
    Api.JobsQueryValues(p, "experienceLevels");
    Api.JobsQueryValues(p, "locations");
    Api.JobsQueryValues(p, "query");
    Api.JobsQueryValues(p, "location");
    Api.JobsQueryValues(p, "page");
    Api.JobsQueryValues(p, "pageSize");
    Api.JobsQueryValues(p, "jobType");
    Api.JobsQueryValues(p, "categoryId");
    assert Text.IntToString(10) == "10";
  }

  // --------------------------------------------------------- the page

  datatype FilterGroup = JobTypes | ExperienceLevels | Locations

  class Page {
    /** `searchParams.get("q")` and `searchParams.get("location")` */
    var q: Option<string>
    var location: Option<string>
    var selectedTypes: seq<string>
    var selectedExperience: seq<string>
    var selectedLocations: seq<string>
    var currentPage: int

    predicate Valid()
      reads this
    {
      currentPage >= 1 && Distinct(selectedTypes) && Distinct(selectedExperience) && Distinct(selectedLocations)
    }

    constructor (q: Option<string>, location: Option<string>)
      ensures Valid()
      ensures this.q == q && this.location == location
      ensures selectedTypes == selectedExperience == selectedLocations == []
      ensures currentPage == 1
    {
      this.q := q;
      this.location := location;
      selectedTypes, selectedExperience, selectedLocations := [], [], [];
      currentPage := 1;
    }

    /** `searchParams.get("q") || ""` */
    function Query(): string
      reads this
    {
      q.GetOr("")
    }

    function LocationQuery(): string
      reads this
    {
      location.GetOr("")
    }

    function Selected(g: FilterGroup): seq<string>
      reads this
    {
      match g
      case JobTypes => selectedTypes
      case ExperienceLevels => selectedExperience
      case Locations => selectedLocations
    }

    function ActiveFiltersCount(): (n: nat)
      reads this
      ensures n == |Selected(JobTypes)| + |Selected(ExperienceLevels)| + |Selected(Locations)|
      ensures n == 0 <==> selectedTypes == selectedExperience == selectedLocations == []
    {
      |selectedTypes| + |selectedExperience| + |selectedLocations|
    }

    function SearchApiParams(): Api.JobSearchParams
      reads this
    {
      SearchParamsOf(Query(), LocationQuery(), selectedTypes, selectedExperience, selectedLocations, currentPage)
    }

    /** A checkbox or a chip: toggle the value in its group; the effect goes back to page 1. */
    method Toggle(g: FilterGroup, value: string)
      requires Valid()
      modifies this
      ensures Valid()
      ensures Selected(g) == ToggleFilter(value, old(Selected(g)))
      ensures forall h | h != g :: Selected(h) == old(Selected(h))
      ensures ActiveFiltersCount() == if value in old(Selected(g)) then old(ActiveFiltersCount()) - 1
                                      else old(ActiveFiltersCount()) + 1
      ensures q == old(q) && location == old(location) && currentPage == 1
    {
      ToggleDistinct(value, Selected(g));
      currentPage := 1;
      match g
      case JobTypes => selectedTypes := ToggleFilter(value, selectedTypes);
      case ExperienceLevels => selectedExperience := ToggleFilter(value, selectedExperience);
      case Locations => selectedLocations := ToggleFilter(value, selectedLocations);
    }

    method ClearFilters()
      requires Valid()
      modifies this
      ensures Valid()
      ensures selectedTypes == selectedExperience == selectedLocations == [] && ActiveFiltersCount() == 0
      ensures q == old(q) && location == old(location) && currentPage == 1
    {
      selectedTypes, selectedExperience, selectedLocations := [], [], [];
      currentPage := 1;
    }

    /** The URL's search parameters change; the page resets only if a text it reads changed. */
    method Navigate(newQ: Option<string>, newLocation: Option<string>)
      requires Valid()
      modifies this
      ensures Valid()
      ensures q == newQ && location == newLocation
      ensures selectedTypes == old(selectedTypes) && selectedExperience == old(selectedExperience)
      ensures selectedLocations == old(selectedLocations)
      ensures currentPage == if Query() != old(Query()) || LocationQuery() != old(LocationQuery()) then 1
                             else old(currentPage)
    {
      var changed := newQ.GetOr("") != Query() || newLocation.GetOr("") != LocationQuery();
      q, location := newQ, newLocation;
      if changed {
        currentPage := 1;
      }
    }

    /** "Previous": `setCurrentPage(p => Math.max(1, p - 1))` */
    method Previous()
      requires Valid()
      modifies this
      ensures Valid()
      ensures currentPage == Max(1, old(currentPage) - 1)
      ensures currentPage <= old(currentPage)
      ensures q == old(q) && location == old(location)
      ensures selectedTypes == old(selectedTypes) && selectedExperience == old(selectedExperience)
      ensures selectedLocations == old(selectedLocations)
    {
      currentPage := Max(1, currentPage - 1);
    }

    /** "Next", shown only when there is more than one page: `setCurrentPage(p => Math.min(totalPages, p + 1))` */
    method Next(totalPages: nat)
      requires Valid() && totalPages > 1
      modifies this
      ensures Valid()
      ensures currentPage == Min(totalPages, old(currentPage) + 1)
      ensures currentPage <= totalPages
      ensures q == old(q) && location == old(location)
      ensures selectedTypes == old(selectedTypes) && selectedExperience == old(selectedExperience)
      ensures selectedLocations == old(selectedLocations)
    {
      currentPage := Min(totalPages, currentPage + 1);
    }

    /** A numbered button of the strip. */
    method GoTo(totalPages: nat, pageNum: int)
      requires Valid() && totalPages > 1
      requires pageNum in PageWindow(totalPages, currentPage)
      modifies this
      ensures Valid()
      ensures currentPage == pageNum && 1 <= currentPage <= totalPages
      ensures q == old(q) && location == old(location)
      ensures selectedTypes == old(selectedTypes) && selectedExperience == old(selectedExperience)
      ensures selectedLocations == old(selectedLocations)
    {
      PageWindowLarge(totalPages, currentPage);
      currentPage := pageNum;
    }
  }
}
