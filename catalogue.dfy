/**
 * The project catalogue filter shared by the projects page and the home-page
 * projects section: a case-insensitive search over title and description,
 * AND across filter kinds, OR within the tech-stack and language
 * multi-selects, and `""` as "no constraint" for the single-valued kinds.
 * The filter state is a browser object whose handlers replace it.
 */
module Catalogue {
  import opened Wrappers
  import opened Collections
  import opened Text
  import opened PortfolioTypes

  predicate MatchesSearch(p: Project, term: string) {
    Contains(Lower(p.title), Lower(term)) || Contains(Lower(p.description), Lower(term))
  }

  /** A multi-select: nothing selected, or some selected value is among the project's values. */
  predicate MatchesAny(selected: seq<string>, values: seq<string>) {
    |selected| == 0 || exists v :: v in selected && v in values
  }

  /** A single-valued selection: `""` (falsy) is no constraint, otherwise equality. */
  predicate MatchesOption(selected: string, actual: string) {
    selected == "" || actual == selected
  }

  /** All seven conditions; the year is compared through its decimal string. */
  predicate ProjectMatches(f: FilterOptions, term: string, p: Project) {
    && MatchesSearch(p, term)
    && MatchesAny(f.techStack, p.techStack)
    && MatchesAny(f.languages, p.languages)
    && MatchesOption(f.status, StatusName(p.status))
    && MatchesOption(f.difficulty, DifficultyName(p.difficulty))
    && MatchesOption(f.category, ProjectCategoryName(p.category))
    && MatchesOption(f.year, IntToString(p.year))
  }

  function FilteredProjects(ps: seq<Project>, f: FilterOptions, term: string): (r: seq<Project>)
    ensures |r| <= |ps|
    ensures forall p :: p in r <==> p in ps && ProjectMatches(f, term, p)
  {
    Filter(ps, p => ProjectMatches(f, term, p))
  }

  /** With no filter and an empty search every project is kept: `""` occurs in every title. */
  lemma UnfilteredKeepsAll(ps: seq<Project>)
    ensures FilteredProjects(ps, NoFilters, "") == ps
  {
    forall p | p in ps ensures ProjectMatches(NoFilters, "", p) {
      ContainsEmpty(Lower(p.title));
    }
    FilterKeepsAll(ps, p => ProjectMatches(NoFilters, "", p));
  }

  /** The result is the catalogue with entries removed, in catalogue order. */
  lemma FilteredProjectsInOrder(ps: seq<Project>, f: FilterOptions, term: string)
    ensures IsSubsequence(FilteredProjects(ps, f, term), ps)
  {
    FilterIsSubsequence(ps, p => ProjectMatches(f, term, p));
  }

  /** The search term's case does not matter. */
  lemma SearchIgnoresCase(ps: seq<Project>, f: FilterOptions, term: string)
    ensures FilteredProjects(ps, f, Upper(term)) == FilteredProjects(ps, f, term)
    ensures FilteredProjects(ps, f, Lower(term)) == FilteredProjects(ps, f, term)
  {
    LowerOfUpper(term);
    LowerIdempotent(term);
    FilterExtensional(ps, p => ProjectMatches(f, term, p), p => ProjectMatches(f, Upper(term), p));
    FilterExtensional(ps, p => ProjectMatches(f, term, p), p => ProjectMatches(f, Lower(term), p));
  }

  // ---------------------------------------------------------------- filter updates

  /** The six keys of the filter state. */
  datatype FilterKind = TechStackKind | LanguagesKind | StatusKind | DifficultyKind | CategoryKind | YearKind {
    predicate IsMultiSelect() {
      TechStackKind? || LanguagesKind?
    }
  }

  function ListOf(f: FilterOptions, kind: FilterKind): seq<string>
    requires kind.IsMultiSelect()
  {
    if kind.TechStackKind? then f.techStack else f.languages
  }

  function OptionOf(f: FilterOptions, kind: FilterKind): string
    requires !kind.IsMultiSelect()
  {
    match kind
    case StatusKind => f.status
    case DifficultyKind => f.difficulty
    case CategoryKind => f.category
    case YearKind => f.year
  }

  /** The two states agree on the key `kind`. */
  predicate SameAt(a: FilterOptions, b: FilterOptions, kind: FilterKind) {
    match kind
    case TechStackKind => a.techStack == b.techStack
    case LanguagesKind => a.languages == b.languages
    case StatusKind => a.status == b.status
    case DifficultyKind => a.difficulty == b.difficulty
    case CategoryKind => a.category == b.category
    case YearKind => a.year == b.year
  }

  function WithList(f: FilterOptions, kind: FilterKind, l: seq<string>): (r: FilterOptions)
    requires kind.IsMultiSelect()
    ensures ListOf(r, kind) == l
    ensures forall k :: k != kind ==> SameAt(r, f, k)
  {
    if kind.TechStackKind? then f.(techStack := l) else f.(languages := l)
  }

  function WithOption(f: FilterOptions, kind: FilterKind, v: string): (r: FilterOptions)
    requires !kind.IsMultiSelect()
    ensures OptionOf(r, kind) == v
    ensures forall k :: k != kind ==> SameAt(r, f, k)
  {
    match kind
    case StatusKind => f.(status := v)
    case DifficultyKind => f.(difficulty := v)
    case CategoryKind => f.(category := v)
    case YearKind => f.(year := v)
  }

  /** A multi-select click: append the value when absent, remove every copy when present. */
  function ToggleValue(s: seq<string>, v: string): (r: seq<string>)
    ensures v in s ==> v !in r && forall x :: x != v ==> (x in r <==> x in s)
    ensures v in s ==> IsSubsequence(r, s)
    ensures v !in s ==> r == s + [v]
  {
    if v in s then
      FilterIsSubsequence(s, x => x != v);
      Filter(s, x => x != v)
    else s + [v]
  }

  /** Toggling a value that was absent twice gives the list back. */
  lemma ToggleTwiceRestores(s: seq<string>, v: string)
    requires v !in s
    ensures ToggleValue(ToggleValue(s, v), v) == s
  {
    var notV := x => x != v;
    FilterConcat(s, [v], notV);
    FilterKeepsAll(s, notV);
    assert Filter([v], notV) == [];
  }

  /** A single-valued click: re-choosing the active option clears it, another option replaces it. */
  function ChooseOption(current: string, v: string): (r: string)
    ensures current == v ==> r == ""
    ensures current != v ==> r == v
  {
    if current == v then "" else v
  }

  function ApplyFilterChange(f: FilterOptions, kind: FilterKind, v: string): (r: FilterOptions)
    ensures kind.IsMultiSelect() ==> ListOf(r, kind) == ToggleValue(ListOf(f, kind), v)
    ensures !kind.IsMultiSelect() ==> OptionOf(r, kind) == ChooseOption(OptionOf(f, kind), v)
    ensures forall k :: k != kind ==> SameAt(r, f, k)
  {
    if kind.IsMultiSelect() then WithList(f, kind, ToggleValue(ListOf(f, kind), v))
    else WithOption(f, kind, ChooseOption(OptionOf(f, kind), v))
  }

  /** Two clicks on the same value of any kind, starting from an unselected value, restore the state. */
  lemma FilterChangeTwiceRestores(f: FilterOptions, kind: FilterKind, v: string)
    requires kind.IsMultiSelect() ==> v !in ListOf(f, kind)
    requires !kind.IsMultiSelect() ==> OptionOf(f, kind) == ""
    ensures ApplyFilterChange(ApplyFilterChange(f, kind, v), kind, v) == f
  {
    if kind.IsMultiSelect() {
      ToggleTwiceRestores(ListOf(f, kind), v);
    }
  }

  /** Choosing a value for a single-valued filter that was off never enlarges the result. */
  lemma ChoosingOptionNarrows(ps: seq<Project>, f: FilterOptions, kind: FilterKind, v: string, term: string)
    requires !kind.IsMultiSelect() && OptionOf(f, kind) == ""
    ensures IsSubsequence(FilteredProjects(ps, ApplyFilterChange(f, kind, v), term), FilteredProjects(ps, f, term))
  {
    var g := ApplyFilterChange(f, kind, v);
    FilterMonotone(ps, p => ProjectMatches(g, term, p), p => ProjectMatches(f, term, p));
  }

  /** Selecting the first value of a multi-select never enlarges the result. */
  lemma FirstValueNarrows(ps: seq<Project>, f: FilterOptions, kind: FilterKind, v: string, term: string)
    requires kind.IsMultiSelect() && ListOf(f, kind) == []
    ensures IsSubsequence(FilteredProjects(ps, ApplyFilterChange(f, kind, v), term), FilteredProjects(ps, f, term))
  {
    var g := ApplyFilterChange(f, kind, v);
    FilterMonotone(ps, p => ProjectMatches(g, term, p), p => ProjectMatches(f, term, p));
  }

  /** Once a multi-select has a value, adding another never shrinks the result (OR within a kind). */
  lemma FurtherValueWidens(ps: seq<Project>, f: FilterOptions, kind: FilterKind, v: string, term: string)
    requires kind.IsMultiSelect() && ListOf(f, kind) != [] && v !in ListOf(f, kind)
    ensures IsSubsequence(FilteredProjects(ps, f, term), FilteredProjects(ps, ApplyFilterChange(f, kind, v), term))
  {
    var g := ApplyFilterChange(f, kind, v);
    forall p | p in ps && ProjectMatches(f, term, p) ensures ProjectMatches(g, term, p) {
      var sel := ListOf(f, kind);
      var w :| w in sel && w in (if kind.TechStackKind? then p.techStack else p.languages);
      assert w in ListOf(g, kind);
    }
    FilterMonotone(ps, p => ProjectMatches(f, term, p), p => ProjectMatches(g, term, p));
  }

  /**
   * The filter state of the projects page and of the home-page projects
   * section: both hold the same four pieces of state and the same handlers.
   */
  class ProjectBrowser {
    const projects: seq<Project>
    var searchTerm: string
    var showFilters: bool
    var filters: FilterOptions

    constructor (projects: seq<Project>)
      ensures this.projects == projects
      ensures searchTerm == "" && !showFilters && filters == NoFilters
      ensures Visible() == projects
    {
      this.projects := projects;
      searchTerm := "";
      showFilters := false;
      filters := NoFilters;
      new;
      UnfilteredKeepsAll(projects);
    }

    /** The projects on screen. */
    function Visible(): (r: seq<Project>)
      reads this
      ensures forall p :: p in r <==> p in projects && ProjectMatches(filters, searchTerm, p)
    {
      FilteredProjects(projects, filters, searchTerm)
    }

    method SetSearchTerm(t: string)
      modifies this
      ensures searchTerm == t
      ensures filters == old(filters) && showFilters == old(showFilters)
    {
      searchTerm := t;
    }

    method ToggleShowFilters()
      modifies this
      ensures showFilters == !old(showFilters)
      ensures filters == old(filters) && searchTerm == old(searchTerm)
    {
      showFilters := !showFilters;
    }

    method HandleFilterChange(kind: FilterKind, v: string)
      modifies this
      ensures filters == ApplyFilterChange(old(filters), kind, v)
      ensures searchTerm == old(searchTerm) && showFilters == old(showFilters)
    {
      filters := ApplyFilterChange(filters, kind, v);
    }

    /** Back to the initial state: every filter off, empty search, the whole catalogue visible. */
    method ClearFilters()
      modifies this
      ensures filters == NoFilters && searchTerm == ""
      ensures showFilters == old(showFilters)
      ensures Visible() == projects
    {
      filters := NoFilters;
      searchTerm := "";
      UnfilteredKeepsAll(projects);
    }
  }
}
