/**
 * What the two project routes share: the `published` selection, the row order
 * (`order` ascending, then newest first), and the eight array columns, written
 * as JSON text and read back with `"[]"` standing in for an empty column.
 */
module ProjectRecords {
  import opened Wrappers
  import opened Collections
  import Json
  import opened Store

  // ---------------------------------------------------------------- selection and order

  /**
   * The `where` clause of the admin listings: no parameter selects every row,
   * `"true"` the published ones, any other value the unpublished ones.
   */
  function PublishedIs(param: Option<string>): ProjectRow -> bool {
    (r: ProjectRow) => param.None? || r.published == (param.value == "true")
  }

  lemma PublishedIsMeaning(param: Option<string>, r: ProjectRow)
    ensures param.None? ==> PublishedIs(param)(r)
    ensures param == Some("true") ==> (PublishedIs(param)(r) <==> r.published)
    ensures param.Some? && param.value != "true" ==> (PublishedIs(param)(r) <==> !r.published)
  {
  }

  /** `orderBy: [{ order: 'asc' }, { createdAt: 'desc' }]`. */
  predicate ProjectOrder(a: ProjectRow, b: ProjectRow) {
    a.order < b.order || (a.order == b.order && a.createdAt >= b.createdAt)
  }

  lemma ProjectOrderTotal()
    ensures TotalPreorder(ProjectOrder)
  {
  }

  /** The selected rows in listing order. */
  function Listing(rows: seq<ProjectRow>, param: Option<string>): (r: seq<ProjectRow>)
    ensures multiset(r) == multiset(Filter(rows, PublishedIs(param)))
  {
    SortBy(Filter(rows, PublishedIs(param)), ProjectOrder)
  }

  /** The listing holds exactly the selected rows, ordered by `order` and then newest first. */
  lemma ListingOrdered(rows: seq<ProjectRow>, param: Option<string>)
    ensures SortedBy(Listing(rows, param), ProjectOrder)
    ensures forall r :: r in Listing(rows, param) <==> r in rows && PublishedIs(param)(r)
    ensures forall i, j :: 0 <= i < j < |Listing(rows, param)| ==>
      Listing(rows, param)[i].order <= Listing(rows, param)[j].order
  {
    ProjectOrderTotal();
    SortBySorted(Filter(rows, PublishedIs(param)), ProjectOrder);
    forall r ensures r in Listing(rows, param) <==> r in rows && PublishedIs(param)(r) {
      SortByMembers(Filter(rows, PublishedIs(param)), ProjectOrder, r);
    }
  }

  // ---------------------------------------------------------------- array columns

  /** `JSON.parse(column || '[]')` for a column of strings; `None` where the parse would throw. */
  function DecodeStrings(column: Option<string>): Option<seq<string>> {
    Json.ParseStringArray(if column.None? || column.value == "" then "[]" else column.value)
  }

  function DecodeMetrics(column: Option<string>): Option<seq<Json.Metric>> {
    Json.ParseMetricArray(if column.None? || column.value == "" then "[]" else column.value)
  }

  /** `JSON.stringify(field || [])`. */
  function EncodeStrings(field: Option<seq<string>>): string {
    Json.StringifyStrings(field.GetOr([]))
  }

  function EncodeMetrics(field: Option<seq<Json.Metric>>): string {
    Json.StringifyMetrics(field.GetOr([]))
  }

  /** An empty or missing column reads as the empty array. */
  lemma EmptyColumnDecodes(column: Option<string>)
    requires column.None? || column.value == ""
    ensures DecodeStrings(column) == Some([])
    ensures DecodeMetrics(column) == Some([])
  {
    Json.StringArrayRoundTrip([]);
    Json.MetricArrayRoundTrip([]);
  }

  /** A written column reads back as the array that was written, the empty one for a missing field. */
  lemma ColumnRoundTrip(strings: Option<seq<string>>, metrics: Option<seq<Json.Metric>>)
    ensures DecodeStrings(Some(EncodeStrings(strings))) == Some(strings.GetOr([]))
    ensures DecodeMetrics(Some(EncodeMetrics(metrics))) == Some(metrics.GetOr([]))
  {
    Json.StringArrayRoundTrip(strings.GetOr([]));
    Json.MetricArrayRoundTrip(metrics.GetOr([]));
  }

  /** The eight array fields of a project, decoded. */
  datatype ProjectArrays = ProjectArrays(
    images: seq<string>,
    tags: seq<string>,
    techStack: seq<string>,
    languages: seq<string>,
    challenges: seq<string>,
    solutions: seq<string>,
    results: seq<string>,
    metrics: seq<Json.Metric>)

  /** The row's array columns decoded; `None` when one of them is not a JSON array of the expected shape. */
  function DecodeArrays(row: ProjectRow): (r: Option<ProjectArrays>)
    ensures r.Some? <==>
      DecodeStrings(row.images).Some? && DecodeStrings(row.tags).Some? && DecodeStrings(row.techStack).Some?
      && DecodeStrings(row.languages).Some? && DecodeStrings(row.challenges).Some?
      && DecodeStrings(row.solutions).Some? && DecodeStrings(row.results).Some? && DecodeMetrics(row.metrics).Some?
  {
    var images :- DecodeStrings(row.images);
    var tags :- DecodeStrings(row.tags);
    var techStack :- DecodeStrings(row.techStack);
    var languages :- DecodeStrings(row.languages);
    var challenges :- DecodeStrings(row.challenges);
    var solutions :- DecodeStrings(row.solutions);
    var results :- DecodeStrings(row.results);
    var metrics :- DecodeMetrics(row.metrics);
    Some(ProjectArrays(images, tags, techStack, languages, challenges, solutions, results, metrics))
  }

  /** Decoding reads the array columns only: the id and the creation time do not matter. */
  lemma DecodeIgnoresBookkeeping(row: ProjectRow, id: nat, createdAt: int)
    ensures DecodeArrays(row.(id := id, createdAt := createdAt)) == DecodeArrays(row)
  {
    var r2 := row.(id := id, createdAt := createdAt);
    assert r2.images == row.images && r2.tags == row.tags && r2.techStack == row.techStack;
    assert r2.languages == row.languages && r2.challenges == row.challenges && r2.solutions == row.solutions;
    assert r2.results == row.results && r2.metrics == row.metrics;
  }
}
