/**
 * `/api/admin/projects`: GET lists the project table, optionally restricted by
 * `published`, with the array columns decoded; POST, behind the bearer-token
 * gate, writes a project with its array fields encoded as JSON text.
 */
module AdminProjectsRoute {
  import opened Wrappers
  import opened Collections
  import opened Http
  import Json
  import Auth
  import opened Store
  import opened ProjectRecords

  /** A listed project: the row's fields, with the eight array columns replaced by their decoded arrays. */
  datatype AdminProject = AdminProject(row: ProjectRow, arrays: ProjectArrays)

  /** One row of the `map`: its fields with the arrays decoded; `None` where `JSON.parse` would throw. */
  function DecodeRow(row: ProjectRow): (r: Option<AdminProject>)
    ensures r.Some? <==> DecodeArrays(row).Some?
    ensures r.Some? ==> r.value.row == row && DecodeArrays(row) == Some(r.value.arrays)
  {
    match DecodeArrays(row)
    case None => None
    case Some(arrays) => Some(AdminProject(row, arrays))
  }

  /**
   * GET: 500 when the table cannot be read or a stored column is not a JSON
   * array; otherwise the listing in order, each row with its arrays decoded.
   */
  function Get(table: Option<seq<ProjectRow>>, published: Option<string>): (r: Response<seq<AdminProject>>)
    ensures r.status == Ok || r.status == InternalServerError
    ensures r.status == InternalServerError <==>
      table.None? || exists i :: 0 <= i < |Listing(table.value, published)| && DecodeArrays(Listing(table.value, published)[i]).None?
    ensures r.status == InternalServerError ==> r.body == Failure(InternalErrorMessage)
    ensures r.status == Ok ==>
      r.body.Success? && |r.body.value| == |Listing(table.value, published)|
      && forall i :: 0 <= i < |r.body.value| ==>
           r.body.value[i].row == Listing(table.value, published)[i]
           && DecodeArrays(r.body.value[i].row) == Some(r.body.value[i].arrays)
  {
    if table.None? then JsonError(InternalServerError, InternalErrorMessage)
    else
      match MapOption(Listing(table.value, published), DecodeRow)
      case None => JsonError(InternalServerError, InternalErrorMessage)
      case Some(projects) => JsonOk(projects)
  }

  /** A POST body: the project's scalar fields, and the array fields as sent (absent ones `None`). */
  datatype ProjectInput = ProjectInput(
    title: string,
    description: string,
    longDescription: Option<string>,
    image: string,
    images: Option<seq<string>>,
    tags: Option<seq<string>>,
    techStack: Option<seq<string>>,
    languages: Option<seq<string>>,
    status: string,
    difficulty: string,
    category: string,
    liveUrl: Option<string>,
    githubUrl: Option<string>,
    featured: bool,
    year: int,
    duration: Option<string>,
    teamSize: Option<int>,
    role: Option<string>,
    challenges: Option<seq<string>>,
    solutions: Option<seq<string>>,
    results: Option<seq<string>>,
    metrics: Option<seq<Json.Metric>>,
    published: bool,
    order: int)

  /**
   * `projectData`: the body spread into a row, each array field replaced by
   * its JSON text. The id and creation time are the database's.
   */
  function ToRow(d: ProjectInput): ProjectRow {
    ProjectRow(0, d.title, d.description, d.longDescription, d.image,
      Some(EncodeStrings(d.images)), Some(EncodeStrings(d.tags)),
      Some(EncodeStrings(d.techStack)), Some(EncodeStrings(d.languages)),
      d.status, d.difficulty, d.category, d.liveUrl, d.githubUrl, d.featured, d.year,
      d.duration, d.teamSize, d.role,
      Some(EncodeStrings(d.challenges)), Some(EncodeStrings(d.solutions)),
      Some(EncodeStrings(d.results)), Some(EncodeMetrics(d.metrics)),
      d.published, d.order, 0)
  }

  /** The arrays a POST body stands for: each field as sent, `[]` when absent. */
  function InputArrays(d: ProjectInput): ProjectArrays {
    ProjectArrays(d.images.GetOr([]), d.tags.GetOr([]), d.techStack.GetOr([]), d.languages.GetOr([]),
      d.challenges.GetOr([]), d.solutions.GetOr([]), d.results.GetOr([]), d.metrics.GetOr([]))
  }

  /** A stored row decodes to the arrays of the body it was written from, whatever id and time it got. */
  lemma ToRowRoundTrip(d: ProjectInput, id: nat, createdAt: int)
    ensures DecodeArrays(ToRow(d).(id := id, createdAt := createdAt)) == Some(InputArrays(d))
  {
    ColumnRoundTrip(d.images, d.metrics);
    ColumnRoundTrip(d.tags, None);
    ColumnRoundTrip(d.techStack, None);
    ColumnRoundTrip(d.languages, None);
    ColumnRoundTrip(d.challenges, None);
    ColumnRoundTrip(d.solutions, None);
    ColumnRoundTrip(d.results, None);
  }

  /** The scalar fields pass through the spread unchanged. */
  lemma ToRowKeepsScalars(d: ProjectInput)
    ensures ToRow(d).title == d.title && ToRow(d).description == d.description
    ensures ToRow(d).status == d.status && ToRow(d).year == d.year
    ensures ToRow(d).published == d.published && ToRow(d).order == d.order
  {
  }

  /**
   * POST: 401 and no write without a valid bearer token, 500 and no write for
   * an unreadable body, otherwise one new row built from the body.
   */
  method Post(db: Database, lib: Auth.JwtLibrary, secret: string, authorization: Option<string>, now: int,
              body: Option<ProjectInput>) returns (r: Response<ProjectRow>)
    requires db.Valid()
    modifies db
    ensures db.Valid()
    ensures db.skills == old(db.skills) && db.messages == old(db.messages) && db.users == old(db.users)
    ensures !Auth.GetAuthFromRequest(lib, secret, authorization, now).isAuthenticated ==>
      r == JsonError(Unauthorized, UnauthorizedMessage) && db.projects == old(db.projects)
    ensures Auth.GetAuthFromRequest(lib, secret, authorization, now).isAuthenticated && body.None? ==>
      r == JsonError(InternalServerError, InternalErrorMessage) && db.projects == old(db.projects)
    ensures Auth.GetAuthFromRequest(lib, secret, authorization, now).isAuthenticated && body.Some? ==>
      r.status == Ok && r.body.Success?
      && r.body.value == ToRow(body.value).(id := old(db.nextId), createdAt := now)
      && db.projects == old(db.projects) + [r.body.value]
  {
    var auth := Auth.GetAuthFromRequest(lib, secret, authorization, now);
    if !auth.isAuthenticated {
      return JsonError(Unauthorized, UnauthorizedMessage);
    }
    if body.None? {
      return JsonError(InternalServerError, InternalErrorMessage);
    }
    var row := db.CreateProject(ToRow(body.value), now);
    r := JsonOk(row);
  }

  /** GET succeeds exactly when the table is readable and every listed row decodes. */
  lemma GetOkIff(table: seq<ProjectRow>, published: Option<string>)
    ensures Get(Some(table), published).status == Ok <==>
      forall row :: row in Listing(table, published) ==> DecodeArrays(row).Some?
  {
    var l := Listing(table, published);
    MapOptionMembers(l, DecodeRow);
    assert forall row :: row in l ==> (DecodeRow(row).Some? <==> DecodeArrays(row).Some?);
  }

  /** A successful GET lists every selected row, with its decoded arrays. */
  lemma GetListsRow(table: seq<ProjectRow>, published: Option<string>, row: ProjectRow)
    requires Get(Some(table), published).status == Ok && row in Listing(table, published)
    ensures DecodeRow(row).Some? && DecodeRow(row).value in Get(Some(table), published).body.value
  {
    var l := Listing(table, published);
    var i :| 0 <= i < |l| && l[i] == row;
    var out := Get(Some(table), published).body.value;
    assert out[i].row == row && DecodeArrays(row) == Some(out[i].arrays);
  }

  /**
   * A project written by POST is listed by a following GET (with no
   * `published` parameter) with exactly the arrays that were posted.
   */
  lemma PostThenGet(table: seq<ProjectRow>, d: ProjectInput, id: nat, createdAt: int)
    requires Get(Some(table), None).status == Ok
    ensures Get(Some(table + [ToRow(d).(id := id, createdAt := createdAt)]), None).status == Ok
    ensures AdminProject(ToRow(d).(id := id, createdAt := createdAt), InputArrays(d))
      in Get(Some(table + [ToRow(d).(id := id, createdAt := createdAt)]), None).body.value
  {
    var row := ToRow(d).(id := id, createdAt := createdAt);
    var t2 := table + [row];
    ToRowRoundTrip(d, id, createdAt);
    GetOkIff(table, None);
    ListingOrdered(table, None);
    ListingOrdered(t2, None);
    forall r | r in Listing(t2, None) ensures DecodeArrays(r).Some? {
      if r != row {
        assert r in table && PublishedIs(None)(r);
      }
    }
    GetOkIff(t2, None);
    assert row in t2 && PublishedIs(None)(row);
    GetListsRow(t2, None, row);
  }
}
