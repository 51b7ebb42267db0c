/**
 * `GET /api/projects`: the public project list. Published rows only, in the
 * same order as the admin listing, each projected onto the public fields with
 * its array columns decoded.
 */
module ProjectsRoute {
  import opened Wrappers
  import opened Collections
  import opened Http
  import Json
  import opened Store
  import opened ProjectRecords
  import AdminProjectsRoute

  /** The public shape of a project: no `published`, `order` or timestamps. */
  datatype PublicProject = PublicProject(
    id: nat,
    title: string,
    description: string,
    longDescription: Option<string>,
    image: string,
    images: seq<string>,
    tags: seq<string>,
    techStack: seq<string>,
    languages: seq<string>,
    status: string,
    difficulty: string,
    category: string,
    liveUrl: Option<string>,
    githubUrl: Option<string>,
    featured: bool,
    year: int,
    duration: Option<string>,
    teamSize: Option<int>,
    role: Option<string>,
    challenges: seq<string>,
    solutions: seq<string>,
    results: seq<string>,
    metrics: seq<Json.Metric>)

  function Publish(r: ProjectRow, a: ProjectArrays): PublicProject {
    PublicProject(r.id, r.title, r.description, r.longDescription, r.image,
      a.images, a.tags, a.techStack, a.languages,
      r.status, r.difficulty, r.category, r.liveUrl, r.githubUrl, r.featured, r.year,
      r.duration, r.teamSize, r.role,
      a.challenges, a.solutions, a.results, a.metrics)
  }

  /** The projection does not see `published`, `order` or `createdAt`. */
  lemma PublishHidesBookkeeping(r: ProjectRow, a: ProjectArrays, published: bool, order: int, createdAt: int)
    ensures Publish(r.(published := published, order := order, createdAt := createdAt), a) == Publish(r, a)
  {
  }

  /** Any other field of the row shows in the projection: two rows that project alike agree on it. */
  lemma PublishKeepsFields(r1: ProjectRow, r2: ProjectRow, a: ProjectArrays)
    requires Publish(r1, a) == Publish(r2, a)
    ensures r1.(published := r2.published, order := r2.order, createdAt := r2.createdAt,
                images := r2.images, tags := r2.tags, techStack := r2.techStack, languages := r2.languages,
                challenges := r2.challenges, solutions := r2.solutions, results := r2.results,
                metrics := r2.metrics) == r2
  {
  }

  function PublishRow(row: ProjectRow): (r: Option<PublicProject>)
    ensures r.Some? <==> DecodeArrays(row).Some?
    ensures r.Some? ==> r.value == Publish(row, DecodeArrays(row).value)
  {
    match DecodeArrays(row)
    case None => None
    case Some(a) => Some(Publish(row, a))
  }

  const PublishedOnly: Option<string> := Some("true")

  /** The public listing: the published rows, in order, projected; 500 when the query or a parse fails. */
  function Get(table: Option<seq<ProjectRow>>): (r: Response<seq<PublicProject>>)
    ensures r.status == Ok || r.status == InternalServerError
    ensures r.status == InternalServerError ==> r.body == Failure(InternalErrorMessage)
    ensures r.status == Ok ==>
      table.Some? && r.body.Success? && |r.body.value| == |Listing(table.value, PublishedOnly)|
      && forall i :: 0 <= i < |r.body.value| ==>
           Listing(table.value, PublishedOnly)[i].published
           && Some(r.body.value[i]) == PublishRow(Listing(table.value, PublishedOnly)[i])
  {
    if table.None? then JsonError(InternalServerError, InternalErrorMessage)
    else
      var l := Listing(table.value, PublishedOnly);
      assert forall i :: 0 <= i < |l| ==> l[i].published by {
        ListingOrdered(table.value, PublishedOnly);
        forall i | 0 <= i < |l| ensures l[i].published {
          assert l[i] in l;
        }
      }
      match MapOption(l, PublishRow)
      case None => JsonError(InternalServerError, InternalErrorMessage)
      case Some(projects) => JsonOk(projects)
  }

  /**
   * The public list is the admin list for `published=true`, projected: both
   * fail together, and otherwise agree entry by entry.
   */
  lemma PublicIsProjectedAdminListing(table: Option<seq<ProjectRow>>)
    ensures Get(table).status == AdminProjectsRoute.Get(table, PublishedOnly).status
    ensures Get(table).status == Ok ==>
      |Get(table).body.value| == |AdminProjectsRoute.Get(table, PublishedOnly).body.value|
      && forall i :: 0 <= i < |Get(table).body.value| ==>
           Get(table).body.value[i] == Publish(AdminProjectsRoute.Get(table, PublishedOnly).body.value[i].row,
                                               AdminProjectsRoute.Get(table, PublishedOnly).body.value[i].arrays)
  {
    if table.Some? {
      var l := Listing(table.value, PublishedOnly);
      MapOptionMembers(l, PublishRow);
      MapOptionMembers(l, AdminProjectsRoute.DecodeRow);
      assert forall row :: PublishRow(row).Some? <==> AdminProjectsRoute.DecodeRow(row).Some?;
    }
  }
}
