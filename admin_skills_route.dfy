/**
 * `/api/admin/skills`: GET lists the skill table, optionally restricted by
 * `published`, ordered by `order` and then by name; POST, behind the
 * bearer-token gate, stores the body as one new skill.
 */
module AdminSkillsRoute {
  import opened Wrappers
  import opened Collections
  import opened Http
  import Text
  import Auth
  import opened Store

  /** The `where` clause: no parameter selects all, `"true"` published skills, anything else unpublished ones. */
  function PublishedIs(param: Option<string>): SkillRow -> bool {
    (s: SkillRow) => param.None? || s.published == (param.value == "true")
  }

  /**
   * `orderBy: [{ order: 'asc' }, { name: 'asc' }]`, with names compared by
   * code point; the database's own collation is not modelled.
   */
  predicate SkillOrder(a: SkillRow, b: SkillRow) {
    a.order < b.order || (a.order == b.order && Text.StringLe(a.name, b.name))
  }

  lemma SkillOrderTotal()
    ensures TotalPreorder(SkillOrder)
  {
    forall a, b ensures SkillOrder(a, b) || SkillOrder(b, a) {
      Text.StringLeTotal(a.name, b.name);
    }
    forall a, b, c | SkillOrder(a, b) && SkillOrder(b, c) ensures SkillOrder(a, c) {
      if a.order == b.order == c.order {
        Text.StringLeTransitive(a.name, b.name, c.name);
      }
    }
  }

  function SkillListing(rows: seq<SkillRow>, param: Option<string>): (r: seq<SkillRow>)
    ensures multiset(r) == multiset(Filter(rows, PublishedIs(param)))
  {
    SortBy(Filter(rows, PublishedIs(param)), SkillOrder)
  }

  /** The listing holds exactly the selected skills, by `order`, equal orders by name. */
  lemma SkillListingOrdered(rows: seq<SkillRow>, param: Option<string>)
    ensures forall s :: s in SkillListing(rows, param) <==> s in rows && PublishedIs(param)(s)
    ensures forall i, j :: 0 <= i < j < |SkillListing(rows, param)| ==>
      SkillListing(rows, param)[i].order <= SkillListing(rows, param)[j].order
    ensures forall i, j :: 0 <= i < j < |SkillListing(rows, param)| && SkillListing(rows, param)[i].order == SkillListing(rows, param)[j].order ==>
      Text.StringLe(SkillListing(rows, param)[i].name, SkillListing(rows, param)[j].name)
  {
    SkillOrderTotal();
    SortBySorted(Filter(rows, PublishedIs(param)), SkillOrder);
    forall s ensures s in SkillListing(rows, param) <==> s in rows && PublishedIs(param)(s) {
      SortByMembers(Filter(rows, PublishedIs(param)), SkillOrder, s);
    }
  }

  function Get(table: Option<seq<SkillRow>>, published: Option<string>): (r: Response<seq<SkillRow>>)
    ensures r.status == Ok <==> table.Some?
    ensures table.None? ==> r == JsonError(InternalServerError, InternalErrorMessage)
    ensures table.Some? ==> r.body == Success(SkillListing(table.value, published))
  {
    if table.None? then JsonError(InternalServerError, InternalErrorMessage)
    else JsonOk(SkillListing(table.value, published))
  }

  /** A POST body: the skill's columns as sent; nothing checks the level's range. */
  datatype SkillInput = SkillInput(
    name: string,
    category: string,
    level: int,
    yearsOfExperience: int,
    icon: Option<string>,
    description: Option<string>,
    published: bool,
    order: int)

  function ToSkillRow(d: SkillInput, id: nat): SkillRow {
    SkillRow(id, d.name, d.category, d.level, d.yearsOfExperience, d.icon, d.description, d.published, d.order)
  }

  /**
   * POST: 401 and no write without a valid bearer token, 500 and no write for
   * an unreadable body, otherwise the body stored as one new skill.
   */
  method Post(db: Database, lib: Auth.JwtLibrary, secret: string, authorization: Option<string>, now: int,
              body: Option<SkillInput>) returns (r: Response<SkillRow>)
    requires db.Valid()
    modifies db
    ensures db.Valid()
    ensures db.projects == old(db.projects) && db.messages == old(db.messages) && db.users == old(db.users)
    ensures !Auth.GetAuthFromRequest(lib, secret, authorization, now).isAuthenticated ==>
      r == JsonError(Unauthorized, UnauthorizedMessage) && db.skills == old(db.skills)
    ensures Auth.GetAuthFromRequest(lib, secret, authorization, now).isAuthenticated && body.None? ==>
      r == JsonError(InternalServerError, InternalErrorMessage) && db.skills == old(db.skills)
    ensures Auth.GetAuthFromRequest(lib, secret, authorization, now).isAuthenticated && body.Some? ==>
      r == JsonOk(ToSkillRow(body.value, old(db.nextId)))
      && db.skills == old(db.skills) + [ToSkillRow(body.value, old(db.nextId))]
  {
    var auth := Auth.GetAuthFromRequest(lib, secret, authorization, now);
    if !auth.isAuthenticated {
      return JsonError(Unauthorized, UnauthorizedMessage);
    }
    if body.None? {
      return JsonError(InternalServerError, InternalErrorMessage);
    }
    var d := body.value;
    var row := db.CreateSkill(ToSkillRow(d, 0));
    r := JsonOk(row);
  }

  /** A stored skill is listed back by GET with the level it was posted with, in range or not. */
  lemma PostedSkillListed(table: seq<SkillRow>, d: SkillInput, id: nat)
    ensures ToSkillRow(d, id) in Get(Some(table + [ToSkillRow(d, id)]), None).body.value
    ensures ToSkillRow(d, id).level == d.level
  {
    SkillListingOrdered(table + [ToSkillRow(d, id)], None);
  }
}
