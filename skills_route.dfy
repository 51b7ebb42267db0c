/** `GET /api/skills`: the published skills, by `order` and then by name. */
module SkillsRoute {
  import opened Wrappers
  import opened Collections
  import opened Http
  import Text
  import opened Store
  import AdminSkillsRoute

  function Get(table: Option<seq<SkillRow>>): (r: Response<seq<SkillRow>>)
    ensures r.status == Ok <==> table.Some?
    ensures table.None? ==> r == JsonError(InternalServerError, InternalErrorMessage)
  {
    if table.None? then JsonError(InternalServerError, InternalErrorMessage)
    else JsonOk(AdminSkillsRoute.SkillListing(table.value, Some("true")))
  }

  /**
   * The list holds exactly the published skills, ordered by `order`, and by
   * name among equal orders; it is the admin list for `published=true`.
   */
  lemma PublishedSkillsInOrder(table: seq<SkillRow>)
    ensures Get(Some(table)) == AdminSkillsRoute.Get(Some(table), Some("true"))
    ensures forall s :: s in Get(Some(table)).body.value <==> s in table && s.published
    ensures forall i, j :: 0 <= i < j < |Get(Some(table)).body.value| ==>
      Get(Some(table)).body.value[i].order <= Get(Some(table)).body.value[j].order
    ensures forall i, j ::
      0 <= i < j < |Get(Some(table)).body.value| && Get(Some(table)).body.value[i].order == Get(Some(table)).body.value[j].order
      ==> Text.StringLe(Get(Some(table)).body.value[i].name, Get(Some(table)).body.value[j].name)
  {
    AdminSkillsRoute.SkillListingOrdered(table, Some("true"));
  }
}
