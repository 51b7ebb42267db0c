/**
 * The projects page: the shared catalogue filter (module `Catalogue`) plus the
 * four summary figures shown in its header.
 */
module ProjectsPage {
  import opened Wrappers
  import opened Collections
  import opened PortfolioTypes

  datatype PageStats = PageStats(total: nat, completed: nat, featured: nat, technologies: nat)

  /** `projects.flatMap(p => p.techStack)`. */
  function AllTech(ps: seq<Project>): (r: seq<string>)
    ensures forall t :: t in r <==> exists p :: p in ps && t in p.techStack
  {
    if ps == [] then []
    else
      var rest := AllTech(ps[1..]);
      assert forall p :: p in ps <==> p == ps[0] || p in ps[1..];
      ps[0].techStack + rest
  }

  predicate IsCompleted(p: Project) {
    p.status == Completed
  }

  /** `featured` is optional; only a present `true` counts. */
  predicate IsFeatured(p: Project) {
    p.featured == Some(true)
  }

  /**
   * Total projects, completed projects, featured projects, and the number of
   * distinct technologies over all tech stacks.
   */
  function Stats(ps: seq<Project>): (r: PageStats)
    ensures r.total == |ps|
    ensures r.completed == |Filter(ps, IsCompleted)| && r.featured == |Filter(ps, IsFeatured)|
    ensures r.completed <= r.total && r.featured <= r.total
    ensures r.technologies == |set t | t in AllTech(ps)|
    ensures r.technologies <= |AllTech(ps)|
  {
    DedupCountsDistinct(AllTech(ps));
    PageStats(|ps|, Count(ps, IsCompleted), Count(ps, IsFeatured), |Dedup(AllTech(ps))|)
  }

  /**
   * One more project adds one to `completed` exactly when its status is
   * completed, and one to `featured` exactly when it is featured; the total
   * grows by one.
   */
  lemma {:induction false} StatsAppend(ps: seq<Project>, p: Project)
    ensures Stats(ps + [p]).total == Stats(ps).total + 1
    ensures Stats(ps + [p]).completed == Stats(ps).completed + (if p.status == Completed then 1 else 0)
    ensures Stats(ps + [p]).featured == Stats(ps).featured + (if p.featured == Some(true) then 1 else 0)
  {
    FilterConcat(ps, [p], IsCompleted);
    FilterConcat(ps, [p], IsFeatured);
  }

  /** No technology is counted unless some project lists one, and every listed one is counted. */
  lemma TechnologiesZeroIff(ps: seq<Project>)
    ensures Stats(ps).technologies == 0 <==> forall p :: p in ps ==> p.techStack == []
  {
    var all := AllTech(ps);
    if exists p :: p in ps && p.techStack != [] {
      var p :| p in ps && p.techStack != [];
      assert p.techStack[0] in all;
      assert p.techStack[0] in Dedup(all);
    } else {
      assert (set t | t in all) == {};
    }
  }
}
