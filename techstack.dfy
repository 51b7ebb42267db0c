/**
 * The tech-stack section: category tabs, the proficiency label of each item,
 * its "Expert Level" badge, and the Languages and Frameworks counters.
 */
module TechStackSection {
  import opened Collections
  import opened PortfolioTypes
  import Proficiency
  import CategoryTabs

  function CategoryOf(t: TechItem): string {
    TechCategoryName(t.category)
  }

  function Categories(items: seq<TechItem>): (r: seq<string>)
    ensures |r| >= 1 && r[0] == CategoryTabs.AllTab
    ensures forall c :: c in r[1..] <==> exists t :: t in items && CategoryOf(t) == c
    ensures NoDuplicates(r[1..])
  {
    CategoryTabs.Tabs(items, CategoryOf)
  }

  function FilteredTechStack(items: seq<TechItem>, tab: string): (r: seq<TechItem>)
    ensures tab == CategoryTabs.AllTab ==> r == items
    ensures tab != CategoryTabs.AllTab ==> forall t :: t in r <==> t in items && CategoryOf(t) == tab
  {
    CategoryTabs.Selected(items, CategoryOf, tab)
  }

  /** `getProficiencyLevel`: the label shown for an item. */
  function ProficiencyLabel(t: TechItem): string {
    Proficiency.BandLabel(Proficiency.BandOf(t.proficiency))
  }

  /** The badge is drawn on its own test, `proficiency >= 90`. */
  predicate ShowsExpertBadge(t: TechItem) {
    t.proficiency >= 90
  }

  /** The badge appears exactly on the items labelled Expert. */
  lemma ExpertBadgeIffExpertLabel(t: TechItem)
    ensures ShowsExpertBadge(t) <==> ProficiencyLabel(t) == "Expert"
  {
    var b := Proficiency.BandOf(t.proficiency);
    if ProficiencyLabel(t) == "Expert" {
      Proficiency.BandPresentationInjective(b, Proficiency.Expert);
    }
  }

  predicate IsLanguage(t: TechItem) {
    t.category == Language
  }

  predicate IsFrameworkOrLibrary(t: TechItem) {
    t.category == Framework || t.category == Library
  }

  /** The two counters never count an item twice and together count at most every item. */
  lemma LanguageAndFrameworkCountsDisjoint(items: seq<TechItem>)
    ensures Count(items, IsLanguage) + Count(items, IsFrameworkOrLibrary)
         == Count(items, (t: TechItem) => t.category in {Language, Framework, Library})
    ensures Count(items, IsLanguage) + Count(items, IsFrameworkOrLibrary) <= |items|
  {
    CountDisjointSum(items, IsLanguage, IsFrameworkOrLibrary,
      (t: TechItem) => t.category in {Language, Framework, Library});
  }
}
