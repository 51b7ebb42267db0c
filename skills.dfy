/**
 * The skills section: category tabs, grouping into per-category buckets, the
 * experience-level counts and the top-ten list, which sorts the shared skill
 * array in place by level, highest first.
 */
module SkillsSection {
  import opened Collections
  import opened PortfolioTypes
  import Proficiency
  import CategoryTabs

  function CategoryOf(s: Skill): string {
    SkillCategoryName(s.category)
  }

  /** The skills section's tabs: `'all'` and then each category present, once. */
  function Categories(skills: seq<Skill>): (r: seq<string>)
    ensures |r| >= 1 && r[0] == CategoryTabs.AllTab
    ensures forall c :: c in r[1..] <==> exists s :: s in skills && CategoryOf(s) == c
    ensures NoDuplicates(r)
  {
    var r := CategoryTabs.Tabs(skills, CategoryOf);
    forall j | 1 <= j < |r| ensures r[j] != CategoryTabs.AllTab {
      assert r[j] in r[1..];
      var s :| s in skills && CategoryOf(s) == r[j];
    }
    assert forall j, k :: 1 <= j < k < |r| ==> r[1..][j - 1] == r[j] && r[1..][k - 1] == r[k];
    r
  }

  function FilteredSkills(skills: seq<Skill>, tab: string): (r: seq<Skill>)
    ensures tab == CategoryTabs.AllTab ==> r == skills
    ensures tab != CategoryTabs.AllTab ==> forall s :: s in r <==> s in skills && CategoryOf(s) == tab
  {
    CategoryTabs.Selected(skills, CategoryOf, tab)
  }

  // ---------------------------------------------------------------- grouping

  function OfCategory(c: SkillCategory): Skill -> bool {
    (s: Skill) => s.category == c
  }

  function CategoryValue(s: Skill): SkillCategory {
    s.category
  }

  /**
   * `skills.reduce`: a bucket per category present, created on first sight, to
   * which each skill is pushed in turn. The object's keys are kept with it in
   * `order`, the order in which the buckets were created, which is the order
   * `Object.entries` lists them in.
   */
  method GroupByCategory(skills: seq<Skill>) returns (buckets: map<SkillCategory, seq<Skill>>, order: seq<SkillCategory>)
    ensures forall c :: c in buckets <==> exists s :: s in skills && s.category == c
    ensures forall c :: c in buckets ==> buckets[c] == Filter(skills, OfCategory(c))
    ensures forall c :: c in order <==> c in buckets
    ensures order == Dedup(CategoryTabs.Names(skills, CategoryValue))
    ensures CategoryTabs.Names(order, SkillCategoryName) == Categories(skills)[1..]
  {
    buckets := map[];
    order := [];
    var i := 0;
    while i < |skills|
      invariant 0 <= i <= |skills|
      invariant Grouped(skills[..i], buckets, order)
    {
      var c := skills[i].category;
      GroupStep(skills, i, buckets, order);
      var bucket := if c in buckets then buckets[c] else [];
      order := if c in buckets then order else order + [c];
      buckets := buckets[c := bucket + [skills[i]]];
      i := i + 1;
    }
    assert skills[..i] == skills;
    GroupOrderIsTabOrder(skills);
  }

  /**
   * The state of the reduction after the skills in `done`: the key order is
   * the distinct categories in first-appearance order, the keys are exactly
   * those, and each bucket holds its category's skills in list order.
   */
  ghost predicate Grouped(done: seq<Skill>, buckets: map<SkillCategory, seq<Skill>>, order: seq<SkillCategory>) {
    && order == Dedup(CategoryTabs.Names(done, CategoryValue))
    && (forall c :: c in buckets <==> c in order)
    && (forall c :: c in buckets ==> buckets[c] == Filter(done, OfCategory(c)))
  }

  /** One step of the reduction: push the skill, creating its bucket (and key) on first sight. */
  lemma GroupStep(skills: seq<Skill>, i: nat, buckets: map<SkillCategory, seq<Skill>>, order: seq<SkillCategory>)
    requires i < |skills| && Grouped(skills[..i], buckets, order)
    ensures Grouped(skills[..i + 1],
                    buckets[skills[i].category := (if skills[i].category in buckets then buckets[skills[i].category] else []) + [skills[i]]],
                    if skills[i].category in buckets then order else order + [skills[i].category])
  {
    OrderGrows(skills, i);
    BucketsStep(skills, i, buckets, order);
  }

  /** The bucket step alone: the skill joins its category's bucket, started empty on first sight. */
  lemma BucketsStep(skills: seq<Skill>, i: nat, buckets: map<SkillCategory, seq<Skill>>, order: seq<SkillCategory>)
    requires i < |skills| && order == Dedup(CategoryTabs.Names(skills[..i], CategoryValue))
    requires forall c :: c in buckets <==> c in order
    requires forall c :: c in buckets ==> buckets[c] == Filter(skills[..i], OfCategory(c))
    ensures var b := buckets[skills[i].category := (if skills[i].category in buckets then buckets[skills[i].category] else []) + [skills[i]]];
      forall c :: c in b ==> b[c] == Filter(skills[..i + 1], OfCategory(c))
  {
    BucketsGrow(skills, i);
    if skills[i].category !in buckets {
      NoBucketBeforeFirst(skills[..i], order, skills[i].category);
    }
  }

  /** A category not yet among the keys has no skill so far. */
  lemma NoBucketBeforeFirst(done: seq<Skill>, order: seq<SkillCategory>, c: SkillCategory)
    requires order == Dedup(CategoryTabs.Names(done, CategoryValue)) && c !in order
    ensures Filter(done, OfCategory(c)) == []
  {
    CategoryTabs.NamesMembers(done, CategoryValue);
    BucketNonEmptyIff(done, c);
  }

  /** A category is added to the key order exactly when the next skill is its first. */
  lemma OrderGrows(skills: seq<Skill>, i: nat)
    requires i < |skills|
    ensures var before := CategoryTabs.Names(skills[..i], CategoryValue);
      Dedup(CategoryTabs.Names(skills[..i + 1], CategoryValue))
        == if skills[i].category in before then Dedup(before) else Dedup(before) + [skills[i].category]
  {
    var names := CategoryTabs.Names(skills[..i + 1], CategoryValue);
    assert names[..i] == CategoryTabs.Names(skills[..i], CategoryValue);
    assert names[i] == skills[i].category;
  }

  /**
   * The buckets come out in the order of the section's tabs after `all`:
   * each category at its first appearance in the list.
   */
  lemma GroupOrderIsTabOrder(skills: seq<Skill>)
    ensures CategoryTabs.Names(Dedup(CategoryTabs.Names(skills, CategoryValue)), SkillCategoryName) == Categories(skills)[1..]
  {
    var values := CategoryTabs.Names(skills, CategoryValue);
    forall x, y | SkillCategoryName(x) == SkillCategoryName(y) ensures x == y {
      SkillCategoryRoundTrip(x);
      SkillCategoryRoundTrip(y);
    }
    CategoryTabs.DedupNamesCommute(values, SkillCategoryName);
    assert CategoryTabs.Names(values, SkillCategoryName) == CategoryTabs.Names(skills, CategoryOf);
    assert Categories(skills) == CategoryTabs.Tabs(skills, CategoryOf);
  }

  /** A category's bucket is non-empty exactly when some skill has that category. */
  lemma BucketNonEmptyIff(skills: seq<Skill>, c: SkillCategory)
    ensures Filter(skills, OfCategory(c)) != [] <==> exists s :: s in skills && s.category == c
  {
    var f := Filter(skills, OfCategory(c));
    if f != [] {
      assert f[0] in f;
    }
    if exists s :: s in skills && s.category == c {
      var s :| s in skills && s.category == c;
      assert s in f;
    }
  }

  /** One more skill joins its own category's bucket and no other. */
  lemma BucketsGrow(skills: seq<Skill>, i: nat)
    requires i < |skills|
    ensures forall c :: Filter(skills[..i + 1], OfCategory(c))
                        == if skills[i].category == c then Filter(skills[..i], OfCategory(c)) + [skills[i]]
                           else Filter(skills[..i], OfCategory(c))
  {
    assert skills[..i + 1] == skills[..i] + [skills[i]];
    forall c ensures Filter(skills[..i + 1], OfCategory(c)) ==
      if skills[i].category == c then Filter(skills[..i], OfCategory(c)) + [skills[i]] else Filter(skills[..i], OfCategory(c))
    {
      FilterConcat(skills[..i], [skills[i]], OfCategory(c));
    }
  }

  /** Every skill lies in the bucket of its own category and in no other. */
  lemma OneBucketPerSkill(skills: seq<Skill>, s: Skill, c: SkillCategory)
    requires s in skills
    ensures s in Filter(skills, OfCategory(c)) <==> c == s.category
  {
  }

  const AllSkillCategories: seq<SkillCategory> :=
    [SkillFrontend, SkillBackend, SkillDatabase, SkillTools, SkillCloud, SkillMobile, SkillOther]

  /** The sizes of the buckets of the categories in `cats`. */
  function BucketSizes(skills: seq<Skill>, cats: seq<SkillCategory>): nat {
    if cats == [] then 0 else Count(skills, OfCategory(cats[0])) + BucketSizes(skills, cats[1..])
  }

  function InCategories(cats: seq<SkillCategory>): Skill -> bool {
    (s: Skill) => s.category in cats
  }

  lemma {:induction false} BucketSizesCountMembers(skills: seq<Skill>, cats: seq<SkillCategory>)
    requires NoDuplicates(cats)
    ensures BucketSizes(skills, cats) == Count(skills, InCategories(cats))
  {
    if cats == [] {
      FilterDropsAll(skills, InCategories(cats));
    } else {
      var tail := cats[1..];
      assert NoDuplicates(tail) by {
        forall i, j | 0 <= i < j < |tail| ensures tail[i] != tail[j] {
          assert tail[i] == cats[i + 1] && tail[j] == cats[j + 1];
        }
      }
      BucketSizesCountMembers(skills, tail);
      assert cats[0] !in tail by {
        forall j | 0 <= j < |tail| ensures tail[j] != cats[0] {
          assert tail[j] == cats[j + 1];
        }
      }
      assert forall c :: c in cats <==> c == cats[0] || c in tail by {
        assert cats == [cats[0]] + tail;
      }
      CountDisjointSum(skills, OfCategory(cats[0]), InCategories(tail), InCategories(cats));
    }
  }

  lemma AllSkillCategoriesListed(c: SkillCategory)
    ensures NoDuplicates(AllSkillCategories) && c in AllSkillCategories
  {
    assert AllSkillCategories[0] == SkillFrontend && AllSkillCategories[1] == SkillBackend;
    assert AllSkillCategories[2] == SkillDatabase && AllSkillCategories[3] == SkillTools;
    assert AllSkillCategories[4] == SkillCloud && AllSkillCategories[5] == SkillMobile;
    assert AllSkillCategories[6] == SkillOther;
  }

  /** The bucket sizes add up to the number of skills. */
  lemma BucketSizesSum(skills: seq<Skill>)
    ensures BucketSizes(skills, AllSkillCategories) == |skills|
  {
    forall s | s in skills ensures InCategories(AllSkillCategories)(s) {
      AllSkillCategoriesListed(s.category);
    }
    AllSkillCategoriesListed(SkillOther);
    BucketSizesCountMembers(skills, AllSkillCategories);
    FilterKeepsAll(skills, InCategories(AllSkillCategories));
  }

  // ---------------------------------------------------------------- level counts

  predicate ExpertLevel(s: Skill) { s.level >= 90 }
  predicate AdvancedLevel(s: Skill) { s.level >= 80 && s.level < 90 }
  predicate IntermediateLevel(s: Skill) { s.level >= 70 && s.level < 80 }

  function InBand(b: Proficiency.Band): Skill -> bool {
    (s: Skill) => Proficiency.BandOf(s.level) == b
  }

  /** The three "Experience Level" counts are the band counts of `getSkillLevel`. */
  lemma LevelCountsAreBandCounts(skills: seq<Skill>)
    ensures Count(skills, ExpertLevel) == Count(skills, InBand(Proficiency.Expert))
    ensures Count(skills, AdvancedLevel) == Count(skills, InBand(Proficiency.Advanced))
    ensures Count(skills, IntermediateLevel) == Count(skills, InBand(Proficiency.Intermediate))
  {
    FilterExtensional(skills, ExpertLevel, InBand(Proficiency.Expert));
    FilterExtensional(skills, AdvancedLevel, InBand(Proficiency.Advanced));
    FilterExtensional(skills, IntermediateLevel, InBand(Proficiency.Intermediate));
  }

  /** No skill is counted twice: the three counts add up to the skills at level 70 or more. */
  lemma LevelCountsDisjoint(skills: seq<Skill>)
    ensures Count(skills, ExpertLevel) + Count(skills, AdvancedLevel) + Count(skills, IntermediateLevel)
         == Count(skills, (s: Skill) => s.level >= 70)
  {
    var ea := (s: Skill) => s.level >= 80;
    CountDisjointSum(skills, ExpertLevel, AdvancedLevel, ea);
    CountDisjointSum(skills, ea, IntermediateLevel, (s: Skill) => s.level >= 70);
  }

  // ---------------------------------------------------------------- top skills

  predicate ByLevelDescending(s: seq<Skill>) {
    forall i, j :: 0 <= i < j < |s| ==> s[i].level >= s[j].level
  }

  /**
   * Puts `x` after the skills of a list that it does not outrank: it moves in
   * from the right past every skill of strictly lower level only, so equal
   * levels stay in the order they came in.
   */
  function InsertByLevel(x: Skill, s: seq<Skill>): (r: seq<Skill>)
    ensures |r| == |s| + 1
    decreases |s|
  {
    if s == [] || s[|s| - 1].level >= x.level then s + [x]
    else InsertByLevel(x, s[..|s| - 1]) + [s[|s| - 1]]
  }

  /**
   * The order `skills.sort((a, b) => b.level - a.level)` produces: highest
   * level first, and since JavaScript's sort is stable, skills of equal level
   * in their original order.
   */
  function SortedByLevel(s: seq<Skill>): (r: seq<Skill>)
    ensures |r| == |s|
    decreases |s|
  {
    if s == [] then [] else InsertByLevel(s[|s| - 1], SortedByLevel(s[..|s| - 1]))
  }

  /** The skills of level `l`, in the order the list has them. */
  function AtLevel(s: seq<Skill>, l: int): seq<Skill>
    decreases |s|
  {
    if s == [] then [] else AtLevel(s[..|s| - 1], l) + (if s[|s| - 1].level == l then [s[|s| - 1]] else [])
  }

  /** One more skill at the end joins the end of its own level. */
  lemma AtLevelSnoc(s: seq<Skill>, y: Skill, l: int)
    ensures AtLevel(s + [y], l) == AtLevel(s, l) + (if y.level == l then [y] else [])
  {
    assert (s + [y])[..|s|] == s;
  }

  /** Inserting adds exactly `x`. */
  lemma {:induction false} InsertByLevelAddsOne(x: Skill, s: seq<Skill>)
    ensures multiset(InsertByLevel(x, s)) == multiset(s) + multiset{x}
    decreases |s|
  {
    if s != [] && s[|s| - 1].level < x.level {
      var init, last := s[..|s| - 1], s[|s| - 1];
      assert s == init + [last];
      InsertByLevelAddsOne(x, init);
    }
  }

  /** Inserting keeps a list ordered by level. */
  lemma {:induction false} InsertByLevelOrdered(x: Skill, s: seq<Skill>)
    requires ByLevelDescending(s)
    ensures ByLevelDescending(InsertByLevel(x, s))
    decreases |s|
  {
    if s != [] && s[|s| - 1].level < x.level {
      var init, last := s[..|s| - 1], s[|s| - 1];
      InsertByLevelOrdered(x, init);
      InsertByLevelAddsOne(x, init);
      var t := InsertByLevel(x, init);
      forall k | 0 <= k < |t| ensures t[k].level >= last.level {
        assert t[k] in multiset(t);
        if t[k] != x {
          assert t[k] in multiset(init);
          var p :| 0 <= p < |init| && init[p] == t[k];
          assert s[p] == t[k];
        }
      }
      var r := t + [last];
      forall p, q | 0 <= p < q < |r| ensures r[p].level >= r[q].level {
        if q < |t| {
          assert r[p] == t[p] && r[q] == t[q];
        } else {
          assert r[p] == t[p];
        }
      }
    }
  }

  /** Inserting `x` appends it to the skills of its own level and leaves every other level as it was. */
  lemma {:induction false} InsertByLevelKeepsLevelOrder(x: Skill, s: seq<Skill>, l: int)
    ensures AtLevel(InsertByLevel(x, s), l) == AtLevel(s, l) + (if x.level == l then [x] else [])
    decreases |s|
  {
    if s == [] || s[|s| - 1].level >= x.level {
      AtLevelSnoc(s, x, l);
    } else {
      var init, last := s[..|s| - 1], s[|s| - 1];
      assert s == init + [last];
      InsertByLevelKeepsLevelOrder(x, init, l);
      AtLevelSnoc(InsertByLevel(x, init), last, l);
      AtLevelSnoc(init, last, l);
      var fx := if x.level == l then [x] else [];
      var fl := if last.level == l then [last] else [];
      assert fx == [] || fl == [];
      assert AtLevel(InsertByLevel(x, s), l) == AtLevel(init, l) + fx + fl;
    }
  }

  /** The sort's result is ordered by level, highest first, and holds the same skills. */
  lemma {:induction false} SortedByLevelOrdered(s: seq<Skill>)
    ensures ByLevelDescending(SortedByLevel(s))
    ensures multiset(SortedByLevel(s)) == multiset(s)
    decreases |s|
  {
    if s != [] {
      var init, last := s[..|s| - 1], s[|s| - 1];
      assert s == init + [last];
      SortedByLevelOrdered(init);
      InsertByLevelOrdered(last, SortedByLevel(init));
      InsertByLevelAddsOne(last, SortedByLevel(init));
    }
  }

  /** Stability: the sort lists the skills of each level in their original order. */
  lemma {:induction false} SortedByLevelStable(s: seq<Skill>, l: int)
    ensures AtLevel(SortedByLevel(s), l) == AtLevel(s, l)
    decreases |s|
  {
    if s != [] {
      var init, last := s[..|s| - 1], s[|s| - 1];
      assert s == init + [last];
      SortedByLevelStable(init, l);
      InsertByLevelKeepsLevelOrder(last, SortedByLevel(init), l);
      AtLevelSnoc(init, last, l);
    }
  }

  /** `skills.sort((a, b) => b.level - a.level)`: reorders the array in place into the stable sort by level. */
  method SortByLevel(a: array<Skill>)
    modifies a
    ensures a[..] == SortedByLevel(old(a[..]))
    ensures ByLevelDescending(a[..])
    ensures multiset(a[..]) == multiset(old(a[..]))
    ensures forall l :: AtLevel(a[..], l) == AtLevel(old(a[..]), l)
  {
    ghost var o := a[..];
    var i := 0;
    while i < a.Length
      invariant 0 <= i <= a.Length
      invariant a[..] == SortedByLevel(o[..i]) + o[i..]
    {
      SiftLeft(a, i);
      SortStep(o, i, a[..]);
      i := i + 1;
    }
    assert o[..a.Length] == o && o[a.Length..] == [];
    assert a[..] == SortedByLevel(o);
    SortedByLevelOrdered(o);
    forall l ensures AtLevel(a[..], l) == AtLevel(o, l) {
      SortedByLevelStable(o, l);
    }
  }

  /** Inserting the next skill into the sorted prefix is one more step of `SortedByLevel`. */
  lemma SortStep(o: seq<Skill>, i: nat, b: seq<Skill>)
    requires i < |o|
    requires b == InsertByLevel(o[i], SortedByLevel(o[..i])) + o[i + 1..]
    ensures b == SortedByLevel(o[..i + 1]) + o[i + 1..]
  {
    assert o[..i + 1][..i] == o[..i];
  }

  /**
   * One insertion step: moves `a[i]` left past every strictly lower-level
   * skill before it, so the first `i + 1` entries become `InsertByLevel` of
   * `a[i]` into the first `i`.
   */
  method SiftLeft(a: array<Skill>, i: nat)
    requires i < a.Length
    modifies a
    ensures a[..] == InsertByLevel(old(a[i]), old(a[..i])) + old(a[i + 1..])
  {
    ghost var o := a[..];
    var x := a[i];
    var j := i;
    SiftStart(o, i);
    while j > 0 && a[j - 1].level < x.level
      invariant 0 <= j <= i && a.Length == |o|
      invariant SiftInv(o, x, i, j, a[..])
    {
      SiftAdvance(o, x, i, j, a[..]);
      SwapAdjacent(a, j);
      j := j - 1;
    }
    SiftDone(o, x, i, j, a[..]);
  }

  /**
   * The state of `SiftLeft` after moving `x` (taken from `o[i]`) down to
   * position `j`: the skills it passed sit one place further right, and
   * each of them is of lower level than `x`.
   */
  ghost predicate SiftInv(o: seq<Skill>, x: Skill, i: nat, j: nat, b: seq<Skill>) {
    j <= i < |o| && b == o[..j] + [x] + o[j..i] + o[i + 1..] && AllBelow(o[j..i], x.level)
  }

  /** Every skill of `s` is of level below `l`. */
  predicate AllBelow(s: seq<Skill>, l: int) {
    forall k :: 0 <= k < |s| ==> s[k].level < l
  }

  /** Before any move, the array is the original list and `x` sits at `i`. */
  lemma SiftStart(o: seq<Skill>, i: nat)
    requires i < |o|
    ensures SiftInv(o, o[i], i, i, o)
  {
    assert o == o[..i] + [o[i]] + o[i..i] + o[i + 1..];
  }

  /** One swap past a lower-level skill keeps the sift state, one place further left. */
  lemma SiftAdvance(o: seq<Skill>, x: Skill, i: nat, j: nat, b: seq<Skill>)
    requires 0 < j && SiftInv(o, x, i, j, b) && b[j - 1].level < x.level
    ensures SiftInv(o, x, i, j - 1, Swapped(b, j))
  {
    SiftPositions(o, x, j, i, b);
    SiftShift(o, x, j, i);
    assert o[j - 1..i] == [o[j - 1]] + o[j..i];
  }

  /** The skill being moved sits at `j`, and the skill before it is the original `o[j - 1]`. */
  lemma SiftPositions(o: seq<Skill>, x: Skill, j: nat, i: nat, b: seq<Skill>)
    requires 0 < j <= i < |o| && b == o[..j] + [x] + o[j..i] + o[i + 1..]
    ensures b[j] == x && b[j - 1] == o[j - 1]
  {
  }

  /**
   * `InsertByLevel` puts `x` right after the last skill of level at least
   * its own: if everything from `j` on is lower and `s[j - 1]` is not, `x`
   * goes at `j`.
   */
  lemma {:induction false} InsertByLevelAt(x: Skill, s: seq<Skill>, j: nat)
    requires j <= |s| && AllBelow(s[j..], x.level)
    requires j == 0 || s[j - 1].level >= x.level
    ensures InsertByLevel(x, s) == s[..j] + [x] + s[j..]
    decreases |s|
  {
    if |s| == j {
      assert s[..j] == s && s[j..] == [];
    } else {
      var init, last := s[..|s| - 1], s[|s| - 1];
      assert s[j..][|s| - 1 - j] == last;
      assert init[j..] == s[j..|s| - 1];
      assert AllBelow(init[j..], x.level) by {
        forall k | 0 <= k < |init[j..]| ensures init[j..][k].level < x.level {
          assert init[j..][k] == s[j..][k];
        }
      }
      InsertByLevelAt(x, init, j);
      assert init[..j] == s[..j];
      assert s[j..] == init[j..] + [last];
    }
  }

  /** Exchanging positions `j - 1` and `j` moves `x` one place left. */
  lemma SiftShift(o: seq<Skill>, x: Skill, j: nat, i: nat)
    requires 0 < j <= i < |o|
    ensures Swapped(o[..j] + [x] + o[j..i] + o[i + 1..], j) == o[..j - 1] + [x] + o[j - 1..i] + o[i + 1..]
  {
    var b := o[..j] + [x] + o[j..i] + o[i + 1..];
    assert b[..j - 1] == o[..j - 1];
    assert b[j + 1..] == o[j..i] + o[i + 1..];
    assert o[j - 1..i] == [o[j - 1]] + o[j..i];
  }

  /** When the loop stops, `x` has found its place: the prefix is the insertion. */
  lemma SiftDone(o: seq<Skill>, x: Skill, i: nat, j: nat, b: seq<Skill>)
    requires SiftInv(o, x, i, j, b)
    requires j == 0 || b[j - 1].level >= x.level
    ensures b == InsertByLevel(x, o[..i]) + o[i + 1..]
  {
    var p := o[..i];
    assert p[..j] == o[..j] && p[j..] == o[j..i];
    if j > 0 {
      assert b[j - 1] == o[j - 1] && p[j - 1] == o[j - 1];
    }
    InsertByLevelAt(x, p, j);
  }

  /** `s` with the neighbours at `j - 1` and `j` exchanged. */
  function Swapped(s: seq<Skill>, j: nat): seq<Skill>
    requires 0 < j < |s|
  {
    s[..j - 1] + [s[j], s[j - 1]] + s[j + 1..]
  }

  /** Exchanges `a[j - 1]` and `a[j]`. */
  method SwapAdjacent(a: array<Skill>, j: nat)
    requires 0 < j < a.Length
    modifies a
    ensures a[..] == Swapped(old(a[..]), j)
  {
    a[j - 1], a[j] := a[j], a[j - 1];
    assert a[..] == Swapped(old(a[..]), j);
  }

  /** Exchanging two neighbours keeps the same skills. */
  lemma SwappedPermutes(s: seq<Skill>, j: nat)
    requires 0 < j < |s|
    ensures multiset(Swapped(s, j)) == multiset(s)
  {
    assert s == s[..j - 1] + [s[j - 1], s[j]] + s[j + 1..];
  }

  /** The "Top Skills by Proficiency" list: sorts the shared array, then takes at most ten. */
  method TopSkills(a: array<Skill>) returns (top: seq<Skill>)
    modifies a
    ensures |top| == if a.Length < 10 then a.Length else 10
    ensures a[..] == SortedByLevel(old(a[..])) && top == a[..|top|]
    ensures ByLevelDescending(top)
    ensures forall s, t :: s in top && t in a[|top|..] ==> s.level >= t.level
    ensures multiset(a[..]) == multiset(old(a[..]))
  {
    SortByLevel(a);
    var n := if a.Length < 10 then a.Length else 10;
    top := a[..n];
    HeadOutranksTail(a[..], n);
  }

  /** In a list ordered by level, every skill of the first `n` ranks at least as high as every skill after them. */
  lemma HeadOutranksTail(b: seq<Skill>, n: nat)
    requires ByLevelDescending(b) && n <= |b|
    ensures ByLevelDescending(b[..n])
    ensures forall s, t :: s in b[..n] && t in b[n..] ==> s.level >= t.level
  {
    forall s, t | s in b[..n] && t in b[n..] ensures s.level >= t.level {
      var i :| 0 <= i < n && b[..n][i] == s;
      var j :| 0 <= j < |b| - n && b[n..][j] == t;
      assert b[i] == s && b[n + j] == t;
    }
  }
}
