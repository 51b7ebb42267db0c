/**
 * The portfolio's record types and their string-union enumerations
 * (`types/index.ts`). Each enumeration is a datatype with the exact string
 * the site stores and compares, and a parser that inverts it.
 */
module PortfolioTypes {
  import opened Wrappers
  import Json

  datatype ProjectStatus = Completed | InProgress | Maintained | Archived

  function StatusName(s: ProjectStatus): string {
    match s
    case Completed => "completed"
    case InProgress => "in-progress"
    case Maintained => "maintained"
    case Archived => "archived"
  }

  const StatusNames: seq<string> := ["completed", "in-progress", "maintained", "archived"]

  function ParseStatus(t: string): (r: Option<ProjectStatus>)
    ensures r.Some? <==> t in StatusNames
    ensures r.Some? ==> StatusName(r.value) == t
  {
    if t == "completed" then Some(Completed)
    else if t == "in-progress" then Some(InProgress)
    else if t == "maintained" then Some(Maintained)
    else if t == "archived" then Some(Archived)
    else None
  }

  lemma StatusRoundTrip(s: ProjectStatus)
    ensures ParseStatus(StatusName(s)) == Some(s)
    ensures StatusName(s) in StatusNames
  {
  }

  datatype Difficulty = Beginner | Intermediate | Advanced | ExpertDifficulty

  function DifficultyName(d: Difficulty): string {
    match d
    case Beginner => "beginner"
    case Intermediate => "intermediate"
    case Advanced => "advanced"
    case ExpertDifficulty => "expert"
  }

  const DifficultyNames: seq<string> := ["beginner", "intermediate", "advanced", "expert"]

  function ParseDifficulty(t: string): (r: Option<Difficulty>)
    ensures r.Some? <==> t in DifficultyNames
    ensures r.Some? ==> DifficultyName(r.value) == t
  {
    if t == "beginner" then Some(Beginner)
    else if t == "intermediate" then Some(Intermediate)
    else if t == "advanced" then Some(Advanced)
    else if t == "expert" then Some(ExpertDifficulty)
    else None
  }

  lemma DifficultyRoundTrip(d: Difficulty)
    ensures ParseDifficulty(DifficultyName(d)) == Some(d)
    ensures DifficultyName(d) in DifficultyNames
  {
  }

  datatype ProjectCategory = Frontend | Backend | Fullstack | Mobile | AiMl | DevOps

  function ProjectCategoryName(c: ProjectCategory): string {
    match c
    case Frontend => "frontend"
    case Backend => "backend"
    case Fullstack => "fullstack"
    case Mobile => "mobile"
    case AiMl => "ai-ml"
    case DevOps => "devops"
  }

  const ProjectCategoryNames: seq<string> := ["frontend", "backend", "fullstack", "mobile", "ai-ml", "devops"]

  function ParseProjectCategory(t: string): (r: Option<ProjectCategory>)
    ensures r.Some? <==> t in ProjectCategoryNames
    ensures r.Some? ==> ProjectCategoryName(r.value) == t
  {
    if t == "frontend" then Some(Frontend)
    else if t == "backend" then Some(Backend)
    else if t == "fullstack" then Some(Fullstack)
    else if t == "mobile" then Some(Mobile)
    else if t == "ai-ml" then Some(AiMl)
    else if t == "devops" then Some(DevOps)
    else None
  }

  lemma ProjectCategoryRoundTrip(c: ProjectCategory)
    ensures ParseProjectCategory(ProjectCategoryName(c)) == Some(c)
    ensures ProjectCategoryName(c) in ProjectCategoryNames
  {
  }

  datatype SkillCategory =
    | SkillFrontend | SkillBackend | SkillDatabase | SkillTools | SkillCloud | SkillMobile | SkillOther

  function SkillCategoryName(c: SkillCategory): string {
    match c
    case SkillFrontend => "frontend"
    case SkillBackend => "backend"
    case SkillDatabase => "database"
    case SkillTools => "tools"
    case SkillCloud => "cloud"
    case SkillMobile => "mobile"
    case SkillOther => "other"
  }

  const SkillCategoryNames: seq<string> := ["frontend", "backend", "database", "tools", "cloud", "mobile", "other"]

  function ParseSkillCategory(t: string): (r: Option<SkillCategory>)
    ensures r.Some? <==> t in SkillCategoryNames
    ensures r.Some? ==> SkillCategoryName(r.value) == t
  {
    if t == "frontend" then Some(SkillFrontend)
    else if t == "backend" then Some(SkillBackend)
    else if t == "database" then Some(SkillDatabase)
    else if t == "tools" then Some(SkillTools)
    else if t == "cloud" then Some(SkillCloud)
    else if t == "mobile" then Some(SkillMobile)
    else if t == "other" then Some(SkillOther)
    else None
  }

  lemma SkillCategoryRoundTrip(c: SkillCategory)
    ensures ParseSkillCategory(SkillCategoryName(c)) == Some(c)
    ensures SkillCategoryName(c) in SkillCategoryNames
  {
  }

  datatype TechCategory = Language | Framework | Library | Database | Tool | Platform

  function TechCategoryName(c: TechCategory): string {
    match c
    case Language => "language"
    case Framework => "framework"
    case Library => "library"
    case Database => "database"
    case Tool => "tool"
    case Platform => "platform"
  }

  const TechCategoryNames: seq<string> := ["language", "framework", "library", "database", "tool", "platform"]

  function ParseTechCategory(t: string): (r: Option<TechCategory>)
    ensures r.Some? <==> t in TechCategoryNames
    ensures r.Some? ==> TechCategoryName(r.value) == t
  {
    if t == "language" then Some(Language)
    else if t == "framework" then Some(Framework)
    else if t == "library" then Some(Library)
    else if t == "database" then Some(Database)
    else if t == "tool" then Some(Tool)
    else if t == "platform" then Some(Platform)
    else None
  }

  lemma TechCategoryRoundTrip(c: TechCategory)
    ensures ParseTechCategory(TechCategoryName(c)) == Some(c)
    ensures TechCategoryName(c) in TechCategoryNames
  {
  }

  datatype Project = Project(
    id: string,
    title: string,
    description: string,
    longDescription: Option<string>,
    image: string,
    tags: seq<string>,
    techStack: seq<string>,
    languages: seq<string>,
    status: ProjectStatus,
    difficulty: Difficulty,
    category: ProjectCategory,
    liveUrl: Option<string>,
    githubUrl: Option<string>,
    featured: Option<bool>,
    year: int,
    duration: Option<string>,
    teamSize: Option<int>,
    role: Option<string>,
    challenges: Option<seq<string>>,
    solutions: Option<seq<string>>,
    results: Option<seq<string>>,
    images: Option<seq<string>>,
    metrics: Option<seq<Json.Metric>>)

  /** The documented range of a skill level and of a tech proficiency: a percentage from 1 to 100. */
  predicate InPercentRange(n: int) {
    1 <= n <= 100
  }

  datatype Skill = Skill(
    id: string,
    name: string,
    category: SkillCategory,
    level: int,
    yearsOfExperience: int,
    icon: Option<string>,
    description: Option<string>)

  /** The level comment on `Skill.level` is documentation only: nothing enforces it. */
  predicate DocumentedSkill(s: Skill) {
    InPercentRange(s.level)
  }

  datatype TechItem = TechItem(
    id: string,
    name: string,
    category: TechCategory,
    logo: string,
    description: string,
    useCase: string,
    yearsUsed: int,
    lastUsed: string,
    proficiency: int)

  predicate DocumentedTechItem(t: TechItem) {
    InPercentRange(t.proficiency)
  }

  datatype Testimonial = Testimonial(
    id: string,
    name: string,
    role: string,
    company: string,
    content: string,
    rating: int,
    image: Option<string>,
    project: Option<string>,
    date: string,
    verified: Option<bool>)

  /**
   * The project filter state: two multi-select lists and four single-valued
   * selections, where `""` means "no constraint".
   */
  datatype FilterOptions = FilterOptions(
    techStack: seq<string>,
    languages: seq<string>,
    status: string,
    difficulty: string,
    category: string,
    year: string)

  /** The initial and the cleared filter state. */
  const NoFilters: FilterOptions := FilterOptions([], [], "", "", "", "")

  /** Every constraint of a filter state is off. */
  predicate Unconstrained(f: FilterOptions) {
    f.techStack == [] && f.languages == [] && f.status == "" && f.difficulty == ""
    && f.category == "" && f.year == ""
  }

  lemma NoFiltersUnconstrained(f: FilterOptions)
    ensures Unconstrained(f) <==> f == NoFilters
  {
  }
}
