/**
 * The database seed script: the admin account (from the environment, with
 * fixed fallbacks, password stored hashed), then two demo projects and five
 * demo skills, each group inserted only into an empty table.
 */
module Seed {
  import opened Wrappers
  import Json
  import Auth
  import opened Store
  import opened ProjectRecords

  const DefaultAdminEmail: string := "admin@example.com"
  const DefaultAdminPassword: string := "admin123"

  /** The two variables the script reads; unset ones are `None`. */
  datatype Env = Env(adminEmail: Option<string>, adminPassword: Option<string>)

  /** `process.env.X || fallback`: the variable when set and non-empty, the fallback otherwise. */
  function OrDefault(v: Option<string>, fallback: string): (r: string)
    ensures v.Some? && v.value != "" ==> r == v.value
    ensures v.None? || v.value == "" ==> r == fallback
  {
    if v.Some? && v.value != "" then v.value else fallback
  }

  function AdminEmail(env: Env): string {
    OrDefault(env.adminEmail, DefaultAdminEmail)
  }

  function AdminPassword(env: Env): string {
    OrDefault(env.adminPassword, DefaultAdminPassword)
  }

  // The array fields of the two demo projects, before `JSON.stringify`.
  const EcommerceTags: seq<string> := ["Featured", "Full Stack", "E-Commerce"]
  const EcommerceTech: seq<string> := ["Next.js", "TypeScript", "Prisma", "PostgreSQL", "Stripe", "Tailwind CSS"]
  const EcommerceLanguages: seq<string> := ["TypeScript", "JavaScript", "SQL"]
  const EcommerceChallenges: seq<string> := ["Implementing real-time inventory management",
    "Optimizing for high-traffic scenarios", "Complex payment flow integration"]
  const EcommerceSolutions: seq<string> := ["Used WebSocket connections for real-time updates",
    "Implemented Redis caching and CDN", "Created robust error handling for payment flows"]
  const EcommerceResults: seq<string> := ["300% increase in conversion rate", "50ms average page load time",
    "99.9% uptime achieved"]
  const EcommerceMetrics: seq<Json.Metric> := [Json.Metric("Users", "10K+"), Json.Metric("Transactions", "$500K+"),
    Json.Metric("Performance", "95/100")]
  const AnalyticsTags: seq<string> := ["AI/ML", "Analytics", "React"]
  const AnalyticsTech: seq<string> := ["React", "Python", "TensorFlow", "D3.js", "Node.js", "MongoDB"]
  const AnalyticsLanguages: seq<string> := ["TypeScript", "Python", "JavaScript"]

  /** The first demo project as written: array fields already JSON text, no image gallery. */
  const EcommerceDemo: ProjectRow :=
    ProjectRow(0, "E-Commerce Platform",
      "A modern, scalable e-commerce platform built with Next.js and Stripe integration.",
      Some("A comprehensive e-commerce solution featuring real-time inventory management, advanced search capabilities, and seamless payment processing. Built with modern technologies to ensure scalability and performance."),
      "https://images.pexels.com/photos/230544/pexels-photo-230544.jpeg?auto=compress&cs=tinysrgb&w=1260&h=750&dpr=1",
      None,
      Some(Json.StringifyStrings(EcommerceTags)), Some(Json.StringifyStrings(EcommerceTech)),
      Some(Json.StringifyStrings(EcommerceLanguages)),
      "completed", "advanced", "fullstack",
      Some("https://example-ecommerce.com"), Some("https://github.com/example/ecommerce"),
      true, 2024, Some("4 months"), Some(3), Some("Lead Developer"),
      Some(Json.StringifyStrings(EcommerceChallenges)), Some(Json.StringifyStrings(EcommerceSolutions)),
      Some(Json.StringifyStrings(EcommerceResults)), Some(Json.StringifyMetrics(EcommerceMetrics)),
      true, 1, 0)

  /** The second demo project: its case-study fields are NULL. */
  const AnalyticsDemo: ProjectRow :=
    ProjectRow(0, "AI-Powered Analytics Dashboard",
      "Advanced analytics dashboard with machine learning insights and real-time data visualization.",
      None,
      "https://images.pexels.com/photos/590022/pexels-photo-590022.jpeg?auto=compress&cs=tinysrgb&w=1260&h=750&dpr=1",
      None,
      Some(Json.StringifyStrings(AnalyticsTags)), Some(Json.StringifyStrings(AnalyticsTech)),
      Some(Json.StringifyStrings(AnalyticsLanguages)),
      "completed", "expert", "ai-ml",
      None, None,
      true, 2024, Some("6 months"), Some(4), Some("AI/ML Engineer"),
      None, None, None, None,
      true, 2, 0)

  const DemoProjects: seq<ProjectRow> := [EcommerceDemo, AnalyticsDemo]

  const DemoSkills: seq<SkillRow> := [
    SkillRow(0, "React", "frontend", 95, 5, None,
      Some("Advanced React development with hooks, context, and modern patterns"), true, 1),
    SkillRow(0, "Next.js", "frontend", 90, 4, None,
      Some("Full-stack React framework with SSR and API routes"), true, 2),
    SkillRow(0, "TypeScript", "frontend", 88, 4, None,
      Some("Type-safe JavaScript development"), true, 3),
    SkillRow(0, "Node.js", "backend", 85, 5, None,
      Some("Server-side JavaScript runtime"), true, 4),
    SkillRow(0, "PostgreSQL", "database", 80, 4, None,
      Some("Advanced SQL and database design"), true, 5)
  ]

  /** The state in which the script writes nothing: the admin exists and both demo tables are non-empty. */
  predicate Seeded(users: seq<UserRow>, projects: seq<ProjectRow>, skills: seq<SkillRow>, env: Env) {
    FindUserByEmail(users, AdminEmail(env)).Some? && projects != [] && skills != []
  }

  /** The admin step: a user with the admin e-mail is created, with the hashed password, unless one exists. */
  method SeedAdmin(db: Database, email: string, password: string, b: Auth.Bcrypt)
    requires db.Valid()
    modifies db
    ensures db.Valid()
    ensures db.projects == old(db.projects) && db.skills == old(db.skills) && db.messages == old(db.messages)
    ensures FindUserByEmail(old(db.users), email).Some? ==> db.users == old(db.users)
    ensures FindUserByEmail(old(db.users), email).None? ==>
      db.users == old(db.users) + [UserRow(old(db.nextId), email, "Admin", Auth.HashPassword(b, password), "admin")]
    ensures FindUserByEmail(db.users, email).Some?
  {
    var existingAdmin := FindUserByEmail(db.users, email);
    if existingAdmin.None? {
      var hashed := Auth.HashPassword(b, password);
      var admin := db.CreateUser(email, "Admin", hashed, "admin");
      assert admin in db.users;
    }
  }

  /** The project step: when the table is empty, each demo row is created in turn. */
  method SeedProjects(db: Database, demos: seq<ProjectRow>, now: int)
    requires db.Valid()
    modifies db
    ensures db.Valid()
    ensures db.users == old(db.users) && db.skills == old(db.skills) && db.messages == old(db.messages)
    ensures old(db.projects) != [] ==> db.projects == old(db.projects)
    ensures old(db.projects) == [] ==>
      |db.projects| == |demos|
      && forall k :: 0 <= k < |demos| ==> db.projects[k] == demos[k].(id := db.projects[k].id, createdAt := now)
  {
    if db.projects == [] {
      for i := 0 to |demos|
        invariant db.Valid()
        invariant |db.projects| == i
        invariant forall k :: 0 <= k < i ==> db.projects[k] == demos[k].(id := db.projects[k].id, createdAt := now)
        invariant db.users == old(db.users) && db.skills == old(db.skills) && db.messages == old(db.messages)
      {
        var _ := db.CreateProject(demos[i], now);
      }
    }
  }

  /** The skill step: when the table is empty, each demo row is created in turn. */
  method SeedSkills(db: Database, demos: seq<SkillRow>)
    requires db.Valid()
    modifies db
    ensures db.Valid()
    ensures db.users == old(db.users) && db.projects == old(db.projects) && db.messages == old(db.messages)
    ensures old(db.skills) != [] ==> db.skills == old(db.skills)
    ensures old(db.skills) == [] ==>
      |db.skills| == |demos| && forall k :: 0 <= k < |demos| ==> db.skills[k] == demos[k].(id := db.skills[k].id)
  {
    if db.skills == [] {
      for i := 0 to |demos|
        invariant db.Valid()
        invariant |db.skills| == i
        invariant forall k :: 0 <= k < i ==> db.skills[k] == demos[k].(id := db.skills[k].id)
        invariant db.users == old(db.users) && db.projects == old(db.projects) && db.messages == old(db.messages)
      {
        var _ := db.CreateSkill(demos[i]);
      }
    }
  }

  /** One run of the script against `db`, at time `now`, with bcrypt `b`. */
  method RunSeed(db: Database, env: Env, b: Auth.Bcrypt, now: int)
    requires db.Valid()
    modifies db
    ensures db.Valid()
    ensures db.messages == old(db.messages)
    ensures FindUserByEmail(old(db.users), AdminEmail(env)).Some? ==> db.users == old(db.users)
    ensures FindUserByEmail(old(db.users), AdminEmail(env)).None? ==>
      db.users == old(db.users) + [UserRow(old(db.nextId), AdminEmail(env), "Admin", Auth.HashPassword(b, AdminPassword(env)), "admin")]
    ensures old(db.projects) != [] ==> db.projects == old(db.projects)
    ensures old(db.projects) == [] ==>
      |db.projects| == |DemoProjects|
      && forall k :: 0 <= k < |DemoProjects| ==> db.projects[k] == DemoProjects[k].(id := db.projects[k].id, createdAt := now)
    ensures old(db.skills) != [] ==> db.skills == old(db.skills)
    ensures old(db.skills) == [] ==>
      |db.skills| == |DemoSkills| && forall k :: 0 <= k < |DemoSkills| ==> db.skills[k] == DemoSkills[k].(id := db.skills[k].id)
    ensures Seeded(db.users, db.projects, db.skills, env)
  {
    SeedAdmin(db, AdminEmail(env), AdminPassword(env), b);
    SeedProjects(db, DemoProjects, now);
    SeedSkills(db, DemoSkills);
  }

  /**
   * Idempotence: after one run, a second run (at any later time, with any
   * bcrypt) leaves every table as the first run left it.
   */
  method RunSeedTwice(db: Database, env: Env, b: Auth.Bcrypt, now: int, later: int)
    returns (users: seq<UserRow>, projects: seq<ProjectRow>, skills: seq<SkillRow>)
    requires db.Valid()
    modifies db
    ensures db.users == users && db.projects == projects && db.skills == skills
    ensures Seeded(users, projects, skills, env)
  {
    RunSeed(db, env, b, now);
    users, projects, skills := db.users, db.projects, db.skills;
    RunSeed(db, env, b, later);
  }

  /** The stored admin password verifies against the password it was made from. */
  lemma AdminPasswordVerifies(b: Auth.Bcrypt, env: Env)
    requires Auth.HashesVerify(b)
    ensures Auth.VerifyPassword(b, AdminPassword(env), Auth.HashPassword(b, AdminPassword(env)))
  {
    Auth.HashedPasswordVerifies(b, AdminPassword(env));
  }

  /**
   * The seeded projects are readable by the project routes: their stored
   * columns decode to the arrays the script lists, NULL columns to empty ones.
   */
  lemma EcommerceDemoDecodes()
    ensures DecodeArrays(EcommerceDemo) == Some(ProjectArrays([], EcommerceTags, EcommerceTech, EcommerceLanguages,
      EcommerceChallenges, EcommerceSolutions, EcommerceResults, EcommerceMetrics))
  {
    EmptyColumnDecodes(None);
    ColumnRoundTrip(Some(EcommerceTags), Some(EcommerceMetrics));
    ColumnRoundTrip(Some(EcommerceTech), None);
    ColumnRoundTrip(Some(EcommerceLanguages), None);
    ColumnRoundTrip(Some(EcommerceChallenges), None);
    ColumnRoundTrip(Some(EcommerceSolutions), None);
    ColumnRoundTrip(Some(EcommerceResults), None);
  }

  lemma AnalyticsDemoDecodes()
    ensures DecodeArrays(AnalyticsDemo) == Some(ProjectArrays([], AnalyticsTags, AnalyticsTech, AnalyticsLanguages,
      [], [], [], []))
  {
    EmptyColumnDecodes(None);
    ColumnRoundTrip(Some(AnalyticsTags), None);
    ColumnRoundTrip(Some(AnalyticsTech), None);
    ColumnRoundTrip(Some(AnalyticsLanguages), None);
  }

  /** Every seeded project row decodes, whatever id and creation time the database gave it. */
  lemma SeededProjectsDecode(k: nat, id: nat, createdAt: int)
    requires k < |DemoProjects|
    ensures DecodeArrays(DemoProjects[k].(id := id, createdAt := createdAt)).Some?
  {
    DecodeIgnoresBookkeeping(DemoProjects[k], id, createdAt);
    if k == 0 {
      EcommerceDemoDecodes();
    } else {
      AnalyticsDemoDecodes();
    }
  }
}
