/**
 * The four tables the API routes and the seed script use, as rows in
 * insertion order, with the column shapes the code reads and writes. Array
 * fields of a project are stored as JSON text; a column the writer left out is
 * `None` (SQL NULL). Row ids are drawn from one counter, so every row of a
 * table has its own id.
 */
module Store {
  import opened Wrappers

  datatype ProjectRow = ProjectRow(
    id: nat,
    title: string,
    description: string,
    longDescription: Option<string>,
    image: string,
    images: Option<string>,
    tags: Option<string>,
    techStack: Option<string>,
    languages: Option<string>,
    status: string,
    difficulty: string,
    category: string,
    liveUrl: Option<string>,
    githubUrl: Option<string>,
    featured: bool,
    year: int,
    duration: Option<string>,
    teamSize: Option<int>,
    role: Option<string>,
    challenges: Option<string>,
    solutions: Option<string>,
    results: Option<string>,
    metrics: Option<string>,
    published: bool,
    order: int,
    createdAt: int)

  datatype SkillRow = SkillRow(
    id: nat,
    name: string,
    category: string,
    level: int,
    yearsOfExperience: int,
    icon: Option<string>,
    description: Option<string>,
    published: bool,
    order: int)

  datatype MessageRow = MessageRow(
    id: nat,
    name: string,
    email: string,
    subject: string,
    message: string,
    read: bool,
    createdAt: int)

  datatype UserRow = UserRow(id: nat, email: string, name: string, password: string, role: string)

  /** The ids of the rows of a table. */
  function ProjectIds(rows: seq<ProjectRow>): set<nat> { set r | r in rows :: r.id }
  function SkillIds(rows: seq<SkillRow>): set<nat> { set r | r in rows :: r.id }
  function MessageIds(rows: seq<MessageRow>): set<nat> { set r | r in rows :: r.id }
  function UserIds(rows: seq<UserRow>): set<nat> { set r | r in rows :: r.id }

  /** No two rows of a table share an id. */
  predicate DistinctProjectIds(rows: seq<ProjectRow>) {
    forall i, j :: 0 <= i < j < |rows| ==> rows[i].id != rows[j].id
  }
  predicate DistinctSkillIds(rows: seq<SkillRow>) {
    forall i, j :: 0 <= i < j < |rows| ==> rows[i].id != rows[j].id
  }
  predicate DistinctMessageIds(rows: seq<MessageRow>) {
    forall i, j :: 0 <= i < j < |rows| ==> rows[i].id != rows[j].id
  }
  predicate DistinctUserIds(rows: seq<UserRow>) {
    forall i, j :: 0 <= i < j < |rows| ==> rows[i].id != rows[j].id
  }

  /** `findUnique({ where: { email } })`: the user with that e-mail, if any. */
  function FindUserByEmail(users: seq<UserRow>, email: string): (r: Option<UserRow>)
    ensures r.None? <==> forall u :: u in users ==> u.email != email
    ensures r.Some? ==> r.value in users && r.value.email == email
  {
    if users == [] then None
    else if users[0].email == email then Some(users[0])
    else FindUserByEmail(users[1..], email)
  }

  class Database {
    var projects: seq<ProjectRow>
    var skills: seq<SkillRow>
    var messages: seq<MessageRow>
    var users: seq<UserRow>
    var nextId: nat

    /** Every id handed out is below the counter, and ids are unique per table. */
    predicate Valid()
      reads this
    {
      && (forall r :: r in projects ==> r.id < nextId)
      && (forall r :: r in skills ==> r.id < nextId)
      && (forall r :: r in messages ==> r.id < nextId)
      && (forall r :: r in users ==> r.id < nextId)
      && DistinctProjectIds(projects) && DistinctSkillIds(skills)
      && DistinctMessageIds(messages) && DistinctUserIds(users)
    }

    constructor ()
      ensures Valid()
      ensures projects == [] && skills == [] && messages == [] && users == []
    {
      projects, skills, messages, users := [], [], [], [];
      nextId := 0;
    }

    /** `project.create`: the row as given, with a fresh id and the creation time, appended. */
    method CreateProject(data: ProjectRow, now: int) returns (row: ProjectRow)
      requires Valid()
      modifies this
      ensures Valid()
      ensures row == data.(id := old(nextId), createdAt := now) && row.id !in ProjectIds(old(projects))
      ensures projects == old(projects) + [row]
      ensures skills == old(skills) && messages == old(messages) && users == old(users)
    {
      row := data.(id := nextId, createdAt := now);
      projects := projects + [row];
      nextId := nextId + 1;
    }

    method CreateSkill(data: SkillRow) returns (row: SkillRow)
      requires Valid()
      modifies this
      ensures Valid()
      ensures row == data.(id := old(nextId)) && row.id !in SkillIds(old(skills))
      ensures skills == old(skills) + [row]
      ensures projects == old(projects) && messages == old(messages) && users == old(users)
    {
      row := data.(id := nextId);
      skills := skills + [row];
      nextId := nextId + 1;
    }

    /** `contactMessage.create`: a new message starts unread. */
    method CreateMessage(name: string, email: string, subject: string, message: string, now: int) returns (row: MessageRow)
      requires Valid()
      modifies this
      ensures Valid()
      ensures row == MessageRow(old(nextId), name, email, subject, message, false, now)
      ensures row.id !in MessageIds(old(messages))
      ensures messages == old(messages) + [row]
      ensures projects == old(projects) && skills == old(skills) && users == old(users)
    {
      row := MessageRow(nextId, name, email, subject, message, false, now);
      messages := messages + [row];
      nextId := nextId + 1;
    }

    method CreateUser(email: string, name: string, password: string, role: string) returns (row: UserRow)
      requires Valid()
      modifies this
      ensures Valid()
      ensures row == UserRow(old(nextId), email, name, password, role) && row.id !in UserIds(old(users))
      ensures users == old(users) + [row]
      ensures projects == old(projects) && skills == old(skills) && messages == old(messages)
    {
      row := UserRow(nextId, email, name, password, role);
      users := users + [row];
      nextId := nextId + 1;
    }
  }
}
