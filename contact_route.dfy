/**
 * `/api/contact`: POST stores a message from the contact form after checking
 * its required fields; GET lists the stored messages, newest first, optionally
 * restricted by their `read` flag.
 */
module ContactRoute {
  import opened Wrappers
  import opened Collections
  import opened Http
  import opened Store

  const RequiredMessage: string := "Name, email, and message are required"

  /** The JSON body's four fields, each possibly missing. */
  datatype ContactBody = ContactBody(name: Option<string>, email: Option<string>, subject: Option<string>, message: Option<string>)

  /** JavaScript truthiness of an optional string: present and non-empty. */
  predicate Given(v: Option<string>) {
    v.Some? && v.value != ""
  }

  predicate Complete(b: ContactBody) {
    Given(b.name) && Given(b.email) && Given(b.message)
  }

  /** `subject || ''`. */
  function SubjectOrEmpty(subject: Option<string>): (s: string)
    ensures Given(subject) ==> s == subject.value
    ensures !Given(subject) ==> s == ""
  {
    if Given(subject) then subject.value else ""
  }

  /**
   * POST: 500 for a body that is not JSON, 400 when name, e-mail or message is
   * missing or empty, otherwise one new unread message and `{ success: true }`.
   */
  method Post(db: Database, body: Option<ContactBody>, now: int) returns (r: Response<bool>)
    requires db.Valid()
    modifies db
    ensures db.Valid()
    ensures db.projects == old(db.projects) && db.skills == old(db.skills) && db.users == old(db.users)
    ensures body.None? ==> r == JsonError(InternalServerError, InternalErrorMessage) && db.messages == old(db.messages)
    ensures body.Some? && !Complete(body.value) ==>
      r == JsonError(BadRequest, RequiredMessage) && db.messages == old(db.messages)
    ensures body.Some? && Complete(body.value) ==>
      r == JsonOk(true)
      && db.messages == old(db.messages) + [MessageRow(old(db.nextId), body.value.name.value, body.value.email.value,
                                                       SubjectOrEmpty(body.value.subject), body.value.message.value, false, now)]
  {
    if body.None? {
      return JsonError(InternalServerError, InternalErrorMessage);
    }
    var b := body.value;
    if !Given(b.name) || !Given(b.email) || !Given(b.message) {
      return JsonError(BadRequest, RequiredMessage);
    }
    var _ := db.CreateMessage(b.name.value, b.email.value, SubjectOrEmpty(b.subject), b.message.value, now);
    r := JsonOk(true);
  }

  /** The `where` clause: no parameter selects all, `"true"` read messages, anything else unread ones. */
  function ReadIs(param: Option<string>): MessageRow -> bool {
    (m: MessageRow) => param.None? || m.read == (param.value == "true")
  }

  /** `orderBy: { createdAt: 'desc' }`. */
  predicate NewestFirst(a: MessageRow, b: MessageRow) {
    a.createdAt >= b.createdAt
  }

  function Get(table: Option<seq<MessageRow>>, read: Option<string>): (r: Response<seq<MessageRow>>)
    ensures r.status == Ok <==> table.Some?
    ensures table.None? ==> r == JsonError(InternalServerError, InternalErrorMessage)
    ensures table.Some? ==> r.body.Success? && multiset(r.body.value) == multiset(Filter(table.value, ReadIs(read)))
  {
    if table.None? then JsonError(InternalServerError, InternalErrorMessage)
    else JsonOk(SortBy(Filter(table.value, ReadIs(read)), NewestFirst))
  }

  /** The listing holds exactly the selected messages, newest first. */
  lemma GetListsSelectedNewestFirst(table: seq<MessageRow>, read: Option<string>)
    ensures forall m :: m in Get(Some(table), read).body.value <==>
      m in table && (read.None? || (read == Some("true") && m.read) || (read.Some? && read.value != "true" && !m.read))
    ensures forall i, j :: 0 <= i < j < |Get(Some(table), read).body.value| ==>
      Get(Some(table), read).body.value[i].createdAt >= Get(Some(table), read).body.value[j].createdAt
  {
    var selected := Filter(table, ReadIs(read));
    assert TotalPreorder(NewestFirst);
    SortBySorted(selected, NewestFirst);
    forall m ensures m in SortBy(selected, NewestFirst) <==> m in selected {
      SortByMembers(selected, NewestFirst, m);
    }
  }

  /** A message accepted by POST is listed among the unread ones until it is marked read. */
  lemma PostedMessageListedUnread(table: seq<MessageRow>, m: MessageRow, read: Option<string>)
    requires !m.read
    requires read.None? || read.value != "true"
    ensures m in Get(Some(table + [m]), read).body.value
  {
    GetListsSelectedNewestFirst(table + [m], read);
  }
}
