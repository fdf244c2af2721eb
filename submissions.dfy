/** The project-submission routes: anyone proposes a project, an admin
    approves it (which creates the project) or rejects it with a reason, and
    an admin may delete a submission or list them a page at a time. A
    submission moves from "pending" to "approved" or "rejected" and no
    further. The handlers are methods of a store holding the submission and
    project tables; each returns the status code and message of its reply. */
module Submissions {
  import opened Values
  import opened Text
  import opened Domain
  import opened Paging
  import opened Sorting

  datatype Status = Pending | Approved | Rejected

  function StatusText(s: Status): string {
    match s
    case Pending => "pending"
    case Approved => "approved"
    case Rejected => "rejected"
  }

  /** The body of a submission request; an absent property is `None`. */
  datatype SubmissionInput = SubmissionInput(
    name: Option<string>,
    projectType: Option<string>,
    category: Option<string>,
    description: Option<string>,
    url: Option<string>,
    githubUrl: Option<string>,
    logo: Option<string>,
    tags: Option<string>,
    yearCreated: Option<string>,
    selfHostable: Option<bool>,
    license: Option<string>,
    techStack: Option<string>,
    alternativeTo: Option<string>,
    submittedBy: Option<string>,
    submitterEmail: Option<string>)

  /** A stored submission. */
  datatype Submission = Submission(
    id: int,
    name: string,
    projectType: string,
    category: string,
    description: string,
    url: Option<string>,
    githubUrl: Option<string>,
    logo: string,
    tags: Option<string>,
    yearCreated: Option<int>,
    selfHostable: bool,
    license: Option<string>,
    techStack: Option<string>,
    alternativeTo: Option<string>,
    submittedBy: Option<string>,
    submitterEmail: Option<string>,
    status: Status,
    reviewedBy: Option<int>,
    reviewedAt: Option<int>,
    reviewNotes: Option<string>,
    rejectionReason: Option<string>,
    projectId: Option<int>,
    createdAt: int)

  /** The status code and the message (or error) of a reply. */
  datatype Reply = Reply(code: nat, message: string)

  const MissingFields: string := "Missing required fields: name, type, category, description"
  const ProjectExists: string := "A project with this name already exists"
  const AlreadyPending: string := "A submission with this name is already pending review"
  const SubmittedMessage: string := "Project submitted successfully! It will be reviewed by an admin."
  const SubmitFailed: string := "Failed to submit project"
  const NotFound: string := "Submission not found"
  const AlreadyReviewed: string := "Submission has already been reviewed"
  const ApprovedMessage: string := "Submission approved and project created"
  const ApproveFailed: string := "Failed to approve submission"
  const ReasonRequired: string := "Rejection reason is required"
  const RejectedMessage: string := "Submission rejected"
  const DeletedMessage: string := "Submission deleted successfully"
  const DeleteFailed: string := "Failed to delete submission"
  const ListFailed: string := "Failed to fetch submissions"

  // ---------------------------------------------------------------------
  // The default logo

  /** The logo a submission without one receives: the package emoji U+1F4E6. */
  const DefaultLogo: string := "\U{1F4E6}"

  /** The default logo as the handler's text holds it: four characters,
      "\U{F0}\U{178}\U{201C}\U{A6}". */
  const WrittenDefaultLogo: string := "\U{F0}\U{178}\U{201C}\U{A6}"

  /** The four UTF-8 bytes of a code point beyond the Basic Multilingual Plane. */
  function Utf8Of(cp: int): (bytes: seq<int>)
    requires 0x10000 <= cp < 0x110000
    ensures |bytes| == 4 && forall i :: 0 <= i < 4 ==> 0 <= bytes[i] < 256
  {
    [0xF0 + cp / 0x40000, 0x80 + (cp / 0x1000) % 64, 0x80 + (cp / 64) % 64, 0x80 + cp % 64]
  }

  /** The code points Windows-1252 gives bytes 0x80 to 0x9F; -1 marks the
      five bytes it leaves undefined. The other bytes stand for themselves. */
  const Windows1252High: seq<int> := [
    0x20AC, -1, 0x201A, 0x0192, 0x201E, 0x2026, 0x2020, 0x2021,
    0x02C6, 0x2030, 0x0160, 0x2039, 0x0152, -1, 0x017D, -1,
    -1, 0x2018, 0x2019, 0x201C, 0x201D, 0x2022, 0x2013, 0x2014,
    0x02DC, 0x2122, 0x0161, 0x203A, 0x0153, -1, 0x017E, 0x0178]

  /** The character a byte stands for in Windows-1252. */
  function Windows1252(b: int): Option<char>
    requires 0 <= b < 256
  {
    if b < 0x80 || b >= 0xA0 then Some(b as char)
    else
      var x := Windows1252High[b - 0x80];
      assert x < 0xD800;
      if x < 0 then None else Some(x as char)
  }

  /** Bytes read as Windows-1252 text. */
  function DecodeWindows1252(bytes: seq<int>): Option<string>
    requires forall i :: 0 <= i < |bytes| ==> 0 <= bytes[i] < 256
  {
    if bytes == [] then Some("")
    else
      var c := Windows1252(bytes[0]);
      var rest := DecodeWindows1252(bytes[1..]);
      if c.Some? && rest.Some? then Some([c.value] + rest.value) else None
  }

  /** The written default logo is the UTF-8 encoding of the package emoji
      read back as Windows-1252: four characters, not the one emoji. */
  lemma WrittenLogoIsMisreadEmoji()
    ensures |DefaultLogo| == 1 && DefaultLogo[0] as int == 0x1F4E6
    ensures Utf8Of(0x1F4E6) == [0xF0, 0x9F, 0x93, 0xA6]
    ensures DecodeWindows1252(Utf8Of(0x1F4E6)) == Some(WrittenDefaultLogo)
    ensures |WrittenDefaultLogo| == 4 && WrittenDefaultLogo != DefaultLogo
  {
    var bytes := Utf8Of(0x1F4E6);
    assert bytes == [0xF0, 0x9F, 0x93, 0xA6];
    assert Windows1252(0xA6) == Some('\U{A6}');
    assert Windows1252(0x93) == Some('\U{201C}');
    assert Windows1252(0x9F) == Some('\U{178}');
    assert Windows1252(0xF0) == Some('\U{F0}');
    assert DecodeWindows1252([]) == Some([]);
    assert bytes[3..][1..] == [] && bytes[2..][1..] == bytes[3..] && bytes[1..][1..] == bytes[2..];
    assert ['\U{A6}'] + [] == "\U{A6}";
    assert DecodeWindows1252(bytes[3..]) == Some("\U{A6}");
    assert ['\U{201C}'] + "\U{A6}" == "\U{201C}\U{A6}";
    assert DecodeWindows1252(bytes[2..]) == Some("\U{201C}\U{A6}");
    assert ['\U{178}'] + "\U{201C}\U{A6}" == "\U{178}\U{201C}\U{A6}";
    assert DecodeWindows1252(bytes[1..]) == Some("\U{178}\U{201C}\U{A6}");
    assert ['\U{F0}'] + "\U{178}\U{201C}\U{A6}" == WrittenDefaultLogo;
  }

  // ---------------------------------------------------------------------
  // Creating a submission

  /** `name`, `type`, `category` and `description` are all truthy. */
  predicate RequiredPresent(input: SubmissionInput) {
    Present(input.name) && Present(input.projectType) && Present(input.category) && Present(input.description)
  }

  predicate NameTaken(projects: map<int, Project>, name: string) {
    exists id :: id in projects && projects[id].name == name
  }

  predicate PendingNamed(submissions: map<int, Submission>, name: string) {
    exists id :: id in submissions && submissions[id].status == Pending && submissions[id].name == name
  }

  /** `yearCreated ? parseInt(yearCreated) : null`: `Some(None)` for null,
      `Some(Some(n))` for a number, and `None` when `parseInt` gives NaN,
      which the database refuses. */
  function YearCreatedOf(y: Option<string>): (r: Option<Option<int>>)
    ensures !Present(y) ==> r == Some(None)
    ensures Present(y) ==> (r.Some? <==> ParseInt(y.value).Some?)
    ensures Present(y) && r.Some? ==> r.value == ParseInt(y.value)
  {
    if Present(y) then
      match ParseInt(y.value)
      case None => None
      case Some(n) => Some(Some(n))
    else Some(None)
  }

  /** A year written out in decimal is stored as that year. */
  lemma YearCreatedOfRendered(n: int)
    ensures YearCreatedOf(Some(IntToString(n))) == Some(Some(n))
  {
    ParseIntOfRendered(n, "");
    assert IntToString(n) + "" == IntToString(n);
  }

  /** No review has touched the submission. */
  predicate Unreviewed(s: Submission) {
    s.reviewedBy.None? && s.reviewedAt.None? && s.reviewNotes.None? && s.rejectionReason.None? && s.projectId.None?
  }

  /** The submission a request that passed the checks creates. */
  function NewSubmission(input: SubmissionInput, id: int, now: int): (s: Submission)
    requires RequiredPresent(input) && YearCreatedOf(input.yearCreated).Some?
    ensures s.id == id && s.status == Pending && s.createdAt == now && Unreviewed(s)
    ensures s.name == input.name.value && s.projectType == input.projectType.value
    ensures s.category == input.category.value && s.description == input.description.value
    ensures Present(input.logo) ==> s.logo == input.logo.value
    ensures !Present(input.logo) ==> s.logo == DefaultLogo
    ensures s.selfHostable <==> input.selfHostable == Some(true)
    ensures s.yearCreated == YearCreatedOf(input.yearCreated).value
    ensures s.url == input.url && s.githubUrl == input.githubUrl && s.tags == input.tags
    ensures s.license == input.license && s.techStack == input.techStack && s.alternativeTo == input.alternativeTo
    ensures s.submittedBy == input.submittedBy && s.submitterEmail == input.submitterEmail
  {
    Submission(id, input.name.value, input.projectType.value, input.category.value, input.description.value,
      input.url, input.githubUrl, OrElse(input.logo, DefaultLogo), input.tags,
      YearCreatedOf(input.yearCreated).value, input.selfHostable == Some(true),
      input.license, input.techStack, input.alternativeTo, input.submittedBy, input.submitterEmail,
      Pending, None, None, None, None, None, now)
  }

  /** Everything `Create` demands before it writes. */
  predicate Admissible(projects: map<int, Project>, submissions: map<int, Submission>, input: SubmissionInput) {
    && RequiredPresent(input)
    && !NameTaken(projects, input.name.value)
    && !PendingNamed(submissions, input.name.value)
    && YearCreatedOf(input.yearCreated).Some?
  }

  // ---------------------------------------------------------------------
  // Approving

  /** The project carries the submission's 13 descriptive fields. */
  predicate CopiesListing(p: Project, s: Submission) {
    && p.name == s.name && p.projectType == s.projectType && p.category == s.category
    && p.description == s.description && p.url == s.url && p.githubUrl == s.githubUrl
    && p.logo == Some(s.logo) && p.tags == s.tags && p.yearCreated == s.yearCreated
    && p.selfHostable == s.selfHostable && p.license == s.license
    && p.techStack == s.techStack && p.alternativeTo == s.alternativeTo
  }

  /** The project an approval creates. */
  function ProjectFrom(s: Submission, id: int): (p: Project)
    ensures p.id == id && CopiesListing(p, s)
  {
    Project(id, s.name, s.projectType, s.category, s.description, s.url, s.githubUrl,
      Some(s.logo), s.tags, s.yearCreated, s.selfHostable, s.license, s.techStack, s.alternativeTo)
  }

  /** `reviewNotes` as an update writes it: an absent value leaves the
      column as it was. */
  function NotesAfter(given: Option<string>, before: Option<string>): Option<string> {
    if given.Some? then given else before
  }

  // ---------------------------------------------------------------------
  // The store

  /** What each status implies about the review fields. */
  predicate WellFormed(s: Submission, projects: map<int, Project>) {
    match s.status
    case Pending => Unreviewed(s)
    case Approved =>
      s.reviewedBy.Some? && s.reviewedAt.Some? && s.rejectionReason.None?
      && s.projectId.Some? && s.projectId.value in projects
    case Rejected =>
      s.reviewedBy.Some? && s.reviewedAt.Some? && Present(s.rejectionReason) && s.projectId.None?
  }

  predicate UniqueProjectNames(projects: map<int, Project>) {
    forall a, b :: a in projects && b in projects && projects[a].name == projects[b].name ==> a == b
  }

  /** At most one pending submission carries a given name. */
  predicate UniquePendingNames(submissions: map<int, Submission>) {
    forall a, b ::
      (a in submissions && b in submissions && submissions[a].status == Pending
       && submissions[b].status == Pending && submissions[a].name == submissions[b].name) ==> a == b
  }

  /** A reviewed submission that is still there is as it was: approved and
      rejected are terminal. */
  predicate ReviewedKept(before: map<int, Submission>, after: map<int, Submission>) {
    forall id :: id in before && id in after && before[id].status != Pending ==> after[id] == before[id]
  }

  class SubmissionStore {
    var submissions: map<int, Submission>
    var projects: map<int, Project>
    /** The ids the tables' autoincrement columns hand out next. */
    var nextSubmissionId: int
    var nextProjectId: int

    predicate Valid()
      reads this
    {
      && (forall id :: id in submissions ==>
            submissions[id].id == id && id < nextSubmissionId && WellFormed(submissions[id], projects))
      && (forall id :: id in projects ==> projects[id].id == id && id < nextProjectId)
      && UniqueProjectNames(projects)
      && UniquePendingNames(submissions)
    }

    constructor(projects0: map<int, Project>, nextProjectId0: int)
      requires forall id :: id in projects0 ==> projects0[id].id == id && id < nextProjectId0
      requires UniqueProjectNames(projects0)
      ensures Valid()
      ensures submissions == map[] && projects == projects0
      ensures nextSubmissionId == 1 && nextProjectId == nextProjectId0
    {
      submissions := map[];
      projects := projects0;
      nextSubmissionId := 1;
      nextProjectId := nextProjectId0;
    }

    /** `POST /api/submissions`. */
    method Create(input: SubmissionInput, now: int) returns (reply: Reply)
      requires Valid()
      modifies this
      ensures Valid()
      ensures projects == old(projects) && nextProjectId == old(nextProjectId)
      ensures !RequiredPresent(input) ==> reply == Reply(400, MissingFields)
      ensures RequiredPresent(input) && NameTaken(old(projects), input.name.value) ==>
        reply == Reply(400, ProjectExists)
      ensures (RequiredPresent(input) && !NameTaken(old(projects), input.name.value)
               && PendingNamed(old(submissions), input.name.value)) ==> reply == Reply(400, AlreadyPending)
      ensures (RequiredPresent(input) && !NameTaken(old(projects), input.name.value)
               && !PendingNamed(old(submissions), input.name.value) && YearCreatedOf(input.yearCreated).None?) ==>
        reply == Reply(500, SubmitFailed)
      ensures reply.code == 201 <==> Admissible(old(projects), old(submissions), input)
      ensures reply.code == 201 ==>
        && reply.message == SubmittedMessage
        && old(nextSubmissionId) !in old(submissions)
        && submissions == old(submissions)[old(nextSubmissionId) := NewSubmission(input, old(nextSubmissionId), now)]
        && nextSubmissionId == old(nextSubmissionId) + 1
      ensures reply.code != 201 ==> submissions == old(submissions) && nextSubmissionId == old(nextSubmissionId)
    {
      if !RequiredPresent(input) {
        return Reply(400, MissingFields);
      }
      var name := input.name.value;
      if NameTaken(projects, name) {
        return Reply(400, ProjectExists);
      }
      if PendingNamed(submissions, name) {
        return Reply(400, AlreadyPending);
      }
      if YearCreatedOf(input.yearCreated).None? {
        return Reply(500, SubmitFailed);
      }
      var s := NewSubmission(input, nextSubmissionId, now);
      submissions := submissions[nextSubmissionId := s];
      nextSubmissionId := nextSubmissionId + 1;
      reply := Reply(201, SubmittedMessage);
    }

    /** `POST /api/submissions/:id/approve` by the admin `adminId`. */
    method Approve(id: int, adminId: int, reviewNotes: Option<string>, now: int) returns (reply: Reply)
      requires Valid()
      modifies this
      ensures Valid()
      ensures ReviewedKept(old(submissions), submissions)
      ensures id !in old(submissions) ==> reply == Reply(404, NotFound)
      ensures id in old(submissions) && old(submissions)[id].status != Pending ==>
        reply == Reply(400, AlreadyReviewed)
      ensures (id in old(submissions) && old(submissions)[id].status == Pending
               && NameTaken(old(projects), old(submissions)[id].name)) ==> reply == Reply(500, ApproveFailed)
      ensures reply.code == 200 <==>
        id in old(submissions) && old(submissions)[id].status == Pending
        && !NameTaken(old(projects), old(submissions)[id].name)
      ensures reply.code != 200 ==>
        && submissions == old(submissions) && projects == old(projects)
        && nextSubmissionId == old(nextSubmissionId) && nextProjectId == old(nextProjectId)
      ensures reply.code == 200 ==>
        var s := old(submissions)[id];
        var pid := old(nextProjectId);
        && reply.message == ApprovedMessage
        && pid !in old(projects)
        && projects == old(projects)[pid := ProjectFrom(s, pid)]
        && nextProjectId == pid + 1
        && submissions == old(submissions)[id := s.(status := Approved, reviewedBy := Some(adminId),
             reviewedAt := Some(now), reviewNotes := NotesAfter(reviewNotes, s.reviewNotes), projectId := Some(pid))]
        && nextSubmissionId == old(nextSubmissionId)
    {
      if id !in submissions {
        return Reply(404, NotFound);
      }
      var s := submissions[id];
      if s.status != Pending {
        return Reply(400, AlreadyReviewed);
      }
      if NameTaken(projects, s.name) {
        return Reply(500, ApproveFailed);
      }
      var pid := nextProjectId;
      projects := projects[pid := ProjectFrom(s, pid)];
      nextProjectId := pid + 1;
      submissions := submissions[id := s.(status := Approved, reviewedBy := Some(adminId),
        reviewedAt := Some(now), reviewNotes := NotesAfter(reviewNotes, s.reviewNotes), projectId := Some(pid))];
      reply := Reply(200, ApprovedMessage);
    }

    /** `POST /api/submissions/:id/reject` by the admin `adminId`. */
    method Reject(id: int, adminId: int, rejectionReason: Option<string>, reviewNotes: Option<string>, now: int)
      returns (reply: Reply)
      requires Valid()
      modifies this
      ensures Valid()
      ensures ReviewedKept(old(submissions), submissions)
      ensures projects == old(projects) && nextProjectId == old(nextProjectId)
      ensures nextSubmissionId == old(nextSubmissionId)
      ensures id !in old(submissions) ==> reply == Reply(404, NotFound)
      ensures id in old(submissions) && old(submissions)[id].status != Pending ==>
        reply == Reply(400, AlreadyReviewed)
      ensures id in old(submissions) && old(submissions)[id].status == Pending && !Present(rejectionReason) ==>
        reply == Reply(400, ReasonRequired)
      ensures reply.code == 200 <==>
        id in old(submissions) && old(submissions)[id].status == Pending && Present(rejectionReason)
      ensures reply.code != 200 ==> submissions == old(submissions)
      ensures reply.code == 200 ==>
        var s := old(submissions)[id];
        && reply.message == RejectedMessage
        && submissions == old(submissions)[id := s.(status := Rejected, reviewedBy := Some(adminId),
             reviewedAt := Some(now), rejectionReason := rejectionReason,
             reviewNotes := NotesAfter(reviewNotes, s.reviewNotes))]
    {
      if id !in submissions {
        return Reply(404, NotFound);
      }
      var s := submissions[id];
      if s.status != Pending {
        return Reply(400, AlreadyReviewed);
      }
      if !Present(rejectionReason) {
        return Reply(400, ReasonRequired);
      }
      submissions := submissions[id := s.(status := Rejected, reviewedBy := Some(adminId),
        reviewedAt := Some(now), rejectionReason := rejectionReason,
        reviewNotes := NotesAfter(reviewNotes, s.reviewNotes))];
      reply := Reply(200, RejectedMessage);
    }

    /** `GET /api/submissions/pending/count`. */
    method CountPending() returns (count: nat)
      ensures count == |set id | id in submissions && submissions[id].status == Pending|
      ensures count <= |submissions|
      ensures count == 0 <==> forall id :: id in submissions ==> submissions[id].status != Pending
    {
      var pending := set id | id in submissions && submissions[id].status == Pending;
      assert pending <= submissions.Keys;
      SubsetCardinality(pending, submissions.Keys);
      count := |pending|;
      if forall id :: id in submissions ==> submissions[id].status != Pending {
        assert pending == {};
      } else {
        var id :| id in submissions && submissions[id].status == Pending;
        assert id in pending;
      }
    }

    /** `GET /api/submissions/:id`: the submission with that id (the body
      of the 200 reply, which carries no message), or 404. */
    method Get(id: int) returns (reply: Reply, found: Option<Submission>)
      requires Valid()
      ensures found.Some? <==> id in submissions
      ensures found.Some? ==> found.value == submissions[id] && found.value.id == id && reply.code == 200
      ensures found.None? ==> reply == Reply(404, NotFound)
    {
      if id !in submissions {
        return Reply(404, NotFound), None;
      }
      found := Some(submissions[id]);
      reply := Reply(200, "");
    }

    /** `DELETE /api/submissions/:id`: removes a submission whatever its
      status; the project an approval created stays. */
    method Delete(id: int) returns (reply: Reply)
      requires Valid()
      modifies this
      ensures Valid()
      ensures ReviewedKept(old(submissions), submissions)
      ensures projects == old(projects) && nextProjectId == old(nextProjectId)
      ensures nextSubmissionId == old(nextSubmissionId)
      ensures id !in old(submissions) ==> reply == Reply(500, DeleteFailed) && submissions == old(submissions)
      ensures id in old(submissions) ==> reply == Reply(200, DeletedMessage) && submissions == old(submissions) - {id}
    {
      if id !in submissions {
        return Reply(500, DeleteFailed);
      }
      submissions := submissions - {id};
      reply := Reply(200, DeletedMessage);
    }
  }

  lemma SubsetCardinality<T>(a: set<T>, b: set<T>)
    requires a <= b
    ensures |a| <= |b|
  {
    if a != {} {
      var x :| x in a;
      SubsetCardinality(a - {x}, b - {x});
    }
  }

  // ---------------------------------------------------------------------
  // Listing

  /** Whether the `status` filter keeps `s`: any status passes when none
      is given. */
  predicate StatusMatches(s: Submission, status: Option<string>) {
    !Present(status) || StatusText(s.status) == status.value
  }

  /** The rows the `status` filter keeps, in table order. */
  function WithStatus(rows: seq<Submission>, status: Option<string>): (r: seq<Submission>)
    ensures |r| <= |rows|
    ensures !Present(status) ==> r == rows
    ensures forall s :: s in r <==> s in rows && StatusMatches(s, status)
    ensures forall s :: multiset(r)[s] == if StatusMatches(s, status) then multiset(rows)[s] else 0
  {
    if rows == [] then []
    else
      var init := rows[..|rows| - 1];
      var last := rows[|rows| - 1];
      assert rows == init + [last];
      WithStatus(init, status) + (if StatusMatches(last, status) then [last] else [])
  }

  /** A page of the listing. The reply's page is `parseInt(page)`, which
      a JSON reply shows as null when it is NaN. */
  datatype SubmissionPage = SubmissionPage(data: seq<Submission>, page: Option<int>, limit: int, total: nat, totalPages: PageCount)

  /** `orderBy: { createdAt: 'desc' }` as a sort key. */
  function NewestSubmission(s: Submission): real {
    -(s.createdAt as real)
  }

  /** The offset `(page - 1) * limit`, with the query strings coerced by
      the arithmetic and the defaults 1 and 20; `None` when it is NaN. */
  function SubmissionSkip(page: Option<string>, limit: Option<string>): Option<int> {
    var p := NumberOr(page, 1);
    var l := NumberOr(limit, 20);
    if p.None? || l.None? then None else Some(Skip(p.value, l.value))
  }

  /** `GET /api/submissions`: the page `page` (default 1) of `limit`
      (default 20) rows among those the status filter keeps, newest first,
      with the total and the page count. The offset coerces the query
      strings with `Number` and the row count with `parseInt`; the database
      refuses an offset that is NaN or negative and a row count that is
      NaN, and counts a negative row count back from the end. */
  function ListSubmissions(rows: seq<Submission>, status: Option<string>, page: Option<string>, limit: Option<string>): (r: Result<SubmissionPage>)
    ensures r.Err? <==>
      || SubmissionSkip(page, limit).None? || SubmissionSkip(page, limit).value < 0
      || ParamOr(limit, 20).None?
    ensures r.Err? ==> r.error == ListFailed
    ensures r.Ok? ==>
      var skip := SubmissionSkip(page, limit).value;
      var take := ParamOr(limit, 20).value;
      && r.value.total == |WithStatus(rows, status)|
      && r.value.data == Slice(SortBy(WithStatus(rows, status), NewestSubmission), skip, take)
      && r.value.totalPages == TotalPages(r.value.total, NumberOr(limit, 20).value)
      && r.value.page == ParamOr(page, 1) && r.value.limit == take
  {
    var skip := SubmissionSkip(page, limit);
    var take := ParamOr(limit, 20);
    if skip.None? || skip.value < 0 || take.None? then Err(ListFailed)
    else
      var matching := WithStatus(rows, status);
      Ok(SubmissionPage(Slice(SortBy(matching, NewestSubmission), skip.value, take.value),
        ParamOr(page, 1), take.value, |matching|, TotalPages(|matching|, NumberOr(limit, 20).value)))
  }

  /** A listed page holds stored submissions with the requested status,
      newest first. */
  lemma ListedSubmissions(rows: seq<Submission>, status: Option<string>, page: Option<string>, limit: Option<string>)
    requires ListSubmissions(rows, status, page, limit).Ok?
    ensures var data := ListSubmissions(rows, status, page, limit).value.data;
      && (forall s :: s in data ==> s in rows && (!Present(status) || StatusText(s.status) == status.value))
      && (forall i, j :: 0 <= i < j < |data| ==> data[i].createdAt >= data[j].createdAt)
  {
    var matching := WithStatus(rows, status);
    var sorted := SortBy(matching, NewestSubmission);
    var skip := SubmissionSkip(page, limit).value;
    var take := ParamOr(limit, 20).value;
    var data := ListSubmissions(rows, status, page, limit).value.data;
    forall s | s in data
      ensures s in rows && (!Present(status) || StatusText(s.status) == status.value)
    {
      InSlice(sorted, skip, take, s);
      InSortBy(matching, NewestSubmission, s);
    }
    SortedSlice(sorted, NewestSubmission, skip, take);
    forall i, j | 0 <= i < j < |data|
      ensures data[i].createdAt >= data[j].createdAt
    {
      assert NewestSubmission(data[i]) <= NewestSubmission(data[j]);
    }
  }

  /** Without parameters the 20 newest matching submissions are listed. */
  lemma ListedByDefault(rows: seq<Submission>, status: Option<string>)
    ensures ListSubmissions(rows, status, None, None).Ok?
    ensures ListSubmissions(rows, status, None, None).value.data
      == Window(SortBy(WithStatus(rows, status), NewestSubmission), 0, 20)
    ensures ListSubmissions(rows, status, None, None).value.page == Some(1)
  {
    assert Skip(1, 20) == 0;
  }

  /** When both parameters are given as whole numbers, the page and limit
      the reply reports are those the offset was computed from: the rows
      served start at `(page - 1) * limit`. */
  lemma ReportedPageIsServed(rows: seq<Submission>, status: Option<string>, page: string, limit: string)
    requires ListSubmissions(rows, status, Some(page), Some(limit)).Ok?
    requires DecimalNumber(page).Some? && Trim(page) != []
    ensures var r := ListSubmissions(rows, status, Some(page), Some(limit)).value;
      && r.page.Some?
      && SubmissionSkip(Some(page), Some(limit)) == Some(Skip(r.page.value, r.limit))
  {
    DecimalNumberIsParseInt(page);
    ParseIntOfBlank(limit);
    DecimalNumberIsParseInt(limit);
  }
}
