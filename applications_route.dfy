/** `POST /api/applications`: validate the request, read the first document's
    CV, let the AI extract profile data, find or create the applicant by
    e-mail, refuse a second application to the same job, then create the
    application and its document links, all in one transaction. */
module ApplicationsRoute {
  import opened Seqs

  /** The profile fields the AI may extract; `None` is an absent field. */
  datatype ParsedData = ParsedData(
    experiences: Option<seq<string>>,
    location: Option<string>,
    languages: Option<seq<string>>,
    summary: Option<string>,
    educations: Option<seq<string>>,
    yearOfExperience: Option<int>,
    profileLinks: Option<seq<string>>)

  /** `parsedData = {}`: every field absent. */
  const NoData := ParsedData(None, None, None, None, None, None, None)

  /** What reading the CV and calling the AI produced. */
  datatype AiReply =
    | ReadFailed            // `fs.readFile` threw
    | CallFailed            // `generateContent` threw
    | NoText                // the reply has no text
    | Unparsable            // `JSON.parse` threw (caught, parsedData stays {})
    | NullJson              // the text is `null`: reading a field of it throws
    | Extracted(data: ParsedData)

  datatype ApplicationRequest = ApplicationRequest(
    fullName: string,
    email: string,
    phone: string,
    jobPostId: int,
    expectedSalary: Option<int>,
    notes: Option<string>,
    documentIds: seq<int>)

  /** The request body: not JSON at all, JSON refused by the schema, or a valid request. */
  datatype Body = NotJson | FailsSchema | WellFormed(req: ApplicationRequest)

  datatype Applicant = Applicant(
    id: int,
    fullName: string,
    email: string,
    phone: string,
    experience: Option<seq<string>>,
    location: Option<string>,
    languages: Option<seq<string>>,
    summary: Option<string>,
    education: Option<seq<string>>,
    yearOfExperience: Option<int>,
    profileLinks: Option<seq<string>>)

  datatype Application = Application(id: int, jobPostId: int, applicantId: int, expectedSalary: Option<int>, notes: Option<string>)

  datatype Link = Link(applicationId: int, documentId: int)

  datatype Document = Document(id: int, localPath: Option<string>)

  /** The tables the route reads and writes; applicants are keyed by e-mail. */
  datatype Tables = Tables(
    applicants: map<string, Applicant>,
    applications: seq<Application>,
    links: seq<Link>,
    documents: seq<Document>,
    jobPosts: set<int>,
    nextApplicantId: int,
    nextApplicationId: int)

  /** Why the handler ended in its `catch`. */
  datatype Failure =
    | BadJson | DocumentNotFound | CvUnreadable | AiUnavailable | NullParse
    | AlreadyApplied | JobPostMissing | DocumentLinkMissing
    | ResultNotSerializable   // `NextResponse.json(undefined)` throws a TypeError

  datatype Response =
    | Created(application: Application)   // 201
    | ValidationError                     // 400
    | Failed(failure: Failure)            // 409 or 500

  const DuplicateMessage := "You have already applied for this job"

  /** The message of the thrown error; only the duplicate check's message is the source's own. */
  function Message(f: Failure): (r: string)
    ensures r == DuplicateMessage <==> f == AlreadyApplied
  {
    if f == AlreadyApplied then DuplicateMessage
    else if f == ResultNotSerializable then "Value is not JSON serializable"
    else "transaction error"
  }

  /** 409 exactly for the duplicate-application message, 500 for every other error. */
  function Status(r: Response): (code: int)
    ensures code == 201 <==> r.Created?
    ensures code == 400 <==> r.ValidationError?
    ensures code == 409 <==> r == Failed(AlreadyApplied)
    ensures code == 500 <==> r.Failed? && r.failure != AlreadyApplied
  {
    match r
    case Created(_) => 201
    case ValidationError => 400
    case Failed(f) => if Message(f) == DuplicateMessage then 409 else 500
  }

  // ---- lookups ----

  function DocumentIds(docs: seq<Document>): (r: set<int>)
    ensures forall id :: id in r <==> exists d :: d in docs && d.id == id
  {
    set d | d in docs :: d.id
  }

  /** `findFirst({ where: { id } })`: the first document with that id. */
  function FindDocument(docs: seq<Document>, id: int): (r: Option<Document>)
    ensures r.None? <==> id !in DocumentIds(docs)
    ensures r.Some? ==> r.value in docs && r.value.id == id
    decreases |docs|
  {
    if docs == [] then None
    else if docs[0].id == id then Some(docs[0])
    else
      assert forall d :: d in docs[1..] ==> d in docs;
      assert forall d :: d in docs && d != docs[0] ==> d in docs[1..];
      FindDocument(docs[1..], id)
  }

  /** `findFirstOrThrow({ where: { id: documentIds[0] } })`: with no ids the
      filter is `{ id: undefined }`, which matches every row. The query has no
      `orderBy`, so which row comes back is not promised; the model takes the
      first in table order. */
  function FirstDocument(docs: seq<Document>, ids: seq<int>): (r: Option<Document>)
    ensures ids != [] ==> (r.None? <==> ids[0] !in DocumentIds(docs))
    ensures ids == [] ==> (r.None? <==> docs == [])
    ensures r.Some? ==> r.value in docs
    ensures r.Some? && ids != [] ==> r.value.id == ids[0]
  {
    if ids == [] then (if docs == [] then None else Some(docs[0]))
    else FindDocument(docs, ids[0])
  }

  /** `if (document.localPath)`: a missing or empty path is falsy. */
  predicate HasLocalPath(d: Document)
  {
    d.localPath.Some? && d.localPath.value != ""
  }

  /** The fields the applicant is created with; `None` when reading a field throws. */
  function ParsedOf(ai: AiReply): (r: Option<ParsedData>)
    ensures r.None? <==> ai.NullJson? || ai.ReadFailed? || ai.CallFailed?
    ensures ai.NoText? || ai.Unparsable? ==> r == Some(NoData)
  {
    match ai
    case Extracted(data) => Some(data)
    case NoText => Some(NoData)
    case Unparsable => Some(NoData)
    case _ => None
  }

  function NewApplicant(id: int, req: ApplicationRequest, p: ParsedData): Applicant
  {
    Applicant(id, req.fullName, req.email, req.phone, p.experiences, p.location, p.languages,
              p.summary, p.educations, p.yearOfExperience, p.profileLinks)
  }

  /** `findFirst({ where: { applicantId, jobPostId } })` found a row. */
  predicate HasApplication(apps: seq<Application>, applicantId: int, jobPostId: int)
  {
    exists i :: 0 <= i < |apps| && apps[i].applicantId == applicantId && apps[i].jobPostId == jobPostId
  }

  /** `documentIds.map((documentId) => ({ applicationId, documentId }))`. */
  function LinksFor(applicationId: int, ids: seq<int>): (r: seq<Link>)
    ensures |r| == |ids|
    ensures forall k :: 0 <= k < |ids| ==> r[k] == Link(applicationId, ids[k])
  {
    seq(|ids|, k requires 0 <= k < |ids| => Link(applicationId, ids[k]))
  }

  /** Every linked document exists (the link table's foreign key). */
  predicate AllDocumentsExist(docs: seq<Document>, ids: seq<int>)
  {
    forall k :: 0 <= k < |ids| ==> ids[k] in DocumentIds(docs)
  }

  // ---- the specification of one POST ----

  /** `applicant.create`: the new applicant takes the next id. */
  function WithApplicant(t: Tables, req: ApplicationRequest, p: ParsedData): Tables
  {
    t.(applicants := t.applicants[req.email := NewApplicant(t.nextApplicantId, req, p)],
       nextApplicantId := t.nextApplicantId + 1)
  }

  /** `application.create` followed by `applicationDocument.createMany`. */
  function WithApplication(t: Tables, app: Application, ids: seq<int>): Tables
  {
    t.(applications := t.applications + [app],
       links := t.links + LinksFor(app.id, ids),
       nextApplicationId := t.nextApplicationId + 1)
  }

  /** The transaction body once the CV was read and the AI answered. Every
      failure returns the tables it started from: the transaction rolls back. */
  function Transaction(t: Tables, req: ApplicationRequest, ai: AiReply): (Tables, Response)
  {
    var known := req.email in t.applicants;
    if !known && ParsedOf(ai).None? then (t, Failed(NullParse))
    else
      var t1 := if known then t else WithApplicant(t, req, ParsedOf(ai).value);
      var applicantId := t1.applicants[req.email].id;
      if HasApplication(t1.applications, applicantId, req.jobPostId) then (t, Failed(AlreadyApplied))
      else if req.jobPostId !in t1.jobPosts then (t, Failed(JobPostMissing))
      else if !AllDocumentsExist(t1.documents, req.documentIds) then (t, Failed(DocumentLinkMissing))
      else
        var app := Application(t1.nextApplicationId, req.jobPostId, applicantId, req.expectedSalary, req.notes);
        (WithApplication(t1, app, req.documentIds), Created(app))
  }

  /** One POST: the new tables and the response. */
  function PostSpec(t: Tables, body: Body, ai: AiReply): (Tables, Response)
  {
    match body
    case NotJson => (t, Failed(BadJson))
    case FailsSchema => (t, ValidationError)
    case WellFormed(req) =>
      var d := FirstDocument(t.documents, req.documentIds);
      if d.None? then (t, Failed(DocumentNotFound))
      // without a local path the transaction callback returns `undefined`,
      // and serialising that for the 201 answer throws inside the `try`
      else if !HasLocalPath(d.value) then (t, Failed(ResultNotSerializable))
      else if ai.ReadFailed? then (t, Failed(CvUnreadable))
      else if ai.CallFailed? then (t, Failed(AiUnavailable))
      else Transaction(t, req, ai)
  }

  /** The evidently intended POST: only the CV parsing depends on the local
      path, so without one `parsedData` stays `{}` (as for a reply with no
      text) and the applicant and application are still created. */
  function PostSpecIntended(t: Tables, body: Body, ai: AiReply): (Tables, Response)
  {
    match body
    case NotJson => (t, Failed(BadJson))
    case FailsSchema => (t, ValidationError)
    case WellFormed(req) =>
      var d := FirstDocument(t.documents, req.documentIds);
      if d.None? then (t, Failed(DocumentNotFound))
      else if !HasLocalPath(d.value) then Transaction(t, req, NoText)
      else if ai.ReadFailed? then (t, Failed(CvUnreadable))
      else if ai.CallFailed? then (t, Failed(AiUnavailable))
      else Transaction(t, req, ai)
  }

  /** The table invariant: applicants are stored under their own e-mail with
      distinct ids, ids are below the counters, and there is at most one
      application per (applicant, job post). */
  predicate Valid(t: Tables)
  {
    && (forall e :: e in t.applicants ==> t.applicants[e].email == e && t.applicants[e].id < t.nextApplicantId)
    && (forall e1, e2 :: e1 in t.applicants && e2 in t.applicants && e1 != e2 ==> t.applicants[e1].id != t.applicants[e2].id)
    && (forall i :: 0 <= i < |t.applications| ==> t.applications[i].id < t.nextApplicationId)
    && (forall i, j :: 0 <= i < j < |t.applications| ==>
          t.applications[i].applicantId != t.applications[j].applicantId || t.applications[i].jobPostId != t.applications[j].jobPostId)
  }

  // ---- properties ----

  /** The handler answers 201, 400, 409 or 500, and every answer but a real
      201 leaves every table as it was. */
  lemma PostIsAllOrNothing(t: Tables, body: Body, ai: AiReply)
    ensures Status(PostSpec(t, body, ai).1) in {201, 400, 409, 500}
    ensures !PostSpec(t, body, ai).1.Created? ==> PostSpec(t, body, ai).0 == t
  {
  }

  /** A body the schema refuses gives 400 and touches nothing; a body that is not JSON gives 500. */
  lemma BadBodies(t: Tables, ai: AiReply)
    ensures PostSpec(t, FailsSchema, ai) == (t, ValidationError) && Status(ValidationError) == 400
    ensures PostSpec(t, NotJson, ai) == (t, Failed(BadJson)) && Status(Failed(BadJson)) == 500
  {
  }

  /** A first document id that matches no document throws: 500, nothing written. */
  lemma MissingFirstDocument(t: Tables, req: ApplicationRequest, ai: AiReply)
    requires req.documentIds != [] && req.documentIds[0] !in DocumentIds(t.documents)
    ensures PostSpec(t, WellFormed(req), ai) == (t, Failed(DocumentNotFound))
  {
  }

  /** As written, a first document without a local path makes the transaction
      return `undefined`, whose serialisation throws: 500 and nothing created,
      whatever the rest of the request. */
  lemma NoLocalPathRefused(t: Tables, req: ApplicationRequest, ai: AiReply)
    requires FirstDocument(t.documents, req.documentIds).Some?
    requires !HasLocalPath(FirstDocument(t.documents, req.documentIds).value)
    ensures PostSpec(t, WellFormed(req), ai) == (t, Failed(ResultNotSerializable))
    ensures Status(Failed(ResultNotSerializable)) == 500
  {
  }

  /** As intended, a fresh request whose first document has no local path
      creates the application, with an applicant holding no extracted fields
      when the e-mail is new; with a local path nothing changes. */
  lemma IntendedCreatesWithoutLocalPath(t: Tables, req: ApplicationRequest, ai: AiReply)
    requires FirstDocument(t.documents, req.documentIds).Some?
    requires !HasLocalPath(FirstDocument(t.documents, req.documentIds).value)
    requires req.jobPostId in t.jobPosts && AllDocumentsExist(t.documents, req.documentIds)
    requires var id := if req.email in t.applicants then t.applicants[req.email].id else t.nextApplicantId;
      !HasApplication(t.applications, id, req.jobPostId)
    ensures var (t', r) := PostSpecIntended(t, WellFormed(req), ai);
      && r.Created? && Status(r) == 201
      && t'.applications == t.applications + [r.application]
      && r.application.jobPostId == req.jobPostId
      && req.email in t'.applicants
      && (req.email !in t.applicants ==> t'.applicants[req.email] == NewApplicant(t.nextApplicantId, req, NoData))
  {
  }

  /** The correction touches only the branch without a local path. */
  lemma IntendedAgreesWithLocalPath(t: Tables, body: Body, ai: AiReply)
    requires body.WellFormed? ==>
      var d := FirstDocument(t.documents, body.req.documentIds);
      d.None? || HasLocalPath(d.value)
    ensures PostSpecIntended(t, body, ai) == PostSpec(t, body, ai)
  {
  }

  /** An applicant already stored under the e-mail is kept as it is, whatever the outcome. */
  lemma ExistingApplicantKept(t: Tables, body: Body, ai: AiReply)
    requires body.WellFormed? && body.req.email in t.applicants
    ensures PostSpec(t, body, ai).0.applicants == t.applicants
  {
  }

  /** A new applicant gets the request's contact data and the extracted fields;
      with no text or unparsable text every extracted field is absent. */
  lemma NewApplicantFromReply(t: Tables, req: ApplicationRequest, ai: AiReply)
    requires req.email !in t.applicants
    requires PostSpec(t, WellFormed(req), ai).1.Created?
    ensures var a := PostSpec(t, WellFormed(req), ai).0.applicants;
      && req.email in a && a[req.email] == NewApplicant(t.nextApplicantId, req, ParsedOf(ai).value)
      && (ai.NoText? || ai.Unparsable? ==>
            a[req.email].location.None? && a[req.email].summary.None? && a[req.email].languages.None?
            && a[req.email].experience.None? && a[req.email].education.None?
            && a[req.email].yearOfExperience.None? && a[req.email].profileLinks.None?)
  {
  }

  /** An existing application for the same applicant and job gives 409 and writes nothing. */
  lemma DuplicateRejected(t: Tables, req: ApplicationRequest, ai: AiReply)
    requires req.email in t.applicants
    requires HasApplication(t.applications, t.applicants[req.email].id, req.jobPostId)
    requires FirstDocument(t.documents, req.documentIds).Some?
    requires HasLocalPath(FirstDocument(t.documents, req.documentIds).value)
    requires !ai.ReadFailed? && !ai.CallFailed?
    ensures PostSpec(t, WellFormed(req), ai) == (t, Failed(AlreadyApplied))
    ensures Status(Failed(AlreadyApplied)) == 409
  {
  }

  /** A real 201 adds exactly one application holding the request's job,
      salary and notes, and one link per document id, in order. */
  lemma SuccessShape(t: Tables, req: ApplicationRequest, ai: AiReply)
    requires PostSpec(t, WellFormed(req), ai).1.Created?
    ensures var (t', r) := PostSpec(t, WellFormed(req), ai);
      var app := r.application;
      && t'.applications == t.applications + [app]
      && app.id == t.nextApplicationId
      && app.jobPostId == req.jobPostId && app.expectedSalary == req.expectedSalary && app.notes == req.notes
      && req.email in t'.applicants && app.applicantId == t'.applicants[req.email].id
      && t'.links == t.links + LinksFor(app.id, req.documentIds)
      && t'.documents == t.documents && t'.jobPosts == t.jobPosts
  {
  }

  /** Storing a new applicant under a fresh e-mail keeps the table invariant. */
  lemma WithApplicantValid(t: Tables, req: ApplicationRequest, p: ParsedData)
    requires Valid(t) && req.email !in t.applicants
    ensures Valid(WithApplicant(t, req, p))
  {
  }

  /** Adding an application with the next id, for a pair that has none yet,
      keeps the table invariant. */
  lemma WithApplicationValid(t: Tables, app: Application, ids: seq<int>)
    requires Valid(t) && app.id == t.nextApplicationId
    requires !HasApplication(t.applications, app.applicantId, app.jobPostId)
    ensures Valid(WithApplication(t, app, ids))
  {
    var apps := t.applications + [app];
    forall i, j | 0 <= i < j < |apps|
      ensures apps[i].applicantId != apps[j].applicantId || apps[i].jobPostId != apps[j].jobPostId
    {
      assert apps[i] == t.applications[i];
      if j < |t.applications| {
        assert apps[j] == t.applications[j];
      }
    }
    forall i | 0 <= i < |apps|
      ensures apps[i].id < t.nextApplicationId + 1
    {
      if i < |t.applications| {
        assert apps[i] == t.applications[i];
      }
    }
  }

  /** The tables after the transaction: unchanged, or the applicant (new or
      not) with one more application. */
  lemma TransactionShape(t: Tables, req: ApplicationRequest, ai: AiReply)
    ensures var t' := Transaction(t, req, ai).0;
      || t' == t
      || (req.email in t.applicants
          && var app := Application(t.nextApplicationId, req.jobPostId, t.applicants[req.email].id, req.expectedSalary, req.notes);
          && !HasApplication(t.applications, app.applicantId, app.jobPostId)
          && t' == WithApplication(t, app, req.documentIds))
      || (req.email !in t.applicants && ParsedOf(ai).Some?
          && var t1 := WithApplicant(t, req, ParsedOf(ai).value);
          var app := Application(t1.nextApplicationId, req.jobPostId, t1.applicants[req.email].id, req.expectedSalary, req.notes);
          && !HasApplication(t1.applications, app.applicantId, app.jobPostId)
          && t' == WithApplication(t1, app, req.documentIds))
  {
  }

  /** The transaction keeps the table invariant. */
  lemma TransactionPreservesValid(t: Tables, req: ApplicationRequest, ai: AiReply)
    requires Valid(t)
    ensures Valid(Transaction(t, req, ai).0)
  {
    TransactionShape(t, req, ai);
    var t' := Transaction(t, req, ai).0;
    if t' != t {
      if req.email in t.applicants {
        var app := Application(t.nextApplicationId, req.jobPostId, t.applicants[req.email].id, req.expectedSalary, req.notes);
        WithApplicationValid(t, app, req.documentIds);
      } else {
        var t1 := WithApplicant(t, req, ParsedOf(ai).value);
        WithApplicantValid(t, req, ParsedOf(ai).value);
        var app := Application(t1.nextApplicationId, req.jobPostId, t1.applicants[req.email].id, req.expectedSalary, req.notes);
        WithApplicationValid(t1, app, req.documentIds);
      }
    }
  }

  /** Every POST keeps the table invariant, in particular one application per pair. */
  lemma PostPreservesValid(t: Tables, body: Body, ai: AiReply)
    requires Valid(t)
    ensures Valid(PostSpec(t, body, ai).0)
  {
    if body.WellFormed? {
      TransactionPreservesValid(t, body.req, ai);
    }
  }

  /** The corrected POST keeps the table invariant too. */
  lemma IntendedPreservesValid(t: Tables, body: Body, ai: AiReply)
    requires Valid(t)
    ensures Valid(PostSpecIntended(t, body, ai).0)
  {
    if body.WellFormed? {
      TransactionPreservesValid(t, body.req, ai);
      TransactionPreservesValid(t, body.req, NoText);
    }
  }

  /** Sending the same successful request again is refused with 409. */
  lemma SecondSubmissionRejected(t: Tables, req: ApplicationRequest, ai: AiReply, ai2: AiReply)
    requires Valid(t)
    requires PostSpec(t, WellFormed(req), ai).1.Created?
    requires !ai2.ReadFailed? && !ai2.CallFailed?
    ensures var t' := PostSpec(t, WellFormed(req), ai).0;
      PostSpec(t', WellFormed(req), ai2) == (t', Failed(AlreadyApplied))
  {
    var (t', r) := PostSpec(t, WellFormed(req), ai);
    SuccessShape(t, req, ai);
    var app := r.application;
    assert t'.applications[|t.applications|] == app;
    assert HasApplication(t'.applications, t'.applicants[req.email].id, req.jobPostId);
  }

  // ---- the handler over mutable tables ----

  /** The database the handler works on. */
  class Database {
    var applicants: map<string, Applicant>
    var applications: seq<Application>
    var links: seq<Link>
    var documents: seq<Document>
    var jobPosts: set<int>
    var nextApplicantId: int
    var nextApplicationId: int

    function Snapshot(): Tables
      reads this
    {
      Tables(applicants, applications, links, documents, jobPosts, nextApplicantId, nextApplicationId)
    }

    constructor (t: Tables)
      ensures Snapshot() == t
    {
      applicants, applications, links := t.applicants, t.applications, t.links;
      documents, jobPosts := t.documents, t.jobPosts;
      nextApplicantId, nextApplicationId := t.nextApplicantId, t.nextApplicationId;
    }

    /** The rollback of the transaction. */
    method Restore(t: Tables)
      modifies this
      ensures Snapshot() == t
    {
      applicants, applications, links := t.applicants, t.applications, t.links;
      documents, jobPosts := t.documents, t.jobPosts;
      nextApplicantId, nextApplicationId := t.nextApplicantId, t.nextApplicationId;
    }

    /** The link rows for `createMany`, one per document id in order; `None`
        once an id names no document (the foreign key fails). */
    method LinkBatch(applicationId: int, ids: seq<int>) returns (batch: Option<seq<Link>>)
      ensures batch.Some? <==> AllDocumentsExist(documents, ids)
      ensures batch.Some? ==> batch.value == LinksFor(applicationId, ids)
    {
      var rows: seq<Link> := [];
      var i := 0;
      while i < |ids|
        invariant 0 <= i <= |ids|
        invariant |rows| == i
        invariant forall k :: 0 <= k < i ==> rows[k] == Link(applicationId, ids[k])
        invariant forall k :: 0 <= k < i ==> ids[k] in DocumentIds(documents)
      {
        if ids[i] !in DocumentIds(documents) {
          return None;
        }
        rows := rows + [Link(applicationId, ids[i])];
        i := i + 1;
      }
      return Some(rows);
    }

    /** `prisma.$transaction`: the writes happen one by one; a failure after a
        write rolls all of them back. */
    method RunTransaction(req: ApplicationRequest, ai: AiReply) returns (response: Response)
      modifies this
      ensures (Snapshot(), response) == Transaction(old(Snapshot()), req, ai)
    {
      var saved := Snapshot();
      var parsed := ParsedOf(ai);
      if req.email !in applicants {
        if parsed.None? {
          return Failed(NullParse);
        }
        applicants := applicants[req.email := NewApplicant(nextApplicantId, req, parsed.value)];
        nextApplicantId := nextApplicantId + 1;
      }
      var applicantId := applicants[req.email].id;
      if HasApplication(applications, applicantId, req.jobPostId) {
        Restore(saved);
        return Failed(AlreadyApplied);
      }
      if req.jobPostId !in jobPosts {
        Restore(saved);
        return Failed(JobPostMissing);
      }
      var app := Application(nextApplicationId, req.jobPostId, applicantId, req.expectedSalary, req.notes);
      applications := applications + [app];
      nextApplicationId := nextApplicationId + 1;
      var batch := LinkBatch(app.id, req.documentIds);
      if batch.None? {
        Restore(saved);
        return Failed(DocumentLinkMissing);
      }
      links := links + batch.value;
      return Created(app);
    }

    /** `POST`: the checks before the transaction, then the transaction. */
    method Post(body: Body, ai: AiReply) returns (response: Response)
      modifies this
      ensures (Snapshot(), response) == PostSpec(old(Snapshot()), body, ai)
    {
      if body.NotJson? {
        return Failed(BadJson);
      }
      if body.FailsSchema? {
        return ValidationError;
      }
      var req := body.req;
      var document := FirstDocument(documents, req.documentIds);
      if document.None? {
        return Failed(DocumentNotFound);
      }
      if !HasLocalPath(document.value) {
        return Failed(ResultNotSerializable);
      }
      if ai.ReadFailed? {
        return Failed(CvUnreadable);
      }
      if ai.CallFailed? {
        return Failed(AiUnavailable);
      }
      response := RunTransaction(req, ai);
    }
  }
}
