/**
  The browser-side API client: each call sends one request and turns the
  route's response into a value or a thrown `Error`. A call's request body
  is the JSON encoding of its argument; its answer is decided by the status
  alone, and only a 2xx body is read.
 */
module Client {
  import opened Common
  import opened Json
  import opened Records
  import opened Routes

  /** `response.ok`: a status in the 2xx range. */
  predicate IsOk(status: int)
  {
    200 <= status <= 299
  }

  /** What `response.json()` throws on a 2xx without a JSON payload (no route answers that way). */
  const UnreadableBody: string := "Unexpected end of JSON input"

  /** `response.json()` on a 2xx answer. */
  function ReadBody<T>(b: Body<T>): (o: Outcome<T>)
    ensures o.Returned? <==> b.Payload?
    ensures o.Returned? ==> o.value == b.value
  {
    if b.Payload? then Returned(b.value) else Threw(UnreadableBody)
  }

  /** A call that throws `message` on any non-2xx status, else reads the body. */
  function Fetch<T>(r: Response<T>, message: string): (o: Outcome<T>)
    ensures !IsOk(r.status) ==> o == Threw(message)
    ensures o.Returned? <==> IsOk(r.status) && r.body.Payload?
    ensures o.Returned? ==> o.value == r.body.value
  {
    if !IsOk(r.status) then Threw(message) else ReadBody(r.body)
  }

  /** A call that maps 404 to `undefined` before the `ok` check. */
  function FetchOptional<T>(r: Response<T>, message: string): (o: Outcome<Option<T>>)
    ensures o == Returned(None) <==> r.status == 404
    ensures r.status != 404 && !IsOk(r.status) ==> o == Threw(message)
    ensures (o.Returned? && o.value.Some?) <==> IsOk(r.status) && r.body.Payload?
    ensures o.Returned? && o.value.Some? ==> o.value.value == r.body.value
  {
    if r.status == 404 then Returned(None)
    else if !IsOk(r.status) then Threw(message)
    else match ReadBody(r.body)
      case Returned(v) => Returned(Some(v))
      case Threw(m) => Threw(m)
  }

  // ---------------------------------------------------------------- projects

  function GetAllProjects(r: Response<seq<Project>>): (o: Outcome<seq<Project>>)
    ensures !IsOk(r.status) ==> o == Threw("Failed to fetch projects")
    ensures o.Returned? <==> IsOk(r.status) && r.body.Payload?
    ensures o.Returned? ==> r.body == Payload(o.value)
  {
    Fetch(r, "Failed to fetch projects")
  }

  function GetProject(r: Response<Project>): (o: Outcome<Option<Project>>)
    ensures o == Returned(None) <==> r.status == 404
    ensures r.status != 404 && !IsOk(r.status) ==> o == Threw("Failed to fetch project")
    ensures (o.Returned? && o.value.Some?) <==> IsOk(r.status) && r.body.Payload?
    ensures o.Returned? && o.value.Some? ==> r.body == Payload(o.value.value)
  {
    FetchOptional(r, "Failed to fetch project")
  }

  /** The request body `JSON.stringify(project)`. */
  function CreateProjectRequest(x: InsertProject): Json
  {
    EncodeInsertProject(x)
  }

  function CreateProject(r: Response<Project>): (o: Outcome<Project>)
    ensures !IsOk(r.status) ==> o == Threw("Failed to create project")
    ensures o.Returned? <==> IsOk(r.status) && r.body.Payload?
    ensures o.Returned? ==> r.body == Payload(o.value)
  {
    Fetch(r, "Failed to create project")
  }

  /** The request body of a partial update. */
  function UpdateProjectRequest(patch: ProjectPatch): Json
  {
    EncodeProjectPatch(patch)
  }

  function UpdateProject(r: Response<Project>): (o: Outcome<Option<Project>>)
    ensures o == Returned(None) <==> r.status == 404
    ensures r.status != 404 && !IsOk(r.status) ==> o == Threw("Failed to update project")
    ensures (o.Returned? && o.value.Some?) <==> IsOk(r.status) && r.body.Payload?
    ensures o.Returned? && o.value.Some? ==> r.body == Payload(o.value.value)
  {
    FetchOptional(r, "Failed to update project")
  }

  /** Never throws: 404 and every other failure read as `false`. */
  function DeleteProject(r: Response<()>): (deleted: bool)
    ensures deleted <==> IsOk(r.status)
  {
    if r.status == 404 then false else IsOk(r.status)
  }

  // ---------------------------------------------------------------- contact submissions

  function CreateContactSubmissionRequest(x: InsertContactSubmission): Json
  {
    EncodeInsertContactSubmission(x)
  }

  function CreateContactSubmission(r: Response<ContactSubmission>): (o: Outcome<ContactSubmission>)
    ensures !IsOk(r.status) ==> o == Threw("Failed to submit contact form")
    ensures o.Returned? <==> IsOk(r.status) && r.body.Payload?
    ensures o.Returned? ==> r.body == Payload(o.value)
  {
    Fetch(r, "Failed to submit contact form")
  }

  function GetAllContactSubmissions(r: Response<seq<ContactSubmission>>): (o: Outcome<seq<ContactSubmission>>)
    ensures !IsOk(r.status) ==> o == Threw("Failed to fetch contact submissions")
    ensures o.Returned? <==> IsOk(r.status) && r.body.Payload?
    ensures o.Returned? ==> r.body == Payload(o.value)
  {
    Fetch(r, "Failed to fetch contact submissions")
  }

  // ---------------------------------------------------------------- articles

  function GetAllArticles(r: Response<seq<Article>>): (o: Outcome<seq<Article>>)
    ensures !IsOk(r.status) ==> o == Threw("Failed to fetch articles")
    ensures o.Returned? <==> IsOk(r.status) && r.body.Payload?
    ensures o.Returned? ==> r.body == Payload(o.value)
  {
    Fetch(r, "Failed to fetch articles")
  }

  function GetArticle(r: Response<Article>): (o: Outcome<Option<Article>>)
    ensures o == Returned(None) <==> r.status == 404
    ensures r.status != 404 && !IsOk(r.status) ==> o == Threw("Failed to fetch article")
    ensures (o.Returned? && o.value.Some?) <==> IsOk(r.status) && r.body.Payload?
    ensures o.Returned? && o.value.Some? ==> r.body == Payload(o.value.value)
  {
    FetchOptional(r, "Failed to fetch article")
  }

  function CreateArticleRequest(x: InsertArticle): Json
  {
    EncodeInsertArticle(x)
  }

  function CreateArticle(r: Response<Article>): (o: Outcome<Article>)
    ensures !IsOk(r.status) ==> o == Threw("Failed to create article")
    ensures o.Returned? <==> IsOk(r.status) && r.body.Payload?
    ensures o.Returned? ==> r.body == Payload(o.value)
  {
    Fetch(r, "Failed to create article")
  }
}
