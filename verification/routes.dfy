/**
  The API's route handlers, each reduced to a pure map from the request
  (store, path parameter, parsed JSON body, clock readings) to a status, a
  body and the store left behind. `fault` stands for a storage call that
  throws: the handler's `catch` answers 500 and the store is unchanged.
  The in-memory store itself never throws.
 */
module Routes {
  import opened Common
  import opened Json
  import opened Tables
  import opened Records
  import opened Storage

  /** `{ error, details? }`: the text of `details` (fromZodError) is kept as the validation error itself. */
  datatype ErrorBody = ErrorBody(error: string, details: Field<ValidationError>)

  datatype Body<T> =
    | Payload(value: T)
    | Failed(reason: ErrorBody)
    | NoBody

  datatype Response<T> = Response(status: int, body: Body<T>)

  /** What a handler answers and the store it leaves. */
  datatype Handled<T> = Handled(response: Response<T>, store: Store)

  function Ok<T>(status: int, value: T): Response<T>
  {
    Response(status, Payload(value))
  }

  function Fail<T>(status: int, message: string): Response<T>
  {
    Response(status, Failed(ErrorBody(message, Absent)))
  }

  function Invalid<T>(e: ValidationError): Response<T>
  {
    Response(400, Failed(ErrorBody("Validation failed", Present(e))))
  }

  // ---------------------------------------------------------------- projects

  /** `GET /projects`. */
  function ListProjects(s: Store, fault: bool): (h: Handled<seq<Project>>)
    ensures h.store == s
    ensures h.response.status == 200 <==> !fault
    ensures h.response.status == 200 ==> h.response.body == Payload(GetAllProjects(s))
    ensures h.response.status != 200 ==> h.response == Fail(500, "Failed to fetch projects")
  {
    if fault then Handled(Fail(500, "Failed to fetch projects"), s)
    else Handled(Ok(200, GetAllProjects(s)), s)
  }

  /** `GET /projects/:id`. */
  function GetProjectRoute(s: Store, id: string, fault: bool): (h: Handled<Project>)
    ensures h.store == s
    ensures h.response.status in {200, 404, 500}
    ensures h.response.status == 500 <==> fault
    ensures h.response.status == 404 <==> !fault && GetProject(s, id).None?
    ensures h.response.status == 404 ==> h.response == Fail(404, "Project not found")
    ensures h.response.status == 200 ==> h.response.body == Payload(GetProject(s, id).value)
  {
    if fault then Handled(Fail(500, "Failed to fetch project"), s)
    else match GetProject(s, id)
      case None => Handled(Fail(404, "Project not found"), s)
      case Some(p) => Handled(Ok(200, p), s)
  }

  /** `POST /projects`: validation first; storage is consulted only for a valid body. */
  function CreateProjectRoute(s: Store, body: Json, now: Timestamp, fault: bool): (h: Handled<Project>)
    ensures h.response.status in {201, 400, 500}
    ensures h.response.status == 400 <==> ParseInsertProject(body).Failure?
    ensures h.response.status == 400 ==> h.response == Invalid(ParseInsertProject(body).error)
    ensures h.response.status == 500 <==> ParseInsertProject(body).Success? && fault
    ensures h.response.status != 201 ==> h.store == s
    ensures h.response.status == 201 ==>
      var t := CreateProject(s, ParseInsertProject(body).value, now);
      h.response.body == Payload(t.value) && h.store == t.store
  {
    match ParseInsertProject(body)
    case Failure(e) => Handled(Invalid(e), s)
    case Success(x) =>
      if fault then Handled(Fail(500, "Failed to create project"), s)
      else
        var t := CreateProject(s, x, now);
        Handled(Ok(201, t.value), t.store)
  }

  /** `PUT /projects/:id`: the all-optional schema first, then the lookup. */
  function UpdateProjectRoute(s: Store, id: string, body: Json, fault: bool): (h: Handled<Project>)
    ensures h.response.status in {200, 400, 404, 500}
    ensures h.response.status == 400 <==> ParseProjectPatch(body).Failure?
    ensures h.response.status == 400 ==> h.response == Invalid(ParseProjectPatch(body).error)
    ensures h.response.status == 500 <==> ParseProjectPatch(body).Success? && fault
    ensures h.response.status == 404 <==>
      ParseProjectPatch(body).Success? && !fault && GetProject(s, id).None?
    ensures h.response.status != 200 ==> h.store == s
    ensures h.response.status == 200 ==>
      var t := UpdateProject(s, id, ParseProjectPatch(body).value);
      t.value.Some? && h.response.body == Payload(t.value.value) && h.store == t.store
  {
    match ParseProjectPatch(body)
    case Failure(e) => Handled(Invalid(e), s)
    case Success(patch) =>
      if fault then Handled(Fail(500, "Failed to update project"), s)
      else
        var t := UpdateProject(s, id, patch);
        match t.value
        case None => Handled(Fail(404, "Project not found"), t.store)
        case Some(p) => Handled(Ok(200, p), t.store)
  }

  /** `DELETE /projects/:id`: 204 with no body, or 404. */
  function DeleteProjectRoute(s: Store, id: string, fault: bool): (h: Handled<()>)
    ensures h.response.status in {204, 404, 500}
    ensures h.response.status == 500 <==> fault
    ensures h.response.status == 204 <==> !fault && DeleteProject(s, id).value
    ensures h.response.status == 204 ==> h.response.body == NoBody && h.store == DeleteProject(s, id).store
    ensures h.response.status != 204 ==> h.store == s
  {
    if fault then Handled(Fail(500, "Failed to delete project"), s)
    else
      var t := DeleteProject(s, id);
      if t.value then Handled(Response(204, NoBody), t.store)
      else Handled(Fail(404, "Project not found"), t.store)
  }

  // ---------------------------------------------------------------- contact submissions

  /** `POST /contact`, against the table-derived contact schema. */
  function CreateContactRoute(s: Store, body: Json, now: Timestamp, fault: bool): (h: Handled<ContactSubmission>)
    ensures h.response.status in {201, 400, 500}
    ensures h.response.status == 400 <==> ParseInsertContactSubmission(body).Failure?
    ensures h.response.status == 400 ==> h.response == Invalid(ParseInsertContactSubmission(body).error)
    ensures h.response.status == 500 <==> ParseInsertContactSubmission(body).Success? && fault
    ensures h.response.status != 201 ==> h.store == s
    ensures h.response.status == 201 ==>
      var t := CreateContactSubmission(s, ParseInsertContactSubmission(body).value, now);
      h.response.body == Payload(t.value) && h.store == t.store
  {
    match ParseInsertContactSubmission(body)
    case Failure(e) => Handled(Invalid(e), s)
    case Success(x) =>
      if fault then Handled(Fail(500, "Failed to submit contact form"), s)
      else
        var t := CreateContactSubmission(s, x, now);
        Handled(Ok(201, t.value), t.store)
  }

  /** `GET /contact`. */
  function ListContactsRoute(s: Store, fault: bool): (h: Handled<seq<ContactSubmission>>)
    ensures h.store == s
    ensures h.response.status == 200 <==> !fault
    ensures h.response.status == 200 ==> h.response.body == Payload(GetAllContactSubmissions(s))
    ensures h.response.status != 200 ==> h.response == Fail(500, "Failed to fetch contact submissions")
  {
    if fault then Handled(Fail(500, "Failed to fetch contact submissions"), s)
    else Handled(Ok(200, GetAllContactSubmissions(s)), s)
  }

  // ---------------------------------------------------------------- articles

  /** `GET /articles`. */
  function ListArticlesRoute(s: Store, fault: bool): (h: Handled<seq<Article>>)
    ensures h.store == s
    ensures h.response.status == 200 <==> !fault
    ensures h.response.status == 200 ==> h.response.body == Payload(GetAllArticles(s))
    ensures h.response.status != 200 ==> h.response == Fail(500, "Failed to fetch articles")
  {
    if fault then Handled(Fail(500, "Failed to fetch articles"), s)
    else Handled(Ok(200, GetAllArticles(s)), s)
  }

  /** `GET /articles/:id`. */
  function GetArticleRoute(s: Store, id: string, fault: bool): (h: Handled<Article>)
    ensures h.store == s
    ensures h.response.status in {200, 404, 500}
    ensures h.response.status == 500 <==> fault
    ensures h.response.status == 404 <==> !fault && GetArticle(s, id).None?
    ensures h.response.status == 404 ==> h.response == Fail(404, "Article not found")
    ensures h.response.status == 200 ==> h.response.body == Payload(GetArticle(s, id).value)
  {
    if fault then Handled(Fail(500, "Failed to fetch article"), s)
    else match GetArticle(s, id)
      case None => Handled(Fail(404, "Article not found"), s)
      case Some(a) => Handled(Ok(200, a), s)
  }

  /** `POST /articles`. */
  function CreateArticleRoute(s: Store, body: Json, publishedAt: Timestamp, createdAt: Timestamp, fault: bool): (h: Handled<Article>)
    ensures h.response.status in {201, 400, 500}
    ensures h.response.status == 400 <==> ParseInsertArticle(body).Failure?
    ensures h.response.status == 400 ==> h.response == Invalid(ParseInsertArticle(body).error)
    ensures h.response.status == 500 <==> ParseInsertArticle(body).Success? && fault
    ensures h.response.status != 201 ==> h.store == s
    ensures h.response.status == 201 ==>
      var t := CreateArticle(s, ParseInsertArticle(body).value, publishedAt, createdAt);
      h.response.body == Payload(t.value) && h.store == t.store
  {
    match ParseInsertArticle(body)
    case Failure(e) => Handled(Invalid(e), s)
    case Success(x) =>
      if fault then Handled(Fail(500, "Failed to create article"), s)
      else
        var t := CreateArticle(s, x, publishedAt, createdAt);
        Handled(Ok(201, t.value), t.store)
  }

  // ---------------------------------------------------------------- laws

  /**
    A body the schema refuses gets the same 400 whatever the store holds and
    whether or not storage would fail: validation comes before any storage call.
   */
  lemma ValidationBeforeStorage(s1: Store, s2: Store, id: string, body: Json, f1: bool, f2: bool)
    requires ParseProjectPatch(body).Failure?
    ensures UpdateProjectRoute(s1, id, body, f1).response == UpdateProjectRoute(s2, id, body, f2).response
    ensures UpdateProjectRoute(s1, id, body, f1).store == s1
  {
  }

  /** Deleting an existing project twice answers 204, then 404. */
  lemma DeleteRouteTwice(s: Store, id: string)
    requires Valid(s) && GetProject(s, id).Some?
    ensures var first := DeleteProjectRoute(s, id, false);
      && first.response.status == 204
      && DeleteProjectRoute(first.store, id, false).response.status == 404
  {
    DeleteTwice(s, id);
  }

  /** A project created through the API can be fetched through the API with 200. */
  lemma CreateThenGet(s: Store, body: Json, now: Timestamp)
    requires Valid(s) && ParseInsertProject(body).Success?
    ensures var created := CreateProjectRoute(s, body, now, false);
      && created.response.status == 201
      && GetProjectRoute(created.store, created.response.body.value.id, false).response == Ok(200, created.response.body.value)
  {
    GetAfterCreate(s, ParseInsertProject(body).value, now);
  }
}
