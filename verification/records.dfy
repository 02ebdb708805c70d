/**
  The typed records of the four entities: the full row (`$inferSelect`), the
  insert shape the request validators produce (`z.infer` of the insert
  schemas), and the all-optional update shape (`Partial<InsertProject>`),
  with the JSON encoding a client sends and the typed parse a route performs.
 */
module Records {
  import opened Common
  import opened Json
  import opened Tables

  // ---------------------------------------------------------------- rows

  /**
    A stored project. Keys that the insert shape leaves optional may be
    missing from a stored record (`Absent`), because the in-memory store copies
    its input as it is and does not fill column defaults in.
   */
  datatype Project = Project(
    id: string,
    title: string,
    description: string,
    longDescription: Field<Nullable<string>>,
    imageUrl: string,
    technologies: seq<string>,
    category: string,
    status: Field<string>,
    projectUrl: Field<Nullable<string>>,
    githubUrl: Field<Nullable<string>>,
    createdAt: Timestamp,
    gallery: Field<Nullable<seq<string>>>)

  datatype ContactSubmission = ContactSubmission(
    id: string,
    name: string,
    email: string,
    company: Field<Nullable<string>>,
    service: Field<Nullable<string>>,
    message: string,
    status: string,
    createdAt: Timestamp)

  datatype Article = Article(
    id: string,
    title: string,
    description: string,
    content: string,
    imageUrl: string,
    category: string,
    tags: seq<string>,
    readTime: string,
    publishedAt: Timestamp,
    createdAt: Timestamp)

  datatype User = User(id: string, username: string, password: string)

  // ---------------------------------------------------------------- insert and update shapes

  /** A project as a client submits it: no id, no createdAt. */
  datatype InsertProject = InsertProject(
    title: string,
    description: string,
    longDescription: Field<Nullable<string>>,
    imageUrl: string,
    technologies: seq<string>,
    category: string,
    status: Field<string>,
    projectUrl: Field<Nullable<string>>,
    githubUrl: Field<Nullable<string>>,
    gallery: Field<Nullable<seq<string>>>)

  /** `Partial<InsertProject>`: every key may be missing; id and createdAt are not keys at all. */
  datatype ProjectPatch = ProjectPatch(
    title: Field<string>,
    description: Field<string>,
    longDescription: Field<Nullable<string>>,
    imageUrl: Field<string>,
    technologies: Field<seq<string>>,
    category: Field<string>,
    status: Field<string>,
    projectUrl: Field<Nullable<string>>,
    githubUrl: Field<Nullable<string>>,
    gallery: Field<Nullable<seq<string>>>)

  const EmptyPatch: ProjectPatch :=
    ProjectPatch(Absent, Absent, Absent, Absent, Absent, Absent, Absent, Absent, Absent, Absent)

  /** A contact submission as a client submits it: no id, createdAt or status. */
  datatype InsertContactSubmission = InsertContactSubmission(
    name: string,
    email: string,
    company: Field<Nullable<string>>,
    service: Field<Nullable<string>>,
    message: string)

  /** An article as a client submits it: no id, createdAt or publishedAt. */
  datatype InsertArticle = InsertArticle(
    title: string,
    description: string,
    content: string,
    imageUrl: string,
    category: string,
    tags: seq<string>,
    readTime: string)

  datatype InsertUser = InsertUser(username: string, password: string)

  // ---------------------------------------------------------------- merging a patch

  /** `{...p, ...patch}`: every key present in the patch overwrites, the others keep their value. */
  function Merge(p: Project, patch: ProjectPatch): (r: Project)
    ensures r.id == p.id && r.createdAt == p.createdAt
    ensures patch == EmptyPatch ==> r == p
  {
    p.(title := Override(p.title, patch.title),
       description := Override(p.description, patch.description),
       longDescription := Later(p.longDescription, patch.longDescription),
       imageUrl := Override(p.imageUrl, patch.imageUrl),
       technologies := Override(p.technologies, patch.technologies),
       category := Override(p.category, patch.category),
       status := Later(p.status, patch.status),
       projectUrl := Later(p.projectUrl, patch.projectUrl),
       githubUrl := Later(p.githubUrl, patch.githubUrl),
       gallery := Later(p.gallery, patch.gallery))
  }

  /** `{...first, ...second}` on two patches. */
  function Combine(first: ProjectPatch, second: ProjectPatch): ProjectPatch
  {
    ProjectPatch(
      Later(first.title, second.title),
      Later(first.description, second.description),
      Later(first.longDescription, second.longDescription),
      Later(first.imageUrl, second.imageUrl),
      Later(first.technologies, second.technologies),
      Later(first.category, second.category),
      Later(first.status, second.status),
      Later(first.projectUrl, second.projectUrl),
      Later(first.githubUrl, second.githubUrl),
      Later(first.gallery, second.gallery))
  }

  function Later<T>(first: Field<T>, second: Field<T>): Field<T>
  {
    if second.Present? then second else first
  }

  /** A merge never touches the server-assigned keys. */
  lemma MergeKeepsIdentity(p: Project, patch: ProjectPatch)
    ensures Merge(p, patch).id == p.id
    ensures Merge(p, patch).createdAt == p.createdAt
  {
  }

  /** A present key overwrites (null included) and an absent key keeps the old value. */
  lemma MergeFieldwise(p: Project, patch: ProjectPatch)
    ensures patch.title.Present? ==> Merge(p, patch).title == patch.title.value
    ensures patch.title.Absent? ==> Merge(p, patch).title == p.title
    ensures patch.category.Present? ==> Merge(p, patch).category == patch.category.value
    ensures patch.category.Absent? ==> Merge(p, patch).category == p.category
    ensures patch.longDescription.Present? ==> Merge(p, patch).longDescription == patch.longDescription
    ensures patch.longDescription.Absent? ==> Merge(p, patch).longDescription == p.longDescription
    ensures patch.status.Present? ==> Merge(p, patch).status == patch.status
    ensures patch.status.Absent? ==> Merge(p, patch).status == p.status
    ensures patch.gallery.Present? ==> Merge(p, patch).gallery == patch.gallery
    ensures patch.gallery.Absent? ==> Merge(p, patch).gallery == p.gallery
    ensures patch.description.Present? ==> Merge(p, patch).description == patch.description.value
    ensures patch.description.Absent? ==> Merge(p, patch).description == p.description
    ensures patch.imageUrl.Present? ==> Merge(p, patch).imageUrl == patch.imageUrl.value
    ensures patch.imageUrl.Absent? ==> Merge(p, patch).imageUrl == p.imageUrl
    ensures patch.technologies.Present? ==> Merge(p, patch).technologies == patch.technologies.value
    ensures patch.technologies.Absent? ==> Merge(p, patch).technologies == p.technologies
    ensures patch.projectUrl.Present? ==> Merge(p, patch).projectUrl == patch.projectUrl
    ensures patch.projectUrl.Absent? ==> Merge(p, patch).projectUrl == p.projectUrl
    ensures patch.githubUrl.Present? ==> Merge(p, patch).githubUrl == patch.githubUrl
    ensures patch.githubUrl.Absent? ==> Merge(p, patch).githubUrl == p.githubUrl
  {
  }

  /** The empty patch changes nothing. */
  lemma MergeEmpty(p: Project)
    ensures Merge(p, EmptyPatch) == p
  {
  }

  /** A patch that sets only the category changes only the category. */
  lemma MergeOnlyCategory(p: Project, category: string)
    ensures Merge(p, EmptyPatch.(category := Present(category))) == p.(category := category)
  {
  }

  /** Applying the same patch twice is the same as applying it once. */
  lemma MergeIdempotent(p: Project, patch: ProjectPatch)
    ensures Merge(Merge(p, patch), patch) == Merge(p, patch)
  {
  }

  /** Two successive merges are one merge of the combined patch. */
  lemma MergeCompose(p: Project, first: ProjectPatch, second: ProjectPatch)
    ensures Merge(Merge(p, first), second) == Merge(p, Combine(first, second))
  {
  }

  // ---------------------------------------------------------------- reading a validated object

  // Each reader takes one value of `Values(schema, obj)`: the property under
  // the schema's key at that position, or `Absent` when the key is missing.

  function At(vs: seq<Field<Json>>, i: nat): Field<Json>
  {
    if i < |vs| then vs[i] else Absent
  }

  function StrOf(f: Field<Json>): string
  {
    if f.Present? && f.value.JStr? then f.value.s else ""
  }

  function StrsOf(f: Field<Json>): seq<string>
  {
    if f.Present? then JsonToStrings(f.value) else []
  }

  function OptStrOf(f: Field<Json>): Field<string>
  {
    if f.Present? && f.value.JStr? then Present(f.value.s) else Absent
  }

  function OptStrsOf(f: Field<Json>): Field<seq<string>>
  {
    if f.Present? && IsStringArray(f.value) then Present(JsonToStrings(f.value)) else Absent
  }

  function NullStrOf(f: Field<Json>): Field<Nullable<string>>
  {
    match f
    case Absent => Absent
    case Present(JNull) => Present(Null)
    case Present(JStr(s)) => Present(NonNull(s))
    case Present(_) => Absent
  }

  function NullStrsOf(f: Field<Json>): Field<Nullable<seq<string>>>
  {
    match f
    case Absent => Absent
    case Present(v) =>
      if v.JNull? then Present(Null)
      else if IsStringArray(v) then Present(NonNull(JsonToStrings(v)))
      else Absent
  }

  function DecodeInsertProject(vs: seq<Field<Json>>): InsertProject
  {
    InsertProject(
      StrOf(At(vs, 0)), StrOf(At(vs, 1)), NullStrOf(At(vs, 2)), StrOf(At(vs, 3)),
      StrsOf(At(vs, 4)), StrOf(At(vs, 5)), OptStrOf(At(vs, 6)), NullStrOf(At(vs, 7)),
      NullStrOf(At(vs, 8)), NullStrsOf(At(vs, 9)))
  }

  function DecodeProjectPatch(vs: seq<Field<Json>>): ProjectPatch
  {
    ProjectPatch(
      OptStrOf(At(vs, 0)), OptStrOf(At(vs, 1)), NullStrOf(At(vs, 2)), OptStrOf(At(vs, 3)),
      OptStrsOf(At(vs, 4)), OptStrOf(At(vs, 5)), OptStrOf(At(vs, 6)), NullStrOf(At(vs, 7)),
      NullStrOf(At(vs, 8)), NullStrsOf(At(vs, 9)))
  }

  function DecodeInsertContactSubmission(vs: seq<Field<Json>>): InsertContactSubmission
  {
    InsertContactSubmission(
      StrOf(At(vs, 0)), StrOf(At(vs, 1)), NullStrOf(At(vs, 2)), NullStrOf(At(vs, 3)), StrOf(At(vs, 4)))
  }

  function DecodeInsertArticle(vs: seq<Field<Json>>): InsertArticle
  {
    InsertArticle(
      StrOf(At(vs, 0)), StrOf(At(vs, 1)), StrOf(At(vs, 2)), StrOf(At(vs, 3)),
      StrOf(At(vs, 4)), StrsOf(At(vs, 5)), StrOf(At(vs, 6)))
  }

  function DecodeInsertUser(vs: seq<Field<Json>>): InsertUser
  {
    InsertUser(StrOf(At(vs, 0)), StrOf(At(vs, 1)))
  }

  // ---------------------------------------------------------------- writing JSON (`JSON.stringify`)

  function NullStrJson(f: Field<Nullable<string>>): Field<Json>
  {
    match f
    case Absent => Absent
    case Present(Null) => Present(JNull)
    case Present(NonNull(s)) => Present(JStr(s))
  }

  function NullStrsJson(f: Field<Nullable<seq<string>>>): Field<Json>
  {
    match f
    case Absent => Absent
    case Present(Null) => Present(JNull)
    case Present(NonNull(xs)) => Present(StringsToJson(xs))
  }

  function StrJson(f: Field<string>): Field<Json>
  {
    if f.Present? then Present(JStr(f.value)) else Absent
  }

  function StrsJson(f: Field<seq<string>>): Field<Json>
  {
    if f.Present? then Present(StringsToJson(f.value)) else Absent
  }

  /** The values a client writes for a project, in the insert shape's key order. */
  function InsertProjectValues(x: InsertProject): seq<Field<Json>>
  {
    [Present(JStr(x.title)), Present(JStr(x.description)), NullStrJson(x.longDescription),
     Present(JStr(x.imageUrl)), Present(StringsToJson(x.technologies)), Present(JStr(x.category)),
     StrJson(x.status), NullStrJson(x.projectUrl), NullStrJson(x.githubUrl), NullStrsJson(x.gallery)]
  }

  function ProjectPatchValues(p: ProjectPatch): seq<Field<Json>>
  {
    [StrJson(p.title), StrJson(p.description), NullStrJson(p.longDescription),
     StrJson(p.imageUrl), StrsJson(p.technologies), StrJson(p.category),
     StrJson(p.status), NullStrJson(p.projectUrl), NullStrJson(p.githubUrl), NullStrsJson(p.gallery)]
  }

  function InsertContactSubmissionValues(x: InsertContactSubmission): seq<Field<Json>>
  {
    [Present(JStr(x.name)), Present(JStr(x.email)), NullStrJson(x.company), NullStrJson(x.service),
     Present(JStr(x.message))]
  }

  function InsertArticleValues(x: InsertArticle): seq<Field<Json>>
  {
    [Present(JStr(x.title)), Present(JStr(x.description)), Present(JStr(x.content)),
     Present(JStr(x.imageUrl)), Present(JStr(x.category)), Present(StringsToJson(x.tags)),
     Present(JStr(x.readTime))]
  }

  function InsertUserValues(x: InsertUser): seq<Field<Json>>
  {
    [Present(JStr(x.username)), Present(JStr(x.password))]
  }

  /** The JSON body a client sends for a project (`JSON.stringify` of the record). */
  function EncodeInsertProject(x: InsertProject): Json
  {
    InsertProjectSchemaFacts();
    JObj(Write(InsertProjectSchema, InsertProjectValues(x)))
  }

  function EncodeProjectPatch(p: ProjectPatch): Json
  {
    ProjectPatchSchemaFacts();
    JObj(Write(ProjectPatchSchema, ProjectPatchValues(p)))
  }

  function EncodeInsertContactSubmission(x: InsertContactSubmission): Json
  {
    InsertContactSubmissionSchemaFacts();
    JObj(Write(InsertContactSubmissionSchema, InsertContactSubmissionValues(x)))
  }

  function EncodeInsertArticle(x: InsertArticle): Json
  {
    InsertArticleSchemaFacts();
    JObj(Write(InsertArticleSchema, InsertArticleValues(x)))
  }

  function EncodeInsertUser(x: InsertUser): Json
  {
    InsertUserSchemaFacts();
    JObj(Write(InsertUserSchema, InsertUserValues(x)))
  }

  // ---------------------------------------------------------------- typed parses

  const ProjectPatchSchema: Schema := Partial(InsertProjectSchema)

  /** `insertProjectSchema.safeParse(body)`, read into the typed insert shape. */
  function ParseInsertProject(body: Json): (r: Result<InsertProject, ValidationError>)
    ensures r.Success? <==> body.JObj? && ConformsAll(InsertProjectSchema, body.fields)
    ensures r.Failure? ==> r.error == SafeParse(InsertProjectSchema, body).error
    ensures r.Success? ==> InsertProjectValues(r.value) == Values(InsertProjectSchema, SafeParse(InsertProjectSchema, body).value)
  {
    match SafeParse(InsertProjectSchema, body)
    case Failure(e) => Failure(e)
    case Success(m) =>
      ValuesFit(InsertProjectSchema, m);
      ReadInsertProjectValues(Values(InsertProjectSchema, m));
      Success(DecodeInsertProject(Values(InsertProjectSchema, m)))
  }

  /** `insertProjectSchema.partial().safeParse(body)`, read into the typed update shape. */
  function ParseProjectPatch(body: Json): (r: Result<ProjectPatch, ValidationError>)
    ensures r.Success? <==> body.JObj? && ConformsAll(ProjectPatchSchema, body.fields)
    ensures r.Failure? ==> r.error == SafeParse(ProjectPatchSchema, body).error
    ensures r.Success? ==> ProjectPatchValues(r.value) == Values(ProjectPatchSchema, SafeParse(ProjectPatchSchema, body).value)
  {
    match SafeParse(ProjectPatchSchema, body)
    case Failure(e) => Failure(e)
    case Success(m) =>
      ValuesFit(ProjectPatchSchema, m);
      ReadProjectPatchValues(Values(ProjectPatchSchema, m));
      Success(DecodeProjectPatch(Values(ProjectPatchSchema, m)))
  }

  /** `insertContactSubmissionSchema.safeParse(body)` for the table-derived schema. */
  function ParseInsertContactSubmission(body: Json): (r: Result<InsertContactSubmission, ValidationError>)
    ensures r.Success? <==> body.JObj? && ConformsAll(InsertContactSubmissionSchema, body.fields)
    ensures r.Failure? ==> r.error == SafeParse(InsertContactSubmissionSchema, body).error
    ensures r.Success? ==> InsertContactSubmissionValues(r.value) == Values(InsertContactSubmissionSchema, SafeParse(InsertContactSubmissionSchema, body).value)
  {
    match SafeParse(InsertContactSubmissionSchema, body)
    case Failure(e) => Failure(e)
    case Success(m) =>
      ValuesFit(InsertContactSubmissionSchema, m);
      ReadInsertContactSubmissionValues(Values(InsertContactSubmissionSchema, m));
      Success(DecodeInsertContactSubmission(Values(InsertContactSubmissionSchema, m)))
  }

  /** `insertArticleSchema.safeParse(body)`. */
  function ParseInsertArticle(body: Json): (r: Result<InsertArticle, ValidationError>)
    ensures r.Success? <==> body.JObj? && ConformsAll(InsertArticleSchema, body.fields)
    ensures r.Failure? ==> r.error == SafeParse(InsertArticleSchema, body).error
    ensures r.Success? ==> InsertArticleValues(r.value) == Values(InsertArticleSchema, SafeParse(InsertArticleSchema, body).value)
  {
    match SafeParse(InsertArticleSchema, body)
    case Failure(e) => Failure(e)
    case Success(m) =>
      ValuesFit(InsertArticleSchema, m);
      ReadInsertArticleValues(Values(InsertArticleSchema, m));
      Success(DecodeInsertArticle(Values(InsertArticleSchema, m)))
  }

  /** `insertUserSchema.safeParse(body)`. */
  function ParseInsertUser(body: Json): (r: Result<InsertUser, ValidationError>)
    ensures r.Success? <==> body.JObj? && ConformsAll(InsertUserSchema, body.fields)
    ensures r.Failure? ==> r.error == SafeParse(InsertUserSchema, body).error
    ensures r.Success? ==> InsertUserValues(r.value) == Values(InsertUserSchema, SafeParse(InsertUserSchema, body).value)
  {
    match SafeParse(InsertUserSchema, body)
    case Failure(e) => Failure(e)
    case Success(m) =>
      ValuesFit(InsertUserSchema, m);
      ReadInsertUserValues(Values(InsertUserSchema, m));
      Success(DecodeInsertUser(Values(InsertUserSchema, m)))
  }

  // ---------------------------------------------------------------- what a parse reads

  // Each reader, given a value its rule accepts, keeps everything the value
  // says: writing the read value again gives the value back.

  lemma ReadStr(r: FieldRule, f: Field<Json>)
    requires !r.optional && !r.nullable && r.typ == Text && EntryConforms(r, f)
    ensures f == Present(JStr(StrOf(f)))
  {
  }

  lemma ReadStrs(r: FieldRule, f: Field<Json>)
    requires !r.optional && !r.nullable && r.typ == JsonbStrings && EntryConforms(r, f)
    ensures f == Present(StringsToJson(StrsOf(f)))
  {
    StringsRoundTripBack(f.value);
  }

  lemma ReadOptStr(r: FieldRule, f: Field<Json>)
    requires !r.nullable && r.typ == Text && EntryConforms(r, f)
    ensures StrJson(OptStrOf(f)) == f
  {
  }

  lemma ReadOptStrs(r: FieldRule, f: Field<Json>)
    requires !r.nullable && r.typ == JsonbStrings && EntryConforms(r, f)
    ensures StrsJson(OptStrsOf(f)) == f
  {
    if f.Present? {
      StringsRoundTripBack(f.value);
    }
  }

  lemma ReadNullStr(r: FieldRule, f: Field<Json>)
    requires r.typ == Text && EntryConforms(r, f)
    ensures NullStrJson(NullStrOf(f)) == f
  {
  }

  lemma ReadNullStrs(r: FieldRule, f: Field<Json>)
    requires r.typ == JsonbStrings && EntryConforms(r, f)
    ensures NullStrsJson(NullStrsOf(f)) == f
  {
    if f.Present? && !f.value.JNull? {
      StringsRoundTripBack(f.value);
    }
  }

  /** A project read from accepted values, written again, gives those values: nothing is dropped or altered. */
  lemma ReadInsertProjectValues(vs: seq<Field<Json>>)
    requires Fits(InsertProjectSchema, vs)
    ensures InsertProjectValues(DecodeInsertProject(vs)) == vs
  {
    InsertProjectRules();
    var s := InsertProjectSchema;
    ReadStr(s[0], vs[0]);
    ReadStr(s[1], vs[1]);
    ReadNullStr(s[2], vs[2]);
    ReadStr(s[3], vs[3]);
    ReadStrs(s[4], vs[4]);
    ReadStr(s[5], vs[5]);
    ReadOptStr(s[6], vs[6]);
    ReadNullStr(s[7], vs[7]);
    ReadNullStr(s[8], vs[8]);
    ReadNullStrs(s[9], vs[9]);
  }

  lemma ReadProjectPatchValues(vs: seq<Field<Json>>)
    requires Fits(ProjectPatchSchema, vs)
    ensures ProjectPatchValues(DecodeProjectPatch(vs)) == vs
  {
    InsertProjectRules();
    var s := ProjectPatchSchema;
    ReadOptStr(s[0], vs[0]);
    ReadOptStr(s[1], vs[1]);
    ReadNullStr(s[2], vs[2]);
    ReadOptStr(s[3], vs[3]);
    ReadOptStrs(s[4], vs[4]);
    ReadOptStr(s[5], vs[5]);
    ReadOptStr(s[6], vs[6]);
    ReadNullStr(s[7], vs[7]);
    ReadNullStr(s[8], vs[8]);
    ReadNullStrs(s[9], vs[9]);
  }

  lemma ReadInsertContactSubmissionValues(vs: seq<Field<Json>>)
    requires Fits(InsertContactSubmissionSchema, vs)
    ensures InsertContactSubmissionValues(DecodeInsertContactSubmission(vs)) == vs
  {
    InsertContactSubmissionRules();
    var s := InsertContactSubmissionSchema;
    ReadStr(s[0], vs[0]);
    ReadStr(s[1], vs[1]);
    ReadNullStr(s[2], vs[2]);
    ReadNullStr(s[3], vs[3]);
    ReadStr(s[4], vs[4]);
  }

  lemma ReadInsertArticleValues(vs: seq<Field<Json>>)
    requires Fits(InsertArticleSchema, vs)
    ensures InsertArticleValues(DecodeInsertArticle(vs)) == vs
  {
    InsertArticleRules();
    var s := InsertArticleSchema;
    ReadStr(s[0], vs[0]);
    ReadStr(s[1], vs[1]);
    ReadStr(s[2], vs[2]);
    ReadStr(s[3], vs[3]);
    ReadStr(s[4], vs[4]);
    ReadStrs(s[5], vs[5]);
    ReadStr(s[6], vs[6]);
  }

  lemma ReadInsertUserValues(vs: seq<Field<Json>>)
    requires Fits(InsertUserSchema, vs)
    ensures InsertUserValues(DecodeInsertUser(vs)) == vs
  {
    InsertUserRules();
    var s := InsertUserSchema;
    ReadStr(s[0], vs[0]);
    ReadStr(s[1], vs[1]);
  }

  // ---------------------------------------------------------------- round trips

  // Each encoder writes a value its rule accepts.

  lemma RequiredStrFits(r: FieldRule, v: string)
    requires r.typ == Text
    ensures EntryConforms(r, Present(JStr(v)))
  {
  }

  lemma RequiredStrsFits(r: FieldRule, xs: seq<string>)
    requires r.typ == JsonbStrings
    ensures EntryConforms(r, Present(StringsToJson(xs)))
  {
  }

  lemma StrFits(r: FieldRule, f: Field<string>)
    requires r.optional && r.typ == Text
    ensures EntryConforms(r, StrJson(f))
  {
  }

  lemma StrsFits(r: FieldRule, f: Field<seq<string>>)
    requires r.optional && r.typ == JsonbStrings
    ensures EntryConforms(r, StrsJson(f))
  {
  }

  lemma NullStrFits(r: FieldRule, f: Field<Nullable<string>>)
    requires r.optional && r.nullable && r.typ == Text
    ensures EntryConforms(r, NullStrJson(f))
  {
  }

  lemma NullStrsFits(r: FieldRule, f: Field<Nullable<seq<string>>>)
    requires r.optional && r.nullable && r.typ == JsonbStrings
    ensures EntryConforms(r, NullStrsJson(f))
  {
  }


  /** What a client sends for a project is accepted and read back unchanged. */
  lemma InsertProjectRoundTrip(x: InsertProject)
    ensures ParseInsertProject(EncodeInsertProject(x)) == Success(x)
  {
    InsertProjectSchemaFacts();
    var vs := InsertProjectValues(x);
    InsertProjectValuesFit(x);
    DecodeInsertProjectValues(x);
    WriteParses(InsertProjectSchema, vs);
    ValuesOfWrite(InsertProjectSchema, vs);
  }

  lemma InsertProjectValuesFit(x: InsertProject)
    ensures Fits(InsertProjectSchema, InsertProjectValues(x))
  {
    InsertProjectRules();
    var s := InsertProjectSchema;
    RequiredStrFits(s[0], x.title);
    RequiredStrFits(s[1], x.description);
    NullStrFits(s[2], x.longDescription);
    RequiredStrFits(s[3], x.imageUrl);
    RequiredStrsFits(s[4], x.technologies);
    RequiredStrFits(s[5], x.category);
    StrFits(s[6], x.status);
    NullStrFits(s[7], x.projectUrl);
    NullStrFits(s[8], x.githubUrl);
    NullStrsFits(s[9], x.gallery);
  }

  /** Reading the written values back gives the record. */
  lemma DecodeInsertProjectValues(x: InsertProject)
    ensures DecodeInsertProject(InsertProjectValues(x)) == x
  {
    StringsRoundTrip(x.technologies);
    if x.gallery.Present? && x.gallery.value.NonNull? {
      StringsRoundTrip(x.gallery.value.value);
    }
  }

  /** What a client sends for an update is accepted and read back unchanged. */
  lemma ProjectPatchRoundTrip(p: ProjectPatch)
    ensures ParseProjectPatch(EncodeProjectPatch(p)) == Success(p)
  {
    ProjectPatchSchemaFacts();
    var vs := ProjectPatchValues(p);
    ProjectPatchValuesFit(p);
    DecodeProjectPatchValues(p);
    WriteParses(ProjectPatchSchema, vs);
    ValuesOfWrite(ProjectPatchSchema, vs);
  }

  lemma ProjectPatchValuesFit(p: ProjectPatch)
    ensures Fits(ProjectPatchSchema, ProjectPatchValues(p))
  {
    InsertProjectRules();
    var s := ProjectPatchSchema;
    StrFits(s[0], p.title);
    StrFits(s[1], p.description);
    NullStrFits(s[2], p.longDescription);
    StrFits(s[3], p.imageUrl);
    StrsFits(s[4], p.technologies);
    StrFits(s[5], p.category);
    StrFits(s[6], p.status);
    NullStrFits(s[7], p.projectUrl);
    NullStrFits(s[8], p.githubUrl);
    NullStrsFits(s[9], p.gallery);
  }

  /** Reading the written values back gives the record. */
  lemma DecodeProjectPatchValues(p: ProjectPatch)
    ensures DecodeProjectPatch(ProjectPatchValues(p)) == p
  {
    if p.technologies.Present? {
      StringsRoundTrip(p.technologies.value);
    }
    if p.gallery.Present? && p.gallery.value.NonNull? {
      StringsRoundTrip(p.gallery.value.value);
    }
  }

  /** What a client sends through the table-derived contact schema is accepted and read back unchanged. */
  lemma InsertContactSubmissionRoundTrip(x: InsertContactSubmission)
    ensures ParseInsertContactSubmission(EncodeInsertContactSubmission(x)) == Success(x)
  {
    InsertContactSubmissionSchemaFacts();
    var vs := InsertContactSubmissionValues(x);
    InsertContactSubmissionValuesFit(x);
    DecodeInsertContactSubmissionValues(x);
    WriteParses(InsertContactSubmissionSchema, vs);
    ValuesOfWrite(InsertContactSubmissionSchema, vs);
  }

  lemma InsertContactSubmissionValuesFit(x: InsertContactSubmission)
    ensures Fits(InsertContactSubmissionSchema, InsertContactSubmissionValues(x))
  {
    InsertContactSubmissionRules();
    var s := InsertContactSubmissionSchema;
    RequiredStrFits(s[0], x.name);
    RequiredStrFits(s[1], x.email);
    NullStrFits(s[2], x.company);
    NullStrFits(s[3], x.service);
    RequiredStrFits(s[4], x.message);
  }

  /** Reading the written values back gives the record. */
  lemma DecodeInsertContactSubmissionValues(x: InsertContactSubmission)
    ensures DecodeInsertContactSubmission(InsertContactSubmissionValues(x)) == x
  {

  }

  /** What a client sends for an article is accepted and read back unchanged. */
  lemma InsertArticleRoundTrip(x: InsertArticle)
    ensures ParseInsertArticle(EncodeInsertArticle(x)) == Success(x)
  {
    InsertArticleSchemaFacts();
    var vs := InsertArticleValues(x);
    InsertArticleValuesFit(x);
    DecodeInsertArticleValues(x);
    WriteParses(InsertArticleSchema, vs);
    ValuesOfWrite(InsertArticleSchema, vs);
  }

  lemma InsertArticleValuesFit(x: InsertArticle)
    ensures Fits(InsertArticleSchema, InsertArticleValues(x))
  {
    InsertArticleRules();
    var s := InsertArticleSchema;
    RequiredStrFits(s[0], x.title);
    RequiredStrFits(s[1], x.description);
    RequiredStrFits(s[2], x.content);
    RequiredStrFits(s[3], x.imageUrl);
    RequiredStrFits(s[4], x.category);
    RequiredStrsFits(s[5], x.tags);
    RequiredStrFits(s[6], x.readTime);
  }

  /** Reading the written values back gives the record. */
  lemma DecodeInsertArticleValues(x: InsertArticle)
    ensures DecodeInsertArticle(InsertArticleValues(x)) == x
  {
    StringsRoundTrip(x.tags);
  }

  /** What a client sends for a user is accepted and read back unchanged. */
  lemma InsertUserRoundTrip(x: InsertUser)
    ensures ParseInsertUser(EncodeInsertUser(x)) == Success(x)
  {
    InsertUserSchemaFacts();
    var vs := InsertUserValues(x);
    InsertUserValuesFit(x);
    DecodeInsertUserValues(x);
    WriteParses(InsertUserSchema, vs);
    ValuesOfWrite(InsertUserSchema, vs);
  }

  lemma InsertUserValuesFit(x: InsertUser)
    ensures Fits(InsertUserSchema, InsertUserValues(x))
  {
    InsertUserRules();
    var s := InsertUserSchema;
    RequiredStrFits(s[0], x.username);
    RequiredStrFits(s[1], x.password);
  }

  /** Reading the written values back gives the record. */
  lemma DecodeInsertUserValues(x: InsertUser)
    ensures DecodeInsertUser(InsertUserValues(x)) == x
  {

  }

  /** The update shape: the insert shape with every key optional. */
  lemma ProjectPatchShape()
    ensures ProjectPatchSchema == [
      OptionalKey("title", Text),
      OptionalKey("description", Text),
      NullableKey("longDescription", Text),
      OptionalKey("imageUrl", Text),
      OptionalKey("technologies", JsonbStrings),
      OptionalKey("category", Text),
      OptionalKey("status", Text),
      NullableKey("projectUrl", Text),
      NullableKey("githubUrl", Text),
      NullableKey("gallery", JsonbStrings)
    ]
  {
    InsertProjectShape();
  }

  lemma ProjectPatchSchemaFacts()
    ensures DistinctKeys(ProjectPatchSchema) && |ProjectPatchSchema| == 10
  {
    ProjectPatchShape();
    ProjectInsertFieldsDistinct();
  }
}
