/**
  The table definitions of the relational schema and the insert schemas that
  are derived from them, as data, together with one generic validator that
  interprets an insert schema against a JSON request body.

  The derivation follows the rule of `createInsertSchema`: a column becomes an
  optional key when it may be NULL or has a default, and a nullable key when it
  may be NULL. `Omit`, `Pick` and `Partial` reshape a derived schema the way
  the object schema methods of the same names do.
 */
module Tables {
  import opened Common
  import opened Json
  import Seqs

  datatype ColumnType = Text | Varchar | TimestampColumn | JsonbStrings

  /** What the database fills in when an insert leaves the column out. */
  datatype ColumnDefault = NoDefault | Literal(text: string) | RandomUuid | Now

  datatype Column = Column(key: string, typ: ColumnType, notNull: bool, default: ColumnDefault, primaryKey: bool, unique: bool)
  {
    function NotNull(): Column { this.(notNull := true) }
    function Default(d: ColumnDefault): Column { this.(default := d) }
    /** A primary key is implicitly NOT NULL. */
    function PrimaryKey(): Column { this.(primaryKey := true, notNull := true) }
    function Unique(): Column { this.(unique := true) }
    predicate HasDefault() { default != NoDefault }
  }

  /** A nullable column without default, primary key or uniqueness. */
  function Col(key: string, typ: ColumnType): Column
  {
    Column(key, typ, false, NoDefault, false, false)
  }

  const UsersTable: seq<Column> := [
    Col("id", Varchar).PrimaryKey().Default(RandomUuid),
    Col("username", Text).NotNull().Unique(),
    Col("password", Text).NotNull()
  ]

  const ProjectsTable: seq<Column> := [
    Col("id", Varchar).PrimaryKey().Default(RandomUuid),
    Col("title", Text).NotNull(),
    Col("description", Text).NotNull(),
    Col("longDescription", Text),
    Col("imageUrl", Text).NotNull(),
    Col("technologies", JsonbStrings).NotNull(),
    Col("category", Text).NotNull(),
    Col("status", Text).NotNull().Default(Literal("completed")),
    Col("projectUrl", Text),
    Col("githubUrl", Text),
    Col("createdAt", TimestampColumn).Default(Now),
    Col("gallery", JsonbStrings)
  ]

  const ContactSubmissionsTable: seq<Column> := [
    Col("id", Varchar).PrimaryKey().Default(RandomUuid),
    Col("name", Text).NotNull(),
    Col("email", Text).NotNull(),
    Col("company", Text),
    Col("service", Text),
    Col("message", Text).NotNull(),
    Col("status", Text).NotNull().Default(Literal("new")),
    Col("createdAt", TimestampColumn).Default(Now)
  ]

  const ArticlesTable: seq<Column> := [
    Col("id", Varchar).PrimaryKey().Default(RandomUuid),
    Col("title", Text).NotNull(),
    Col("description", Text).NotNull(),
    Col("content", Text).NotNull(),
    Col("imageUrl", Text).NotNull(),
    Col("category", Text).NotNull(),
    Col("tags", JsonbStrings).NotNull(),
    Col("readTime", Text).NotNull(),
    Col("publishedAt", TimestampColumn).Default(Now),
    Col("createdAt", TimestampColumn).Default(Now)
  ]

  /** The column of `table` named `key`, if any. */
  function ColumnOf(table: seq<Column>, key: string): (r: Option<Column>)
    ensures r.Some? ==> r.value in table && r.value.key == key
    ensures r.None? <==> forall i :: 0 <= i < |table| ==> table[i].key != key
  {
    Seqs.Find(table, (c: Column) => c.key == key)
  }

  // ---------------------------------------------------------------- insert schemas

  /** One key of an object schema. */
  datatype FieldRule = FieldRule(key: string, typ: ColumnType, optional: bool, nullable: bool)

  type Schema = seq<FieldRule>

  function InsertRule(c: Column): FieldRule
  {
    FieldRule(c.key, c.typ, !c.notNull || c.HasDefault(), !c.notNull)
  }

  function CreateInsertSchema(table: seq<Column>): (s: Schema)
    ensures |s| == |table|
    ensures forall i :: 0 <= i < |s| ==>
      && s[i].key == table[i].key && s[i].typ == table[i].typ
      && (s[i].optional <==> !table[i].notNull || table[i].default != NoDefault)
      && (s[i].nullable <==> !table[i].notNull)
  {
    seq(|table|, i requires 0 <= i < |table| => InsertRule(table[i]))
  }

  /** The schema without the named keys. */
  function Omit(s: Schema, keys: set<string>): Schema
  {
    Seqs.Filter(s, Outside(keys))
  }

  function Outside(keys: set<string>): FieldRule -> bool
  {
    (r: FieldRule) => r.key !in keys
  }

  function Inside(keys: set<string>): FieldRule -> bool
  {
    (r: FieldRule) => r.key in keys
  }

  /** The schema restricted to the named keys. */
  function Pick(s: Schema, keys: set<string>): Schema
  {
    Seqs.Filter(s, Inside(keys))
  }

  /** Every key optional; nullability unchanged. */
  function Partial(s: Schema): (p: Schema)
    ensures |p| == |s|
    ensures forall i :: 0 <= i < |p| ==> p[i] == s[i].(optional := true)
  {
    seq(|s|, i requires 0 <= i < |s| => s[i].(optional := true))
  }

  const InsertUserSchema: Schema := Pick(CreateInsertSchema(UsersTable), {"username", "password"})
  const InsertProjectSchema: Schema := Omit(CreateInsertSchema(ProjectsTable), {"id", "createdAt"})
  const InsertContactSubmissionSchema: Schema := Omit(CreateInsertSchema(ContactSubmissionsTable), {"id", "createdAt", "status"})
  const InsertArticleSchema: Schema := Omit(CreateInsertSchema(ArticlesTable), {"id", "createdAt", "publishedAt"})

  function Required(key: string, typ: ColumnType): FieldRule { FieldRule(key, typ, false, false) }
  function OptionalKey(key: string, typ: ColumnType): FieldRule { FieldRule(key, typ, true, false) }
  function NullableKey(key: string, typ: ColumnType): FieldRule { FieldRule(key, typ, true, true) }

  // The insert shapes, written out key by key.

  const ProjectInsertFields: Schema := [
    Required("title", Text),
    Required("description", Text),
    NullableKey("longDescription", Text),
    Required("imageUrl", Text),
    Required("technologies", JsonbStrings),
    Required("category", Text),
    OptionalKey("status", Text),
    NullableKey("projectUrl", Text),
    NullableKey("githubUrl", Text),
    NullableKey("gallery", JsonbStrings)
  ]

  const ContactInsertFields: Schema := [
    Required("name", Text),
    Required("email", Text),
    NullableKey("company", Text),
    NullableKey("service", Text),
    Required("message", Text)
  ]

  const ArticleInsertFields: Schema := [
    Required("title", Text),
    Required("description", Text),
    Required("content", Text),
    Required("imageUrl", Text),
    Required("category", Text),
    Required("tags", JsonbStrings),
    Required("readTime", Text)
  ]

  const UserInsertFields: Schema := [Required("username", Text), Required("password", Text)]

  lemma ProjectInsertFieldsDistinct()
    ensures DistinctKeys(ProjectInsertFields)
  {
  }

  lemma ContactInsertFieldsDistinct()
    ensures DistinctKeys(ContactInsertFields)
  {
  }

  lemma ArticleInsertFieldsDistinct()
    ensures DistinctKeys(ArticleInsertFields)
  {
  }

  lemma UserInsertFieldsDistinct()
    ensures DistinctKeys(UserInsertFields)
  {
  }

  /** Every column of the projects table, read through the insert rule. */
  lemma ProjectInsertRules()
    ensures CreateInsertSchema(ProjectsTable) == [
      OptionalKey("id", Varchar),
      Required("title", Text),
      Required("description", Text),
      NullableKey("longDescription", Text),
      Required("imageUrl", Text),
      Required("technologies", JsonbStrings),
      Required("category", Text),
      OptionalKey("status", Text),
      NullableKey("projectUrl", Text),
      NullableKey("githubUrl", Text),
      NullableKey("createdAt", TimestampColumn),
      NullableKey("gallery", JsonbStrings)
    ]
  {
  }

  /** Which project columns the insert shape keeps: all but id and createdAt. */
  lemma ProjectOmitMask()
    ensures var t := CreateInsertSchema(ProjectsTable);
      |t| == 12 && forall i :: 0 <= i < 12 ==> (Outside({"id", "createdAt"})(t[i]) <==> i != 0 && i != 10)
  {
    ProjectInsertRules();
  }

  /** The project insert shape: five required keys, status optional, four nullable keys; no id or createdAt. */
  lemma InsertProjectShape()
    ensures InsertProjectSchema == ProjectInsertFields
  {
    ProjectOmitMask();
    var t := CreateInsertSchema(ProjectsTable);
    var p := Outside({"id", "createdAt"});
    assert t == t[..11] + t[11..];
    Seqs.FilterConcat(t[..11], t[11..], p);
    Seqs.KeepRun(t[..11], p, 1, 10);
    Seqs.FilterAll(t[11..], p);
    ProjectInsertRules();
  }

  lemma ContactOmitMask()
    ensures var t := CreateInsertSchema(ContactSubmissionsTable);
      |t| == 8 && forall i :: 0 <= i < 8 ==> (Outside({"id", "createdAt", "status"})(t[i]) <==> 1 <= i < 6)
  {
  }

  /** The contact insert shape: name, email and message required; company and service nullable. */
  lemma InsertContactSubmissionShape()
    ensures InsertContactSubmissionSchema == ContactInsertFields
  {
    ContactOmitMask();
    Seqs.KeepRun(CreateInsertSchema(ContactSubmissionsTable), Outside({"id", "createdAt", "status"}), 1, 6);
  }

  lemma ArticleOmitMask()
    ensures var t := CreateInsertSchema(ArticlesTable);
      |t| == 10 && forall i :: 0 <= i < 10 ==> (Outside({"id", "createdAt", "publishedAt"})(t[i]) <==> 1 <= i < 8)
  {
  }

  /** The article insert shape: seven required keys; no id, createdAt or publishedAt. */
  lemma InsertArticleShape()
    ensures InsertArticleSchema == ArticleInsertFields
  {
    ArticleOmitMask();
    Seqs.KeepRun(CreateInsertSchema(ArticlesTable), Outside({"id", "createdAt", "publishedAt"}), 1, 8);
  }

  lemma UserPickMask()
    ensures var t := CreateInsertSchema(UsersTable);
      |t| == 3 && forall i :: 0 <= i < 3 ==> (Inside({"username", "password"})(t[i]) <==> 1 <= i < 3)
  {
  }

  /** The user insert shape is exactly {username, password}, both required. */
  lemma InsertUserShape()
    ensures InsertUserSchema == UserInsertFields
  {
    UserPickMask();
    Seqs.KeepRun(CreateInsertSchema(UsersTable), Inside({"username", "password"}), 1, 3);
  }

  lemma InsertProjectSchemaFacts()
    ensures DistinctKeys(InsertProjectSchema) && |InsertProjectSchema| == 10
  {
    InsertProjectShape();
    ProjectInsertFieldsDistinct();
  }

  lemma InsertContactSubmissionSchemaFacts()
    ensures DistinctKeys(InsertContactSubmissionSchema) && |InsertContactSubmissionSchema| == 5
  {
    InsertContactSubmissionShape();
    ContactInsertFieldsDistinct();
  }

  lemma InsertArticleSchemaFacts()
    ensures DistinctKeys(InsertArticleSchema) && |InsertArticleSchema| == 7
  {
    InsertArticleShape();
    ArticleInsertFieldsDistinct();
  }

  lemma InsertUserSchemaFacts()
    ensures DistinctKeys(InsertUserSchema) && |InsertUserSchema| == 2
  {
    InsertUserShape();
    UserInsertFieldsDistinct();
  }

  /** The project insert rules by position: which keys may be left out or null, and which hold string arrays. */
  lemma InsertProjectRules()
    ensures var s := InsertProjectSchema; |s| == 10 && forall i :: 0 <= i < 10 ==>
      && s[i].optional == (i in {2, 6, 7, 8, 9})
      && s[i].nullable == (i in {2, 7, 8, 9})
      && s[i].typ == (if i in {4, 9} then JsonbStrings else Text)
  {
    InsertProjectShape();
  }

  lemma InsertContactSubmissionRules()
    ensures var s := InsertContactSubmissionSchema; |s| == 5 && forall i :: 0 <= i < 5 ==>
      && s[i].optional == (i in {2, 3})
      && s[i].nullable == (i in {2, 3})
      && s[i].typ == Text
  {
    InsertContactSubmissionShape();
  }

  lemma InsertArticleRules()
    ensures var s := InsertArticleSchema; |s| == 7 && forall i :: 0 <= i < 7 ==>
      && !s[i].optional
      && !s[i].nullable
      && s[i].typ == (if i == 5 then JsonbStrings else Text)
  {
    InsertArticleShape();
  }

  lemma InsertUserRules()
    ensures var s := InsertUserSchema; |s| == 2 && forall i :: 0 <= i < 2 ==>
      && !s[i].optional
      && !s[i].nullable
      && s[i].typ == Text
  {
    InsertUserShape();
  }

  /** The column found for a key is the first one carrying it. */
  lemma ColumnOfFirst(table: seq<Column>, i: nat)
    requires i < |table|
    requires forall j :: 0 <= j < i ==> table[j].key != table[i].key
    ensures ColumnOf(table, table[i].key) == Some(table[i])
  {
  }

  /** A project inserted without a status is stored as `"completed"`. */
  lemma ProjectStatusDefault()
    ensures ColumnOf(ProjectsTable, "status") == Some(Col("status", Text).NotNull().Default(Literal("completed")))
  {
    assert ProjectsTable[7] == Col("status", Text).NotNull().Default(Literal("completed"));
    ColumnOfFirst(ProjectsTable, 7);
  }

  /** A contact submission inserted without a status is stored as `"new"`. */
  lemma ContactStatusDefault()
    ensures ColumnOf(ContactSubmissionsTable, "status") == Some(Col("status", Text).NotNull().Default(Literal("new")))
  {
    assert ContactSubmissionsTable[6] == Col("status", Text).NotNull().Default(Literal("new"));
    ColumnOfFirst(ContactSubmissionsTable, 6);
  }

  /** `technologies` is a required string array. */
  lemma TechnologiesColumn()
    ensures ColumnOf(ProjectsTable, "technologies") == Some(Col("technologies", JsonbStrings).NotNull())
  {
    assert ProjectsTable[5] == Col("technologies", JsonbStrings).NotNull();
    ColumnOfFirst(ProjectsTable, 5);
  }

  /** `gallery` is a string array that may be NULL. */
  lemma GalleryColumn()
    ensures ColumnOf(ProjectsTable, "gallery") == Some(Col("gallery", JsonbStrings))
  {
    assert ProjectsTable[11] == Col("gallery", JsonbStrings);
    ColumnOfFirst(ProjectsTable, 11);
  }

  /** `tags` is a required string array. */
  lemma TagsColumn()
    ensures ColumnOf(ArticlesTable, "tags") == Some(Col("tags", JsonbStrings).NotNull())
  {
    assert ArticlesTable[6] == Col("tags", JsonbStrings).NotNull();
    ColumnOfFirst(ArticlesTable, 6);
  }

  /** The user name is the one unique column of the users table besides the key. */
  lemma UniqueUserName()
    ensures forall i :: 0 <= i < |UsersTable| ==> (UsersTable[i].unique <==> UsersTable[i].key == "username")
  {
  }

  // ---------------------------------------------------------------- validation

  /** Whether a present, non-null JSON value has the column's type. */
  predicate Accepts(typ: ColumnType, v: Json)
  {
    match typ
    case Text => v.JStr?
    case Varchar => v.JStr?
    case JsonbStrings => IsStringArray(v)
    // a parsed JSON body never carries a Date object
    case TimestampColumn => false
  }

  /** Whether the object satisfies one key's rule. */
  predicate Conforms(r: FieldRule, obj: map<string, Json>)
  {
    if r.key !in obj then r.optional
    else if obj[r.key].JNull? then r.nullable
    else Accepts(r.typ, obj[r.key])
  }

  predicate ConformsAll(s: Schema, obj: map<string, Json>)
  {
    forall i :: 0 <= i < |s| ==> Conforms(s[i], obj)
  }

  function Keys(s: Schema): set<string>
  {
    set i | 0 <= i < |s| :: s[i].key
  }

  /** The keys whose rule the object breaks, in schema order. */
  function Issues(s: Schema, obj: map<string, Json>): (r: seq<string>)
    ensures |r| == 0 <==> ConformsAll(s, obj)
    ensures forall k :: k in r ==> exists i :: 0 <= i < |s| && s[i].key == k && !Conforms(s[i], obj)
    ensures forall i :: 0 <= i < |s| && !Conforms(s[i], obj) ==> s[i].key in r
    decreases |s|
  {
    if |s| == 0 then []
    else
      var rest := Issues(s[1..], obj);
      assert forall i :: 1 <= i < |s| ==> s[i] == s[1..][i - 1];
      if Conforms(s[0], obj) then rest else [s[0].key] + rest
  }

  /** Why a body was refused; the rendered message text is not modelled. */
  datatype ValidationError = ExpectedObject | InvalidKeys(keys: seq<string>)

  /**
    `schema.safeParse(body)`: succeeds exactly when the body is an object
    satisfying every rule, and then yields the object stripped of the keys the
    schema does not know.
   */
  function SafeParse(s: Schema, body: Json): (r: Result<map<string, Json>, ValidationError>)
    ensures r.Success? <==> body.JObj? && ConformsAll(s, body.fields)
    ensures r.Success? ==> r.value.Keys == body.fields.Keys * Keys(s)
    ensures r.Success? ==> forall k :: k in r.value ==> r.value[k] == body.fields[k]
    ensures r.Failure? && !body.JObj? ==> r.error == ExpectedObject
    ensures r.Success? ==> ConformsAll(s, r.value)
    ensures r.Failure? && body.JObj? ==> r.error == InvalidKeys(Issues(s, body.fields)) && |r.error.keys| > 0
  {
    match body
    case JObj(fields) =>
      var issues := Issues(s, fields);
      if |issues| == 0 then
        var m := map k | k in fields && k in Keys(s) :: fields[k];
        assert ConformsAll(s, m) by {
          forall i | 0 <= i < |s| ensures Conforms(s[i], m) {
            assert s[i].key in Keys(s);
          }
        }
        Success(m)
      else Failure(InvalidKeys(issues))
    case _ => Failure(ExpectedObject)
  }

  /** A key the schema does not know never changes the outcome of a parse: it is stripped. */
  lemma SafeParseIgnoresUnknownKey(s: Schema, obj: map<string, Json>, k: string, v: Json)
    requires k !in Keys(s)
    ensures SafeParse(s, JObj(obj[k := v])) == SafeParse(s, JObj(obj))
  {
    var obj' := obj[k := v];
    forall i | 0 <= i < |s|
      ensures Conforms(s[i], obj') == Conforms(s[i], obj)
    {
      assert s[i].key in Keys(s);
    }
    assert ConformsAll(s, obj') == ConformsAll(s, obj);
    if ConformsAll(s, obj) {
      var a := map key | key in obj' && key in Keys(s) :: obj'[key];
      var b := map key | key in obj && key in Keys(s) :: obj[key];
      assert a.Keys == b.Keys;
      assert a == b;
    } else {
      assert Issues(s, obj') == Issues(s, obj) by {
        IssuesAgree(s, obj', obj);
      }
    }
  }

  lemma {:induction false} IssuesAgree(s: Schema, a: map<string, Json>, b: map<string, Json>)
    requires forall i :: 0 <= i < |s| ==> Conforms(s[i], a) == Conforms(s[i], b)
    ensures Issues(s, a) == Issues(s, b)
    decreases |s|
  {
    if |s| > 0 {
      IssuesAgree(s[1..], a, b);
    }
  }

  /** An object that satisfies the schema and has no other keys parses to itself. */
  lemma SafeParseExact(s: Schema, obj: map<string, Json>)
    requires ConformsAll(s, obj)
    requires forall k :: k in obj ==> k in Keys(s)
    ensures SafeParse(s, JObj(obj)) == Success(obj)
  {
    var m := map k | k in obj && k in Keys(s) :: obj[k];
    assert m.Keys == obj.Keys;
    assert m == obj;
  }

  /** No key is named twice. */
  predicate DistinctKeys(s: Schema)
  {
    forall a, b :: 0 <= a < b < |s| ==> s[a].key != s[b].key
  }

  /** Whether one written property (or its absence) satisfies a rule. */
  predicate EntryConforms(r: FieldRule, f: Field<Json>)
  {
    match f
    case Absent => r.optional
    case Present(v) => if v.JNull? then r.nullable else Accepts(r.typ, v)
  }

  /** Every written value (or its absence) satisfies the rule at its position. */
  predicate Fits(s: Schema, vs: seq<Field<Json>>)
  {
    && |vs| == |s|
    && forall i :: 0 <= i < |s| ==> EntryConforms(s[i], vs[i])
  }

  /**
    The object a client writes along the schema, as `JSON.stringify` writes the
    properties of a record: a property whose value is `undefined` (`Absent`) is
    left out.
   */
  function Write(s: Schema, vs: seq<Field<Json>>): (m: map<string, Json>)
    requires DistinctKeys(s) && |vs| == |s|
    ensures forall i :: 0 <= i < |s| ==> (s[i].key in m <==> vs[i].Present?)
    ensures forall i :: 0 <= i < |s| && vs[i].Present? ==> m[s[i].key] == vs[i].value
    ensures m.Keys <= Keys(s)
  {
    map i | 0 <= i < |s| && vs[i].Present? :: s[i].key := vs[i].value
  }

  /** The object's values read along the schema: one entry per key, `Absent` where the key is missing. */
  function Values(s: Schema, obj: map<string, Json>): (vs: seq<Field<Json>>)
    ensures |vs| == |s|
    ensures forall i :: 0 <= i < |s| ==> vs[i] == if s[i].key in obj then Present(obj[s[i].key]) else Absent
  {
    seq(|s|, i requires 0 <= i < |s| => if s[i].key in obj then Present(obj[s[i].key]) else Absent)
  }

  /** The values of an object that meets every rule fit the schema position by position. */
  lemma ValuesFit(s: Schema, obj: map<string, Json>)
    requires ConformsAll(s, obj)
    ensures Fits(s, Values(s, obj))
  {
    forall i | 0 <= i < |s|
      ensures EntryConforms(s[i], Values(s, obj)[i])
    {
      assert Conforms(s[i], obj);
    }
  }

  /** Values that leave a key out or satisfy its rule fit the all-optional schema. */
  lemma FitsPartial(s: Schema, vs: seq<Field<Json>>)
    requires |vs| == |s|
    requires forall i :: 0 <= i < |s| ==> vs[i].Absent? || EntryConforms(s[i], vs[i])
    ensures Fits(Partial(s), vs)
  {
  }

  /** An object written along the schema with fitting values parses to itself. */
  lemma WriteParses(s: Schema, vs: seq<Field<Json>>)
    requires DistinctKeys(s) && Fits(s, vs)
    ensures SafeParse(s, JObj(Write(s, vs))) == Success(Write(s, vs))
  {
    var m := Write(s, vs);
    assert ConformsAll(s, m) by {
      forall i | 0 <= i < |s|
        ensures Conforms(s[i], m)
      {
        assert EntryConforms(s[i], vs[i]);
      }
    }
    SafeParseExact(s, m);
  }

  /** Reading an object written along the schema gives back exactly what was written. */
  lemma ValuesOfWrite(s: Schema, vs: seq<Field<Json>>)
    requires DistinctKeys(s) && |vs| == |s|
    ensures Values(s, Write(s, vs)) == vs
  {
  }
}
