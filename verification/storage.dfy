/**
  The in-memory store behind the API (`MemStorage`): three collections and one
  id counter, with every `IStorage` operation as a pure transition. An
  operation that changes the store returns the new store beside its result;
  the clock readings `new Date()` arrives at are parameters.
 */
module Storage {
  import opened Common
  import opened Records
  import Decimal
  import Seqs

  datatype Store = Store(
    projects: seq<Project>,
    contacts: seq<ContactSubmission>,
    articles: seq<Article>,
    idCounter: nat)

  /** The result of an operation together with the store it leaves behind. */
  datatype Transition<T> = Transition(value: T, store: Store)

  // ---------------------------------------------------------------- the seeded store

  // `new Date('2024-01-15')` and friends: midnight UTC, in milliseconds since the epoch.
  const Jan10: Timestamp := Instant(1704844800000)
  const Jan15: Timestamp := Instant(1705276800000)
  const Feb20: Timestamp := Instant(1708387200000)

  const SeedProject1: Project := Project(
    "project-1",
    "Smart IoT Temperature Monitoring System",
    "A comprehensive temperature monitoring solution using wireless sensors and real-time data analytics.",
    Present(NonNull("Developed a complete IoT ecosystem for industrial temperature monitoring featuring wireless sensor networks, real-time data collection, and predictive maintenance algorithms. The system includes custom PCB design, embedded firmware, and cloud-based analytics platform.")),
    "https://images.unsplash.com/photo-1558618666-fcd25c85cd64?w=800&h=600",
    ["Arduino", "LoRaWAN", "React", "Node.js", "MongoDB"],
    "IoT Solutions",
    Present("completed"),
    Present(NonNull("#")),
    Present(NonNull("#")),
    Jan15,
    Present(NonNull(["https://images.unsplash.com/photo-1558618666-fcd25c85cd64?w=800&h=600"])))

  const SeedProject2: Project := Project(
    "project-2",
    "Advanced Power Management Circuit",
    "High-efficiency switch-mode power supply with digital control and monitoring capabilities.",
    Present(NonNull("Designed and implemented a state-of-the-art SMPS with digital control algorithms, achieving 95% efficiency across wide load ranges. Features include real-time monitoring, adaptive control, and comprehensive protection mechanisms.")),
    "https://images.unsplash.com/photo-1581092921461-eab62e97a780?w=800&h=600",
    ["Altium Designer", "STM32", "C++", "MATLAB", "SPICE"],
    "Power Electronics",
    Present("completed"),
    Present(NonNull("#")),
    Present(NonNull("#")),
    Feb20,
    Present(NonNull(["https://images.unsplash.com/photo-1581092921461-eab62e97a780?w=800&h=600"])))

  const SeedArticle1: Article := Article(
    "article-1",
    "Understanding Power Electronics in Modern Applications",
    "A comprehensive guide to power electronic systems and their applications in renewable energy and electric vehicles.",
    "Power electronics form the backbone of modern electrical systems...",
    "https://images.unsplash.com/photo-1581092921461-eab62e97a780?w=800&h=600",
    "Technical Insights",
    ["Power Electronics", "Renewable Energy", "Electric Vehicles"],
    "8 min",
    Jan10,
    Jan10)

  /** A freshly constructed `MemStorage`. */
  const Initial: Store := Store([SeedProject1, SeedProject2], [], [SeedArticle1], 1)

  // ---------------------------------------------------------------- ids

  /** The id `generateId` hands out for counter value `n`. */
  function MemId(n: nat): string
  {
    "mem_" + Decimal.NatToString(n)
  }

  /** Different counter values give different ids. */
  lemma MemIdInjective(a: nat, b: nat)
    requires MemId(a) == MemId(b)
    ensures a == b
  {
    assert Decimal.NatToString(a) == MemId(a)[4..];
    assert Decimal.NatToString(b) == MemId(b)[4..];
    Decimal.NatToStringInjective(a, b);
  }

  /** No generated id can collide with a seed id: those start with a letter other than `m`. */
  lemma MemIdIsNotSeedId(n: nat)
    ensures MemId(n) != SeedProject1.id && MemId(n) != SeedProject2.id && MemId(n) != SeedArticle1.id
  {
    assert MemId(n)[0] == 'm';
  }

  /** `generateId()`: the id for the current counter, and the counter moved on by one. */
  function GenerateId(s: Store): (t: Transition<string>)
    ensures t.value == MemId(s.idCounter)
    ensures t.store == s.(idCounter := s.idCounter + 1)
  {
    Transition(MemId(s.idCounter), s.(idCounter := s.idCounter + 1))
  }

  function ProjectIds(ps: seq<Project>): (ids: seq<string>)
    ensures |ids| == |ps| && forall i :: 0 <= i < |ps| ==> ids[i] == ps[i].id
  {
    seq(|ps|, i requires 0 <= i < |ps| => ps[i].id)
  }

  function ContactIds(cs: seq<ContactSubmission>): (ids: seq<string>)
    ensures |ids| == |cs| && forall i :: 0 <= i < |cs| ==> ids[i] == cs[i].id
  {
    seq(|cs|, i requires 0 <= i < |cs| => cs[i].id)
  }

  function ArticleIds(xs: seq<Article>): (ids: seq<string>)
    ensures |ids| == |xs| && forall i :: 0 <= i < |xs| ==> ids[i] == xs[i].id
  {
    seq(|xs|, i requires 0 <= i < |xs| => xs[i].id)
  }

  /** Every id in the store, collection by collection. */
  function AllIds(s: Store): seq<string>
  {
    ProjectIds(s.projects) + ContactIds(s.contacts) + ArticleIds(s.articles)
  }

  /**
    The store's invariant: no id is used twice anywhere in the store, and no
    id the counter has yet to hand out is in use.
   */
  ghost predicate Valid(s: Store)
  {
    && Seqs.Unique(AllIds(s))
    && forall k: nat :: s.idCounter <= k ==> MemId(k) !in AllIds(s)
  }

  /** The seeded store satisfies the invariant. */
  lemma InitialValid()
    ensures Valid(Initial)
  {
    var ids := AllIds(Initial);
    assert ids == ["project-1", "project-2", "article-1"];
    forall k: nat | Initial.idCounter <= k
      ensures MemId(k) !in ids
    {
      MemIdIsNotSeedId(k);
    }
  }

  // ---------------------------------------------------------------- projects

  /** `p => p.id === id`. */
  function HasId(id: string): Project -> bool
  {
    (p: Project) => p.id == id
  }

  /** `findIndex(p => p.id === id)`: the first position holding the id, or -1. */
  function IndexOf(ps: seq<Project>, id: string): (r: int)
    ensures -1 <= r < |ps|
    ensures r == -1 <==> forall j :: 0 <= j < |ps| ==> ps[j].id != id
    ensures r >= 0 ==> ps[r].id == id && forall j :: 0 <= j < r ==> ps[j].id != id
  {
    Seqs.FindIndex(ps, HasId(id))
  }

  /** `getAllProjects()`: a copy of the collection, in insertion order. */
  function GetAllProjects(s: Store): (r: seq<Project>)
    ensures |r| == |s.projects| && forall i :: 0 <= i < |r| ==> r[i] == s.projects[i]
  {
    s.projects
  }

  /** `getProject(id)`: the first project with that id, if any. */
  function GetProject(s: Store, id: string): (r: Option<Project>)
    ensures r.None? <==> forall j :: 0 <= j < |s.projects| ==> s.projects[j].id != id
    ensures r.Some? ==> r.value.id == id && exists i ::
      0 <= i < |s.projects| && s.projects[i] == r.value && forall j :: 0 <= j < i ==> s.projects[j].id != id
  {
    Seqs.Find(s.projects, HasId(id))
  }

  /** The keys a client supplied, read back from a stored project. */
  function ProjectInput(p: Project): InsertProject
  {
    InsertProject(p.title, p.description, p.longDescription, p.imageUrl, p.technologies,
      p.category, p.status, p.projectUrl, p.githubUrl, p.gallery)
  }

  /**
    `createProject(project)`: the input with a fresh id and the current time,
    appended; nothing else in the store changes except the counter.
   */
  function CreateProject(s: Store, x: InsertProject, now: Timestamp): (t: Transition<Project>)
    ensures ProjectInput(t.value) == x
    ensures t.value.id == MemId(s.idCounter) && t.value.createdAt == now
    ensures t.store.projects == s.projects + [t.value]
    ensures t.store.contacts == s.contacts && t.store.articles == s.articles
    ensures t.store.idCounter == s.idCounter + 1
  {
    var g := GenerateId(s);
    var p := Project(g.value, x.title, x.description, x.longDescription, x.imageUrl, x.technologies,
      x.category, x.status, x.projectUrl, x.githubUrl, now, x.gallery);
    Transition(p, g.store.(projects := g.store.projects + [p]))
  }

  /**
    `updateProject(id, patch)`: absent and no change for an unknown id;
    otherwise the first project with the id is merged with the patch in place.
   */
  function UpdateProject(s: Store, id: string, patch: ProjectPatch): (t: Transition<Option<Project>>)
    ensures t.value.None? <==> forall j :: 0 <= j < |s.projects| ==> s.projects[j].id != id
    ensures t.value.None? ==> t.store == s
    ensures t.value.Some? ==>
      var i := IndexOf(s.projects, id);
      && t.value.value == Merge(s.projects[i], patch)
      && t.store == s.(projects := s.projects[i := t.value.value])
  {
    var i := IndexOf(s.projects, id);
    if i == -1 then Transition(None, s)
    else
      var p := Merge(s.projects[i], patch);
      Transition(Some(p), s.(projects := s.projects[i := p]))
  }

  /**
    `deleteProject(id)`: false and no change for an unknown id; otherwise true,
    with the first project holding the id spliced out.
   */
  function DeleteProject(s: Store, id: string): (t: Transition<bool>)
    ensures t.value <==> exists j :: 0 <= j < |s.projects| && s.projects[j].id == id
    ensures !t.value ==> t.store == s
    ensures t.value ==>
      var i := IndexOf(s.projects, id);
      && t.store == s.(projects := Seqs.RemoveAt(s.projects, i))
      && |t.store.projects| == |s.projects| - 1
  {
    var i := IndexOf(s.projects, id);
    if i == -1 then Transition(false, s)
    else Transition(true, s.(projects := Seqs.RemoveAt(s.projects, i)))
  }

  // ---------------------------------------------------------------- contact submissions

  function ContactInput(c: ContactSubmission): InsertContactSubmission
  {
    InsertContactSubmission(c.name, c.email, c.company, c.service, c.message)
  }

  /** `createContactSubmission(submission)`: appended with a fresh id, the time and status "new". */
  function CreateContactSubmission(s: Store, x: InsertContactSubmission, now: Timestamp): (t: Transition<ContactSubmission>)
    ensures ContactInput(t.value) == x
    ensures t.value.id == MemId(s.idCounter) && t.value.createdAt == now
    ensures t.value.status == "new"
    ensures t.store.contacts == s.contacts + [t.value]
    ensures t.store.projects == s.projects && t.store.articles == s.articles
    ensures t.store.idCounter == s.idCounter + 1
  {
    var g := GenerateId(s);
    var c := ContactSubmission(g.value, x.name, x.email, x.company, x.service, x.message, "new", now);
    Transition(c, g.store.(contacts := g.store.contacts + [c]))
  }

  function GetAllContactSubmissions(s: Store): (r: seq<ContactSubmission>)
    ensures |r| == |s.contacts| && forall i :: 0 <= i < |r| ==> r[i] == s.contacts[i]
  {
    s.contacts
  }

  // ---------------------------------------------------------------- articles

  function GetAllArticles(s: Store): (r: seq<Article>)
    ensures |r| == |s.articles| && forall i :: 0 <= i < |r| ==> r[i] == s.articles[i]
  {
    s.articles
  }

  function ArticleHasId(id: string): Article -> bool
  {
    (a: Article) => a.id == id
  }

  /** `getArticle(id)`: the first article with that id, if any. */
  function GetArticle(s: Store, id: string): (r: Option<Article>)
    ensures r.None? <==> forall j :: 0 <= j < |s.articles| ==> s.articles[j].id != id
    ensures r.Some? ==> r.value.id == id && exists i ::
      0 <= i < |s.articles| && s.articles[i] == r.value && forall j :: 0 <= j < i ==> s.articles[j].id != id
  {
    Seqs.Find(s.articles, ArticleHasId(id))
  }

  function ArticleInput(a: Article): InsertArticle
  {
    InsertArticle(a.title, a.description, a.content, a.imageUrl, a.category, a.tags, a.readTime)
  }

  /**
    `createArticle(article)`: appended with a fresh id; the source reads the
    clock once for publishedAt and once more for createdAt.
   */
  function CreateArticle(s: Store, x: InsertArticle, publishedAt: Timestamp, createdAt: Timestamp): (t: Transition<Article>)
    ensures ArticleInput(t.value) == x
    ensures t.value.id == MemId(s.idCounter)
    ensures t.value.publishedAt == publishedAt && t.value.createdAt == createdAt
    ensures t.store.articles == s.articles + [t.value]
    ensures t.store.projects == s.projects && t.store.contacts == s.contacts
    ensures t.store.idCounter == s.idCounter + 1
  {
    var g := GenerateId(s);
    var a := Article(g.value, x.title, x.description, x.content, x.imageUrl, x.category, x.tags,
      x.readTime, publishedAt, createdAt);
    Transition(a, g.store.(articles := g.store.articles + [a]))
  }

  // ---------------------------------------------------------------- the invariant is kept

  /** Placing the next generated id among the existing ones keeps the invariant. */
  lemma ValidAfterInsert(s: Store, s': Store, a: seq<string>, b: seq<string>)
    requires Valid(s)
    requires AllIds(s) == a + b
    requires AllIds(s') == a + [MemId(s.idCounter)] + b
    requires s'.idCounter == s.idCounter + 1
    ensures Valid(s')
  {
    Seqs.UniqueInsert(a, b, MemId(s.idCounter));
    forall k: nat | s'.idCounter <= k
      ensures MemId(k) !in AllIds(s')
    {
      if MemId(k) == MemId(s.idCounter) {
        MemIdInjective(k, s.idCounter);
      }
      assert MemId(k) !in a + b;
    }
  }

  lemma CreateProjectKeepsValid(s: Store, x: InsertProject, now: Timestamp)
    requires Valid(s)
    ensures Valid(CreateProject(s, x, now).store)
  {
    var t := CreateProject(s, x, now);
    var rest := ContactIds(s.contacts) + ArticleIds(s.articles);
    assert ProjectIds(t.store.projects) == ProjectIds(s.projects) + [t.value.id];
    assert AllIds(s) == ProjectIds(s.projects) + rest;
    ValidAfterInsert(s, t.store, ProjectIds(s.projects), rest);
  }

  lemma CreateContactSubmissionKeepsValid(s: Store, x: InsertContactSubmission, now: Timestamp)
    requires Valid(s)
    ensures Valid(CreateContactSubmission(s, x, now).store)
  {
    var t := CreateContactSubmission(s, x, now);
    var front := ProjectIds(s.projects) + ContactIds(s.contacts);
    assert ContactIds(t.store.contacts) == ContactIds(s.contacts) + [t.value.id];
    ValidAfterInsert(s, t.store, front, ArticleIds(s.articles));
  }

  lemma CreateArticleKeepsValid(s: Store, x: InsertArticle, publishedAt: Timestamp, createdAt: Timestamp)
    requires Valid(s)
    ensures Valid(CreateArticle(s, x, publishedAt, createdAt).store)
  {
    var t := CreateArticle(s, x, publishedAt, createdAt);
    assert ArticleIds(t.store.articles) == ArticleIds(s.articles) + [t.value.id];
    assert AllIds(s) == AllIds(s) + [];
    ValidAfterInsert(s, t.store, AllIds(s), []);
  }

  /** An update rewrites a record in place and never its id, so the ids stay as they were. */
  lemma UpdateProjectKeepsIds(s: Store, id: string, patch: ProjectPatch)
    ensures AllIds(UpdateProject(s, id, patch).store) == AllIds(s)
    ensures UpdateProject(s, id, patch).store.idCounter == s.idCounter
  {
    var t := UpdateProject(s, id, patch);
    if t.value.Some? {
      MergeKeepsIdentity(s.projects[IndexOf(s.projects, id)], patch);
      assert ProjectIds(t.store.projects) == ProjectIds(s.projects);
    }
  }

  lemma UpdateProjectKeepsValid(s: Store, id: string, patch: ProjectPatch)
    requires Valid(s)
    ensures Valid(UpdateProject(s, id, patch).store)
  {
    UpdateProjectKeepsIds(s, id, patch);
  }

  /** A delete removes exactly one id from the list of all ids. */
  lemma DeleteProjectIds(s: Store, id: string)
    requires DeleteProject(s, id).value
    ensures AllIds(DeleteProject(s, id).store) == Seqs.RemoveAt(AllIds(s), IndexOf(s.projects, id))
  {
    var i := IndexOf(s.projects, id);
    var t := DeleteProject(s, id);
    assert ProjectIds(t.store.projects) == Seqs.RemoveAt(ProjectIds(s.projects), i);
    var rest := ContactIds(s.contacts) + ArticleIds(s.articles);
    assert AllIds(s) == ProjectIds(s.projects) + rest;
    Seqs.RemoveAtConcat(ProjectIds(s.projects), rest, i);
  }

  lemma DeleteProjectKeepsValid(s: Store, id: string)
    requires Valid(s)
    ensures Valid(DeleteProject(s, id).store)
  {
    var t := DeleteProject(s, id);
    if t.value {
      DeleteProjectIds(s, id);
      Seqs.UniqueRemoveAt(AllIds(s), IndexOf(s.projects, id));
    }
  }

  // ---------------------------------------------------------------- traces

  /** The operations that change the store, with the clock readings they take. */
  datatype Op =
    | CreateProjectOp(project: InsertProject, at: Timestamp)
    | UpdateProjectOp(id: string, patch: ProjectPatch)
    | DeleteProjectOp(id: string)
    | CreateContactSubmissionOp(submission: InsertContactSubmission, at: Timestamp)
    | CreateArticleOp(article: InsertArticle, publishedAt: Timestamp, createdAt: Timestamp)

  function Apply(s: Store, op: Op): Store
  {
    match op
    case CreateProjectOp(x, at) => CreateProject(s, x, at).store
    case UpdateProjectOp(id, patch) => UpdateProject(s, id, patch).store
    case DeleteProjectOp(id) => DeleteProject(s, id).store
    case CreateContactSubmissionOp(x, at) => CreateContactSubmission(s, x, at).store
    case CreateArticleOp(x, p, c) => CreateArticle(s, x, p, c).store
  }

  /** The store after a sequence of operations, in order. */
  function Run(s: Store, ops: seq<Op>): Store
    decreases |ops|
  {
    if |ops| == 0 then s else Run(Apply(s, ops[0]), ops[1..])
  }

  lemma ApplyKeepsValid(s: Store, op: Op)
    requires Valid(s)
    ensures Valid(Apply(s, op))
    ensures Apply(s, op).idCounter >= s.idCounter
  {
    match op
    case CreateProjectOp(x, at) => CreateProjectKeepsValid(s, x, at);
    case UpdateProjectOp(id, patch) => UpdateProjectKeepsValid(s, id, patch);
    case DeleteProjectOp(id) => DeleteProjectKeepsValid(s, id);
    case CreateContactSubmissionOp(x, at) => CreateContactSubmissionKeepsValid(s, x, at);
    case CreateArticleOp(x, p, c) => CreateArticleKeepsValid(s, x, p, c);
  }

  /** Every operation keeps the invariant, so every store the program can reach satisfies it. */
  lemma {:induction false} RunKeepsValid(s: Store, ops: seq<Op>)
    requires Valid(s)
    ensures Valid(Run(s, ops))
    ensures Run(s, ops).idCounter >= s.idCounter
    decreases |ops|
  {
    if |ops| > 0 {
      ApplyKeepsValid(s, ops[0]);
      RunKeepsValid(Apply(s, ops[0]), ops[1..]);
    }
  }

  lemma ReachableValid(ops: seq<Op>)
    ensures Valid(Run(Initial, ops))
  {
    InitialValid();
    RunKeepsValid(Initial, ops);
  }

  /**
    The counter only grows, so an id generated after a project was created,
    whatever happened in between, differs from that project's id.
   */
  lemma LaterIdDiffers(s: Store, x: InsertProject, now: Timestamp, ops: seq<Op>)
    requires Valid(s)
    ensures var t := CreateProject(s, x, now);
      GenerateId(Run(t.store, ops)).value != t.value.id
  {
    var t := CreateProject(s, x, now);
    CreateProjectKeepsValid(s, x, now);
    RunKeepsValid(t.store, ops);
    var u := Run(t.store, ops);
    if MemId(u.idCounter) == MemId(s.idCounter) {
      MemIdInjective(u.idCounter, s.idCounter);
    }
  }

  // ---------------------------------------------------------------- reading back what was written

  /** Project ids are distinct in a valid store. */
  lemma ProjectIdsUnique(s: Store)
    requires Valid(s)
    ensures Seqs.Unique(ProjectIds(s.projects))
  {
    assert AllIds(s) == ProjectIds(s.projects) + (ContactIds(s.contacts) + ArticleIds(s.articles));
    Seqs.UniquePrefix(ProjectIds(s.projects), ContactIds(s.contacts) + ArticleIds(s.articles));
  }

  /** A created project can be fetched by its new id. */
  lemma GetAfterCreate(s: Store, x: InsertProject, now: Timestamp)
    requires Valid(s)
    ensures var t := CreateProject(s, x, now);
      GetProject(t.store, t.value.id) == Some(t.value)
  {
    var t := CreateProject(s, x, now);
    forall j | 0 <= j < |s.projects|
      ensures s.projects[j].id != t.value.id
    {
      assert ProjectIds(s.projects)[j] == AllIds(s)[j];
    }
    var r := GetProject(t.store, t.value.id);
    assert t.store.projects[|s.projects|] == t.value;
    if r.Some? {
      var k :| 0 <= k < |t.store.projects| && t.store.projects[k] == r.value
        && forall j :: 0 <= j < k ==> t.store.projects[j].id != t.value.id;
      assert k == |s.projects|;
    }
  }

  /** After an update the id leads to the merged record. */
  lemma GetAfterUpdate(s: Store, id: string, patch: ProjectPatch)
    ensures var t := UpdateProject(s, id, patch);
      t.value.Some? ==> GetProject(t.store, id) == t.value
  {
    var t := UpdateProject(s, id, patch);
    if t.value.Some? {
      var i := IndexOf(s.projects, id);
      MergeKeepsIdentity(s.projects[i], patch);
      var ps := t.store.projects;
      assert ps[i].id == id;
      var r := GetProject(t.store, id);
      if r.Some? {
        var k :| 0 <= k < |ps| && ps[k] == r.value && forall j :: 0 <= j < k ==> ps[j].id != id;
        assert k <= i;
        assert k == i;
      }
    }
  }

  /** After a delete the id is gone. */
  lemma GetAfterDelete(s: Store, id: string)
    requires Valid(s)
    ensures GetProject(DeleteProject(s, id).store, id).None?
  {
    var t := DeleteProject(s, id);
    if t.value {
      var i := IndexOf(s.projects, id);
      ProjectIdsUnique(s);
      Seqs.UniqueRemoveAt(ProjectIds(s.projects), i);
      assert ProjectIds(t.store.projects) == Seqs.RemoveAt(ProjectIds(s.projects), i);
      forall j | 0 <= j < |t.store.projects|
        ensures t.store.projects[j].id != id
      {
        assert ProjectIds(t.store.projects)[j] == t.store.projects[j].id;
      }
    }
  }

  /** Deleting the same id twice: the second call finds nothing and changes nothing. */
  lemma DeleteTwice(s: Store, id: string)
    requires Valid(s)
    ensures var second := DeleteProject(DeleteProject(s, id).store, id);
      !second.value && second.store == DeleteProject(s, id).store
  {
    GetAfterDelete(s, id);
  }

  /** Delete removes exactly the projects carrying the id and keeps the rest in order. */
  lemma DeleteIsFilter(s: Store, id: string)
    requires Valid(s)
    ensures DeleteProject(s, id).store.projects == Seqs.Filter(s.projects, (p: Project) => p.id != id)
  {
    var t := DeleteProject(s, id);
    var keep := (p: Project) => p.id != id;
    if t.value {
      var i := IndexOf(s.projects, id);
      ProjectIdsUnique(s);
      forall j | 0 <= j < |s.projects| && j != i
        ensures keep(s.projects[j])
      {
        assert ProjectIds(s.projects)[j] != ProjectIds(s.projects)[i];
      }
      Seqs.RemoveOnlyRejectedIsFilter(s.projects, keep, i);
    } else {
      Seqs.FilterAll(s.projects, keep);
    }
  }
}
