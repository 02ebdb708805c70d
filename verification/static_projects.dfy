/**
  The portfolio's built-in project list for the front-end-only build, and
  its lookup helpers: find by id, the whole list, and the projects of one
  category by exact, case-sensitive comparison.
 */
module StaticProjects {
  import opened Common
  import Seqs

  /** A project of the static list; the optional parts are `null` rather than missing. */
  datatype Project = Project(
    id: string,
    title: string,
    description: string,
    longDescription: Nullable<string>,
    imageUrl: string,
    technologies: seq<string>,
    category: string,
    status: string,
    projectUrl: Nullable<string>,
    githubUrl: Nullable<string>,
    createdAt: Timestamp,
    gallery: Nullable<seq<string>>)

  // The prose of each entry, kept apart from the list so that proofs about ids and
  // categories need not look at it.
  const Description1: string := "Designed and implemented a comprehensive industrial control system for manufacturing automation with PLC integration and safety protocols."
  const LongDescription1: string := "Led the complete design and implementation of an industrial control system for a manufacturing facility. The project involved developing control algorithms, selecting appropriate PLCs, designing safety interlocks, and ensuring compliance with industrial safety standards. The system improved production efficiency by 35% while maintaining the highest safety standards."
  const Description2: string := "Comprehensive electrical power distribution analysis and design for a commercial complex, ensuring regulatory compliance and optimal efficiency."
  const LongDescription2: string := "Performed detailed power distribution analysis for a 50,000 sq ft commercial complex. The project included load calculations, fault analysis, protective device coordination, and compliance verification with national electrical codes. Delivered complete electrical drawings and specifications sealed with PECE authority."
  const Description3: string := "Regulatory compliance assessment and documentation for FDA-approved medical electronic devices, ensuring safety standards and certification requirements."
  const LongDescription3: string := "Conducted comprehensive compliance review for medical electronic devices seeking FDA approval. The project involved risk analysis, safety standard verification (IEC 60601), electromagnetic compatibility testing coordination, and preparation of technical documentation. Successfully guided the client through the regulatory approval process."

  const Catalog: seq<Project> := [
    Project(
      "1",
      "Industrial Control System Design",
      Description1,
      NonNull(LongDescription1),
      "https://images.unsplash.com/photo-1581091226825-a6a2a5aee158?ixlib=rb-4.0.3&auto=format&fit=crop&w=800&h=600",
      ["PLC Programming", "SCADA", "Industrial Networks", "Safety Systems", "HMI Design"],
      "Industrial Automation",
      "completed",
      Null,
      Null,
      Instant(1723680000000),
      NonNull([
        "https://images.unsplash.com/photo-1581091226825-a6a2a5aee158?ixlib=rb-4.0.3&auto=format&fit=crop&w=800&h=600",
        "https://images.unsplash.com/photo-1518709268805-4e9042af2176?ixlib=rb-4.0.3&auto=format&fit=crop&w=800&h=600"])),
    Project(
      "2",
      "Power Distribution System Analysis",
      Description2,
      NonNull(LongDescription2),
      "https://images.unsplash.com/photo-1473341304170-971dccb5ac1e?ixlib=rb-4.0.3&auto=format&fit=crop&w=800&h=600",
      ["Power Systems Analysis", "AutoCAD Electrical", "Protective Relays", "Load Flow Analysis", "Electrical Codes"],
      "Power Systems",
      "completed",
      Null,
      Null,
      Instant(1718841600000),
      NonNull(["https://images.unsplash.com/photo-1473341304170-971dccb5ac1e?ixlib=rb-4.0.3&auto=format&fit=crop&w=800&h=600"])),
    Project(
      "3",
      "Medical Device Compliance Review",
      Description3,
      NonNull(LongDescription3),
      "https://images.unsplash.com/photo-1576091160399-112ba8d25d1f?ixlib=rb-4.0.3&auto=format&fit=crop&w=800&h=600",
      ["Medical Device Standards", "IEC 60601", "FDA Regulations", "Risk Analysis", "EMC Testing"],
      "Regulatory Compliance",
      "completed",
      Null,
      Null,
      Instant(1712707200000),
      NonNull(["https://images.unsplash.com/photo-1576091160399-112ba8d25d1f?ixlib=rb-4.0.3&auto=format&fit=crop&w=800&h=600"]))
  ]

  /** The ids and categories of the list, position by position. */
  lemma CatalogKeys()
    ensures |Catalog| == 3
    ensures Catalog[0].id == "1" && Catalog[1].id == "2" && Catalog[2].id == "3"
    ensures Catalog[0].category == "Industrial Automation"
    ensures Catalog[1].category == "Power Systems"
    ensures Catalog[2].category == "Regulatory Compliance"
  {
  }

  function IdIs(id: string): Project -> bool
  {
    (p: Project) => p.id == id
  }

  function CategoryIs(category: string): Project -> bool
  {
    (p: Project) => p.category == category
  }

  /** The first project of `ps` with that id, or `undefined`. */
  function FindById(ps: seq<Project>, id: string): (r: Option<Project>)
    ensures r.None? <==> forall i :: 0 <= i < |ps| ==> ps[i].id != id
    ensures r.Some? ==>
      exists i :: 0 <= i < |ps| && ps[i] == r.value && r.value.id == id &&
        forall j :: 0 <= j < i ==> ps[j].id != id
  {
    Seqs.Find(ps, IdIs(id))
  }

  /** Exactly the projects of `ps` whose category equals the argument, in order. */
  function FilterByCategory(ps: seq<Project>, category: string): (r: seq<Project>)
    ensures forall p :: p in r <==> p in ps && p.category == category
    ensures Seqs.IsSubsequence(r, ps)
    ensures forall p :: multiset(r)[p] == if p.category == category then multiset(ps)[p] else 0
  {
    var r := Seqs.Filter(ps, CategoryIs(category));
    forall p ensures p in r <==> p in ps && p.category == category {
      Seqs.FilterMembership(ps, CategoryIs(category), p);
    }
    forall p ensures multiset(r)[p] == if p.category == category then multiset(ps)[p] else 0 {
      Seqs.FilterCount(ps, CategoryIs(category), p);
    }
    Seqs.FilterIsSubsequence(ps, CategoryIs(category));
    r
  }

  /** `getProjectById`: the first listed project with that id, or `undefined`. */
  function GetProjectById(id: string): (r: Option<Project>)
    ensures r.None? <==> forall i :: 0 <= i < |Catalog| ==> Catalog[i].id != id
    ensures r.Some? ==> exists i :: 0 <= i < |Catalog| && Catalog[i] == r.value && r.value.id == id
  {
    FindById(Catalog, id)
  }

  /** `getAllProjects`: the whole list, in declaration order. */
  function GetAllProjects(): (r: seq<Project>)
    ensures |r| == 3 && r[0].id == "1" && r[1].id == "2" && r[2].id == "3"
  {
    CatalogKeys();
    Catalog
  }

  /** `getProjectsByCategory`: exactly the listed projects whose category equals the argument, in list order. */
  function GetProjectsByCategory(category: string): (r: seq<Project>)
    ensures forall p :: p in r <==> p in GetAllProjects() && p.category == category
    ensures Seqs.IsSubsequence(r, GetAllProjects())
  {
    FilterByCategory(Catalog, category)
  }

  /** In a list whose ids are distinct, each id finds its own record. */
  lemma FindByIdDistinct(ps: seq<Project>, i: nat)
    requires i < |ps|
    requires forall j :: 0 <= j < |ps| && j != i ==> ps[j].id != ps[i].id
    ensures FindById(ps, ps[i].id) == Some(ps[i])
  {
  }

  /** The ids of the list are distinct, so each one finds its own record. */
  lemma LookupEach(i: nat)
    requires i < |Catalog|
    ensures GetProjectById(Catalog[i].id) == Some(Catalog[i])
  {
    CatalogKeys();
    FindByIdDistinct(Catalog, i);
  }

  /** A category no project has yields nothing; the comparison does not ignore case. */
  lemma UnknownCategory(category: string)
    requires category !in {"Industrial Automation", "Power Systems", "Regulatory Compliance"}
    ensures GetProjectsByCategory(category) == []
  {
    CatalogKeys();
    Seqs.FilterNone(Catalog, CategoryIs(category));
  }

  lemma PowerSystemsCategory()
    ensures GetProjectsByCategory("Power Systems") == [Catalog[1]]
    ensures GetProjectsByCategory("power systems") == []
  {
    CatalogKeys();
    Seqs.KeepRun(Catalog, CategoryIs("Power Systems"), 1, 2);
    UnknownCategory("power systems");
  }
}
