/**
  The portfolio's second static project list and its helpers. Lookup by id
  answers `null` when nothing matches, and the category filter keeps a
  project when its lower-cased category contains the lower-cased query.
  The artificial loading delay of each helper has no effect on its answer
  and is not modelled.
 */
module ProjectsData {
  import opened Common
  import opened SiteTypes
  import Seqs

  // The prose of each entry, kept apart from the list so that proofs about ids and
  // categories need not look at it.
  const Description1: string := "Custom control system for manufacturing automation with safety interlocks and monitoring capabilities."
  const LongDescription1: string := "Designed and implemented a comprehensive industrial control system for a manufacturing facility, featuring programmable logic controllers (PLCs), human-machine interfaces (HMIs), and safety interlocks. The system includes real-time monitoring, data logging, and alarm management capabilities."
  const Description2: string := "High-efficiency DC-DC converter design with advanced control algorithms for renewable energy applications."
  const LongDescription2: string := "Developed a high-efficiency DC-DC converter for solar energy systems, incorporating advanced control algorithms and protection circuits. The design achieved >95% efficiency across varying load conditions and included comprehensive thermal management solutions."
  const Description3: string := "IoT sensor network for environmental monitoring with wireless communication and data analytics."
  const LongDescription3: string := "Created a comprehensive IoT sensor network for environmental monitoring, featuring wireless sensor nodes, data collection gateways, and cloud-based analytics. The system monitors temperature, humidity, air quality, and other environmental parameters in real-time."
  const Description4: string := "Digital signal processing system for audio enhancement with real-time filtering and noise reduction."
  const LongDescription4: string := "Implemented a digital signal processing system for audio applications, featuring real-time filtering, noise reduction, and audio enhancement algorithms. The system processes multiple audio channels simultaneously with low latency and high fidelity."
  const Description5: string := "High-frequency RF communication system with antenna design and signal optimization."
  const LongDescription5: string := "Designed a complete RF communication system including antenna design, impedance matching networks, and signal conditioning circuits. The system operates in the 2.4GHz band with optimized range and signal quality for industrial applications."

  const Catalog: seq<Project> := [
    Project(
      "1",
      "Industrial Control System Design",
      Description1,
      Present(LongDescription1),
      "/api/placeholder/600/400",
      ["PLC Programming", "HMI Design", "SCADA", "Industrial Networking", "Safety Systems"],
      "Industrial Automation",
      "completed",
      Present(""),
      Present(""),
      Present(["/api/placeholder/800/600", "/api/placeholder/800/600", "/api/placeholder/800/600"])),
    Project(
      "2",
      "Power Electronics Circuit Analysis",
      Description2,
      Present(LongDescription2),
      "/api/placeholder/600/400",
      ["Power Electronics", "Circuit Simulation", "PCB Design", "Thermal Analysis", "Control Systems"],
      "Power Electronics",
      "completed",
      Present(""),
      Present(""),
      Present(["/api/placeholder/800/600", "/api/placeholder/800/600"])),
    Project(
      "3",
      "Embedded System Development",
      Description3,
      Present(LongDescription3),
      "/api/placeholder/600/400",
      ["Embedded C/C++", "IoT Protocols", "Wireless Communication", "Sensor Integration", "Data Analytics"],
      "Embedded Systems",
      "completed",
      Present(""),
      Present(""),
      Present(["/api/placeholder/800/600", "/api/placeholder/800/600", "/api/placeholder/800/600", "/api/placeholder/800/600"])),
    Project(
      "4",
      "Signal Processing & Analysis",
      Description4,
      Present(LongDescription4),
      "/api/placeholder/600/400",
      ["DSP Algorithms", "MATLAB/Simulink", "Real-time Processing", "Audio Engineering", "Filter Design"],
      "Signal Processing",
      "completed",
      Present(""),
      Present(""),
      Present(["/api/placeholder/800/600", "/api/placeholder/800/600"])),
    Project(
      "5",
      "RF System Design",
      Description5,
      Present(LongDescription5),
      "/api/placeholder/600/400",
      ["RF Design", "Antenna Engineering", "Impedance Matching", "Signal Optimization", "Network Analysis"],
      "RF Engineering",
      "completed",
      Present(""),
      Present(""),
      Present(["/api/placeholder/800/600", "/api/placeholder/800/600", "/api/placeholder/800/600"]))
  ]

  /** The ids of the list, position by position. */
  lemma CatalogIds()
    ensures |Catalog| == 5
    ensures Catalog[0].id == "1" && Catalog[1].id == "2" && Catalog[2].id == "3"
    ensures Catalog[3].id == "4" && Catalog[4].id == "5"
  {
  }

  // ---------------------------------------------------------------- text

  /** `toLowerCase` on the ASCII letters; every other character is kept. */
  function Lower(c: char): (l: char)
    ensures 'A' <= c <= 'Z' ==> l as int == c as int + 32
    ensures !('A' <= c <= 'Z') ==> l == c
  {
    if 'A' <= c <= 'Z' then (c as int + 32) as char else c
  }

  function LowerString(s: string): (l: string)
    ensures |l| == |s|
    ensures forall i :: 0 <= i < |s| ==> l[i] == Lower(s[i])
  {
    seq(|s|, i requires 0 <= i < |s| => Lower(s[i]))
  }

  /** Lowering twice is lowering once. */
  lemma LowerStringIdempotent(s: string)
    ensures LowerString(LowerString(s)) == LowerString(s)
  {
  }

  /** Two strings that differ at most in the case of ASCII letters. */
  predicate SameUpToCase(a: string, b: string)
  {
    |a| == |b| && forall i :: 0 <= i < |a| ==> Lower(a[i]) == Lower(b[i])
  }

  /** `needle` occurs in `hay` starting at position `i`. */
  predicate OccursAt(hay: string, needle: string, i: int)
  {
    0 <= i && i + |needle| <= |hay| && hay[i..i + |needle|] == needle
  }

  /** `String.prototype.includes`: scans from the left for an occurrence. */
  function Includes(hay: string, needle: string): (b: bool)
    ensures b <==> exists i :: OccursAt(hay, needle, i)
    decreases |hay|
  {
    if |needle| <= |hay| && hay[..|needle|] == needle then
      assert OccursAt(hay, needle, 0);
      true
    else if |hay| == 0 then
      assert forall i :: !OccursAt(hay, needle, i) by {
        forall i | OccursAt(hay, needle, i) ensures false {
        }
      }
      false
    else
      var rest := Includes(hay[1..], needle);
      assert rest ==> exists i :: OccursAt(hay, needle, i) by {
        if rest {
          var i :| OccursAt(hay[1..], needle, i);
          assert hay[1..][i..i + |needle|] == hay[i + 1..i + 1 + |needle|];
          assert OccursAt(hay, needle, i + 1);
        }
      }
      assert (exists i :: OccursAt(hay, needle, i)) ==> rest by {
        if exists i :: OccursAt(hay, needle, i) {
          var i :| OccursAt(hay, needle, i);
          assert i != 0;
          assert hay[1..][i - 1..i - 1 + |needle|] == hay[i..i + |needle|];
          assert OccursAt(hay[1..], needle, i - 1);
        }
      }
      rest
  }

  /** The empty string occurs in every string. */
  lemma IncludesEmpty(hay: string)
    ensures Includes(hay, "")
  {
    assert OccursAt(hay, "", 0);
  }

  // ---------------------------------------------------------------- helpers

  function IdIs(id: string): Project -> bool
  {
    (p: Project) => p.id == id
  }

  /** The filter's test, for an already lower-cased query. */
  function MatchesLowered(loweredQuery: string): Project -> bool
  {
    (p: Project) => Includes(LowerString(p.category), loweredQuery)
  }

  /** The first project of `ps` with that id, or `null`. */
  function FindById(ps: seq<Project>, id: string): (r: Nullable<Project>)
    ensures r.Null? <==> forall i :: 0 <= i < |ps| ==> ps[i].id != id
    ensures r.NonNull? ==>
      exists i :: 0 <= i < |ps| && ps[i] == r.value && r.value.id == id &&
        forall j :: 0 <= j < i ==> ps[j].id != id
  {
    match Seqs.Find(ps, IdIs(id))
    case None => Null
    case Some(p) => NonNull(p)
  }

  /** The projects of `ps` whose category contains the query, ignoring ASCII case, in order. */
  function FilterByCategory(ps: seq<Project>, query: string): (r: seq<Project>)
    ensures forall p :: p in r <==>
      p in ps && exists i :: OccursAt(LowerString(p.category), LowerString(query), i)
    ensures Seqs.IsSubsequence(r, ps)
    ensures forall p ::
      multiset(r)[p] == if exists i :: OccursAt(LowerString(p.category), LowerString(query), i) then multiset(ps)[p] else 0
  {
    var keep := MatchesLowered(LowerString(query));
    var r := Seqs.Filter(ps, keep);
    forall p ensures p in r <==> p in ps && keep(p) {
      Seqs.FilterMembership(ps, keep, p);
    }
    forall p ensures multiset(r)[p] == if keep(p) then multiset(ps)[p] else 0 {
      Seqs.FilterCount(ps, keep, p);
    }
    Seqs.FilterIsSubsequence(ps, keep);
    r
  }

  /** `getProjectById`: the first listed project with that id, or `null`. */
  function GetProjectById(id: string): (r: Nullable<Project>)
    ensures r.Null? <==> forall i :: 0 <= i < |Catalog| ==> Catalog[i].id != id
    ensures r.NonNull? ==> exists i :: 0 <= i < |Catalog| && Catalog[i] == r.value && r.value.id == id
  {
    FindById(Catalog, id)
  }

  /** `getAllProjects`: the whole list, in declaration order. */
  function GetAllProjects(): (r: seq<Project>)
    ensures |r| == 5
    ensures r[0].id == "1" && r[1].id == "2" && r[2].id == "3" && r[3].id == "4" && r[4].id == "5"
  {
    CatalogIds();
    Catalog
  }

  /** `getProjectsByCategory`: the listed projects whose category contains the query, ignoring ASCII case, in list order. */
  function GetProjectsByCategory(query: string): (r: seq<Project>)
    ensures forall p :: p in r <==>
      p in GetAllProjects() && exists i :: OccursAt(LowerString(p.category), LowerString(query), i)
    ensures Seqs.IsSubsequence(r, GetAllProjects())
  {
    FilterByCategory(Catalog, query)
  }

  // ---------------------------------------------------------------- laws

  /** In a list whose ids are distinct, each id finds its own record. */
  lemma FindByIdDistinct(ps: seq<Project>, i: nat)
    requires i < |ps|
    requires forall j :: 0 <= j < |ps| && j != i ==> ps[j].id != ps[i].id
    ensures FindById(ps, ps[i].id) == NonNull(ps[i])
  {
  }

  /** The ids of the list are distinct, so each one finds its own record. */
  lemma LookupEach(i: nat)
    requires i < |Catalog|
    ensures GetProjectById(Catalog[i].id) == NonNull(Catalog[i])
  {
    CatalogIds();
    FindByIdDistinct(Catalog, i);
  }

  /** An id outside the list is answered with `null`. */
  lemma UnknownIdIsNull(id: string)
    requires id !in {"1", "2", "3", "4", "5"}
    ensures GetProjectById(id) == Null
  {
    CatalogIds();
  }

  /** The empty query keeps every project. */
  lemma EmptyQueryMatchesAll()
    ensures GetProjectsByCategory("") == GetAllProjects()
  {
    forall i | 0 <= i < |Catalog|
      ensures MatchesLowered(LowerString(""))(Catalog[i])
    {
      IncludesEmpty(LowerString(Catalog[i].category));
    }
    Seqs.FilterAll(Catalog, MatchesLowered(LowerString("")));
  }

  /** Queries that differ only in letter case give the same answer. */
  lemma CaseInsensitive(a: string, b: string)
    requires SameUpToCase(a, b)
    ensures GetProjectsByCategory(a) == GetProjectsByCategory(b)
  {
    assert LowerString(a) == LowerString(b);
  }

  /** In particular, a query and its lower-cased form give the same answer. */
  lemma LoweredQuery(q: string)
    ensures GetProjectsByCategory(LowerString(q)) == GetProjectsByCategory(q)
  {
    LowerStringIdempotent(q);
  }
}
