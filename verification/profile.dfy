/**
 * The profile data store: the record shapes of the portfolio owner's data,
 * the shipped data itself, and the two project lookups the terminal uses.
 */
module Profile {
  import opened Wrappers
  import opened Text

  datatype Skill = Skill(category: string, items: seq<string>)

  /** An empty `liveDemo` or `githubRepo` is falsy in the source and means "no link". */
  datatype Project = Project(
    name: string,
    description: string,
    tech: seq<string>,
    liveDemo: string,
    githubRepo: string)

  datatype Contact = Contact(email: string, github: string, linkedin: string)

  datatype Education = Education(degree: string, institution: string, year: string, description: string)

  datatype Experience = Experience(position: string, company: string, period: string, description: string)

  datatype Language = Language(name: string, level: string)

  datatype Certification = Certification(name: string, issuer: string, year: string)

  datatype CV = CV(
    education: seq<Education>,
    experience: seq<Experience>,
    languages: seq<Language>,
    certifications: seq<Certification>)

  datatype PersonalInfo = PersonalInfo(
    name: string,
    title: string,
    location: string,
    bio: string,
    skills: seq<Skill>,
    projects: seq<Project>,
    contact: Contact,
    cv: CV)

  /** The three shipped projects. */
  const ShippedProjects: seq<Project> := [
    Project(
      "Join Kanban Board",
      "A collaborative project management tool with real-time updates.",
      ["HTML5", "CSS3", "JavaScript", "Realtime Database"],
      "https://join.marcel-menke.info/login.html",
      "https://github.com/Bi7hop/Join"),
    Project(
      "El Pollo Loco",
      "A 2d Game with Pepe and the crazy chicken.",
      ["Javascript", "HTML5", "CSS3", "OOP", "Canvas"],
      "https://elpolloloco.marcel-menke.info/index.html",
      "https://github.com/Bi7hop/El-polllo-loco"),
    Project(
      "Finanz Buddy",
      "A personal finance tracker with budgeting and reporting features.",
      ["Angular", "HTML5", "CSS3", "JavaScript", "Supabase"],
      "https://github.com/Bi7hop/Finanz_Buddy",
      "https://github.com/Bi7hop/Finanz_Buddy")
  ]

  /** The data the profile service ships with; every getter returns a part of this value. */
  const Shipped: PersonalInfo := PersonalInfo(
    "Marcel Menke",
    "Junior Frontend Developer",
    "Steinfeld (Oldenburg), Germany",
    "Specialized in creating innovative web applications using modern technologies.\nAlways looking for the next challenge in the digital realm.",
    [Skill("Frontend", ["Angular", "HTML5", "CSS3/SASS", "JavaScript/TypeScript"])],
    ShippedProjects,
    Contact("marcel.menke1981@gmail.com", "https://github.com/Bi7hop", "www.linkedin.com/in/marcel-menke"),
    CV(
      [
        Education(
          "Frontend Developer", "Developer Akademie", "04/2024-11/2024",
          "Intensive Ausbildung in Frontend-Entwicklung mit Angular und weiteren Webtechnologien."),
        Education(
          "Backend Developer", "Developer Akademie", "11/2024-now",
          "Vertiefung in Backend-Entwicklung mit Python, Django.")
      ],
      [
        Experience(
          "Junior Frontend Developer (Quereinsteiger)", "", "2024 - Heute",
          "Im Rahmen meiner Weiterbildung habe ich bereits erste Erfahrungen mit Angular-basierten Webanwendungen und Komponenten gesammelt. Obwohl ich bislang noch keinen Job in der Branche hatte, freue ich mich über jede Chance, meine Fähigkeiten in einem professionellen Umfeld einzubringen und weiterzuentwickeln.")
      ],
      [Language("Deutsch", "Muttersprache"), Language("Englisch", "Fließend (C1)")],
      [Certification("Frontend-Development", "Developer Akademie", "2024")]))

  /** `getProjectByIndex`: the project at a zero-based index, or undefined outside the list. */
  function GetProjectByIndex(projects: seq<Project>, index: int): (r: Option<Project>)
    ensures r.Some? <==> 0 <= index < |projects|
    ensures r.Some? ==> r.value == projects[index]
  {
    if index < 0 || index >= |projects| then None else Some(projects[index])
  }

  predicate NameMatches(p: Project, name: string) {
    SameIgnoringCase(p.name, name)
  }

  /** Position i holds the first project whose name matches case-insensitively. */
  predicate IsFirstMatch(projects: seq<Project>, name: string, i: int) {
    && 0 <= i < |projects|
    && NameMatches(projects[i], name)
    && forall j :: 0 <= j < i ==> !NameMatches(projects[j], name)
  }

  /** The search behind `Array.prototype.find`, from position k on. */
  function FindFrom(projects: seq<Project>, name: string, k: nat): (r: Option<nat>)
    requires k <= |projects|
    requires forall j :: 0 <= j < k ==> !NameMatches(projects[j], name)
    ensures r.Some? ==> IsFirstMatch(projects, name, r.value)
    ensures r.None? <==> forall j :: k <= j < |projects| ==> !NameMatches(projects[j], name)
    decreases |projects| - k
  {
    if k == |projects| then None
    else if NameMatches(projects[k], name) then Some(k)
    else FindFrom(projects, name, k + 1)
  }

  /**
   * `getProjectByName`: the first project whose lowercased name equals the
   * lowercased query; undefined exactly when no name matches.
   */
  function GetProjectByName(projects: seq<Project>, name: string): (r: Option<Project>)
    ensures r.None? <==> forall j :: 0 <= j < |projects| ==> !NameMatches(projects[j], name)
    ensures forall i :: IsFirstMatch(projects, name, i) ==> r == Some(projects[i])
  {
    match FindFrom(projects, name, 0)
    case Some(i) => Some(projects[i])
    case None => None
  }

  /** No two project names coincide once lowercased. */
  predicate DistinctNames(projects: seq<Project>) {
    forall i, j :: 0 <= i < j < |projects| ==> !SameIgnoringCase(projects[i].name, projects[j].name)
  }

  /** With distinct names, looking a project up by its name, in any casing, finds the same project as its index. */
  lemma NameLookupAgreesWithIndex(projects: seq<Project>, i: int, query: string)
    requires DistinctNames(projects)
    requires 0 <= i < |projects| && SameIgnoringCase(query, projects[i].name)
    ensures GetProjectByName(projects, query) == GetProjectByIndex(projects, i)
  {
    assert IsFirstMatch(projects, query, i) by {
      forall j | 0 <= j < i
        ensures !NameMatches(projects[j], query)
      {
        assert !SameIgnoringCase(projects[j].name, projects[i].name);
      }
    }
  }

  /** The shipped project names are distinct under lowercasing (they differ in their first letter). */
  lemma ShippedNamesDistinct()
    ensures DistinctNames(Shipped.projects)
  {
    var ps := Shipped.projects;
    assert Lower(ps[0].name)[0] == 'j';
    assert Lower(ps[1].name)[0] == 'e';
    assert Lower(ps[2].name)[0] == 'f';
  }

  /** For the shipped data, `getProjectByName(projects[i].name)` in any casing equals `getProjectByIndex(i)`. */
  lemma ShippedNameLookup(i: int, query: string)
    requires 0 <= i < |Shipped.projects| && SameIgnoringCase(query, Shipped.projects[i].name)
    ensures GetProjectByName(Shipped.projects, query) == GetProjectByIndex(Shipped.projects, i)
  {
    ShippedNamesDistinct();
    NameLookupAgreesWithIndex(Shipped.projects, i, query);
  }
}
