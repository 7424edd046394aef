/** The Portfolio section: the category filter over the project list, the tags
    shown on a card, and the project-detail modal. */
module Portfolio {

  datatype Option<T> = None | Some(value: T)

  /** A figure on a project card. The source names the first field `label`,
      which is a reserved word in Dafny. */
  datatype Stat = Stat(heading: string, value: string)

  datatype Project = Project(
    id: nat,
    title: string,
    category: string,
    description: string,
    tags: seq<string>,
    link: string,
    stats: seq<Stat>)

  /** The four projects, in display order (long descriptions and image URLs are
      not modelled). */
  const PROJECTS: seq<Project> := [
    Project(1, "Prepalyze Neet and JEE Exam Platform", "web",
      "Ai model based exam preparation platform",
      ["React.js", "Node.js", "MongoDB", "Tailwind CSS"], "#",
      [Stat("Conversion Rate", "+100%"), Stat("Page Load", "0.8s"), Stat("Users", "2K+")]),
    Project(2, "Trust website", "Web",
      "Trust website for a Tirnelveli based trust",
      ["Next.js", "Postgresql", "tailwind css"], "#",
      [Stat("Veiws", "1K+"), Stat("Rating", "4.8★"), Stat("Retention", "65%")]),
    Project(3, "Appoinment Booking Site", "Web",
      "Scheduling and booking application for service providers",
      ["Next.js", "Postgresql", "Tailwind css"], "#",
      [Stat("User Satisfaction", "94%"), Stat("Tasks Completed", "3x Faster"), Stat("Error Rate", "-80%")]),
    Project(4, "Tourism Platform", "web",
      "Tourism and travel booking platform",
      ["Wordpress", "WP-form", "Plugins"], "#",
      [Stat("Active Users", "1M+"), Stat("Messages/Day", "10M+"), Stat("Uptime", "99.99%")])
  ]

  /** `projects.filter(p => p.category === filter)`: sound (only projects of the
      category, all taken from the input) and complete (every such project, as
      many times as it occurs in the input). */
  function FilterByCategory(ps: seq<Project>, category: string): (r: seq<Project>)
    ensures |r| <= |ps|
    ensures forall p :: p in r ==> p in ps && p.category == category
    ensures forall p :: p in ps && p.category == category ==> p in r
  {
    if ps == [] then []
    else if ps[0].category == category then [ps[0]] + FilterByCategory(ps[1..], category)
    else FilterByCategory(ps[1..], category)
  }

  /** The filter keeps every copy of a matching project and no copy of any
      other: it is the input's multiset restricted to the category. */
  lemma {:induction false} FilterKeepsEveryCopy(ps: seq<Project>, category: string)
    ensures forall p :: multiset(FilterByCategory(ps, category))[p] ==
                          if p.category == category then multiset(ps)[p] else 0
  {
    if ps != [] {
      FilterKeepsEveryCopy(ps[1..], category);
      assert ps == [ps[0]] + ps[1..];
    }
  }

  /** `r` is `ps` with some elements removed and the rest in their order. */
  predicate IsSubsequence<T(==)>(r: seq<T>, ps: seq<T>)
    decreases |ps|
  {
    if r == [] then true
    else if ps == [] then false
    else if r[0] == ps[0] then IsSubsequence(r[1..], ps[1..])
    else IsSubsequence(r, ps[1..])
  }

  /** The filter keeps the original relative order. */
  lemma {:induction false} FilterKeepsOrder(ps: seq<Project>, category: string)
    ensures IsSubsequence(FilterByCategory(ps, category), ps)
  {
    if ps != [] {
      var rest := FilterByCategory(ps[1..], category);
      FilterKeepsOrder(ps[1..], category);
      if ps[0].category == category {
        assert ([ps[0]] + rest)[1..] == rest;
      } else {
        assert rest != [] ==> rest[0] in rest && rest[0] != ps[0];
      }
    }
  }

  /** `filteredProjects` over the list `projects`: all of it for 'all',
      otherwise exactly the projects of that category, compared
      case-sensitively, in their original order. */
  function FilteredProjects(projects: seq<Project>, activeFilter: string): (r: seq<Project>)
    ensures activeFilter == "all" ==> r == projects
    ensures activeFilter != "all" ==>
              forall p :: p in r <==> p in projects && p.category == activeFilter
    ensures IsSubsequence(r, projects)
  {
    if activeFilter == "all" then
      SubsequenceRefl(projects);
      projects
    else
      FilterKeepsOrder(projects, activeFilter);
      FilterByCategory(projects, activeFilter)
  }

  /** With a category selected, the section shows every copy of each project
      of that category and nothing else. */
  lemma FilteredKeepsEveryCopy(projects: seq<Project>, activeFilter: string)
    requires activeFilter != "all"
    ensures forall p :: multiset(FilteredProjects(projects, activeFilter))[p] ==
                          if p.category == activeFilter then multiset(projects)[p] else 0
  {
    FilterKeepsEveryCopy(projects, activeFilter);
  }

  lemma {:induction false} SubsequenceRefl<T>(ps: seq<T>)
    ensures IsSubsequence(ps, ps)
    decreases |ps|
  {
    if ps != [] {
      SubsequenceRefl(ps[1..]);
    }
  }

  /** Matching is case-sensitive: 'web' keeps projects 1 and 4 and drops 2 and 3,
      whose category is 'Web'. */
  lemma FilterIsCaseSensitive()
    ensures FilteredProjects(PROJECTS, "web") == [PROJECTS[0], PROJECTS[3]]
    ensures FilteredProjects(PROJECTS, "Web") == [PROJECTS[1], PROJECTS[2]]
  {
    var ps := PROJECTS;
    assert ps[1..][1..][1..][1..] == [];
    assert FilterByCategory(ps[3..], "web") == [ps[3]];
    assert FilterByCategory(ps[1..], "web") == FilterByCategory(ps[3..], "web");
    assert FilterByCategory(ps[3..], "Web") == [];
    assert FilterByCategory(ps[1..], "Web") == [ps[1], ps[2]];
  }

  /** `project.tags.slice(0, 3)`: at most the first three tags, in order. */
  function CardTags(tags: seq<string>): (r: seq<string>)
    ensures |r| <= 3
    ensures |r| <= |tags| && r == tags[..|r|]
    ensures |tags| >= 3 ==> |r| == 3
    ensures |tags| < 3 ==> r == tags
  {
    if |tags| <= 3 then tags else tags[..3]
  }

  /** The elements a click can land on, and the click handlers on the way from
      the target out to the document. */
  datatype ClickTarget = ProjectCard(project: Project) | Backdrop | ModalBody | CloseButton

  datatype Handler = Select(project: Project) | ClearSelection | StopPropagation

  /** Bubbling path: the close button sits inside the modal body, whose handler
      stops propagation before the click reaches the backdrop. */
  function Path(target: ClickTarget): seq<Handler> {
    match target
    case ProjectCard(p) => [Select(p)]
    case Backdrop => [ClearSelection]
    case ModalBody => [StopPropagation, ClearSelection]
    case CloseButton => [ClearSelection, StopPropagation, ClearSelection]
  }

  /** Runs the handlers of a path in order until one stops propagation. */
  function Dispatch(handlers: seq<Handler>, selected: Option<Project>): Option<Project> {
    if handlers == [] then selected
    else match handlers[0]
      case Select(p) => Dispatch(handlers[1..], Some(p))
      case ClearSelection => Dispatch(handlers[1..], None)
      case StopPropagation => selected
  }

  /** Clicking a card selects its project; the backdrop and the close button
      clear the selection; a click inside the modal keeps it. */
  lemma ClickEffect(target: ClickTarget, selected: Option<Project>)
    ensures target.ProjectCard? ==> Dispatch(Path(target), selected) == Some(target.project)
    ensures target == Backdrop || target == CloseButton ==> Dispatch(Path(target), selected) == None
    ensures target == ModalBody ==> Dispatch(Path(target), selected) == selected
  {
    var hs := Path(target);
    if hs != [] && hs[1..] != [] {
      assert hs[1..][1..] == hs[2..];
    }
  }

  /** The state of the Portfolio section. The filter buttons are commented out
      in the page, so no method writes `activeFilter`. */
  class PortfolioView {
    var selectedProject: Option<Project>
    var activeFilter: string

    constructor ()
      ensures selectedProject == None && activeFilter == "all"
      ensures Visible() == PROJECTS
    {
      selectedProject := None;
      activeFilter := "all";
    }

    function Visible(): seq<Project>
      reads this
    {
      FilteredProjects(PROJECTS, activeFilter)
    }

    /** A click, handled as the page's handlers handle it. */
    method Click(target: ClickTarget)
      modifies this`selectedProject
      ensures selectedProject == Dispatch(Path(target), old(selectedProject))
    {
      match target
      case ProjectCard(p) =>
        selectedProject := Some(p);
      case Backdrop =>
        selectedProject := None;
      case CloseButton =>
        selectedProject := None;
      case ModalBody =>
    }
  }
}
