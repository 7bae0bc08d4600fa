/** The public projects section: the stored list or three built-in projects,
    and per project an image or placeholder, the Featured badge, at most
    three technology chips with a "+N more" count, and the two links. */
module ProjectsView {
  import opened Js
  import opened ProjectRecord

  const DefaultProjects: seq<Project> := [
    Project(Some(1), Some("Portfolio Website"),
      Some("A dynamic portfolio website built with React and Firebase, featuring real-time updates, animations, and responsive design."),
      Some(""), Some(["React", "Firebase", "Tailwind CSS", "Framer Motion"]), Some("#"), Some("#"), true, None),
    Project(Some(2), Some("E-Commerce Platform"),
      Some("Full-stack e-commerce solution with authentication, payments, and admin dashboard using modern web technologies."),
      Some(""), Some(["Next.js", "Node.js", "MongoDB", "Stripe"]), Some("#"), Some("#"), false, None),
    Project(Some(3), Some("Task Management App"),
      Some("A collaborative productivity app for managing projects and deadlines in real-time."),
      Some(""), Some(["React", "Socket.io", "Express", "PostgreSQL"]), Some("#"), Some("#"), true, None)]

  /** `Array.isArray(projectsData) ? projectsData : defaultProjects`; `stored`
      is none unless the stored value is an array. An empty stored array is
      shown as such. */
  function DisplayedProjects(stored: Option<seq<Project>>): (projects: seq<Project>)
    ensures stored.Some? ==> projects == stored.value
    ensures stored.None? ==> projects == DefaultProjects && |projects| == 3
  {
    OrList(stored, DefaultProjects)
  }

  /** `technologies.slice(0, 3)`: the first three, in order. */
  function Chips(technologies: seq<string>): (chips: seq<string>)
    ensures |chips| == if |technologies| < 3 then |technologies| else 3
    ensures chips <= technologies
  {
    if |technologies| <= 3 then technologies else technologies[..3]
  }

  /** The "+N more" badge: present exactly when there are more than three
      technologies, counting the ones without a chip. */
  function MoreCount(technologies: seq<string>): (more: Option<nat>)
    ensures more.Some? <==> |technologies| > 3
    ensures more.Some? ==> more.value == |technologies| - 3
  {
    if |technologies| > 3 then Some(|technologies| - 3) else None
  }

  /** The chips and the count account for every technology exactly once. */
  lemma ChipsAndMoreCoverAll(technologies: seq<string>)
    ensures |Chips(technologies)| + (if MoreCount(technologies).Some? then MoreCount(technologies).value else 0)
            == |technologies|
    ensures MoreCount(technologies).Some? ==>
      Chips(technologies) + technologies[3..] == technologies
  {
    if |technologies| > 3 {
      assert technologies[..3] + technologies[3..] == technologies;
    }
  }

  datatype Media = ProjectImage(src: string) | ProjectPreview

  /** What one project card shows. */
  datatype Card = Card(media: Media, featured: bool, chips: seq<string>, more: Option<nat>,
                       liveHref: string, githubHref: string)

  /** The card as the component means it, reading a missing technologies
      list as an empty one. */
  function CardOf(p: Project): (c: Card)
    ensures c.media.ProjectImage? <==> Truthy(p.image)
    ensures c.media.ProjectImage? ==> c.media.src == p.image.value
    ensures c.featured == p.featured
    ensures c.chips == Chips(OrList(p.technologies, []))
    ensures c.more == MoreCount(OrList(p.technologies, []))
    ensures c.liveHref == Or(p.liveLink, "#") && c.githubHref == Or(p.githubLink, "#")
  {
    var technologies := OrList(p.technologies, []);
    Card(if Truthy(p.image) then ProjectImage(p.image.value) else ProjectPreview,
         p.featured, Chips(technologies), MoreCount(technologies),
         Or(p.liveLink, "#"), Or(p.githubLink, "#"))
  }

  /** The card as written: `project.technologies.slice` and `.length` are
      read without a guard, so a project without the list makes the render
      throw (none here). */
  function CardAsWritten(p: Project): (c: Option<Card>)
    ensures c.None? <==> p.technologies.None?
  {
    if p.technologies.None? then None
    else Some(Card(if Truthy(p.image) then ProjectImage(p.image.value) else ProjectPreview,
                   p.featured, Chips(p.technologies.value), MoreCount(p.technologies.value),
                   Or(p.liveLink, "#"), Or(p.githubLink, "#")))
  }

  /** The two agree whenever the list is present; a stored project without
      one, which both editors allow for, breaks the written card. */
  lemma CardAsWrittenAgrees(p: Project)
    ensures p.technologies.Some? ==> CardAsWritten(p) == Some(CardOf(p))
    ensures CardAsWritten(Project(Some(7), Some("Draft"), None, None, None, None, None, false, None)).None?
  {
  }

  /** The built-in projects all show four technologies as three chips and
      "+1 more", with both links "#". */
  lemma DefaultCards()
    ensures forall i :: 0 <= i < 3 ==>
      CardOf(DefaultProjects[i]).more == Some(1) && CardOf(DefaultProjects[i]).liveHref == "#"
  {
  }

  /** The section: a spinner while loading, else the grid, or the empty
      message when there is nothing to show. */
  datatype Section = Loading | Grid(cards: seq<Card>) | NoProjects

  function ProjectsSection(loading: bool, stored: Option<seq<Project>>): (s: Section)
    ensures loading <==> s.Loading?
    ensures s.NoProjects? <==> !loading && stored == Some([])
    ensures s.Grid? ==> |s.cards| == |DisplayedProjects(stored)|
    ensures s.Grid? ==> forall i :: 0 <= i < |s.cards| ==> s.cards[i] == CardOf(DisplayedProjects(stored)[i])
  {
    if loading then Loading
    else
      var projects := DisplayedProjects(stored);
      if |projects| > 0 then Grid(seq(|projects|, i requires 0 <= i < |projects| => CardOf(projects[i])))
      else NoProjects
  }
}
