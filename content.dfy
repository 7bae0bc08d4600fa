/** The records stored under the `portfolio` root, one module per subtree. The store
    is schema-less, so a text field that any component reads with a fallback
    or an existence test is optional here. Each record comes with the update
    that the editors' `[field]: value` assignments perform. */

/** `portfolio/hero`. */
module HeroRecord {
  import opened Js

  datatype Hero = Hero(
    name: Option<string>,
    description: Option<string>,
    location: Option<string>,
    roles: Option<seq<string>>,
    avatar: Option<string>,
    animatedAvatar: Option<string>,
    cvUrl: Option<string>,
    cvName: Option<string>)

  /** The text fields an editor can set by name. */
  datatype HeroField = Name | Description | Location | Avatar | AnimatedAvatar | CvUrl | CvName

  function Text(h: Hero, f: HeroField): Option<string> {
    match f
    case Name => h.name
    case Description => h.description
    case Location => h.location
    case Avatar => h.avatar
    case AnimatedAvatar => h.animatedAvatar
    case CvUrl => h.cvUrl
    case CvName => h.cvName
  }

  /** `{ ...h, [f]: v }`: the named field takes `v`, every other field keeps
      its value. */
  function SetText(h: Hero, f: HeroField, v: string): (r: Hero)
    ensures Text(r, f) == Some(v)
    ensures forall g :: g != f ==> Text(r, g) == Text(h, g)
    ensures r.roles == h.roles
  {
    match f
    case Name => h.(name := Some(v))
    case Description => h.(description := Some(v))
    case Location => h.(location := Some(v))
    case Avatar => h.(avatar := Some(v))
    case AnimatedAvatar => h.(animatedAvatar := Some(v))
    case CvUrl => h.(cvUrl := Some(v))
    case CvName => h.(cvName := Some(v))
  }
}

/** The `technologies` list of a project or an internship, which a stored
    record may lack. */
module Technologies {
  import opened Js
  import Lists

  /** `if (!t) t = []; t.push('')`: the list is created if absent, then one
      empty entry is appended. */
  function AddTechnology(t: Option<seq<string>>): (r: Option<seq<string>>)
    ensures r.Some? && |r.value| == |OrList(t, [])| + 1
    ensures r.value[..|r.value| - 1] == OrList(t, []) && r.value[|r.value| - 1] == ""
  {
    Some(OrList(t, []) + [""])
  }

  /** `t[i] = v` on a present list: only entry `i` changes. */
  function UpdateTechnology(t: Option<seq<string>>, i: nat, v: string): (r: Option<seq<string>>)
    requires t.Some? && i < |t.value|
    ensures r.Some? && |r.value| == |t.value| && r.value[i] == v
    ensures forall j :: 0 <= j < |t.value| && j != i ==> r.value[j] == t.value[j]
  {
    Some(t.value[i := v])
  }

  /** `t = t.filter((_, j) => j !== i)` on a present list. */
  function RemoveTechnology(t: Option<seq<string>>, i: int): (r: Option<seq<string>>)
    requires t.Some?
    ensures r.Some? && r.value == Lists.RemoveAt(t.value, i)
  {
    Some(Lists.RemoveAt(t.value, i))
  }
}

/** An element of `portfolio/projects`. An absent `featured` flag is falsy
    wherever it is read, so it is modelled as `false`. */
module ProjectRecord {
  import opened Js

  datatype Project = Project(
    id: Option<int>,
    title: Option<string>,
    description: Option<string>,
    image: Option<string>,
    technologies: Option<seq<string>>,
    liveLink: Option<string>,
    githubLink: Option<string>,
    featured: bool,
    category: Option<string>)

  datatype ProjectField = Title | Description | Image | LiveLink | GithubLink | Category

  /** One `handleUpdateProject(index, field, value)` call: a text input, or
      the `featured` checkbox. */
  datatype ProjectEdit = SetText(field: ProjectField, value: string) | SetFeatured(featured: bool)

  function Text(p: Project, f: ProjectField): Option<string> {
    match f
    case Title => p.title
    case Description => p.description
    case Image => p.image
    case LiveLink => p.liveLink
    case GithubLink => p.githubLink
    case Category => p.category
  }

  /** `p[field] = value`: the edited field takes the new value, all the
      others, the id and the technologies are untouched. */
  function Apply(p: Project, e: ProjectEdit): (r: Project)
    ensures e.SetText? ==> Text(r, e.field) == Some(e.value) && r.featured == p.featured
    ensures e.SetText? ==> forall g :: g != e.field ==> Text(r, g) == Text(p, g)
    ensures e.SetFeatured? ==> r.featured == e.featured && forall g :: Text(r, g) == Text(p, g)
    ensures r.id == p.id && r.technologies == p.technologies
  {
    match e
    case SetFeatured(b) => p.(featured := b)
    case SetText(f, v) =>
      match f
      case Title => p.(title := Some(v))
      case Description => p.(description := Some(v))
      case Image => p.(image := Some(v))
      case LiveLink => p.(liveLink := Some(v))
      case GithubLink => p.(githubLink := Some(v))
      case Category => p.(category := Some(v))
  }
}

/** An element of `portfolio/skills`. */
module SkillRecord {
  import opened Js

  datatype Skill = Skill(
    id: Option<int>,
    name: Option<string>,
    iconSlug: Option<string>,
    icon: Option<string>,
    iconUrl: Option<string>)

  datatype SkillField = Name | IconSlug | Icon | IconUrl

  function Text(s: Skill, f: SkillField): Option<string> {
    match f
    case Name => s.name
    case IconSlug => s.iconSlug
    case Icon => s.icon
    case IconUrl => s.iconUrl
  }

  /** `s[f] = v`: only the named field changes. */
  function SetText(s: Skill, f: SkillField, v: string): (r: Skill)
    ensures Text(r, f) == Some(v)
    ensures forall g :: g != f ==> Text(r, g) == Text(s, g)
    ensures r.id == s.id
  {
    match f
    case Name => s.(name := Some(v))
    case IconSlug => s.(iconSlug := Some(v))
    case Icon => s.(icon := Some(v))
    case IconUrl => s.(iconUrl := Some(v))
  }
}

/** `portfolio/about`: the education timeline. */
module EducationRecord {
  import opened Js

  datatype Education = Education(
    id: Option<int>,
    institution: Option<string>,
    degree: Option<string>,
    period: Option<string>,
    status: Option<string>,
    description: Option<string>,
    iconType: Option<string>)

  datatype About = About(education: Option<seq<Education>>)

  datatype EducationField = Institution | Degree | Period | Status | Description | IconType

  function Text(e: Education, f: EducationField): Option<string> {
    match f
    case Institution => e.institution
    case Degree => e.degree
    case Period => e.period
    case Status => e.status
    case Description => e.description
    case IconType => e.iconType
  }

  /** `e[f] = v`: only the named field changes. */
  function SetText(e: Education, f: EducationField, v: string): (r: Education)
    ensures Text(r, f) == Some(v)
    ensures forall g :: g != f ==> Text(r, g) == Text(e, g)
    ensures r.id == e.id
  {
    match f
    case Institution => e.(institution := Some(v))
    case Degree => e.(degree := Some(v))
    case Period => e.(period := Some(v))
    case Status => e.(status := Some(v))
    case Description => e.(description := Some(v))
    case IconType => e.(iconType := Some(v))
  }
}

/** `portfolio/activities`: three independently edited lists. */
module ActivityRecords {
  import opened Js

  datatype Internship = Internship(
    id: Option<int>,
    role: Option<string>,
    company: Option<string>,
    location: Option<string>,
    period: Option<string>,
    description: Option<string>,
    technologies: Option<seq<string>>)

  datatype Certification = Certification(
    id: Option<int>,
    name: Option<string>,
    issuer: Option<string>,
    date: Option<string>,
    link: Option<string>)

  /** A curricular activity; the stored key `type` is `kind` here. */
  datatype Curricular = Curricular(
    id: Option<int>,
    kind: Option<string>,
    title: Option<string>,
    organization: Option<string>,
    description: Option<string>,
    date: Option<string>)

  datatype Activities = Activities(
    internships: Option<seq<Internship>>,
    certifications: Option<seq<Certification>>,
    curricular: Option<seq<Curricular>>)

  datatype InternshipField = Role | Company | Location | Period | Description
  datatype CertificationField = Name | Issuer | Date | Link
  datatype CurricularField = Kind | Title | Organization | Description | Date

  function InternshipText(x: Internship, f: InternshipField): Option<string> {
    match f
    case Role => x.role
    case Company => x.company
    case Location => x.location
    case Period => x.period
    case Description => x.description
  }

  function CertificationText(x: Certification, f: CertificationField): Option<string> {
    match f
    case Name => x.name
    case Issuer => x.issuer
    case Date => x.date
    case Link => x.link
  }

  function CurricularText(x: Curricular, f: CurricularField): Option<string> {
    match f
    case Kind => x.kind
    case Title => x.title
    case Organization => x.organization
    case Description => x.description
    case Date => x.date
  }

  /** `x[f] = v` on an internship: only the named field changes. */
  function SetInternshipText(x: Internship, f: InternshipField, v: string): (r: Internship)
    ensures InternshipText(r, f) == Some(v)
    ensures forall g :: g != f ==> InternshipText(r, g) == InternshipText(x, g)
    ensures r.id == x.id && r.technologies == x.technologies
  {
    match f
    case Role => x.(role := Some(v))
    case Company => x.(company := Some(v))
    case Location => x.(location := Some(v))
    case Period => x.(period := Some(v))
    case Description => x.(description := Some(v))
  }

  /** `x[f] = v` on a certification: only the named field changes. */
  function SetCertificationText(x: Certification, f: CertificationField, v: string): (r: Certification)
    ensures CertificationText(r, f) == Some(v)
    ensures forall g :: g != f ==> CertificationText(r, g) == CertificationText(x, g)
    ensures r.id == x.id
  {
    match f
    case Name => x.(name := Some(v))
    case Issuer => x.(issuer := Some(v))
    case Date => x.(date := Some(v))
    case Link => x.(link := Some(v))
  }

  /** `x[f] = v` on a curricular activity: only the named field changes. */
  function SetCurricularText(x: Curricular, f: CurricularField, v: string): (r: Curricular)
    ensures CurricularText(r, f) == Some(v)
    ensures forall g :: g != f ==> CurricularText(r, g) == CurricularText(x, g)
    ensures r.id == x.id
  {
    match f
    case Kind => x.(kind := Some(v))
    case Title => x.(title := Some(v))
    case Organization => x.(organization := Some(v))
    case Description => x.(description := Some(v))
    case Date => x.(date := Some(v))
  }
}

/** `portfolio/contact` (read by the dock, the bottom footer and the contact
    editor) and `portfolio/social` (read by the main footer). */
module ContactRecord {
  import opened Js

  datatype Contact = Contact(
    email: Option<string>,
    phone: Option<string>,
    location: Option<string>,
    web3formsKey: Option<string>,
    social: Option<map<string, string>>)

  datatype SocialLink = SocialLink(name: string, url: string)

  datatype Social = Social(
    links: Option<seq<SocialLink>>,
    email: Option<string>,
    phone: Option<string>,
    location: Option<string>)
}
