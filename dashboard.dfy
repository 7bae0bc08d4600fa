/** The admin dashboard: the sign-in guard, the hero and project drafts fed by
    the live snapshots, their edit handlers, and the save with its `saving`
    flag and the five-second result banner. */
module Dashboard {
  import opened Js
  import opened HeroRecord
  import opened ProjectRecord
  import SkillRecord
  import Lists
  import RoleFilter
  import Auth

  /** The hero draft: five fields, always present. */
  datatype HeroForm = HeroForm(name: string, description: string, location: string, roles: seq<string>, avatar: string)

  datatype HeroFormField = Name | Description | Location | Avatar

  const InitialHeroForm := HeroForm("", "", "", [""], "")

  /** A present hero snapshot as the draft takes it: each of the five fields
      is the stored one when truthy, otherwise "" (for the strings) or one
      empty role; every other stored field is dropped. */
  function NormalizeHero(data: Hero): (f: HeroForm)
    ensures f.name == (if data.name.Some? then data.name.value else "")
    ensures f.description == (if data.description.Some? then data.description.value else "")
    ensures f.location == (if data.location.Some? then data.location.value else "")
    ensures f.avatar == (if data.avatar.Some? then data.avatar.value else "")
    ensures f.roles == (if data.roles.Some? then data.roles.value else [""])
  {
    HeroForm(Or(data.name, ""), Or(data.description, ""), Or(data.location, ""),
             OrList(data.roles, [""]), Or(data.avatar, ""))
  }

  /** The record `handleSaveHero` writes to `portfolio/hero`: the draft with
      whitespace-only roles removed. The write replaces the whole record. */
  function SavedHero(f: HeroForm): (h: Hero)
    ensures h.name == Some(f.name) && h.description == Some(f.description)
    ensures h.location == Some(f.location) && h.avatar == Some(f.avatar)
    ensures h.roles == Some(RoleFilter.KeepFilled(f.roles))
    ensures h.animatedAvatar.None? && h.cvUrl.None? && h.cvName.None?
  {
    Hero(Some(f.name), Some(f.description), Some(f.location), Some(RoleFilter.KeepFilled(f.roles)),
         Some(f.avatar), None, None, None)
  }

  /** Loading a saved hero gives back the draft it was saved from, minus the
      blank roles; even a list that is empty after filtering stays empty. */
  lemma SaveThenLoad(f: HeroForm)
    ensures NormalizeHero(SavedHero(f)) == f.(roles := RoleFilter.KeepFilled(f.roles))
  {
  }

  /** A save from this dashboard erases a stored animated avatar and CV: the
      draft never holds them and the write replaces the record. */
  lemma SaveDropsOtherHeroFields(data: Hero)
    ensures var h := SavedHero(NormalizeHero(data));
      h.animatedAvatar.None? && h.cvUrl.None? && h.cvName.None?
  {
  }

  function HeroText(f: HeroForm, which: HeroFormField): string {
    match which
    case Name => f.name
    case Description => f.description
    case Location => f.location
    case Avatar => f.avatar
  }

  /** `{ ...heroData, [field]: value }` for one of the text inputs. */
  function SetHeroText(f: HeroForm, which: HeroFormField, value: string): (r: HeroForm)
    ensures HeroText(r, which) == value && r.roles == f.roles
    ensures forall g :: g != which ==> HeroText(r, g) == HeroText(f, g)
  {
    match which
    case Name => f.(name := value)
    case Description => f.(description := value)
    case Location => f.(location := value)
    case Avatar => f.(avatar := value)
  }

  /** The project `handleAddProject` appends; `now` is `Date.now()`. */
  function NewProject(now: int): (p: Project)
    ensures p.id == Some(now) && p.title == Some("New Project")
    ensures p.description == Some("Project description") && p.category == Some("frontend")
    ensures !p.featured && p.technologies == Some([])
    ensures p.image == Some("") && p.liveLink == Some("") && p.githubLink == Some("")
  {
    Project(Some(now), Some("New Project"), Some("Project description"), Some(""), Some([]),
            Some(""), Some(""), false, Some("frontend"))
  }

  /** The banner: `type` and `text`; nothing shows while `text` is empty. */
  datatype Message = Message(kind: string, text: string)

  const NoMessage := Message("", "")

  /** The banner after a write settles. */
  function SaveMessage(ok: bool): (m: Message)
    ensures m.kind == "success" <==> ok
    ensures m.kind == "error" <==> !ok
    ensures m.text == (if ok then "Data saved successfully!" else "Failed to save data")
  {
    if ok then Message("success", "Data saved successfully!") else Message("error", "Failed to save data")
  }

  datatype BannerStyle = Red | Green

  /** The banner renders only with text, red for an error, green otherwise. */
  function Banner(m: Message): (b: Option<BannerStyle>)
    ensures b.None? <==> m.text == ""
    ensures b.Some? ==> (b.value == Red <==> m.kind == "error")
  {
    if m.text == "" then None else if m.kind == "error" then Some(Red) else Some(Green)
  }

  /** Every message a save can leave behind is shown, in the colour of its
      outcome. */
  lemma SaveBanner(ok: bool)
    ensures Banner(SaveMessage(ok)) == Some(if ok then Green else Red)
  {
  }

  /** What gets written: the path under `portfolio/` and the value. */
  datatype Write = HeroWrite(hero: Hero) | ProjectsWrite(projects: seq<Project>)

  function WritePath(w: Write): (path: string)
    ensures path in {"portfolio/hero", "portfolio/projects"}
    ensures path == "portfolio/hero" <==> w.HeroWrite?
  {
    match w
    case HeroWrite(_) => "portfolio/hero"
    case ProjectsWrite(_) => "portfolio/projects"
  }

  const Tabs: seq<string> := ["hero", "projects", "skills", "about"]

  /** The sign-in guard: without a user nothing is rendered and the page
      navigates to the sign-in route. */
  datatype Guard = Guard(rendered: bool, redirect: Option<string>)

  function CheckUser(user: Option<Auth.User>): (g: Guard)
    ensures g.rendered <==> user.Some?
    ensures g.redirect.Some? <==> user.None?
    ensures g.redirect.Some? ==> g.redirect.value == "/admin/signin"
  {
    if user.None? then Guard(false, Some("/admin/signin")) else Guard(true, None)
  }

  /** The header's name: the display name, or "Admin" without one. */
  function HeaderName(user: Auth.User): (name: string)
    ensures Truthy(user.displayName) ==> name == user.displayName.value
    ensures !Truthy(user.displayName) ==> name == "Admin"
  {
    Or(user.displayName, "Admin")
  }

  class AdminDashboard {
    var activeTab: string
    var saving: bool
    var message: Message
    /** How many five-second banner timers are pending. */
    var clearTimers: nat
    var heroData: HeroForm
    var projects: seq<Project>
    var skills: seq<SkillRecord.Skill>

    constructor ()
      ensures activeTab == "hero" && !saving && message == NoMessage && clearTimers == 0
      ensures heroData == InitialHeroForm && projects == [] && skills == []
    {
      activeTab, saving, message, clearTimers := "hero", false, NoMessage, 0;
      heroData, projects, skills := InitialHeroForm, [], [];
    }

    /** The `portfolio/hero` subscription: a present record replaces the
        draft, an absent one leaves it alone. */
    method OnHeroSnapshot(data: Option<Hero>)
      modifies this
      ensures heroData == (if data.Some? then NormalizeHero(data.value) else old(heroData))
      ensures projects == old(projects) && skills == old(skills)
      ensures saving == old(saving) && message == old(message) && activeTab == old(activeTab)
      ensures clearTimers == old(clearTimers)
    {
      if data.Some? {
        heroData := NormalizeHero(data.value);
      }
    }

    /** The `portfolio/projects` subscription; `data` is none unless the
        snapshot is an array. */
    method OnProjectsSnapshot(data: Option<seq<Project>>)
      modifies this
      ensures projects == (if data.Some? then data.value else [])
      ensures heroData == old(heroData) && skills == old(skills)
      ensures saving == old(saving) && message == old(message) && activeTab == old(activeTab)
      ensures clearTimers == old(clearTimers)
    {
      projects := OrList(data, []);
    }

    /** The `portfolio/skills` subscription, coerced the same way. */
    method OnSkillsSnapshot(data: Option<seq<SkillRecord.Skill>>)
      modifies this
      ensures skills == (if data.Some? then data.value else [])
      ensures heroData == old(heroData) && projects == old(projects)
      ensures saving == old(saving) && message == old(message) && activeTab == old(activeTab)
      ensures clearTimers == old(clearTimers)
    {
      skills := OrList(data, []);
    }

    method SelectTab(id: string)
      requires id in Tabs
      modifies this
      ensures activeTab == id
      ensures heroData == old(heroData) && projects == old(projects) && skills == old(skills)
      ensures saving == old(saving) && message == old(message) && clearTimers == old(clearTimers)
    {
      activeTab := id;
    }

    method ChangeHeroText(which: HeroFormField, value: string)
      modifies this
      ensures heroData == SetHeroText(old(heroData), which, value)
      ensures projects == old(projects) && skills == old(skills)
      ensures saving == old(saving) && message == old(message) && activeTab == old(activeTab)
      ensures clearTimers == old(clearTimers)
    {
      heroData := SetHeroText(heroData, which, value);
    }

    method HandleAddRole()
      modifies this
      ensures heroData == old(heroData).(roles := old(heroData.roles) + [""])
      ensures projects == old(projects) && skills == old(skills)
      ensures saving == old(saving) && message == old(message) && activeTab == old(activeTab)
      ensures clearTimers == old(clearTimers)
    {
      heroData := heroData.(roles := heroData.roles + [""]);
    }

    method HandleRemoveRole(index: int)
      modifies this
      ensures heroData == old(heroData).(roles := Lists.RemoveAt(old(heroData.roles), index))
      ensures projects == old(projects) && skills == old(skills)
      ensures saving == old(saving) && message == old(message) && activeTab == old(activeTab)
      ensures clearTimers == old(clearTimers)
    {
      heroData := heroData.(roles := Lists.RemoveAt(heroData.roles, index));
    }

    method HandleRoleChange(index: nat, value: string)
      requires index < |heroData.roles|
      modifies this
      ensures heroData == old(heroData).(roles := old(heroData.roles)[index := value])
      ensures projects == old(projects) && skills == old(skills)
      ensures saving == old(saving) && message == old(message) && activeTab == old(activeTab)
      ensures clearTimers == old(clearTimers)
    {
      var updatedRoles := heroData.roles;
      updatedRoles := updatedRoles[index := value];
      heroData := heroData.(roles := updatedRoles);
    }

    method HandleAddProject(now: int)
      modifies this
      ensures projects == old(projects) + [NewProject(now)]
      ensures heroData == old(heroData) && skills == old(skills)
      ensures saving == old(saving) && message == old(message) && activeTab == old(activeTab)
      ensures clearTimers == old(clearTimers)
    {
      projects := projects + [NewProject(now)];
    }

    /** `updatedProjects[index][field] = value` on a rendered project. */
    method HandleUpdateProject(index: nat, edit: ProjectEdit)
      requires index < |projects|
      modifies this
      ensures projects == old(projects)[index := Apply(old(projects)[index], edit)]
      ensures heroData == old(heroData) && skills == old(skills)
      ensures saving == old(saving) && message == old(message) && activeTab == old(activeTab)
      ensures clearTimers == old(clearTimers)
    {
      var updatedProjects := projects;
      updatedProjects := updatedProjects[index := Apply(updatedProjects[index], edit)];
      projects := updatedProjects;
    }

    method HandleRemoveProject(index: int)
      modifies this
      ensures projects == Lists.RemoveAt(old(projects), index)
      ensures heroData == old(heroData) && skills == old(skills)
      ensures saving == old(saving) && message == old(message) && activeTab == old(activeTab)
      ensures clearTimers == old(clearTimers)
    {
      projects := Lists.RemoveAt(projects, index);
    }

    /** `handleSaveHero`, up to the write: `saving` is set and the filtered
        record is handed to the database. The Save button is disabled while
        `saving`. */
    method HandleSaveHero() returns (w: Write)
      requires !saving
      modifies this
      ensures saving && w == HeroWrite(SavedHero(old(heroData)))
      ensures heroData == old(heroData) && projects == old(projects) && skills == old(skills)
      ensures message == old(message) && activeTab == old(activeTab) && clearTimers == old(clearTimers)
    {
      var filteredRoles := RoleFilter.KeepFilled(heroData.roles);
      saving := true;
      w := HeroWrite(Hero(Some(heroData.name), Some(heroData.description), Some(heroData.location),
                          Some(filteredRoles), Some(heroData.avatar), None, None, None));
    }

    /** `handleSaveProjects`, up to the write: the draft list as it is. */
    method HandleSaveProjects() returns (w: Write)
      requires !saving
      modifies this
      ensures saving && w == ProjectsWrite(old(projects))
      ensures heroData == old(heroData) && projects == old(projects) && skills == old(skills)
      ensures message == old(message) && activeTab == old(activeTab) && clearTimers == old(clearTimers)
    {
      saving := true;
      w := ProjectsWrite(projects);
    }

    /** The write settles, successfully or not: the banner shows the outcome,
        its clear timer starts, and `saving` drops whatever the outcome. */
    method WriteSettled(ok: bool)
      requires saving
      modifies this
      ensures !saving && message == SaveMessage(ok) && clearTimers == old(clearTimers) + 1
      ensures heroData == old(heroData) && projects == old(projects) && skills == old(skills)
      ensures activeTab == old(activeTab)
    {
      if ok {
        message := Message("success", "Data saved successfully!");
      } else {
        message := Message("error", "Failed to save data");
      }
      clearTimers := clearTimers + 1;
      saving := false;
    }

    /** One five-second timer fires: the banner clears, even when it now
        shows the outcome of a later save. */
    method ClearTimerFires()
      requires clearTimers > 0
      modifies this
      ensures message == NoMessage && clearTimers == old(clearTimers) - 1
      ensures heroData == old(heroData) && projects == old(projects) && skills == old(skills)
      ensures saving == old(saving) && activeTab == old(activeTab)
    {
      message := NoMessage;
      clearTimers := clearTimers - 1;
    }

    /** `handleLogout`: `logout` rethrows a failed sign-out, which the
        dashboard only logs; only a successful one navigates away. */
    method HandleLogout(signOut: Outcome<bool>) returns (navigateTo: Option<string>)
      ensures navigateTo.Some? <==> signOut.Ok?
      ensures navigateTo.Some? ==> navigateTo.value == "/admin/signin"
    {
      match signOut
      case Ok(_) => navigateTo := Some("/admin/signin");
      case Err(_) => navigateTo := None;
    }
  }
}
