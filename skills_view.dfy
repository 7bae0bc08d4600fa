/** The public skills section: the stored skills or twenty built-in ones, the
    slugs fed to the icon cloud, one button per skill, and the cloud's
    colours per theme. */
module SkillsView {
  import opened Js
  import opened SkillRecord

  function Default(name: string, slug: string): Skill {
    Skill(None, Some(name), Some(slug), None, None)
  }

  const DefaultSkills: seq<Skill> := [
    Default("JavaScript", "javascript"), Default("TypeScript", "typescript"),
    Default("React", "react"), Default("Node.js", "nodedotjs"),
    Default("Python", "python"), Default("HTML5", "html5"),
    Default("CSS3", "css3"), Default("Tailwind CSS", "tailwindcss"),
    Default("MongoDB", "mongodb"), Default("MySQL", "mysql"),
    Default("Firebase", "firebase"), Default("AWS", "amazonaws"),
    Default("Docker", "docker"), Default("Git", "git"),
    Default("GitHub", "github"), Default("VS Code", "visualstudiocode"),
    Default("Figma", "figma"), Default("Postman", "postman"),
    Default("Linux", "linux"), Default("NPM", "npm")]

  /** The stored skills when they form a non-empty array, else the defaults
      (unlike the projects section, an empty stored list is replaced). */
  function DisplayedSkills(stored: Option<seq<Skill>>): (skills: seq<Skill>)
    ensures stored.Some? && stored.value != [] ==> skills == stored.value
    ensures stored.None? || stored.value == [] ==> skills == DefaultSkills
    ensures |skills| > 0
  {
    if stored.Some? && |stored.value| > 0 then stored.value else DefaultSkills
  }

  /** `skills.map(s => s.iconSlug).filter(Boolean)`: the truthy slugs, in
      order. */
  function IconSlugs(skills: seq<Skill>): (slugs: seq<string>)
    ensures |slugs| <= |skills|
    ensures forall x :: x in slugs <==> x != "" && exists i :: 0 <= i < |skills| && skills[i].iconSlug == Some(x)
  {
    if skills == [] then []
    else
      var rest := IconSlugs(skills[1..]);
      assert forall i :: 1 <= i < |skills| ==> skills[i] == skills[1..][i - 1];
      if Truthy(skills[0].iconSlug) then [skills[0].iconSlug.value] + rest else rest
  }

  /** The slugs keep the order of the skills: those of a concatenation are
      the concatenated slugs. */
  lemma {:induction false} IconSlugsConcat(a: seq<Skill>, b: seq<Skill>)
    ensures IconSlugs(a + b) == IconSlugs(a) + IconSlugs(b)
  {
    if a == [] {
      assert a + b == b;
    } else {
      assert (a + b)[1..] == a[1..] + b;
      IconSlugsConcat(a[1..], b);
    }
  }

  /** When every skill has a slug, none is dropped. */
  lemma {:induction false} AllSlugsKept(skills: seq<Skill>)
    requires forall i :: 0 <= i < |skills| ==> Truthy(skills[i].iconSlug)
    ensures |IconSlugs(skills)| == |skills|
  {
    if skills != [] {
      AllSlugsKept(skills[1..]);
    }
  }

  /** Every built-in skill has a slug, so the cloud gets all twenty. */
  lemma DefaultSlugs()
    ensures |IconSlugs(DefaultSkills)| == 20
  {
    AllSlugsKept(DefaultSkills);
  }

  /** The colours handed to each cloud icon: the light values only for the
      light theme. */
  datatype Colours = Colours(bgHex: string, fallbackHex: string)

  function ThemeColours(theme: string): (c: Colours)
    ensures theme == "light" ==> c == Colours("#f3f2ef", "#6e6e73")
    ensures theme != "light" ==> c == Colours("#080510", "#ffffff")
  {
    if theme == "light" then Colours("#f3f2ef", "#6e6e73") else Colours("#080510", "#ffffff")
  }

  /** The section: a spinner while loading; else the cloud (when there is a
      slug to show) and one button per skill, labelled with its name. */
  datatype Section = Loading | Shown(cloud: Option<seq<string>>, buttons: seq<string>)

  function SkillsSection(loading: bool, stored: Option<seq<Skill>>): (s: Section)
    ensures s.Loading? <==> loading
    ensures s.Shown? ==> (s.cloud.Some? <==> IconSlugs(DisplayedSkills(stored)) != [])
    ensures s.Shown? && s.cloud.Some? ==> s.cloud.value == IconSlugs(DisplayedSkills(stored))
    ensures s.Shown? ==> |s.buttons| == |DisplayedSkills(stored)|
    ensures s.Shown? ==> forall i :: 0 <= i < |s.buttons| ==>
      s.buttons[i] == Or(DisplayedSkills(stored)[i].name, "")
  {
    if loading then Loading
    else
      var skills := DisplayedSkills(stored);
      var slugs := IconSlugs(skills);
      Shown(if |slugs| > 0 then Some(slugs) else None,
            seq(|skills|, i requires 0 <= i < |skills| => Or(skills[i].name, "")))
  }
}
