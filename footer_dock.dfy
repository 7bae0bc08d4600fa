/** The floating dock: the section buttons, the social icons taken from
    `portfolio/contact`, the contact button and the theme switch. */
module FooterDockView {
  import opened Js
  import opened ContactRecord

  /** The dock's four platforms, as display name and key under `social`, in
      the order the icons appear. The stored `portfolio` link has no icon here. */
  const Platforms: seq<(string, string)> :=
    [("GitHub", "github"), ("LinkedIn", "linkedin"), ("Instagram", "instagram"), ("Twitter", "twitter")]

  /** `contactData?.social?.[key]`. */
  function SocialUrl(contact: Option<Contact>, key: string): (u: Option<string>)
    ensures u.Some? <==> contact.Some? && contact.value.social.Some? && key in contact.value.social.value
    ensures u.Some? ==> u.value == contact.value.social.value[key]
  {
    if contact.Some? && contact.value.social.Some? && key in contact.value.social.value
    then Some(contact.value.social.value[key]) else None
  }

  /** `.filter(link => link.url && link.url.trim() !== '')` over name/URL
      pairs: the pairs whose URL is present and not blank, in order and with
      the URL as stored. */
  function KeepPresent(links: seq<(string, Option<string>)>): (r: seq<SocialLink>)
    ensures |r| <= |links|
    ensures forall i :: 0 <= i < |links| && links[i].1.Some? && Trim(links[i].1.value) != "" ==>
      SocialLink(links[i].0, links[i].1.value) in r
    ensures forall l :: l in r ==> (l.name, Some(l.url)) in links && Trim(l.url) != ""
  {
    if links == [] then []
    else
      var head := links[0];
      var rest := KeepPresent(links[1..]);
      assert forall i :: 1 <= i < |links| ==> links[i] == links[1..][i - 1];
      if head.1.Some? && Trim(head.1.value) != "" then [SocialLink(head.0, head.1.value)] + rest
      else rest
  }

  /** The dock's list before the filter: each platform with its stored URL. */
  function Candidates(contact: Option<Contact>): (links: seq<(string, Option<string>)>)
    ensures |links| == |Platforms|
    ensures forall i :: 0 <= i < |Platforms| ==>
      links[i] == (Platforms[i].0, SocialUrl(contact, Platforms[i].1))
  {
    [("GitHub", SocialUrl(contact, "github")), ("LinkedIn", SocialUrl(contact, "linkedin")),
     ("Instagram", SocialUrl(contact, "instagram")), ("Twitter", SocialUrl(contact, "twitter"))]
  }

  /** The filter on one pair: no icon, or the one icon with the URL as
      stored. */
  function Kept(link: (string, Option<string>)): (r: seq<SocialLink>)
    ensures r != [] <==> link.1.Some? && Trim(link.1.value) != ""
    ensures r != [] ==> r == [SocialLink(link.0, link.1.value)]
    ensures forall l :: l in r <==> l.name == link.0 && link.1 == Some(l.url) && Trim(l.url) != ""
  {
    if link.1.Some? && Trim(link.1.value) != "" then [SocialLink(link.0, link.1.value)] else []
  }

  /** The filter keeps the order: filtering a concatenation concatenates the
      filtered parts. */
  lemma {:induction false} KeepPresentConcat(a: seq<(string, Option<string>)>, b: seq<(string, Option<string>)>)
    ensures KeepPresent(a + b) == KeepPresent(a) + KeepPresent(b)
  {
    if a == [] {
      assert a + b == b;
    } else {
      assert (a + b)[1..] == a[1..] + b;
      KeepPresentConcat(a[1..], b);
    }
  }

  /** The icons the dock renders: at most one per platform, in the order
      GitHub, LinkedIn, Instagram, Twitter. */
  function DockLinks(contact: Option<Contact>): (r: seq<SocialLink>)
    ensures |r| <= |Platforms|
    ensures var c := Candidates(contact);
      r == Kept(c[0]) + Kept(c[1]) + Kept(c[2]) + Kept(c[3])
  {
    var c := Candidates(contact);
    assert c == [c[0]] + [c[1]] + [c[2]] + [c[3]];
    KeepPresentConcat([c[0]] + [c[1]] + [c[2]], [c[3]]);
    KeepPresentConcat([c[0]] + [c[1]], [c[2]]);
    KeepPresentConcat([c[0]], [c[1]]);
    assert forall i :: 0 <= i < 4 ==> KeepPresent([c[i]]) == Kept(c[i]) by {
      forall i | 0 <= i < 4 ensures KeepPresent([c[i]]) == Kept(c[i]) {
        assert [c[i]][1..] == [];
      }
    }
    KeepPresent(c)
  }

  /** A platform's icon appears, linking to the stored URL, exactly when its
      URL is stored and is not white space only. */
  lemma DockLinkShown(contact: Option<Contact>, i: nat, u: string)
    requires i < |Platforms|
    ensures SocialLink(Platforms[i].0, u) in DockLinks(contact)
      <==> SocialUrl(contact, Platforms[i].1) == Some(u) && !IsBlank(u)
  {
    var c := Candidates(contact);
    TrimEmptyIffBlank(u);
    KeptOwnPlatformOnly(c, i, SocialLink(Platforms[i].0, u));
  }

  /** Over one pair per platform, a platform's link can only come from its
      own pair. */
  lemma KeptOwnPlatformOnly(c: seq<(string, Option<string>)>, i: nat, l: SocialLink)
    requires |c| == |Platforms| && i < |Platforms|
    requires forall j :: 0 <= j < |Platforms| ==> c[j].0 == Platforms[j].0
    requires l.name == Platforms[i].0
    ensures l in Kept(c[0]) + Kept(c[1]) + Kept(c[2]) + Kept(c[3])
      <==> c[i].1 == Some(l.url) && Trim(l.url) != ""
  {
    assert forall j :: 0 <= j < |Platforms| && j != i ==> Platforms[j].0 != Platforms[i].0;
  }

  /** Without a stored `social` map the dock shows no icon. */
  lemma NoSocialNoIcons(contact: Option<Contact>)
    requires contact.None? || contact.value.social.None?
    ensures DockLinks(contact) == []
  {
    KeepNothing(Candidates(contact));
  }

  lemma {:induction false} KeepNothing(links: seq<(string, Option<string>)>)
    requires forall i :: 0 <= i < |links| ==> links[i].1.None?
    ensures KeepPresent(links) == []
  {
    if links != [] {
      KeepNothing(links[1..]);
    }
  }

  /** The theme switch's tooltip names the mode it switches to. */
  function ThemeButtonTitle(isDark: bool): (t: string)
    ensures t == "Switch to Light Mode" <==> isDark
    ensures t in {"Switch to Light Mode", "Switch to Dark Mode"}
  {
    if isDark then "Switch to Light Mode" else "Switch to Dark Mode"
  }

  // ---------------------------------------------------------------------
  // Section buttons

  /** The ids of the sections the home page renders (hero, about, projects,
      activities, skills and contact). */
  const PageSectionIds: set<string> := {"hero", "about", "projects", "activities", "skills", "contact"}

  /** `scrollToSection(id)`: scrolls to the element with that id if there is
      one and does nothing otherwise. The result is the section scrolled to. */
  function ScrollTarget(id: string): (target: Option<string>)
    ensures target.Some? <==> id in PageSectionIds
    ensures target.Some? ==> target.value == id
  {
    if id in PageSectionIds then Some(id) else None
  }

  /** A section button: its caption, the id it scrolls to and its tooltip. */
  datatype SectionButton = SectionButton(caption: string, targetId: string)

  function Title(b: SectionButton): (t: string)
    ensures StartsWith(t, "Scroll to ") && t[|"Scroll to "|..] == b.caption
  {
    "Scroll to " + b.caption
  }

  /** The buttons as written: each caption is also the id it scrolls to. */
  const SectionButtonsAsWritten: seq<SectionButton> := [
    SectionButton("home", "home"), SectionButton("projects", "projects"),
    SectionButton("work experience", "work experience"), SectionButton("contact", "contact")]

  /** As written, "home" and "work experience" name no section of the page,
      so those two buttons scroll nowhere. */
  lemma TwoButtonsScrollNowhere()
    ensures ScrollTarget(SectionButtonsAsWritten[0].targetId) == None
    ensures ScrollTarget(SectionButtonsAsWritten[2].targetId) == None
    ensures ScrollTarget(SectionButtonsAsWritten[1].targetId) == Some("projects")
    ensures ScrollTarget(SectionButtonsAsWritten[3].targetId) == Some("contact")
  {
  }

  /** The buttons with the captions kept and the targets the captions
      describe: the hero section and the activities (work experience)
      section. */
  const SectionButtons: seq<SectionButton> := [
    SectionButton("home", "hero"), SectionButton("projects", "projects"),
    SectionButton("work experience", "activities"), SectionButton("contact", "contact")]

  /** Every corrected button scrolls to a section, and the captions and
      tooltips are those of the buttons as written. */
  lemma EveryButtonScrolls()
    ensures |SectionButtons| == |SectionButtonsAsWritten|
    ensures forall i :: 0 <= i < |SectionButtons| ==> ScrollTarget(SectionButtons[i].targetId).Some?
    ensures forall i :: 0 <= i < |SectionButtons| ==>
      Title(SectionButtons[i]) == Title(SectionButtonsAsWritten[i])
  {
    assert forall i :: 0 <= i < |SectionButtons| ==> SectionButtons[i].targetId in PageSectionIds;
  }
}
