/** The main footer, fed by `portfolio/social`: the social icons, the quick
    links to the page sections and the "Get In Touch" lines. */
module FooterView {
  import opened Js
  import opened ContactRecord
  import FooterDockView

  const DefaultSocialLinks: seq<SocialLink> := [
    SocialLink("GitHub", "https://github.com/suriya-prakash"),
    SocialLink("LinkedIn", "https://linkedin.com/in/suriya-prakash"),
    SocialLink("Instagram", "https://instagram.com/suriya.prakash"),
    SocialLink("Twitter", "https://twitter.com/suriya_prakash")]

  /** `socialData?.links || defaultSocialLinks`: a stored list is shown as it
      is, even when empty; only a missing record or list falls back. */
  function SocialLinks(social: Option<Social>): (links: seq<SocialLink>)
    ensures social.Some? && social.value.links.Some? ==> links == social.value.links.value
    ensures social.None? || social.value.links.None? ==> links == DefaultSocialLinks && |links| == 4
  {
    if social.Some? then OrList(social.value.links, DefaultSocialLinks) else DefaultSocialLinks
  }

  datatype QuickLink = QuickLink(name: string, href: string)

  const QuickLinks: seq<QuickLink> := [
    QuickLink("About", "#about"), QuickLink("Skills", "#skills"), QuickLink("Projects", "#projects"),
    QuickLink("Activities", "#activities"), QuickLink("Contact", "#contact")]

  /** Every quick link is a fragment naming a section the home page renders. */
  lemma QuickLinksReachSections()
    ensures forall i :: 0 <= i < |QuickLinks| ==>
      StartsWith(QuickLinks[i].href, "#") && QuickLinks[i].href[1..] in FooterDockView.PageSectionIds
  {
    assert QuickLinks[0].href[1..] == "about";
    assert QuickLinks[1].href[1..] == "skills";
    assert QuickLinks[2].href[1..] == "projects";
    assert QuickLinks[3].href[1..] == "activities";
    assert QuickLinks[4].href[1..] == "contact";
  }

  /** The three "Get In Touch" lines. */
  datatype Touch = Touch(email: string, phone: string, location: string)

  /** Each line shows the stored value when it is a non-empty string and its
      own fallback otherwise; no line is ever empty. */
  function GetInTouch(social: Option<Social>): (t: Touch)
    ensures social.Some? && Truthy(social.value.email) ==> t.email == social.value.email.value
    ensures !(social.Some? && Truthy(social.value.email)) ==> t.email == "suriya.prakash@example.com"
    ensures social.Some? && Truthy(social.value.phone) ==> t.phone == social.value.phone.value
    ensures !(social.Some? && Truthy(social.value.phone)) ==> t.phone == "+91 98765 43210"
    ensures social.Some? && Truthy(social.value.location) ==> t.location == social.value.location.value
    ensures !(social.Some? && Truthy(social.value.location)) ==> t.location == "Tamil Nadu, India"
    ensures t.email != "" && t.phone != "" && t.location != ""
  {
    if social.Some? then
      Touch(Or(social.value.email, "suriya.prakash@example.com"),
            Or(social.value.phone, "+91 98765 43210"),
            Or(social.value.location, "Tamil Nadu, India"))
    else Touch("suriya.prakash@example.com", "+91 98765 43210", "Tamil Nadu, India")
  }
}

/** The bottom strip, fed by `portfolio/contact`: the e-mail and phone links
    and the "Made with ... by ES" credit linking to the GitHub profile. */
module FooterBottomView {
  import opened Js
  import opened ContactRecord
  import FooterDockView

  const DefaultEmail := "suriyaprakashes@example.com"
  const DefaultGithub := "https://github.com/SURIYA-PRAKASH-E-S"

  /** `contactData?.email || default`. */
  function Email(contact: Option<Contact>): (e: string)
    ensures contact.Some? && Truthy(contact.value.email) ==> e == contact.value.email.value
    ensures !(contact.Some? && Truthy(contact.value.email)) ==> e == DefaultEmail
    ensures e != ""
  {
    if contact.Some? then Or(contact.value.email, DefaultEmail) else DefaultEmail
  }

  /** `contactData?.phone || ""`. */
  function Phone(contact: Option<Contact>): (p: string)
    ensures p != "" <==> contact.Some? && Truthy(contact.value.phone)
    ensures p != "" ==> p == contact.value.phone.value
  {
    if contact.Some? then Or(contact.value.phone, "") else ""
  }

  /** `contactData?.social?.github || default`. */
  function CreditHref(contact: Option<Contact>): (h: string)
    ensures Truthy(FooterDockView.SocialUrl(contact, "github")) ==> h == FooterDockView.SocialUrl(contact, "github").value
    ensures !Truthy(FooterDockView.SocialUrl(contact, "github")) ==> h == DefaultGithub
  {
    Or(FooterDockView.SocialUrl(contact, "github"), DefaultGithub)
  }

  datatype Anchor = Anchor(href: string, title: string)

  datatype Strip = Strip(email: Option<Anchor>, phone: Option<Anchor>, creditHref: string)

  /** `{email && <a href="mailto:...">}` and `{phone && <a href="tel:...">}`. */
  function StripOf(contact: Option<Contact>): (s: Strip)
    ensures s.email.Some? <==> Email(contact) != ""
    ensures s.phone.Some? <==> Phone(contact) != ""
    ensures s.creditHref == CreditHref(contact)
  {
    var e := Email(contact);
    var p := Phone(contact);
    Strip(
      if e != "" then Some(Anchor("mailto:" + e, "Email: " + e)) else None,
      if p != "" then Some(Anchor("tel:" + p, "Call: " + p)) else None,
      CreditHref(contact))
  }

  /** The e-mail link is always rendered, since its fallback is non-empty, and
      it mails the stored address or the fallback; the phone link is rendered
      exactly when a non-empty phone is stored, and dials it. */
  lemma StripLinks(contact: Option<Contact>)
    ensures var s := StripOf(contact);
      && s.email.Some?
      && StartsWith(s.email.value.href, "mailto:") && s.email.value.href[7..] == Email(contact)
      && (s.phone.Some? <==> contact.Some? && Truthy(contact.value.phone))
      && (s.phone.Some? ==> StartsWith(s.phone.value.href, "tel:")
                            && s.phone.value.href[4..] == contact.value.phone.value)
  {
    var e := Email(contact);
    assert ("mailto:" + e)[..7] == "mailto:" && ("mailto:" + e)[7..] == e;
    var p := Phone(contact);
    assert ("tel:" + p)[..4] == "tel:" && ("tel:" + p)[4..] == p;
  }
}
