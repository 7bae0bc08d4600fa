/** The public education timeline: the stored entries or three built-in
    ones, each with its icon, its side of the timeline and the "Currently
    Studying" badge. */
module AboutView {
  import opened Js
  import opened EducationRecord

  const DefaultEducation: seq<Education> := [
    Education(Some(1), Some("Your College Name"), Some("Bachelor of Engineering in Computer Science"),
      Some("2021 - 2025"), Some("ongoing"),
      Some("Currently pursuing my degree with focus on software development and algorithms."), Some("book")),
    Education(Some(2), Some("12th Grade - PCMB"), Some("State Board"), Some("2020 - 2021"), Some("completed"),
      Some("Completed with distinction in Physics, Chemistry, Mathematics, and Biology."), Some("award")),
    Education(Some(3), Some("10th Grade"), Some("State Board"), Some("2018 - 2019"), Some("completed"),
      Some("Secured top grades in all subjects with special interest in Mathematics and Science."), Some("award"))]

  /** `aboutData?.education || defaultEducationData`: a stored list, even an
      empty one, is used. */
  function DisplayedEducation(aboutData: Option<About>): (entries: seq<Education>)
    ensures aboutData.Some? && aboutData.value.education.Some? ==> entries == aboutData.value.education.value
    ensures aboutData.None? || aboutData.value.education.None? ==> entries == DefaultEducation
  {
    if aboutData.Some? && aboutData.value.education.Some? then aboutData.value.education.value
    else DefaultEducation
  }

  datatype Icon = BookIcon | AwardIcon | CodeIcon

  /** `getIcon(iconType)`: award and code have their own icon, everything
      else (book, an unknown value, none) shows the book. */
  function IconFor(iconType: Option<string>): (icon: Icon)
    ensures icon == AwardIcon <==> iconType == Some("award")
    ensures icon == CodeIcon <==> iconType == Some("code")
  {
    if iconType == Some("book") then BookIcon
    else if iconType == Some("award") then AwardIcon
    else if iconType == Some("code") then CodeIcon
    else BookIcon
  }

  datatype Padding = PadRight | PadLeft

  /** One timeline entry as rendered. */
  datatype Entry = Entry(icon: Icon, reversedRow: bool, padding: Padding, ongoingBadge: bool)

  /** Entry `index`: even positions use the reversed row and right padding,
      odd ones the plain row and left padding; the badge shows only for the
      status "ongoing". */
  function EntryAt(e: Education, index: nat): (r: Entry)
    ensures r.reversedRow <==> index % 2 == 0
    ensures r.padding == PadRight <==> index % 2 == 0
    ensures r.ongoingBadge <==> e.status == Some("ongoing")
    ensures r.icon == IconFor(e.iconType)
  {
    Entry(IconFor(e.iconType), index % 2 == 0, if index % 2 == 0 then PadRight else PadLeft,
          e.status == Some("ongoing"))
  }

  /** Neighbouring entries sit on opposite sides. */
  lemma SidesAlternate(a: Education, b: Education, index: nat)
    ensures EntryAt(a, index).reversedRow != EntryAt(b, index + 1).reversedRow
    ensures EntryAt(a, index).padding != EntryAt(b, index + 1).padding
  {
  }

  datatype Section = Loading | Timeline(entries: seq<Entry>)

  function AboutSection(loading: bool, aboutData: Option<About>): (s: Section)
    ensures s.Loading? <==> loading
    ensures s.Timeline? ==> |s.entries| == |DisplayedEducation(aboutData)|
    ensures s.Timeline? ==> forall i :: 0 <= i < |s.entries| ==>
      s.entries[i] == EntryAt(DisplayedEducation(aboutData)[i], i)
  {
    if loading then Loading
    else
      var entries := DisplayedEducation(aboutData);
      Timeline(seq(|entries|, i requires 0 <= i < |entries| => EntryAt(entries[i], i)))
  }

  /** Of the built-in entries only the first shows the badge. */
  lemma DefaultBadges()
    ensures AboutSection(false, None) ==
      Timeline([Entry(BookIcon, true, PadRight, true), Entry(AwardIcon, false, PadLeft, false),
                Entry(AwardIcon, true, PadRight, false)])
  {
  }
}
