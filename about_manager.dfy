/** The education editor: a draft `{ education }` list with add, update and
    remove, and the defaults its selects display. */
module AboutEditor {
  import opened Js
  import opened EducationRecord
  import Lists

  /** The initial draft: the given education list, or an empty one. */
  function InitialEducation(aboutData: Option<About>): (education: seq<Education>)
    ensures aboutData.Some? && aboutData.value.education.Some? ==> education == aboutData.value.education.value
    ensures aboutData.None? || aboutData.value.education.None? ==> education == []
  {
    if aboutData.None? then [] else OrList(aboutData.value.education, [])
  }

  /** The entry `handleAddEducation` appends; `now` is `Date.now()`. */
  function NewEducation(now: int): (e: Education)
    ensures e.id == Some(now) && e.status == Some("completed") && e.iconType == Some("book")
    ensures e.institution == Some("") && e.degree == Some("") && e.period == Some("")
    ensures e.description == Some("")
  {
    Education(Some(now), Some(""), Some(""), Some(""), Some("completed"), Some(""), Some("book"))
  }

  /** The options the icon select offers. */
  const IconOptions: seq<string> := ["book", "award", "code"]

  /** The value the status select shows: an absent or empty status reads as
      "completed". */
  function DisplayedStatus(e: Education): (status: string)
    ensures Truthy(e.status) ==> status == e.status.value
    ensures !Truthy(e.status) ==> status == "completed"
  {
    Or(e.status, "completed")
  }

  /** The value the icon select shows: an absent or empty icon type reads as
      "book". */
  function DisplayedIconType(e: Education): (iconType: string)
    ensures Truthy(e.iconType) ==> iconType == e.iconType.value
    ensures !Truthy(e.iconType) ==> iconType == "book"
  {
    Or(e.iconType, "book")
  }

  /** A new entry displays exactly the defaults that older entries without
      these fields display. */
  lemma NewEntryShowsDefaults(now: int, legacy: Education)
    requires legacy.status.None? && legacy.iconType.None?
    ensures DisplayedStatus(NewEducation(now)) == DisplayedStatus(legacy) == "completed"
    ensures DisplayedIconType(NewEducation(now)) == DisplayedIconType(legacy) == "book"
    ensures DisplayedIconType(NewEducation(now)) in IconOptions
  {
  }

  class AboutManager {
    var education: seq<Education>

    constructor (aboutData: Option<About>)
      ensures education == InitialEducation(aboutData)
    {
      education := InitialEducation(aboutData);
    }

    method HandleAddEducation(now: int)
      modifies this
      ensures education == old(education) + [NewEducation(now)]
    {
      education := education + [NewEducation(now)];
    }

    /** `updatedEducation[index][field] = value` on a rendered entry. */
    method HandleUpdateEducation(index: nat, field: EducationField, value: string)
      requires index < |education|
      modifies this
      ensures education == old(education)[index := SetText(old(education)[index], field, value)]
    {
      var updatedEducation := education;
      updatedEducation := updatedEducation[index := SetText(updatedEducation[index], field, value)];
      education := updatedEducation;
    }

    method HandleRemoveEducation(index: int)
      modifies this
      ensures education == Lists.RemoveAt(old(education), index)
    {
      education := Lists.RemoveAt(education, index);
    }

    /** `handleSave`: the draft `{ education }`, unchanged. */
    method HandleSave() returns (saved: About)
      ensures saved == About(Some(education))
    {
      saved := About(Some(education));
    }
  }
}
