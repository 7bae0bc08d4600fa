/** The activities editor: one draft with three independent sections
    (internships, certifications, curricular activities), the section-generic
    update and remove handlers, and the internships' technology lists. */
module ActivitiesEditor {
  import opened Js
  import opened ActivityRecords
  import Lists
  import Technologies

  datatype Draft = Draft(
    internships: seq<Internship>,
    certifications: seq<Certification>,
    curricular: seq<Curricular>)

  datatype Section = Internships | Certifications | CurricularActivities

  function SectionLength(d: Draft, s: Section): nat {
    match s
    case Internships => |d.internships|
    case Certifications => |d.certifications|
    case CurricularActivities => |d.curricular|
  }

  /** The initial draft: each section as given when present, else empty. */
  function InitialDraft(activities: Option<Activities>): (d: Draft)
    ensures activities.None? ==> d == Draft([], [], [])
    ensures activities.Some? ==>
      && d.internships == OrList(activities.value.internships, [])
      && d.certifications == OrList(activities.value.certifications, [])
      && d.curricular == OrList(activities.value.curricular, [])
  {
    if activities.None? then Draft([], [], [])
    else Draft(OrList(activities.value.internships, []),
               OrList(activities.value.certifications, []),
               OrList(activities.value.curricular, []))
  }

  /** The three new items; `now` is `Date.now()`. */
  function NewInternship(now: int): (x: Internship)
    ensures x.id == Some(now) && x.technologies == Some([])
    ensures forall f :: InternshipText(x, f) == Some("")
  {
    Internship(Some(now), Some(""), Some(""), Some(""), Some(""), Some(""), Some([]))
  }

  function NewCertification(now: int): (x: Certification)
    ensures x.id == Some(now)
    ensures forall f :: CertificationText(x, f) == Some("")
  {
    Certification(Some(now), Some(""), Some(""), Some(""), Some(""))
  }

  function NewActivity(now: int): (x: Curricular)
    ensures x.id == Some(now) && x.kind == Some("co-curricular")
    ensures forall f :: f != Kind ==> CurricularText(x, f) == Some("")
  {
    Curricular(Some(now), Some("co-curricular"), Some(""), Some(""), Some(""), Some(""))
  }

  /** One `handleUpdateItem(section, index, field, value)` call; the section
      is the one the field belongs to. */
  datatype ItemEdit =
    | EditInternship(internshipField: InternshipField, value: string)
    | EditCertification(certificationField: CertificationField, value: string)
    | EditCurricular(curricularField: CurricularField, value: string)

  function SectionOf(e: ItemEdit): Section {
    match e
    case EditInternship(_, _) => Internships
    case EditCertification(_, _) => Certifications
    case EditCurricular(_, _) => CurricularActivities
  }

  /** `handleUpdateItem`: one field of one item of one section changes; the
      lengths and every other item and section stay. */
  function UpdateItem(d: Draft, index: nat, e: ItemEdit): (r: Draft)
    requires index < SectionLength(d, SectionOf(e))
    ensures |r.internships| == |d.internships| && |r.certifications| == |d.certifications|
    ensures |r.curricular| == |d.curricular|
    ensures SectionOf(e) != Internships ==> r.internships == d.internships
    ensures SectionOf(e) != Certifications ==> r.certifications == d.certifications
    ensures SectionOf(e) != CurricularActivities ==> r.curricular == d.curricular
    ensures e.EditInternship? ==>
      && r.internships[index] == SetInternshipText(d.internships[index], e.internshipField, e.value)
      && forall j :: 0 <= j < |d.internships| && j != index ==> r.internships[j] == d.internships[j]
    ensures e.EditCertification? ==>
      && r.certifications[index] == SetCertificationText(d.certifications[index], e.certificationField, e.value)
      && forall j :: 0 <= j < |d.certifications| && j != index ==> r.certifications[j] == d.certifications[j]
    ensures e.EditCurricular? ==>
      && r.curricular[index] == SetCurricularText(d.curricular[index], e.curricularField, e.value)
      && forall j :: 0 <= j < |d.curricular| && j != index ==> r.curricular[j] == d.curricular[j]
  {
    match e
    case EditInternship(f, v) =>
      d.(internships := d.internships[index := SetInternshipText(d.internships[index], f, v)])
    case EditCertification(f, v) =>
      d.(certifications := d.certifications[index := SetCertificationText(d.certifications[index], f, v)])
    case EditCurricular(f, v) =>
      d.(curricular := d.curricular[index := SetCurricularText(d.curricular[index], f, v)])
  }

  /** `handleRemoveItem(section, index)`: only the named section loses its
      item at `index`. */
  function RemoveItem(d: Draft, s: Section, index: int): (r: Draft)
    ensures s == Internships ==> r.internships == Lists.RemoveAt(d.internships, index)
    ensures s == Certifications ==> r.certifications == Lists.RemoveAt(d.certifications, index)
    ensures s == CurricularActivities ==> r.curricular == Lists.RemoveAt(d.curricular, index)
    ensures s != Internships ==> r.internships == d.internships
    ensures s != Certifications ==> r.certifications == d.certifications
    ensures s != CurricularActivities ==> r.curricular == d.curricular
  {
    match s
    case Internships => d.(internships := Lists.RemoveAt(d.internships, index))
    case Certifications => d.(certifications := Lists.RemoveAt(d.certifications, index))
    case CurricularActivities => d.(curricular := Lists.RemoveAt(d.curricular, index))
  }

  /** Removing the item just added to a section gives back the draft as it
      was before the add. */
  lemma AddThenRemove(d: Draft, now: int)
    ensures RemoveItem(d.(internships := d.internships + [NewInternship(now)]), Internships, |d.internships|) == d
    ensures RemoveItem(d.(certifications := d.certifications + [NewCertification(now)]), Certifications, |d.certifications|) == d
    ensures RemoveItem(d.(curricular := d.curricular + [NewActivity(now)]), CurricularActivities, |d.curricular|) == d
  {
    Lists.AppendThenRemove(d.internships, NewInternship(now));
    Lists.AppendThenRemove(d.certifications, NewCertification(now));
    Lists.AppendThenRemove(d.curricular, NewActivity(now));
  }

  /** Replaces the technologies of internship `i`, and nothing else. */
  function WithTechnologies(d: Draft, i: nat, t: Option<seq<string>>): (r: Draft)
    requires i < |d.internships|
    ensures r.certifications == d.certifications && r.curricular == d.curricular
    ensures |r.internships| == |d.internships|
    ensures r.internships[i] == d.internships[i].(technologies := t)
    ensures forall j :: 0 <= j < |d.internships| && j != i ==> r.internships[j] == d.internships[j]
  {
    d.(internships := d.internships[i := d.internships[i].(technologies := t)])
  }

  class ActivitiesManager {
    var formData: Draft

    constructor (activities: Option<Activities>)
      ensures formData == InitialDraft(activities)
    {
      formData := InitialDraft(activities);
    }

    method HandleAddInternship(now: int)
      modifies this
      ensures formData == old(formData).(internships := old(formData.internships) + [NewInternship(now)])
    {
      formData := formData.(internships := formData.internships + [NewInternship(now)]);
    }

    method HandleAddCertification(now: int)
      modifies this
      ensures formData == old(formData).(certifications := old(formData.certifications) + [NewCertification(now)])
    {
      formData := formData.(certifications := formData.certifications + [NewCertification(now)]);
    }

    method HandleAddActivity(now: int)
      modifies this
      ensures formData == old(formData).(curricular := old(formData.curricular) + [NewActivity(now)])
    {
      formData := formData.(curricular := formData.curricular + [NewActivity(now)]);
    }

    /** `updatedSection[index][field] = value` on a rendered item. */
    method HandleUpdateItem(index: nat, e: ItemEdit)
      requires index < SectionLength(formData, SectionOf(e))
      modifies this
      ensures formData == UpdateItem(old(formData), index, e)
    {
      match e
      case EditInternship(f, v) =>
        var updatedSection := formData.internships;
        updatedSection := updatedSection[index := SetInternshipText(updatedSection[index], f, v)];
        formData := formData.(internships := updatedSection);
      case EditCertification(f, v) =>
        var updatedSection := formData.certifications;
        updatedSection := updatedSection[index := SetCertificationText(updatedSection[index], f, v)];
        formData := formData.(certifications := updatedSection);
      case EditCurricular(f, v) =>
        var updatedSection := formData.curricular;
        updatedSection := updatedSection[index := SetCurricularText(updatedSection[index], f, v)];
        formData := formData.(curricular := updatedSection);
    }

    method HandleRemoveItem(s: Section, index: int)
      modifies this
      ensures formData == RemoveItem(old(formData), s, index)
    {
      formData := RemoveItem(formData, s, index);
    }

    /** "Add Tech" on internship `i`: its list is created when absent, then
        gets one empty entry. */
    method HandleAddTechnology(i: nat)
      requires i < |formData.internships|
      modifies this
      ensures formData == WithTechnologies(old(formData), i,
                Technologies.AddTechnology(old(formData.internships[i].technologies)))
    {
      var t := formData.internships[i].technologies;
      var list := if t.None? then [] else t.value;
      list := list + [""];
      formData := WithTechnologies(formData, i, Some(list));
    }

    /** A technology input of internship `i`, rendered only from an existing
        list. */
    method HandleUpdateTechnology(i: nat, techIndex: nat, value: string)
      requires i < |formData.internships|
      requires formData.internships[i].technologies.Some?
      requires techIndex < |formData.internships[i].technologies.value|
      modifies this
      ensures formData == WithTechnologies(old(formData), i,
                Technologies.UpdateTechnology(old(formData.internships[i].technologies), techIndex, value))
    {
      var list := formData.internships[i].technologies.value;
      list := list[techIndex := value];
      formData := WithTechnologies(formData, i, Some(list));
    }

    method HandleRemoveTechnology(i: nat, techIndex: int)
      requires i < |formData.internships|
      requires formData.internships[i].technologies.Some?
      modifies this
      ensures formData == WithTechnologies(old(formData), i,
                Technologies.RemoveTechnology(old(formData.internships[i].technologies), techIndex))
    {
      var list := formData.internships[i].technologies.value;
      formData := WithTechnologies(formData, i, Some(Lists.RemoveAt(list, techIndex)));
    }

    /** `handleSave`: the whole three-section draft, unchanged. */
    method HandleSave() returns (saved: Draft)
      ensures saved == formData
    {
      saved := formData;
    }
  }
}
