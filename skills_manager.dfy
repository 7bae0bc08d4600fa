/** The skills editor: a local draft list of skills, each shown by an uploaded
    icon, a simple-icons slug or an emoji, and kept free of a stale custom
    icon when a slug is chosen (and the other way round). */
module SkillsEditor {
  import opened Js
  import opened SkillRecord
  import opened Uploads
  import Lists

  /** The slugs offered in the select, after its empty option. */
  const PopularIconSlugs: seq<string> := [
    "javascript", "typescript", "react", "nodedotjs", "python", "java",
    "html5", "css3", "tailwindcss", "bootstrap", "mongodb", "mysql",
    "firebase", "amazonaws", "docker", "git", "github", "gitlab",
    "visualstudiocode", "figma", "postman", "linux", "npm", "yarn",
    "express", "nextdotjs", "vuejs", "angular", "sass", "less",
    "redis", "postgresql", "sqlite", "vercel", "netlify", "heroku",
    "kubernetes", "jenkins", "graphql", "redux", "jest", "webpack"]

  /** The initial draft: the `skills` property when it is an array. */
  function InitialSkills(skills: Option<seq<Skill>>): (draft: seq<Skill>)
    ensures skills.Some? ==> draft == skills.value
    ensures skills.None? ==> draft == []
  {
    OrList(skills, [])
  }

  /** The skill `handleAddSkill` appends: every text field empty. */
  function NewSkill(now: int): (s: Skill)
    ensures s.id == Some(now)
    ensures forall f :: Text(s, f) == Some("")
  {
    Skill(Some(now), Some(""), Some(""), Some(""), Some(""))
  }

  /** The gate before an icon upload: an `image/` type of at most 2 MB. */
  function CheckIconFile(f: FileInfo): (alert: Option<string>)
    ensures alert.None? <==> StartsWith(f.mimeType, "image/") && f.size <= 2097152
    ensures alert.Some? ==> alert.value in {"Please select an image file", "Image size should be less than 2MB"}
    ensures !StartsWith(f.mimeType, "image/") ==> alert == Some("Please select an image file")
    ensures StartsWith(f.mimeType, "image/") && f.size > 2097152 ==> alert == Some("Image size should be less than 2MB")
  {
    CheckImageFile(f, 2 * MB, "Image size should be less than 2MB")
  }

  /** The select's change handler: the slug is set, and a non-empty slug
      also clears the custom icon URL; the empty option leaves it. */
  function ChooseSlug(s: Skill, slug: string): (r: Skill)
    ensures r.iconSlug == Some(slug)
    ensures slug != "" ==> r.iconUrl == Some("")
    ensures slug == "" ==> r.iconUrl == s.iconUrl
    ensures r.id == s.id && r.name == s.name && r.icon == s.icon
  {
    var t := SetText(s, IconSlug, slug);
    if slug != "" then SetText(t, IconUrl, "") else t
  }

  /** A successful icon upload: the URL is set, then the slug cleared. */
  function UseUploadedIcon(s: Skill, url: string): (r: Skill)
    ensures r.iconUrl == Some(url) && r.iconSlug == Some("")
    ensures r.id == s.id && r.name == s.name && r.icon == s.icon
  {
    SetText(SetText(s, IconUrl, url), IconSlug, "")
  }

  /** What the preview shows as the icon. */
  datatype PreviewIcon = IconImage(src: string) | Emoji(text: string)

  /** The preview: an uploaded icon first, then the simple-icons image for
      the slug, then the emoji (a light bulb without one); and the name, or
      "Technology Name" without one. */
  function PreviewIconOf(s: Skill): (icon: PreviewIcon)
    ensures Truthy(s.iconUrl) ==> icon == IconImage(s.iconUrl.value)
    ensures !Truthy(s.iconUrl) && Truthy(s.iconSlug) ==>
      icon == IconImage("https://cdn.simpleicons.org/" + s.iconSlug.value)
    ensures !Truthy(s.iconUrl) && !Truthy(s.iconSlug) ==> icon == Emoji(Or(s.icon, "\U{1F4A1}"))
  {
    if Truthy(s.iconUrl) then IconImage(s.iconUrl.value)
    else if Truthy(s.iconSlug) then IconImage("https://cdn.simpleicons.org/" + s.iconSlug.value)
    else Emoji(Or(s.icon, "\U{1F4A1}"))
  }

  function PreviewName(s: Skill): (name: string)
    ensures Truthy(s.name) ==> name == s.name.value
    ensures !Truthy(s.name) ==> name == "Technology Name"
  {
    Or(s.name, "Technology Name")
  }

  /** The mutual clearing at work: after choosing a listed slug the preview
      shows that slug's image, and after an upload it shows the uploaded
      icon, whatever the skill showed before. */
  lemma PreviewFollowsLastChoice(s: Skill, slug: string, url: string)
    requires slug in PopularIconSlugs
    ensures PreviewIconOf(ChooseSlug(s, slug)) == IconImage("https://cdn.simpleicons.org/" + slug)
    ensures url != "" ==> PreviewIconOf(UseUploadedIcon(s, url)) == IconImage(url)
  {
    assert "" !in PopularIconSlugs;
  }

  class SkillsManager {
    var localSkills: seq<Skill>

    constructor (skills: Option<seq<Skill>>)
      ensures localSkills == InitialSkills(skills)
    {
      localSkills := if skills.Some? then skills.value else [];
    }

    method HandleAddSkill(now: int)
      modifies this
      ensures localSkills == old(localSkills) + [NewSkill(now)]
    {
      localSkills := localSkills + [NewSkill(now)];
    }

    /** `updatedSkills[index][field] = value` on a rendered skill. */
    method HandleUpdateSkill(index: nat, field: SkillField, value: string)
      requires index < |localSkills|
      modifies this
      ensures localSkills == old(localSkills)[index := SetText(old(localSkills)[index], field, value)]
    {
      var updatedSkills := localSkills;
      updatedSkills := updatedSkills[index := SetText(updatedSkills[index], field, value)];
      localSkills := updatedSkills;
    }

    method HandleRemoveSkill(index: int)
      modifies this
      ensures localSkills == Lists.RemoveAt(old(localSkills), index)
    {
      localSkills := Lists.RemoveAt(localSkills, index);
    }

    /** The slug select of a rendered skill. */
    method HandleSelectSlug(index: nat, slug: string)
      requires index < |localSkills|
      modifies this
      ensures localSkills == old(localSkills)[index := ChooseSlug(old(localSkills)[index], slug)]
    {
      HandleUpdateSkill(index, IconSlug, slug);
      if slug != "" {
        HandleUpdateSkill(index, IconUrl, "");
      }
    }

    /** `handleIconUpload(event, index)`: only a successful upload changes
        the draft, and then only that skill. */
    method HandleIconUpload(file: Option<FileInfo>, index: nat, upload: UploadOutcome)
      returns (result: UploadResult)
      requires index < |localSkills|
      modifies this
      ensures file.None? ==> result == NoFile && localSkills == old(localSkills)
      ensures file.Some? && CheckIconFile(file.value).Some? ==>
        result == Rejected(CheckIconFile(file.value).value) && localSkills == old(localSkills)
      ensures file.Some? && CheckIconFile(file.value).None? && upload.UploadFailed? ==>
        result == Failed("Failed to upload icon: " + upload.message) && localSkills == old(localSkills)
      ensures file.Some? && CheckIconFile(file.value).None? && upload.Uploaded? ==>
        result == Stored(upload.url)
        && localSkills == old(localSkills)[index := UseUploadedIcon(old(localSkills)[index], upload.url)]
    {
      if file.None? {
        return NoFile;
      }
      var alert := CheckIconFile(file.value);
      if alert.Some? {
        return Rejected(alert.value);
      }
      match upload
      case Uploaded(url) =>
        HandleUpdateSkill(index, IconUrl, url);
        HandleUpdateSkill(index, IconSlug, "");
        result := Stored(url);
      case UploadFailed(message) =>
        result := Failed("Failed to upload icon: " + message);
    }

    /** `handleSave`: the draft goes to `onSave` unchanged. */
    method HandleSave() returns (saved: seq<Skill>)
      ensures saved == localSkills
    {
      saved := localSkills;
    }
  }
}
