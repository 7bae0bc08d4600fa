/** The projects editor: a local draft list of projects, with the nested
    technology lists and an image upload per project. */
module ProjectsEditor {
  import opened Js
  import opened ProjectRecord
  import opened Uploads
  import Lists
  import Technologies

  /** The project `handleAddProject` appends; this editor sets no category.
      `now` is `Date.now()`. */
  function NewProject(now: int): (p: Project)
    ensures p.id == Some(now) && p.title == Some("New Project")
    ensures p.description == Some("Project description") && p.category.None?
    ensures !p.featured && p.technologies == Some([])
    ensures p.image == Some("") && p.liveLink == Some("") && p.githubLink == Some("")
  {
    Project(Some(now), Some("New Project"), Some("Project description"), Some(""), Some([]),
            Some(""), Some(""), false, None)
  }

  /** The gate before a project image upload: an `image/` type of at most 5 MB. */
  function CheckProjectImage(f: FileInfo): (alert: Option<string>)
    ensures alert.None? <==> StartsWith(f.mimeType, "image/") && f.size <= 5242880
    ensures alert.Some? ==> alert.value in {"Please select an image file", "Image size should be less than 5MB"}
    ensures !StartsWith(f.mimeType, "image/") ==> alert == Some("Please select an image file")
    ensures StartsWith(f.mimeType, "image/") && f.size > 5242880 ==> alert == Some("Image size should be less than 5MB")
  {
    CheckImageFile(f, 5 * MB, "Image size should be less than 5MB")
  }

  class ProjectsManager {
    var localProjects: seq<Project>

    constructor (projects: seq<Project>)
      ensures localProjects == projects
    {
      localProjects := projects;
    }

    method HandleAddProject(now: int)
      modifies this
      ensures localProjects == old(localProjects) + [NewProject(now)]
    {
      localProjects := localProjects + [NewProject(now)];
    }

    /** `updatedProjects[index][field] = value` on a rendered project. */
    method HandleUpdateProject(index: nat, edit: ProjectEdit)
      requires index < |localProjects|
      modifies this
      ensures localProjects == old(localProjects)[index := Apply(old(localProjects)[index], edit)]
    {
      var updatedProjects := localProjects;
      updatedProjects := updatedProjects[index := Apply(updatedProjects[index], edit)];
      localProjects := updatedProjects;
    }

    method HandleRemoveProject(index: int)
      modifies this
      ensures localProjects == Lists.RemoveAt(old(localProjects), index)
    {
      localProjects := Lists.RemoveAt(localProjects, index);
    }

    /** "Add Tech": the project's list is created when absent, then gets one
        empty entry; no other project changes. */
    method HandleAddTechnology(projectIndex: nat)
      requires projectIndex < |localProjects|
      modifies this
      ensures var p := old(localProjects)[projectIndex];
        localProjects == old(localProjects)[projectIndex := p.(technologies := Technologies.AddTechnology(p.technologies))]
    {
      var updatedProjects := localProjects;
      var p := updatedProjects[projectIndex];
      var technologies := if p.technologies.None? then [] else p.technologies.value;
      technologies := technologies + [""];
      updatedProjects := updatedProjects[projectIndex := p.(technologies := Some(technologies))];
      localProjects := updatedProjects;
    }

    /** A technology input of a project, which is rendered only from an
        existing list. */
    method HandleUpdateTechnology(projectIndex: nat, techIndex: nat, value: string)
      requires projectIndex < |localProjects|
      requires localProjects[projectIndex].technologies.Some?
      requires techIndex < |localProjects[projectIndex].technologies.value|
      modifies this
      ensures var p := old(localProjects)[projectIndex];
        localProjects == old(localProjects)[projectIndex :=
          p.(technologies := Technologies.UpdateTechnology(p.technologies, techIndex, value))]
    {
      var updatedProjects := localProjects;
      var p := updatedProjects[projectIndex];
      updatedProjects := updatedProjects[projectIndex := p.(technologies := Some(p.technologies.value[techIndex := value]))];
      localProjects := updatedProjects;
    }

    method HandleRemoveTechnology(projectIndex: nat, techIndex: int)
      requires projectIndex < |localProjects|
      requires localProjects[projectIndex].technologies.Some?
      modifies this
      ensures var p := old(localProjects)[projectIndex];
        localProjects == old(localProjects)[projectIndex :=
          p.(technologies := Technologies.RemoveTechnology(p.technologies, techIndex))]
    {
      var updatedProjects := localProjects;
      var p := updatedProjects[projectIndex];
      updatedProjects := updatedProjects[projectIndex := p.(technologies := Some(Lists.RemoveAt(p.technologies.value, techIndex)))];
      localProjects := updatedProjects;
    }

    /** `handleImageUpload(event, projectIndex)`: only a successful upload
        changes the draft, and then only that project's image. */
    method HandleImageUpload(file: Option<FileInfo>, projectIndex: nat, upload: UploadOutcome)
      returns (result: UploadResult)
      requires projectIndex < |localProjects|
      modifies this
      ensures file.None? ==> result == NoFile && localProjects == old(localProjects)
      ensures file.Some? && CheckProjectImage(file.value).Some? ==>
        result == Rejected(CheckProjectImage(file.value).value) && localProjects == old(localProjects)
      ensures file.Some? && CheckProjectImage(file.value).None? && upload.UploadFailed? ==>
        result == Failed("Failed to upload image: " + upload.message) && localProjects == old(localProjects)
      ensures file.Some? && CheckProjectImage(file.value).None? && upload.Uploaded? ==>
        result == Stored(upload.url)
        && localProjects == old(localProjects)[projectIndex :=
             Apply(old(localProjects)[projectIndex], SetText(Image, upload.url))]
    {
      if file.None? {
        return NoFile;
      }
      var alert := CheckProjectImage(file.value);
      if alert.Some? {
        return Rejected(alert.value);
      }
      match upload
      case Uploaded(url) =>
        HandleUpdateProject(projectIndex, SetText(Image, url));
        result := Stored(url);
      case UploadFailed(message) =>
        result := Failed("Failed to upload image: " + message);
    }

    /** `handleSave`: the draft goes to `onSave` unchanged. */
    method HandleSave() returns (saved: seq<Project>)
      ensures saved == localProjects
    {
      saved := localProjects;
    }
  }
}
