/** The hero editor: a draft of the hero record with role editing, avatar and
    CV uploads gated by type and size, and a save that drops blank roles. */
module HeroEditor {
  import opened Js
  import opened HeroRecord
  import opened Uploads
  import Lists
  import RoleFilter

  const ImageTypes: seq<string> := ["image/jpeg", "image/jpg", "image/png", "image/webp"]
  const VideoTypes: seq<string> := ["video/mp4", "video/webm", "image/gif"]
  const CvTypes: seq<string> := [
    "application/pdf",
    "application/msword",
    "application/vnd.openxmlformats-officedocument.wordprocessingml.document",
    "text/plain"]

  /** The alert shown before an avatar upload, if any: the static avatar takes
      the four still-image types up to 5 MB, the animated one also takes MP4,
      WebM and GIF, up to 10 MB. A file of exactly the limit passes. */
  function CheckAvatarFile(f: FileInfo, isAnimated: bool): (alert: Option<string>)
    ensures !isAnimated ==>
      (alert.None? <==> f.mimeType in {"image/jpeg", "image/jpg", "image/png", "image/webp"} && f.size <= 5242880)
    ensures isAnimated ==>
      (alert.None? <==> f.mimeType in {"image/jpeg", "image/jpg", "image/png", "image/webp",
                                       "video/mp4", "video/webm", "image/gif"} && f.size <= 10485760)
    ensures alert.Some? ==> alert.value in {
      "Please select a valid image file", "Please select a valid image, video, or GIF file",
      "File size should be less than 5MB", "File size should be less than 10MB"}
    ensures !isAnimated && f.mimeType !in {"image/jpeg", "image/jpg", "image/png", "image/webp"} ==>
      alert == Some("Please select a valid image file")
    ensures isAnimated && f.mimeType !in {"image/jpeg", "image/jpg", "image/png", "image/webp",
                                          "video/mp4", "video/webm", "image/gif"} ==>
      alert == Some("Please select a valid image, video, or GIF file")
    ensures (!isAnimated && f.mimeType in {"image/jpeg", "image/jpg", "image/png", "image/webp"}
             && f.size > 5242880) ==> alert == Some("File size should be less than 5MB")
    ensures (isAnimated && f.mimeType in {"image/jpeg", "image/jpg", "image/png", "image/webp",
                                          "video/mp4", "video/webm", "image/gif"}
             && f.size > 10485760) ==> alert == Some("File size should be less than 10MB")
  {
    var allowed := if isAnimated then ImageTypes + VideoTypes else ImageTypes;
    if f.mimeType !in allowed then
      if isAnimated then Some("Please select a valid image, video, or GIF file")
      else Some("Please select a valid image file")
    else if f.size > (if isAnimated then 10 * MB else 5 * MB) then
      if isAnimated then Some("File size should be less than 10MB")
      else Some("File size should be less than 5MB")
    else None
  }

  /** The alert shown before a CV upload, if any: PDF, DOC, DOCX or plain text,
      up to 5 MB. */
  function CheckCvFile(f: FileInfo): (alert: Option<string>)
    ensures alert.None? <==>
      (f.mimeType in {"application/pdf", "application/msword",
                      "application/vnd.openxmlformats-officedocument.wordprocessingml.document", "text/plain"}
       && f.size <= 5242880)
    ensures alert.Some? ==> alert.value in {
      "Please select a valid PDF, DOC, DOCX, or TXT file", "CV file size should be less than 5MB"}
    ensures f.mimeType !in {"application/pdf", "application/msword",
                            "application/vnd.openxmlformats-officedocument.wordprocessingml.document", "text/plain"}
      ==> alert == Some("Please select a valid PDF, DOC, DOCX, or TXT file")
    ensures (f.mimeType in {"application/pdf", "application/msword",
                            "application/vnd.openxmlformats-officedocument.wordprocessingml.document", "text/plain"}
             && f.size > 5242880) ==> alert == Some("CV file size should be less than 5MB")
  {
    if f.mimeType !in CvTypes then Some("Please select a valid PDF, DOC, DOCX, or TXT file")
    else if f.size > 5 * MB then Some("CV file size should be less than 5MB")
    else None
  }

  /** Every still-image type an uploaded static avatar may have, the animated
      slot accepts as well, with a larger limit. */
  lemma AnimatedAcceptsStatic(f: FileInfo)
    ensures CheckAvatarFile(f, false).None? ==> CheckAvatarFile(f, true).None?
  {
  }

  /** The file extensions whose animated avatar preview is a video element. */
  const VideoExtensions: seq<string> := [".gif", ".mp4", ".webm"]

  /** `/\.(gif|mp4|webm)$/i`: the preview is a video element exactly when the
      URL ends in one of the three extensions, in any ASCII case. */
  function IsVideoPreview(url: string): (video: bool)
    ensures video <==> exists ext :: ext in VideoExtensions && EndsWithIgnoreCase(url, ext)
  {
    assert VideoExtensions[0] == ".gif" && VideoExtensions[1] == ".mp4" && VideoExtensions[2] == ".webm";
    EndsWithIgnoreCase(url, ".gif") || EndsWithIgnoreCase(url, ".mp4") || EndsWithIgnoreCase(url, ".webm")
  }

  /** An upper-case extension selects the video preview too, and a bare
      extension without its dot does not. */
  lemma VideoPreviewCases()
    ensures IsVideoPreview("me.GIF") && IsVideoPreview("clip.WebM")
    ensures !IsVideoPreview("me.png") && !IsVideoPreview("mp4")
  {
    assert Lower(".GIF") == ".gif";
    assert Lower(".WebM") == ".webm";
    assert ".GIF" == "me.GIF"[2..];
    assert ".WebM" == "clip.WebM"[4..];
    assert "me.png"[2..] == ".png" && Lower(".png") == ".png";
    assert "me.png"[1..] == "e.png" && Lower("e.png") == "e.png";
  }

  /** The record the save hands to its caller: the draft with the blank roles
      removed. */
  function SavedHero(draft: Hero): (saved: Hero)
    requires draft.roles.Some?
    ensures saved.roles.Some? && saved.roles.value == RoleFilter.KeepFilled(draft.roles.value)
    ensures forall f :: Text(saved, f) == Text(draft, f)
  {
    draft.(roles := Some(RoleFilter.KeepFilled(draft.roles.value)))
  }

  /** Saving an already saved record changes nothing. */
  lemma SaveIdempotent(draft: Hero)
    requires draft.roles.Some?
    ensures SavedHero(SavedHero(draft)) == SavedHero(draft)
  {
    RoleFilter.KeepFilledIdempotent(draft.roles.value);
  }

  /** The editor's draft. The caller hands in a record with a roles list; the
      role inputs are rendered from it. */
  class HeroManager {
    var formData: Hero

    ghost predicate Valid()
      reads this
    {
      formData.roles.Some?
    }

    function RoleList(): seq<string>
      reads this
      requires Valid()
    {
      formData.roles.value
    }

    constructor (heroData: Hero)
      requires heroData.roles.Some?
      ensures Valid() && formData == heroData
    {
      formData := heroData;
    }

    /** `handleChange(field, value)`: the named field takes the value. */
    method HandleChange(field: HeroField, value: string)
      requires Valid()
      modifies this
      ensures Valid() && formData == SetText(old(formData), field, value)
    {
      formData := SetText(formData, field, value);
    }

    /** `handleRoleChange(index, value)` for a rendered role input. */
    method HandleRoleChange(index: nat, value: string)
      requires Valid() && index < |RoleList()|
      modifies this
      ensures Valid() && formData == old(formData).(roles := Some(old(RoleList())[index := value]))
    {
      var updatedRoles := formData.roles.value;
      updatedRoles := updatedRoles[index := value];
      formData := formData.(roles := Some(updatedRoles));
    }

    /** `handleAddRole`: one empty role at the end. */
    method HandleAddRole()
      requires Valid()
      modifies this
      ensures Valid() && formData == old(formData).(roles := Some(old(RoleList()) + [""]))
    {
      formData := formData.(roles := Some(formData.roles.value + [""]));
    }

    /** Whether each role input has a remove button: only when more than one
        role exists. */
    function CanRemoveRole(): (offered: bool)
      reads this
      requires Valid()
      ensures offered <==> |RoleList()| > 1
    {
      |formData.roles.value| > 1
    }

    /** `handleRemoveRole(index)`: the role at `index` goes, the rest keep
        their order. */
    method HandleRemoveRole(index: int)
      requires Valid()
      modifies this
      ensures Valid() && formData == old(formData).(roles := Some(Lists.RemoveAt(old(RoleList()), index)))
    {
      formData := formData.(roles := Some(Lists.RemoveAt(formData.roles.value, index)));
    }

    /** `handleImageUpload(event, isAnimated)`. `file` is the chosen file and
        `upload` the asset host's answer, consulted only once the file has
        passed the gate. Only a successful upload changes the draft: it sets
        `animatedAvatar` or `avatar` to the returned URL. */
    method HandleImageUpload(file: Option<FileInfo>, isAnimated: bool, upload: UploadOutcome)
      returns (result: UploadResult)
      requires Valid()
      modifies this
      ensures Valid()
      ensures file.None? ==> result == NoFile && formData == old(formData)
      ensures file.Some? && CheckAvatarFile(file.value, isAnimated).Some? ==>
        result == Rejected(CheckAvatarFile(file.value, isAnimated).value) && formData == old(formData)
      ensures file.Some? && CheckAvatarFile(file.value, isAnimated).None? && upload.UploadFailed? ==>
        result == Failed("Failed to upload " + (if isAnimated then "animated avatar" else "image") + ": " + upload.message)
        && formData == old(formData)
      ensures file.Some? && CheckAvatarFile(file.value, isAnimated).None? && upload.Uploaded? ==>
        result == Stored(upload.url)
        && formData == SetText(old(formData), if isAnimated then AnimatedAvatar else Avatar, upload.url)
    {
      if file.None? {
        return NoFile;
      }
      var alert := CheckAvatarFile(file.value, isAnimated);
      if alert.Some? {
        return Rejected(alert.value);
      }
      match upload
      case Uploaded(url) =>
        formData := SetText(formData, if isAnimated then AnimatedAvatar else Avatar, url);
        result := Stored(url);
      case UploadFailed(message) =>
        result := Failed("Failed to upload " + (if isAnimated then "animated avatar" else "image") + ": " + message);
    }

    /** `handleCVUpload(event)`: a successful upload sets both the CV URL and
        the CV's file name. */
    method HandleCvUpload(file: Option<FileInfo>, upload: UploadOutcome) returns (result: UploadResult)
      requires Valid()
      modifies this
      ensures Valid()
      ensures file.None? ==> result == NoFile && formData == old(formData)
      ensures file.Some? && CheckCvFile(file.value).Some? ==>
        result == Rejected(CheckCvFile(file.value).value) && formData == old(formData)
      ensures file.Some? && CheckCvFile(file.value).None? && upload.UploadFailed? ==>
        result == Failed("Failed to upload CV: " + upload.message) && formData == old(formData)
      ensures file.Some? && CheckCvFile(file.value).None? && upload.Uploaded? ==>
        result == Stored(upload.url)
        && formData == old(formData).(cvUrl := Some(upload.url), cvName := Some(file.value.name))
    {
      if file.None? {
        return NoFile;
      }
      var alert := CheckCvFile(file.value);
      if alert.Some? {
        return Rejected(alert.value);
      }
      match upload
      case Uploaded(url) =>
        formData := formData.(cvUrl := Some(url), cvName := Some(file.value.name));
        result := Stored(url);
      case UploadFailed(message) =>
        result := Failed("Failed to upload CV: " + message);
    }

    /** `handleSave`: what `onSave` receives. The draft itself is kept. */
    method HandleSave() returns (saved: Hero)
      requires Valid()
      ensures saved == SavedHero(formData)
    {
      var filteredRoles := RoleFilter.KeepFilled(formData.roles.value);
      saved := formData.(roles := Some(filteredRoles));
    }
  }
}
