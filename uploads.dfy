/** What the upload handlers see of a chosen file and of the asset host. */
module Uploads {
  import opened Js

  const MB := 1024 * 1024

  /** `event.target.files[0]`: its name, MIME type and size in bytes. */
  datatype FileInfo = FileInfo(name: string, mimeType: string, size: nat)

  /** The asset host's answer: the public URL, or an error message. */
  datatype UploadOutcome = Uploaded(url: string) | UploadFailed(message: string)

  /** What a handler did: nothing (no file chosen), an alert before any
      upload, an alert after a failed upload, or the URL it stored. */
  datatype UploadResult = NoFile | Rejected(alert: string) | Failed(alert: string) | Stored(url: string)

  /** `file.type.startsWith('image/') && file.size <= limit`, the gate of the
      project image and skill icon uploads, with its two alerts. */
  function CheckImageFile(f: FileInfo, limit: nat, tooLarge: string): (alert: Option<string>)
    ensures alert.None? <==> |f.mimeType| >= 6 && f.mimeType[..6] == "image/" && f.size <= limit
    ensures alert.Some? ==> alert.value in {"Please select an image file", tooLarge}
    ensures !StartsWith(f.mimeType, "image/") ==> alert == Some("Please select an image file")
    ensures StartsWith(f.mimeType, "image/") && f.size > limit ==> alert == Some(tooLarge)
  {
    if !StartsWith(f.mimeType, "image/") then Some("Please select an image file")
    else if f.size > limit then Some(tooLarge)
    else None
  }
}
