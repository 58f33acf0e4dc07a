/**
 * The image upload widget: the user picks a file, which is checked against
 * the same type and size limits as the server's, previewed, and then sent
 * to the banner upload route or cancelled. The widget's state is its four
 * fields; the object URL of the preview and the server's answer are
 * parameters.
 */
module ImageUpload {
  import opened Wrappers
  import opened Identity
  import BannerUpload

  /** The image types the widget lets the user pick. */
  const AllowedTypes: seq<string> := ["image/jpeg", "image/png", "image/webp", "image/gif"]

  /** The largest file the widget accepts, in bytes (5 MB). */
  const MaxSize: nat := 5 * 1024 * 1024

  const InvalidTypeError := "Invalid file type. Use JPEG, PNG, WebP, or GIF."
  const TooLargeError := "File too large. Maximum size is 5MB."
  const UploadFailedError := "Upload failed"
  const FallbackError := "Failed to upload image"

  /** A picked file: name, type and size in bytes. */
  type File = BannerUpload.File

  /** The message a picked file is refused with, if any: type first, then size. */
  function FileError(f: File): (e: Option<string>)
    ensures e.None? <==> f.mimeType in AllowedTypes && f.size <= MaxSize
    ensures f.mimeType !in AllowedTypes ==> e == Some(InvalidTypeError)
    ensures f.mimeType in AllowedTypes && f.size > MaxSize ==> e == Some(TooLargeError)
  {
    if f.mimeType !in AllowedTypes then Some(InvalidTypeError)
    else if f.size > MaxSize then Some(TooLargeError)
    else None
  }

  /** A file of exactly the maximum size passes; one byte more does not. */
  lemma SizeBoundary(name: string, mimeType: string)
    requires mimeType in AllowedTypes
    ensures FileError(BannerUpload.File(name, mimeType, MaxSize)).None?
    ensures FileError(BannerUpload.File(name, mimeType, MaxSize + 1)) == Some(TooLargeError)
  {
  }

  /**
   * The widget and the server agree: a file the widget accepts passes the
   * server's multipart stage and a file it refuses would be refused there.
   */
  lemma ClientMatchesServer(f: File)
    ensures AllowedTypes == BannerUpload.AllowedMimeTypes && MaxSize == BannerUpload.SizeLimit
    ensures FileError(f).None? <==> BannerUpload.MultipartError(Some(f)).None?
  {
  }

  /**
   * How an upload attempt ends: a successful response with the banner URL,
   * a response that is not ok with its `error` field, or a thrown error
   * (token, network or body parsing) with its message.
   */
  datatype Answer = Uploaded(bannerUrl: string) | Refused(error: Option<string>) | Failed(message: string)

  class Uploader {
    var preview: Option<string>
    var selectedFile: Option<File>
    var uploading: bool
    var error: Option<string>

    constructor()
      ensures preview.None? && selectedFile.None? && !uploading && error.None?
    {
      preview := None;
      selectedFile := None;
      uploading := false;
      error := None;
    }

    /**
     * `handleFileSelect`: no file changes nothing; a refused file sets the
     * error and keeps the previous selection; an accepted file becomes the
     * selection, previewed at `objectUrl`, with no error.
     */
    method HandleFileSelect(file: Option<File>, objectUrl: string)
      modifies this
      ensures uploading == old(uploading)
      ensures file.None? ==> preview == old(preview) && selectedFile == old(selectedFile) && error == old(error)
      ensures file.Some? && FileError(file.value).Some? ==>
        error == FileError(file.value) && selectedFile == old(selectedFile) && preview == old(preview)
      ensures file.Some? && FileError(file.value).None? ==>
        selectedFile == file && preview == Some(objectUrl) && error.None?
    {
      if file.None? {
        return;
      }
      var f := file.value;
      error := None;
      if f.mimeType !in AllowedTypes {
        error := Some(InvalidTypeError);
        return;
      }
      if f.size > MaxSize {
        error := Some(TooLargeError);
        return;
      }
      selectedFile := Some(f);
      preview := Some(objectUrl);
    }

    /**
     * `handleUpload`: without a selection or an entity id nothing happens.
     * Otherwise the answer decides: on success the URL is handed to the
     * caller (`uploaded`) and the selection and preview are cleared; on
     * failure the selection is kept and the error shown. Either way the
     * widget is no longer uploading.
     */
    method HandleUpload(entityId: Option<string>, answer: Answer) returns (uploaded: Option<string>)
      modifies this
      ensures old(selectedFile).None? || !Present(entityId) ==>
        uploaded.None? && preview == old(preview) && selectedFile == old(selectedFile)
        && uploading == old(uploading) && error == old(error)
      ensures old(selectedFile).Some? && Present(entityId) ==> !uploading
      ensures old(selectedFile).Some? && Present(entityId) && answer.Uploaded? ==>
        uploaded == Some(answer.bannerUrl) && selectedFile.None? && preview.None? && error.None?
      ensures old(selectedFile).Some? && Present(entityId) && answer.Refused? ==>
        uploaded.None? && selectedFile == old(selectedFile) && preview == old(preview)
        && error == Some(if Present(answer.error) then answer.error.value else UploadFailedError)
      ensures old(selectedFile).Some? && Present(entityId) && answer.Failed? ==>
        uploaded.None? && selectedFile == old(selectedFile) && preview == old(preview)
        && error == Some(if answer.message != "" then answer.message else FallbackError)
    {
      if selectedFile.None? || !Present(entityId) {
        return None;
      }
      uploading := true;
      error := None;
      match answer {
        case Uploaded(url) =>
          uploaded := Some(url);
          selectedFile := None;
          preview := None;
        case Refused(message) =>
          var thrown := if Present(message) then message.value else UploadFailedError;
          error := Some(thrown);
          uploaded := None;
        case Failed(message) =>
          error := Some(if message != "" then message else FallbackError);
          uploaded := None;
      }
      uploading := false;
    }

    /** `handleCancel`: drops the selection, the preview and the error. */
    method HandleCancel()
      modifies this
      ensures selectedFile.None? && preview.None? && error.None? && uploading == old(uploading)
    {
      selectedFile := None;
      preview := None;
      error := None;
    }

    /** `preview || currentUrl`: the preview while there is one, else the current banner. */
    function DisplayUrl(currentUrl: Option<string>): (url: Option<string>)
      reads this
      ensures Present(preview) ==> url == preview
      ensures !Present(preview) ==> url == currentUrl
    {
      if Present(preview) then preview else currentUrl
    }
  }
}
