/**
 * The photo picker of `ImageUploader`: the checks on a chosen file (size
 * first, then type), the `error` and `previewUrl` state, the `onFileSelect`
 * callback, and the URL it displays. The object URL made for a preview is a
 * parameter.
 */
module ImageUploader {
  import opened Common
  import opened ImageUpload

  /** 5 MiB, the largest size accepted. */
  const MaxFileSize := 5 * 1024 * 1024
  const SizeMessage := "Ukuran file maksimal 5MB"
  const TypeMessage := "File harus berupa gambar"
  const ImagePrefix := "image/"

  /**
   * The rejection message for a file, if any: too large is reported before a
   * wrong type; exactly 5 MiB is accepted; any `image/...` type is accepted.
   */
  function Rejection(file: File): (r: Option<string>)
    ensures r == Some(SizeMessage) <==> file.size > MaxFileSize
    ensures r == Some(TypeMessage) <==> file.size <= MaxFileSize && !StartsWith(file.mimeType, ImagePrefix)
    ensures r == None <==> file.size <= MaxFileSize && StartsWith(file.mimeType, ImagePrefix)
  {
    if file.size > MaxFileSize then Some(SizeMessage)
    else if !StartsWith(file.mimeType, ImagePrefix) then Some(TypeMessage)
    else None
  }

  class ImageUploader {
    var previewUrl: Option<string>
    var error: string

    constructor ()
      ensures previewUrl == None && error == ""
    {
      previewUrl := None;
      error := "";
    }

    /** `previewUrl || currentPhotoUrl`. */
    function DisplayUrl(currentPhotoUrl: Option<string>): (u: Option<string>)
      reads this
      ensures TruthyOpt(previewUrl) ==> u == previewUrl
      ensures !TruthyOpt(previewUrl) ==> u == currentPhotoUrl
    {
      if TruthyOpt(previewUrl) then previewUrl else currentPhotoUrl
    }

    /**
     * `handleFileChange`. `file` is the first chosen file, if any;
     * `objectUrl` is the URL the browser makes for its preview. The result is
     * the file handed to `onFileSelect` (called once), or `None` when the
     * callback is not called. Without a file nothing changes; a rejected file
     * only sets the error; an accepted one clears the error and sets the preview.
     */
    method HandleFileChange(file: Option<File>, objectUrl: string) returns (selected: Option<File>)
      modifies this
      ensures file.None? ==> selected.None? && previewUrl == old(previewUrl) && error == old(error)
      ensures file.Some? && Rejection(file.value).Some? ==>
        selected.None? && previewUrl == old(previewUrl) && error == Rejection(file.value).value
      ensures file.Some? && Rejection(file.value).None? ==>
        selected == file && previewUrl == Some(objectUrl) && error == ""
    {
      selected := None;
      if file.None? {
        return;
      }
      var f := file.value;
      if f.size > MaxFileSize {
        error := SizeMessage;
        return;
      }
      if !StartsWith(f.mimeType, ImagePrefix) {
        error := TypeMessage;
        return;
      }
      error := "";
      previewUrl := Some(objectUrl);
      selected := Some(f);
    }
  }
}
