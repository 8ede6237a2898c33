/**
 * The upload hook of `useImageUpload`: the configuration check, the
 * multipart form it sends to the image host, and the checks on the host's
 * reply. The host's reply is a parameter.
 */
module ImageUpload {
  import opened Common

  /** A selected file: its name, its size in bytes and its MIME type (`file.type`). */
  datatype File = File(name: string, size: nat, mimeType: string)

  /** One `formData.append(name, value)` entry. */
  datatype FormEntry = FileEntry(name: string, file: File) | TextEntry(name: string, value: string)

  /** A POST of a multipart form to the image host. */
  datatype UploadRequest = UploadRequest(url: string, form: seq<FormEntry>)

  /**
   * What the host does with the request: the request fails outright; a reply
   * arrives whose body is not JSON, so reading it fails with `message`; or a
   * reply arrives with its `ok` flag and the `secure_url` of its JSON body.
   */
  datatype HostReply =
    | NetworkFailure(message: string)
    | Unparsable(ok: bool, message: string)
    | Replied(ok: bool, secureUrl: Option<string>)

  /** The two build-time settings; either may be undefined. */
  datatype UploadConfig = UploadConfig(cloudName: Option<string>, uploadPreset: Option<string>)

  const DefaultFolder := "employee-photos"
  const ConfigMissingMessage := "Cloudinary configuration is missing"
  const UploadFailedMessage := "Upload failed"
  const NoUrlMessage := "No URL returned from upload"
  const DefaultUploadToast := "Gagal mengupload foto."

  /** `const { folder = 'employee-photos' } = options`: the default replaces only a missing folder. */
  function Folder(option: Option<string>): (f: string)
    ensures option.None? ==> f == DefaultFolder
    ensures option.Some? ==> f == option.value
  {
    if option.Some? then option.value else DefaultFolder
  }

  /** How a template literal or `FormData.append` renders a setting that may be undefined. */
  function EnvText(v: Option<string>): string {
    if v.Some? then v.value else "undefined"
  }

  function UploadUrl(cloudName: string): string {
    "https://api.cloudinary.com/v1_1/" + cloudName + "/image/upload"
  }

  /** The form: `file`, then `upload_preset`, then `folder`. */
  function UploadForm(file: File, preset: string, folder: string): (form: seq<FormEntry>)
    ensures |form| == 3
    ensures form[0] == FileEntry("file", file)
    ensures form[1] == TextEntry("upload_preset", preset)
    ensures form[2] == TextEntry("folder", folder)
  {
    [FileEntry("file", file), TextEntry("upload_preset", preset), TextEntry("folder", folder)]
  }

  predicate Configured(config: UploadConfig) {
    TruthyOpt(config.cloudName) && TruthyOpt(config.uploadPreset)
  }

  /**
   * The hook's `mutationFn`. Without configuration it fails before any
   * request; otherwise it sends the form and fails on a rejected request, on
   * a reply that is not ok, on an ok reply whose body is not JSON, and on a
   * reply without a (non-empty) `secure_url`; on success it returns exactly
   * that URL.
   */
  method UploadImage(config: UploadConfig, folder: Option<string>, file: File, reply: HostReply)
    returns (request: Option<UploadRequest>, result: Result<string, Error>)
    ensures request.Some? <==> Configured(config)
    ensures !Configured(config) ==> result == Err(PlainError(ConfigMissingMessage))
    ensures request.Some? ==>
      request.value == UploadRequest(UploadUrl(config.cloudName.value), UploadForm(file, config.uploadPreset.value, Folder(folder)))
    ensures Configured(config) && reply.NetworkFailure? ==> result == Err(Error("TypeError", reply.message, None))
    ensures Configured(config) && !reply.NetworkFailure? && !reply.ok ==> result == Err(PlainError(UploadFailedMessage))
    ensures Configured(config) && reply.Unparsable? && reply.ok ==> result == Err(Error("SyntaxError", reply.message, None))
    ensures Configured(config) && reply.Replied? && reply.ok && !TruthyOpt(reply.secureUrl) ==>
      result == Err(PlainError(NoUrlMessage))
    ensures result.Ok? <==> Configured(config) && reply.Replied? && reply.ok && TruthyOpt(reply.secureUrl)
    ensures result.Ok? ==> result.value == reply.secureUrl.value
  {
    if !TruthyOpt(config.cloudName) || !TruthyOpt(config.uploadPreset) {
      request := None;
      result := Err(PlainError(ConfigMissingMessage));
      return;
    }
    var form: seq<FormEntry> := [];
    form := form + [FileEntry("file", file)];
    form := form + [TextEntry("upload_preset", config.uploadPreset.value)];
    form := form + [TextEntry("folder", Folder(folder))];
    request := Some(UploadRequest(UploadUrl(config.cloudName.value), form));
    if reply.NetworkFailure? {
      result := Err(Error("TypeError", reply.message, None));
      return;
    }
    if !reply.ok {
      result := Err(PlainError(UploadFailedMessage));
      return;
    }
    if reply.Unparsable? {
      result := Err(Error("SyntaxError", reply.message, None));
      return;
    }
    if !TruthyOpt(reply.secureUrl) {
      result := Err(PlainError(NoUrlMessage));
      return;
    }
    result := Ok(reply.secureUrl.value);
  }

  /** The hook's error toast: the error's message, or the default when it is empty. */
  function UploadErrorToast(e: Error): (msg: string)
    ensures Truthy(e.message) ==> msg == e.message
    ensures !Truthy(e.message) ==> msg == DefaultUploadToast
  {
    OrElse(e.message, DefaultUploadToast)
  }
}
