/**
 * The profile controller of `ProfilePage`: the edit draft (`phone`,
 * `password`, `selectedFile`) and `isEditing`, entering edit mode, the save
 * that composes one partial update from three optional sources (uploading a
 * selected photo to the image host first), and the resets after a
 * successful update and on cancel. The loaded profile, the build-time
 * settings and the image host's reply are parameters.
 */
module Profile {
  import opened Common
  import opened Api
  import opened ImageUpload
  import opened QueryCache

  /** How a save ends: the photo upload failed, there was nothing to send, or one update was sent. */
  datatype SaveOutcome = UploadAborted | NothingToSave | Submitted(update: ProfileUpdate)

  const UploadFailedToast := "Gagal mengupload foto."
  const DefaultUpdateError := "Gagal memperbarui profil"
  const UpdatedToast := "Profil berhasil diperbarui!"

  /** `profile?.data.phone`: undefined while the profile is not loaded. */
  function ProfilePhone(profile: Option<ProfileData>): Option<string> {
    if profile.Some? then profile.value.phone else None
  }

  /**
   * `phone && phone !== profile?.data.phone`: a non-empty phone counts as a
   * change unless the loaded profile has that very phone.
   */
  function PhoneChanged(phone: string, profile: Option<ProfileData>): (changed: bool)
    ensures changed <==> phone != "" && (profile.None? || profile.value.phone != Some(phone))
  {
    Truthy(phone) && Some(phone) != ProfilePhone(profile)
  }

  /** The save's own upload counts as done when the host's JSON carries a truthy `secure_url`. */
  predicate HostGaveUrl(reply: HostReply) {
    reply.Replied? && TruthyOpt(reply.secureUrl)
  }

  /** The toast after a failed update: the error's message, or the default when it is empty. */
  function UpdateErrorToast(e: Error): (msg: string)
    ensures Truthy(e.message) ==> msg == e.message
    ensures !Truthy(e.message) ==> msg == DefaultUpdateError
  {
    OrElse(e.message, DefaultUpdateError)
  }

  class ProfilePage {
    var isEditing: bool
    var phone: string
    var password: string
    var selectedFile: Option<File>

    /** Outside edit mode there is no pending password and no pending photo. */
    ghost predicate Valid()
      reads this
    {
      !isEditing ==> password == "" && selectedFile.None?
    }

    constructor ()
      ensures Valid() && !isEditing && phone == "" && password == "" && selectedFile.None?
    {
      isEditing := false;
      phone := "";
      password := "";
      selectedFile := None;
    }

    /** The Edit button: edit mode with the phone taken from the profile, or empty. */
    method StartEditing(profile: Option<ProfileData>)
      requires Valid()
      modifies this
      ensures Valid() && isEditing
      ensures phone == OptOrElse(ProfilePhone(profile), "")
      ensures password == old(password) && selectedFile == old(selectedFile)
    {
      isEditing := true;
      phone := OptOrElse(ProfilePhone(profile), "");
    }

    /** Typing in the phone field, which is enabled only in edit mode. */
    method SetPhone(value: string)
      requires Valid() && isEditing
      modifies this
      ensures Valid() && isEditing && phone == value
      ensures password == old(password) && selectedFile == old(selectedFile)
    {
      phone := value;
    }

    /** Typing in the password field, which is shown only in edit mode. */
    method SetPassword(value: string)
      requires Valid() && isEditing
      modifies this
      ensures Valid() && isEditing && password == value
      ensures phone == old(phone) && selectedFile == old(selectedFile)
    {
      password := value;
    }

    /** `onFileSelect`, called by the picker, whose input is shown only in edit mode. */
    method SelectFile(file: File)
      requires Valid() && isEditing
      modifies this
      ensures Valid() && isEditing && selectedFile == Some(file)
      ensures phone == old(phone) && password == old(password)
    {
      selectedFile := Some(file);
    }

    /**
     * `handleSave`. `upload` is the request sent to the image host, if any;
     * `reply` is the host's answer, used only when a photo is selected;
     * `toast` is shown when the upload fails. The draft itself is left as it
     * is in every case, so a failed save can be retried.
     */
    method HandleSave(profile: Option<ProfileData>, config: UploadConfig, reply: HostReply)
      returns (upload: Option<UploadRequest>, outcome: SaveOutcome, toast: Option<string>)
      ensures upload.Some? <==> selectedFile.Some?
      ensures upload.Some? ==>
        upload.value == UploadRequest(UploadUrl(EnvText(config.cloudName)),
                                      UploadForm(selectedFile.value, EnvText(config.uploadPreset), DefaultFolder))
      ensures outcome == UploadAborted <==> selectedFile.Some? && !HostGaveUrl(reply)
      ensures toast.Some? <==> outcome == UploadAborted
      ensures toast.Some? ==> toast.value == UploadFailedToast
      ensures outcome == NothingToSave <==> selectedFile.None? && !PhoneChanged(phone, profile) && !Truthy(password)
      ensures outcome.Submitted? ==> !IsEmptyUpdate(outcome.update)
      ensures outcome.Submitted? ==> outcome.update.phone == (if PhoneChanged(phone, profile) then Some(phone) else None)
      ensures outcome.Submitted? ==> outcome.update.password == (if Truthy(password) then Some(password) else None)
      ensures outcome.Submitted? ==> outcome.update.photoUrl == (if selectedFile.Some? then reply.secureUrl else None)
    {
      var updates := ProfileUpdate(None, None, None);
      upload := None;
      toast := None;

      if PhoneChanged(phone, profile) {
        updates := updates.(phone := Some(phone));
      }

      if Truthy(password) {
        updates := updates.(password := Some(password));
      }

      if selectedFile.Some? {
        var form := UploadForm(selectedFile.value, EnvText(config.uploadPreset), DefaultFolder);
        upload := Some(UploadRequest(UploadUrl(EnvText(config.cloudName)), form));
        if HostGaveUrl(reply) {
          updates := updates.(photoUrl := reply.secureUrl);
        } else {
          toast := Some(UploadFailedToast);
          outcome := UploadAborted;
          return;
        }
      }

      if IsEmptyUpdate(updates) {
        outcome := NothingToSave;
        return;
      }

      outcome := Submitted(updates);
    }

    /** The update's `onSuccess`: leave edit mode, drop password and photo, mark the profile stale. */
    method OnUpdateSuccess(client: QueryClient) returns (toast: string)
      requires client.Valid()
      modifies this, client
      ensures Valid() && !isEditing && password == "" && selectedFile.None? && phone == old(phone)
      ensures client.Valid() && client.cached == old(client.cached)
      ensures client.stale == old(client.stale) + Matching(client.cached, ProfileKey)
      ensures toast == UpdatedToast
    {
      client.InvalidateQueries(ProfileKey);
      isEditing := false;
      password := "";
      selectedFile := None;
      toast := UpdatedToast;
    }

    /** `handleCancel`: leave edit mode, drop password and photo; the phone draft is kept. */
    method HandleCancel()
      modifies this
      ensures Valid() && !isEditing && password == "" && selectedFile.None? && phone == old(phone)
    {
      isEditing := false;
      password := "";
      selectedFile := None;
    }
  }
}
