/**
 * The profile page: editing the display name and picture of the signed-in
 * user, saving with a non-blank check, and cancelling back to the stored
 * record. The record is a property the root controller passes in: after a
 * save it passes the updated record to the same, still mounted, page.
 */
module Profile {
  import opened JsStrings
  import opened Wrappers
  import opened Types
  import Header

  /** A picture the user picked, with the object URL made for it. */
  datatype ImageFile = ImageFile(objectUrl: string)

  const NameEmpty := "Name cannot be empty."

  /** The record `handleSave` hands on: the stored user with the trimmed
      name and the current preview. */
  function SavedUser(user: User, name: string, previewUrl: Option<string>): (u: User)
    requires Trim(name) != ""
    ensures u.email == user.email && u.profileImageUrl == previewUrl
    ensures u.name == Trim(name)
    ensures u.name != "" && IsTrimmed(u.name) && u.name == Trim(u.name)
    ensures Header.InitialsAsWritten(u.name) == Header.Initials(u.name)
  {
    TrimIdempotent(Trim(name));
    Header.TrimmedNameInitials(Trim(name));
    user.(name := Trim(name), profileImageUrl := previewUrl)
  }

  class ProfilePage {
    var user: User
    var isEditing: bool
    var name: string
    var nameError: string
    var profileImageFile: Option<ImageFile>
    var previewUrl: Option<string>

    /** The form as the stored record sets it. */
    predicate Pristine()
      reads this
    {
      name == user.name && nameError == "" && profileImageFile == None && previewUrl == user.profileImageUrl
    }

    constructor (u: User)
      ensures user == u && !isEditing && Pristine()
    {
      user := u;
      isEditing := false;
      name := u.name;
      nameError := "";
      profileImageFile := None;
      previewUrl := u.profileImageUrl;
    }

    /** The root controller renders the page again with a new record (after
        `handleProfileUpdate`); the page stays mounted, so its form keeps
        its state. */
    method UserChanged(u: User)
      modifies this`user
      ensures user == u
    {
      user := u;
    }

    /** The 'Edit Profile' button. */
    method StartEditing()
      modifies this`isEditing
      ensures isEditing
    {
      isEditing := true;
    }

    /** `handleImageChange`: a picked file becomes the selection and its
        object URL the preview; no file changes nothing. */
    method ChangeImage(picked: Option<ImageFile>)
      modifies this`profileImageFile, this`previewUrl
      ensures picked.None? ==> profileImageFile == old(profileImageFile) && previewUrl == old(previewUrl)
      ensures picked.Some? ==> profileImageFile == picked && previewUrl == Some(picked.value.objectUrl)
    {
      if picked.Some? {
        profileImageFile := picked;
        previewUrl := Some(picked.value.objectUrl);
      }
    }

    /** `handleSave`: a name that is blank after trimming sets the message
        and keeps editing; otherwise the message is cleared, the updated
        record is handed on, and editing ends. */
    method Save() returns (updated: Option<User>)
      modifies this`nameError, this`isEditing
      ensures updated.None? <==> Trim(name) == ""
      ensures updated.None? ==> nameError == NameEmpty && isEditing == old(isEditing)
      ensures updated.Some? ==> updated.value == SavedUser(user, name, previewUrl)
      ensures updated.Some? ==> nameError == "" && !isEditing
    {
      if Trim(name) == "" {
        nameError := NameEmpty;
        return None;
      }
      nameError := "";
      updated := Some(SavedUser(user, name, previewUrl));
      isEditing := false;
    }

    /** `handleCancel`: everything goes back to the stored record. */
    method Cancel()
      modifies this`name, this`nameError, this`profileImageFile, this`previewUrl, this`isEditing
      ensures Pristine() && !isEditing
    {
      name := user.name;
      nameError := "";
      profileImageFile := None;
      previewUrl := user.profileImageUrl;
      isEditing := false;
    }

    /** `handleNameChange`: the typed value is taken and any message
        cleared. */
    method ChangeName(value: string)
      modifies this`name, this`nameError
      ensures name == value && nameError == ""
    {
      name := value;
      if nameError != "" {
        nameError := "";
      }
    }
  }

  /** Edit and save a name, let the root controller store the saved record,
      then edit again and cancel: the form shows the saved name and picture,
      not the ones the page was opened with. */
  method SaveThenCancelFlow(u: User, first: string, second: string)
      returns (saved: Option<User>, shownName: string, shownPicture: Option<string>, editing: bool)
    requires Trim(first) != ""
    ensures saved == Some(SavedUser(u, first, u.profileImageUrl))
    ensures shownName == Trim(first) && shownPicture == u.profileImageUrl && !editing
  {
    var page := new ProfilePage(u);
    var su := EditAndSave(page, first);
    saved := Some(su);
    EditAndCancel(page, second);
    shownName, shownPicture, editing := page.name, page.previewUrl, page.isEditing;
  }

  /** Edit the name, save, and have the saved record passed back in. */
  method EditAndSave(page: ProfilePage, first: string) returns (saved: User)
    requires Trim(first) != ""
    modifies page
    ensures saved == SavedUser(old(page.user), first, old(page.previewUrl))
    ensures page.user == saved && !page.isEditing
  {
    var before, preview := page.user, page.previewUrl;
    page.StartEditing();
    page.ChangeName(first);
    assert page.name == first && page.user == before && page.previewUrl == preview;
    var updated := page.Save();
    assert updated == Some(SavedUser(before, first, preview));
    saved := updated.value;
    page.UserChanged(saved);
  }

  /** Edit the name, then cancel: the form is back to the current record. */
  method EditAndCancel(page: ProfilePage, second: string)
    modifies page
    ensures page.user == old(page.user) && page.Pristine() && !page.isEditing
  {
    page.StartEditing();
    page.ChangeName(second);
    page.Cancel();
  }
}
