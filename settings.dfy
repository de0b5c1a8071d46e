/** The settings page (`src/pages/Settings.jsx`): the profile loaded for the signed-in user, the
    password change with its two checks, and the photo upload. */
module Settings {
  import opened Js
  import opened Http
  import opened Browser

  const DefaultPhoto := "/profile/profile-pic.png"
  const MismatchText := "New passwords do not match"
  const TooShortText := "Password must be at least 8 characters long"
  const ChangedText := "Password changed successfully"
  const ChangeFailedText := "Failed to change password"
  const MinPasswordLength := 8

  /** The seven fields of the profile form. */
  const ProfileKeys: set<string> := {"name", "lastName", "email", "phone", "department", "location", "photo"}

  /** The profile as the page first shows it: empty fields and the default picture. */
  function DefaultProfile(): Record {
    map k | k in ProfileKeys :: if k == "photo" then Str(DefaultPhoto) else Str("")
  }

  /** The profile built from the `/me` response: six fields copied as they are, and the photo
      falling back to the default picture when the server's is falsy. */
  function ProfileFrom(data: Record): (r: Record)
    ensures r.Keys == ProfileKeys
    ensures forall k :: k in r && k != "photo" ==> r[k] == Get(data, k)
    ensures Truthy(Get(data, "photo")) ==> Get(r, "photo") == Get(data, "photo")
    ensures !Truthy(Get(data, "photo")) ==> Get(r, "photo") == Str(DefaultPhoto)
    ensures Truthy(Get(r, "photo"))
  {
    map k | k in ProfileKeys :: if k == "photo" then Or(Get(data, "photo"), Str(DefaultPhoto)) else Get(data, k)
  }

  /** The three password inputs. */
  datatype Passwords = Passwords(currentPassword: string, newPassword: string, confirmPassword: string)

  const EmptyPasswords := Passwords("", "", "")

  /** The two checks of `handlePasswordSubmit`, the match check first. `None` lets the request go. */
  function PasswordError(p: Passwords): (r: Option<string>)
    ensures r == Some(MismatchText) <==> p.newPassword != p.confirmPassword
    ensures r == Some(TooShortText) <==> p.newPassword == p.confirmPassword && |p.newPassword| < MinPasswordLength
    ensures r.None? <==> p.newPassword == p.confirmPassword && |p.newPassword| >= MinPasswordLength
  {
    if p.newPassword != p.confirmPassword then Some(MismatchText)
    else if |p.newPassword| < MinPasswordLength then Some(TooShortText)
    else None
  }

  /** After a successful change the form is empty again, and submitting it unchanged is refused
      as too short. */
  lemma ResetFormIsRefused()
    ensures PasswordError(EmptyPasswords) == Some(TooShortText)
  {
  }

  class SettingsPage {
    /** The browser state the page reads the token from. */
    const env: Env
    var isLoading: bool
    var isSubmitting: bool
    var profileData: Record
    var passwordData: Passwords

    constructor (env: Env)
      ensures this.env == env
      ensures isLoading && !isSubmitting && profileData == DefaultProfile() && passwordData == EmptyPasswords
    {
      this.env := env;
      isLoading, isSubmitting := true, false;
      profileData := DefaultProfile();
      passwordData := Passwords("", "", "");
    }

    /** `loadUserData`. Without a truthy stored token no request is made (`authHeader` is `None`) and
        the profile stays; with one, the request carries `Bearer <token>` and a successful reply
        replaces the whole profile. Loading ends either way. */
    method LoadUserData(reply: Reply<Record>) returns (authHeader: Option<string>)
      modifies this
      ensures !isLoading
      ensures StoredToken(env.storage).None? ==> authHeader == None && profileData == old(profileData)
      ensures StoredToken(env.storage).Some? ==> authHeader == Some(Bearer(StoredToken(env.storage).value))
      ensures StoredToken(env.storage).Some? && reply.Ok? ==> profileData == ProfileFrom(reply.data)
      ensures reply.Fail? ==> profileData == old(profileData)
      ensures isSubmitting == old(isSubmitting) && passwordData == old(passwordData)
    {
      isLoading := true;
      authHeader := None;
      if "token" in env.storage && env.storage["token"] != "" {
        var token := env.storage["token"];
        authHeader := Some("Bearer " + token);
        match reply {
          case Ok(data) =>
            profileData := ProfileFrom(data);
          case Fail(_) =>
        }
      }
      isLoading := false;
    }

    /** `handlePasswordSubmit`. A failed check returns at once with its message, before
        `isSubmitting` is touched. Otherwise the request is sent (`sent`); the form is emptied only when
        the server accepts the change. `ok` is whether the request succeeded with an OK status. */
    method PasswordSubmit(ok: bool) returns (sent: bool, message: string)
      modifies this
      ensures PasswordError(old(passwordData)).Some? ==>
                !sent && message == PasswordError(old(passwordData)).value
                && isSubmitting == old(isSubmitting) && passwordData == old(passwordData)
      ensures PasswordError(old(passwordData)).None? ==>
                sent && !isSubmitting
                && (ok ==> passwordData == EmptyPasswords && message == ChangedText)
                && (!ok ==> passwordData == old(passwordData) && message == ChangeFailedText)
      ensures isLoading == old(isLoading) && profileData == old(profileData)
    {
      var p := passwordData;
      if p.newPassword != p.confirmPassword {
        return false, MismatchText;
      }
      if |p.newPassword| < MinPasswordLength {
        return false, TooShortText;
      }
      isSubmitting := true;
      sent := true;
      if ok {
        message := ChangedText;
        passwordData := Passwords("", "", "");
      } else {
        message := ChangeFailedText;
      }
      isSubmitting := false;
    }

    /** `handlePhotoChange`: with a selected file and a successful upload, only the `photo` field of
        the profile takes the server's value; otherwise nothing changes. */
    method PhotoChange(files: seq<nat>, reply: Reply<Record>)
      modifies this`profileData
      ensures files != [] && reply.Ok? ==> Assigned(profileData, old(profileData), "photo", Get(reply.data, "photo"))
      ensures files == [] || reply.Fail? ==> profileData == old(profileData)
    {
      if |files| > 0 {
        match reply {
          case Ok(data) =>
            profileData := profileData["photo" := Get(data, "photo")];
          case Fail(_) =>
        }
      }
    }
  }
}
