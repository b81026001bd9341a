/**
 * The account-settings page component (src/app/account/page.tsx) as an
 * object: its React state hooks are fields, and each event handler is a
 * method that updates them step by step, as the component does. Every
 * handler is proved to end in the state its step function in `Account`
 * describes, so the properties proved there hold of the component.
 */
module AccountComponent {
  import opened Wrappers
  import opened JsText
  import opened Account

  class AccountPage {
    var user: Option<User>
    var loading: bool
    var saving: bool
    var message: Option<Toast>
    var formName: string
    var passwordData: PasswordForm
    var uploadingAvatar: bool
    var resendingEmail: bool
    /** The API calls issued so far, oldest first. */
    var requests: seq<ApiCall>
    /** The `router.push` targets so far, oldest first. */
    var navigations: seq<string>

    /** The whole state of the component as a value. */
    function State(): PageState
      reads this
    {
      PageState(user, loading, saving, message, formName, passwordData,
                uploadingAvatar, resendingEmail, requests, navigations)
    }

    /** The state hooks' initial values. */
    constructor ()
      ensures State() == Initial
    {
      user, loading, saving, message := None, true, false, None;
      formName, passwordData := "", PasswordForm("", "", "");
      uploadingAvatar, resendingEmail := false, false;
      requests, navigations := [], [];
    }

    /** `showMsg`: sets the toast (its timed clearing is not modelled). */
    method ShowMsg(kind: ToastKind, text: string)
      modifies this`message
      ensures message == Some(Toast(kind, text))
    {
      message := Some(Toast(kind, text));
    }

    /** Issues one API call. */
    method Send(call: ApiCall)
      modifies this`requests
      ensures requests == old(requests) + [call]
    {
      requests := requests + [call];
    }

    /** `router.push(path)`. */
    method Push(path: string)
      modifies this`navigations
      ensures navigations == old(navigations) + [path]
    {
      navigations := navigations + [path];
    }

    /** The effect run on mount. */
    method FetchUser(reply: AuthReply)
      modifies this
      ensures State() == Account.FetchUser(old(State()), reply)
    {
      Send(CheckAuth);
      match reply {
        case AuthThrew =>
          Push(LoginPath);
        case AuthAnswered(ok, isAuthenticated, u) =>
          if !ok {
            Push(LoginPath);
          } else if !isAuthenticated || u.None? {
            Push(LoginPath);
          } else {
            user := u;
            formName := u.value.name;
          }
      }
      loading := false;
    }

    method HandleSaveProfile(reply: Reply)
      modifies this
      ensures State() == Account.SaveProfile(old(State()), reply)
    {
      if Trim(formName) == [] {
        ShowMsg(Error, NameEmptyText);
        return;
      }
      SubmitProfile(reply);
    }

    /** The `try`/`finally` block of the profile handler: send the name, apply the reply. */
    method SubmitProfile(reply: Reply)
      modifies this
      ensures State() == Account.SendProfile(old(State()), reply)
    {
      var name := formName;
      saving := true;
      Send(PostProfile(name));
      match reply {
        case Ok =>
          user := RenameUser(user, name);
          ShowMsg(Success, ProfileSavedText);
        case NotOk =>
          ShowMsg(Error, ProfileFailedText);
        case Threw =>
          ShowMsg(Error, ErrorOccurredText);
      }
      saving := false;
    }

    method HandleUpdatePassword(reply: PasswordReply)
      modifies this
      ensures State() == Account.UpdatePassword(old(State()), reply)
    {
      if Utf16Length(passwordData.newPassword) < MinPasswordLength {
        ShowMsg(Error, PasswordTooShortText);
        return;
      }
      if passwordData.newPassword != passwordData.confirm {
        ShowMsg(Error, PasswordMismatchText);
        return;
      }
      SubmitPassword(reply);
    }

    /** The `try`/`finally` block of the password handler: send both passwords, apply the reply. */
    method SubmitPassword(reply: PasswordReply)
      modifies this
      ensures State() == Account.SendPassword(old(State()), reply)
    {
      saving := true;
      Send(PostPassword(passwordData.current, passwordData.newPassword));
      match reply {
        case PasswordThrew =>
          ShowMsg(Error, ErrorOccurredText);
        case PasswordAnswered(ok, error) =>
          if ok {
            passwordData := PasswordForm("", "", "");
            ShowMsg(Success, PasswordSavedText);
          } else {
            ShowMsg(Error, PasswordFailureText(error));
          }
      }
      saving := false;
    }

    method HandleLogout(reply: Reply)
      modifies this
      ensures State() == Account.Logout(old(State()), reply)
    {
      Send(PostLogout);
      if reply == Threw {
        ShowMsg(Error, LogoutFailedText);
      } else {
        Push(HomePath);
      }
    }

    /** `confirmed` is the answer of the browser's confirmation dialog. */
    method HandleDeleteAccount(confirmed: bool, reply: Reply)
      modifies this
      ensures State() == Account.DeleteAccount(old(State()), confirmed, reply)
    {
      if !confirmed {
        return;
      }
      saving := true;
      Send(PostDeleteAccount);
      match reply {
        case Ok =>
          Push(HomePath);
        case NotOk =>
          ShowMsg(Error, DeleteFailedText);
        case Threw =>
          ShowMsg(Error, ErrorOccurredText);
      }
      saving := false;
    }

    /** `file` is the first file of the input, if any. */
    method HandleAvatarUpload(file: Option<File>, reply: AvatarReply)
      modifies this
      ensures State() == Account.UploadAvatar(old(State()), file, reply)
    {
      if file.None? {
        return;
      }
      var f := file.value;
      if !StartsWith(f.mimeType, ImagePrefix) {
        ShowMsg(Error, NotAnImageText);
        return;
      }
      if f.size > MaxAvatarBytes {
        ShowMsg(Error, ImageTooLargeText);
        return;
      }
      SubmitAvatar(f, reply);
    }

    /** The `try`/`finally` block of the avatar handler: upload the file, apply the reply. */
    method SubmitAvatar(f: File, reply: AvatarReply)
      modifies this
      ensures State() == Account.SendAvatar(old(State()), f, reply)
    {
      uploadingAvatar := true;
      Send(PostAvatar(f));
      match reply {
        case AvatarStored(url) =>
          user := SetAvatar(user, url);
          ShowMsg(Success, AvatarSavedText);
        case AvatarRejected =>
          ShowMsg(Error, AvatarFailedText);
        case AvatarThrew =>
          ShowMsg(Error, ErrorOccurredText);
      }
      uploadingAvatar := false;
    }

    method HandleResendVerification(reply: Reply)
      modifies this
      ensures State() == Account.ResendVerification(old(State()), reply)
    {
      resendingEmail := true;
      Send(PostSendVerification);
      match reply {
        case Ok =>
          ShowMsg(Success, VerificationSentText);
        case NotOk =>
          ShowMsg(Error, VerificationFailedText);
        case Threw =>
          ShowMsg(Error, ErrorOccurredText);
      }
      resendingEmail := false;
    }

    /** The name input's `onChange`. */
    method EditName(text: string)
      modifies this
      ensures State() == Apply(old(State()), TypeName(text))
    {
      formName := text;
    }

    /** The current-password input's `onChange`. */
    method EditCurrentPassword(text: string)
      modifies this
      ensures State() == Apply(old(State()), TypeCurrentPassword(text))
    {
      passwordData := passwordData.(current := text);
    }

    /** The new-password input's `onChange`. */
    method EditNewPassword(text: string)
      modifies this
      ensures State() == Apply(old(State()), TypeNewPassword(text))
    {
      passwordData := passwordData.(newPassword := text);
    }

    /** The confirmation input's `onChange`. */
    method EditConfirmPassword(text: string)
      modifies this
      ensures State() == Apply(old(State()), TypeConfirmPassword(text))
    {
      passwordData := passwordData.(confirm := text);
    }
  }
}
