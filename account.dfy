/**
 * The account-settings page (src/app/account/page.tsx) as a state machine on
 * values: the page's state, the client-side validation rules, and one step
 * function per event handler. Everything the page learns from the outside
 * (a response's status and body, whether `fetch` threw, the answer to the
 * confirmation dialog, the chosen file) is an argument of the step. The
 * `fetch` calls a handler issues are appended to `requests`, and every
 * `router.push` to `navigations`, so that "sends no request" and "goes to
 * the login page" are statements about the state.
 */
module Account {
  import opened Wrappers
  import opened JsText

  /** The signed-in user as the page holds it; absent and `null` optional fields are both `None`. */
  datatype User = User(
    id: string,
    name: string,
    email: string,
    avatarUrl: Option<string>,
    emailVerified: Option<bool>,
    createdAt: Option<string>,
    lastLoginAt: Option<string>)

  datatype ToastKind = Success | Error

  /** The toast set by `showMsg`. */
  datatype Toast = Toast(kind: ToastKind, text: string)

  /** The three fields of the password form: current, new and confirmation. */
  datatype PasswordForm = PasswordForm(current: string, newPassword: string, confirm: string)

  /** The part of a picked file the page looks at: its MIME type and its size in bytes. */
  datatype File = File(mimeType: string, size: nat)

  /** The API calls the page makes. */
  datatype ApiCall =
    | CheckAuth
    | PostProfile(name: string)
    | PostPassword(currentPassword: string, newPassword: string)
    | PostAvatar(file: File)
    | PostSendVerification
    | PostDeleteAccount
    | PostLogout

  /** How a plain request ended: a response with an ok status, one without, or a thrown error. */
  datatype Reply = Ok | NotOk | Threw

  /** The answer of the session check: a thrown error, or the status and the JSON fields read. */
  datatype AuthReply =
    | AuthThrew
    | AuthAnswered(ok: bool, isAuthenticated: bool, user: Option<User>)

  /** The answer of the password update, whose JSON body is read before the status is looked at. */
  datatype PasswordReply =
    | PasswordThrew
    | PasswordAnswered(ok: bool, error: Option<string>)

  /** The answer of the avatar upload: the returned `avatarUrl` on success. */
  datatype AvatarReply = AvatarThrew | AvatarRejected | AvatarStored(avatarUrl: Option<string>)

  /** All the state of the page component. */
  datatype PageState = PageState(
    user: Option<User>,
    loading: bool,
    saving: bool,
    message: Option<Toast>,
    formName: string,
    passwords: PasswordForm,
    uploadingAvatar: bool,
    resendingEmail: bool,
    requests: seq<ApiCall>,
    navigations: seq<string>)

  const LoginPath: string := "/login"
  const HomePath: string := "/"
  const MinPasswordLength: nat := 8
  const MaxAvatarBytes: nat := 5 * 1024 * 1024
  const ImagePrefix: string := "image/"

  const NameEmptyText: string := "Name cannot be empty"
  const ProfileSavedText: string := "Profile updated successfully"
  const ProfileFailedText: string := "Failed to update profile"
  const ErrorOccurredText: string := "An error occurred"
  const PasswordTooShortText: string := "New password must be at least 8 characters"
  const PasswordMismatchText: string := "Passwords do not match"
  const PasswordSavedText: string := "Password updated successfully"
  const PasswordFailedText: string := "Failed to update password"
  const LogoutFailedText: string := "Failed to logout"
  const DeleteFailedText: string := "Failed to delete account"
  const NotAnImageText: string := "Please upload an image file"
  const ImageTooLargeText: string := "Image must be less than 5MB"
  const AvatarSavedText: string := "Profile picture updated"
  const AvatarFailedText: string := "Failed to upload image"
  const VerificationSentText: string := "Verification email sent. Check your inbox!"
  const VerificationFailedText: string := "Failed to send verification email"

  /** The state when the page mounts. */
  const Initial: PageState :=
    PageState(None, true, false, None, "", PasswordForm("", "", ""), false, false, [], [])

  // ---------------------------------------------------------------- validation

  /** The profile form's rule: the name must contain something besides whitespace. */
  function NameError(name: string): (e: Option<string>)
    ensures e.None? <==> !AllWhitespace(name)
    ensures e.Some? ==> e.value == NameEmptyText
  {
    if Trim(name) == [] then Some(NameEmptyText) else None
  }

  /**
   * The password form's rules, length first: a new password shorter than 8
   * UTF-16 code units is refused whatever the confirmation says; a long
   * enough one must equal its confirmation.
   */
  function PasswordError(form: PasswordForm): (e: Option<string>)
    ensures e.None? <==>
      Utf16Length(form.newPassword) >= MinPasswordLength && form.newPassword == form.confirm
    ensures Utf16Length(form.newPassword) < MinPasswordLength ==> e == Some(PasswordTooShortText)
    ensures Utf16Length(form.newPassword) >= MinPasswordLength && form.newPassword != form.confirm
      ==> e == Some(PasswordMismatchText)
  {
    if Utf16Length(form.newPassword) < MinPasswordLength then Some(PasswordTooShortText)
    else if form.newPassword != form.confirm then Some(PasswordMismatchText)
    else None
  }

  /**
   * The avatar rules, type first: the MIME type must start with `image/`,
   * and then the size must not exceed 5 MiB.
   */
  function AvatarError(file: File): (e: Option<string>)
    ensures e.None? <==> StartsWith(file.mimeType, ImagePrefix) && file.size <= 5242880
    ensures !StartsWith(file.mimeType, ImagePrefix) ==> e == Some(NotAnImageText)
    ensures StartsWith(file.mimeType, ImagePrefix) && file.size > 5242880 ==> e == Some(ImageTooLargeText)
  {
    if !StartsWith(file.mimeType, ImagePrefix) then Some(NotAnImageText)
    else if file.size > MaxAvatarBytes then Some(ImageTooLargeText)
    else None
  }

  /** `data.error || "Failed to update password"`: the server's text unless it is missing or empty. */
  function PasswordFailureText(error: Option<string>): (text: string)
    ensures text != ""
    ensures error.Some? && error.value != "" ==> text == error.value
    ensures !(error.Some? && error.value != "") ==> text == PasswordFailedText
  {
    if error.Some? && error.value != "" then error.value else PasswordFailedText
  }

  // ---------------------------------------------------------------- steps

  /** `showMsg(kind, text)`: only the toast changes. */
  function ShowMsg(s: PageState, kind: ToastKind, text: string): PageState
  {
    s.(message := Some(Toast(kind, text)))
  }

  function Navigate(s: PageState, path: string): PageState
  {
    s.(navigations := s.navigations + [path])
  }

  function Issue(s: PageState, call: ApiCall): PageState
  {
    s.(requests := s.requests + [call])
  }

  /** `setUser(prev => prev ? { ...prev, name } : null)`. */
  function RenameUser(user: Option<User>, name: string): Option<User>
  {
    if user.Some? then Some(user.value.(name := name)) else None
  }

  /** `setUser(prev => prev ? { ...prev, avatarUrl } : null)`. */
  function SetAvatar(user: Option<User>, avatarUrl: Option<string>): Option<User>
  {
    if user.Some? then Some(user.value.(avatarUrl := avatarUrl)) else None
  }

  /** The initial load: ask who is signed in; go to the login page unless a user comes back. */
  function FetchUser(s: PageState, reply: AuthReply): PageState
  {
    var asked := Issue(s, CheckAuth);
    var after :=
      match reply
      case AuthThrew => Navigate(asked, LoginPath)
      case AuthAnswered(ok, isAuthenticated, user) =>
        if !ok || !isAuthenticated || user.None? then Navigate(asked, LoginPath)
        else asked.(user := user, formName := user.value.name);
    after.(loading := false)
  }

  /** Submitting the profile form. */
  function SaveProfile(s: PageState, reply: Reply): PageState
  {
    if NameError(s.formName).Some? then ShowMsg(s, Error, NameEmptyText)
    else SendProfile(s, reply)
  }

  /** The request half of submitting the profile form, once the name is accepted. */
  function SendProfile(s: PageState, reply: Reply): PageState
  {
    var sent := Issue(s.(saving := true), PostProfile(s.formName));
    var after :=
      match reply
      case Ok => ShowMsg(sent.(user := RenameUser(sent.user, s.formName)), Success, ProfileSavedText)
      case NotOk => ShowMsg(sent, Error, ProfileFailedText)
      case Threw => ShowMsg(sent, Error, ErrorOccurredText);
    after.(saving := false)
  }

  /** Submitting the password form. */
  function UpdatePassword(s: PageState, reply: PasswordReply): PageState
  {
    match PasswordError(s.passwords)
    case Some(text) => ShowMsg(s, Error, text)
    case None => SendPassword(s, reply)
  }

  /** The request half of submitting the password form, once the new password is accepted. */
  function SendPassword(s: PageState, reply: PasswordReply): PageState
  {
    var sent := Issue(s.(saving := true), PostPassword(s.passwords.current, s.passwords.newPassword));
    var after :=
      match reply
      case PasswordThrew => ShowMsg(sent, Error, ErrorOccurredText)
      case PasswordAnswered(ok, error) =>
        if ok then ShowMsg(sent.(passwords := PasswordForm("", "", "")), Success, PasswordSavedText)
        else ShowMsg(sent, Error, PasswordFailureText(error));
    after.(saving := false)
  }

  /** The logout button: any response, ok or not, leads home; only a thrown error stays. */
  function Logout(s: PageState, reply: Reply): PageState
  {
    var sent := Issue(s, PostLogout);
    if reply == Threw then ShowMsg(sent, Error, LogoutFailedText) else Navigate(sent, HomePath)
  }

  /** The delete button, after the confirmation dialog. */
  function DeleteAccount(s: PageState, confirmed: bool, reply: Reply): PageState
  {
    if !confirmed then s
    else
      var sent := Issue(s.(saving := true), PostDeleteAccount);
      var after :=
        match reply
        case Ok => Navigate(sent, HomePath)
        case NotOk => ShowMsg(sent, Error, DeleteFailedText)
        case Threw => ShowMsg(sent, Error, ErrorOccurredText);
      after.(saving := false)
  }

  /** Picking an avatar file (`None` when the picker returned no file). */
  function UploadAvatar(s: PageState, file: Option<File>, reply: AvatarReply): PageState
  {
    if file.None? then s
    else match AvatarError(file.value)
      case Some(text) => ShowMsg(s, Error, text)
      case None => SendAvatar(s, file.value, reply)
  }

  /** The request half of the avatar upload, once the file is accepted. */
  function SendAvatar(s: PageState, file: File, reply: AvatarReply): PageState
  {
    var sent := Issue(s.(uploadingAvatar := true), PostAvatar(file));
    var after :=
      match reply
      case AvatarStored(url) => ShowMsg(sent.(user := SetAvatar(sent.user, url)), Success, AvatarSavedText)
      case AvatarRejected => ShowMsg(sent, Error, AvatarFailedText)
      case AvatarThrew => ShowMsg(sent, Error, ErrorOccurredText);
    after.(uploadingAvatar := false)
  }

  /** The resend-verification button. */
  function ResendVerification(s: PageState, reply: Reply): PageState
  {
    var sent := Issue(s.(resendingEmail := true), PostSendVerification);
    var after :=
      match reply
      case Ok => ShowMsg(sent, Success, VerificationSentText)
      case NotOk => ShowMsg(sent, Error, VerificationFailedText)
      case Threw => ShowMsg(sent, Error, ErrorOccurredText);
    after.(resendingEmail := false)
  }

  // ---------------------------------------------------------------- properties of single steps

  /** A name that trims to nothing only raises the error toast: no request, no other change. */
  lemma BlankNameSendsNothing(s: PageState, reply: Reply)
    requires AllWhitespace(s.formName)
    ensures SaveProfile(s, reply) == s.(message := Some(Toast(Error, NameEmptyText)))
  {
  }

  /**
   * A name with content sends exactly one profile request carrying the name
   * as typed (untrimmed). On success the user's name becomes that text and
   * nothing else of the user changes; otherwise the user is untouched.
   * Saving is off afterwards in every case.
   */
  lemma SaveProfileOutcome(s: PageState, reply: Reply)
    requires !AllWhitespace(s.formName)
    ensures var t := SaveProfile(s, reply);
      && t.requests == s.requests + [PostProfile(s.formName)]
      && !t.saving
      && t.navigations == s.navigations && t.passwords == s.passwords && t.formName == s.formName
      && (reply == Ok ==> t.user == if s.user.Some? then Some(s.user.value.(name := s.formName)) else None)
      && (reply != Ok ==> t.user == s.user)
      && t.message.Some? && (t.message.value.kind == Success <==> reply == Ok)
    ensures var t := SaveProfile(s, reply);
      var sent := s.(requests := s.requests + [PostProfile(s.formName)], saving := false);
      && (reply == Ok ==> t == sent.(user := RenameUser(s.user, s.formName), message := Some(Toast(Success, ProfileSavedText))))
      && (reply == NotOk ==> t == sent.(message := Some(Toast(Error, ProfileFailedText))))
      && (reply == Threw ==> t == sent.(message := Some(Toast(Error, ErrorOccurredText))))
  {
  }

  /** A too-short new password is refused before the confirmation is compared. */
  lemma ShortPasswordRefusedFirst(s: PageState, reply: PasswordReply)
    requires Utf16Length(s.passwords.newPassword) < MinPasswordLength
    ensures UpdatePassword(s, reply) == s.(message := Some(Toast(Error, PasswordTooShortText)))
  {
  }

  /** A long enough password that differs from its confirmation is refused, with no request. */
  lemma MismatchedPasswordRefused(s: PageState, reply: PasswordReply)
    requires Utf16Length(s.passwords.newPassword) >= MinPasswordLength
    requires s.passwords.newPassword != s.passwords.confirm
    ensures UpdatePassword(s, reply) == s.(message := Some(Toast(Error, PasswordMismatchText)))
  {
  }

  /** Eight characters inside the Basic Multilingual Plane are enough when confirmed. */
  lemma EightCharacterPasswordIsSent(s: PageState, reply: PasswordReply)
    requires |s.passwords.newPassword| == 8 && InBasicPlane(s.passwords.newPassword)
    requires s.passwords.confirm == s.passwords.newPassword
    ensures UpdatePassword(s, reply).requests
      == s.requests + [PostPassword(s.passwords.current, s.passwords.newPassword)]
  {
    Utf16LengthOfBasicPlane(s.passwords.newPassword);
  }

  /** Length counts UTF-16 code units: four characters outside the Basic Multilingual Plane pass the length rule. */
  lemma FourAstralCharactersAreLongEnough()
    ensures PasswordError(PasswordForm("", "\U{1F600}\U{1F600}\U{1F600}\U{1F600}", "\U{1F600}\U{1F600}\U{1F600}\U{1F600}")).None?
  {
    var p := "\U{1F600}\U{1F600}\U{1F600}\U{1F600}";
    assert Utf16Length(p) == 8 by {
      assert p[1..][1..][1..][1..] == [];
    }
  }

  /**
   * Once a valid password request is sent: success clears all three fields;
   * any failure keeps them and shows the server's error or the fallback text.
   */
  lemma PasswordOutcome(s: PageState, reply: PasswordReply)
    requires PasswordError(s.passwords).None?
    ensures var t := UpdatePassword(s, reply);
      && t.requests == s.requests + [PostPassword(s.passwords.current, s.passwords.newPassword)]
      && !t.saving && t.user == s.user
      && (reply.PasswordAnswered? && reply.ok ==> t.passwords == PasswordForm("", "", ""))
      && (!(reply.PasswordAnswered? && reply.ok) ==> t.passwords == s.passwords)
      && (reply.PasswordAnswered? && !reply.ok ==>
            t.message == Some(Toast(Error, PasswordFailureText(reply.error))))
    ensures var t := UpdatePassword(s, reply);
      var sent := s.(requests := s.requests + [PostPassword(s.passwords.current, s.passwords.newPassword)], saving := false);
      && (reply.PasswordThrew? ==> t == sent.(message := Some(Toast(Error, ErrorOccurredText))))
      && (reply.PasswordAnswered? && reply.ok ==>
            t == sent.(passwords := PasswordForm("", "", ""), message := Some(Toast(Success, PasswordSavedText))))
      && (reply.PasswordAnswered? && !reply.ok ==>
            t == sent.(message := Some(Toast(Error, PasswordFailureText(reply.error)))))
  {
  }

  /** The avatar size bound is inclusive: exactly 5 MiB of `image/png` passes, one byte more does not. */
  lemma AvatarSizeBoundary()
    ensures AvatarError(File("image/png", 5242880)).None?
    ensures AvatarError(File("image/png", 5242881)) == Some(ImageTooLargeText)
  {
    assert StartsWith("image/png", ImagePrefix) by { assert "image/png"[..6] == ImagePrefix; }
  }

  /** A file that is not an image is refused for its type, whatever its size. */
  lemma NonImageRefusedAtAnySize(size: nat)
    ensures AvatarError(File("text/plain", size)) == Some(NotAnImageText)
  {
    DifferAt("text/plain", ImagePrefix, 0);
  }

  /**
   * A valid avatar upload changes only the user's `avatarUrl`, and only on
   * success, to the returned value; a missing user stays missing; a failed
   * upload leaves the user as it was.
   */
  lemma AvatarOutcome(s: PageState, file: File, reply: AvatarReply)
    requires AvatarError(file).None?
    ensures var t := UploadAvatar(s, Some(file), reply);
      && t.requests == s.requests + [PostAvatar(file)]
      && !t.uploadingAvatar
      && t.saving == s.saving && t.passwords == s.passwords && t.formName == s.formName
      && (s.user.None? ==> t.user.None?)
      && (reply.AvatarStored? && s.user.Some? ==> t.user == Some(s.user.value.(avatarUrl := reply.avatarUrl)))
      && (!reply.AvatarStored? ==> t.user == s.user)
    ensures var t := UploadAvatar(s, Some(file), reply);
      var sent := s.(requests := s.requests + [PostAvatar(file)], uploadingAvatar := false);
      && (reply.AvatarStored? ==>
            t == sent.(user := SetAvatar(s.user, reply.avatarUrl), message := Some(Toast(Success, AvatarSavedText))))
      && (reply.AvatarRejected? ==> t == sent.(message := Some(Toast(Error, AvatarFailedText))))
      && (reply.AvatarThrew? ==> t == sent.(message := Some(Toast(Error, ErrorOccurredText))))
  {
  }

  /** An invalid file only raises its error toast: no request, no other change. */
  lemma InvalidAvatarSendsNothing(s: PageState, file: File, reply: AvatarReply)
    requires AvatarError(file).Some?
    ensures UploadAvatar(s, Some(file), reply) == s.(message := Some(Toast(Error, AvatarError(file).value)))
  {
  }

  /** Closing the file picker without a file changes nothing at all. */
  lemma NoFilePickedChangesNothing(s: PageState, reply: AvatarReply)
    ensures UploadAvatar(s, None, reply) == s
  {
  }

  /** Resending the verification mail never touches the user, emailVerified included. */
  lemma ResendKeepsUser(s: PageState, reply: Reply)
    ensures ResendVerification(s, reply).user == s.user
    ensures ResendVerification(s, reply).requests == s.requests + [PostSendVerification]
    ensures !ResendVerification(s, reply).resendingEmail
    ensures var t := ResendVerification(s, reply);
      var sent := s.(requests := s.requests + [PostSendVerification], resendingEmail := false);
      && (reply == Ok ==> t == sent.(message := Some(Toast(Success, VerificationSentText))))
      && (reply == NotOk ==> t == sent.(message := Some(Toast(Error, VerificationFailedText))))
      && (reply == Threw ==> t == sent.(message := Some(Toast(Error, ErrorOccurredText))))
  {
  }

  /** Without the dialog's confirmation, deleting does nothing at all; with it, one request is sent. */
  lemma DeleteNeedsConfirmation(s: PageState, reply: Reply)
    ensures DeleteAccount(s, false, reply) == s
    ensures DeleteAccount(s, true, reply).requests == s.requests + [PostDeleteAccount]
    ensures DeleteAccount(s, true, reply).navigations ==
      if reply == Ok then s.navigations + [HomePath] else s.navigations
    ensures var t := DeleteAccount(s, true, reply);
      var sent := s.(requests := s.requests + [PostDeleteAccount], saving := false);
      && (reply == Ok ==> t == sent.(navigations := s.navigations + [HomePath]))
      && (reply == NotOk ==> t == sent.(message := Some(Toast(Error, DeleteFailedText))))
      && (reply == Threw ==> t == sent.(message := Some(Toast(Error, ErrorOccurredText))))
  {
  }

  /**
   * The initial load goes to the login page exactly when the call threw, the
   * status was not ok, the session is not authenticated or no user came
   * back; otherwise it stores the user and fills the name field from it.
   */
  lemma FetchUserOutcome(s: PageState, reply: AuthReply)
    ensures var t := FetchUser(s, reply);
      var fails := reply.AuthThrew? || !reply.ok || !reply.isAuthenticated || reply.user.None?;
      && !t.loading
      && t.requests == s.requests + [CheckAuth]
      && (fails ==> t.navigations == s.navigations + [LoginPath] && t.user == s.user && t.formName == s.formName)
      && (!fails ==> t.navigations == s.navigations && t.user == reply.user && t.formName == reply.user.value.name)
    ensures var t := FetchUser(s, reply);
      var fails := reply.AuthThrew? || !reply.ok || !reply.isAuthenticated || reply.user.None?;
      var asked := s.(requests := s.requests + [CheckAuth], loading := false);
      && (fails ==> t == asked.(navigations := s.navigations + [LoginPath]))
      && (!fails ==> t == asked.(user := reply.user, formName := reply.user.value.name))
  {
  }

  /**
   * Logging out sends one request. Any answer, ok or not, goes home and changes
   * nothing else; only a thrown call shows "Failed to logout" and stays put.
   */
  lemma LogoutOutcome(s: PageState, reply: Reply)
    ensures var t := Logout(s, reply);
      && t.requests == s.requests + [PostLogout]
      && (reply == Threw ==> t == s.(requests := t.requests, message := Some(Toast(Error, LogoutFailedText))))
      && (reply != Threw ==> t == s.(requests := t.requests, navigations := s.navigations + [HomePath]))
  {
  }

  /** Logging out twice: the second call does exactly what the first did, on the same reply. */
  lemma LogoutTwice(s: PageState, reply: Reply)
    ensures var once := Logout(s, reply);
      var twice := Logout(once, reply);
      && twice.requests == s.requests + [PostLogout, PostLogout]
      && (reply != Threw ==> twice.navigations == s.navigations + [HomePath, HomePath])
      && twice.user == s.user
  {
  }

  // ---------------------------------------------------------------- traces of events

  /** One interaction with the page, together with everything the outside world answered. */
  datatype Event =
    | Load(auth: AuthReply)
    | SubmitProfile(reply: Reply)
    | SubmitPassword(passwordReply: PasswordReply)
    | ClickLogout(reply: Reply)
    | ClickDelete(confirmed: bool, reply: Reply)
    | PickAvatar(file: Option<File>, avatarReply: AvatarReply)
    | ClickResend(reply: Reply)
    | TypeName(text: string)
    | TypeCurrentPassword(text: string)
    | TypeNewPassword(text: string)
    | TypeConfirmPassword(text: string)

  /** The form inputs' `onChange` handlers and the event handlers, one event at a time. */
  function Apply(s: PageState, e: Event): PageState
  {
    match e
    case Load(auth) => FetchUser(s, auth)
    case SubmitProfile(reply) => SaveProfile(s, reply)
    case SubmitPassword(reply) => UpdatePassword(s, reply)
    case ClickLogout(reply) => Logout(s, reply)
    case ClickDelete(confirmed, reply) => DeleteAccount(s, confirmed, reply)
    case PickAvatar(file, reply) => UploadAvatar(s, file, reply)
    case ClickResend(reply) => ResendVerification(s, reply)
    case TypeName(text) => s.(formName := text)
    case TypeCurrentPassword(text) => s.(passwords := s.passwords.(current := text))
    case TypeNewPassword(text) => s.(passwords := s.passwords.(newPassword := text))
    case TypeConfirmPassword(text) => s.(passwords := s.passwords.(confirm := text))
  }

  function Run(s: PageState, events: seq<Event>): PageState
    decreases |events|
  {
    if events == [] then s else Run(Apply(s, events[0]), events[1..])
  }

  /** No busy flag is left on once a handler has finished. */
  predicate Idle(s: PageState)
  {
    !s.saving && !s.uploadingAvatar && !s.resendingEmail
  }

  /**
   * Everything of a user that the page never edits: who it is, the email,
   * the verification flag and the timestamps; and whether there is one.
   */
  predicate SameAccount(before: Option<User>, after: Option<User>)
  {
    && (before.Some? <==> after.Some?)
    && (before.Some? ==>
          && after.value.id == before.value.id
          && after.value.email == before.value.email
          && after.value.emailVerified == before.value.emailVerified
          && after.value.createdAt == before.value.createdAt
          && after.value.lastLoginAt == before.value.lastLoginAt)
  }

  /** `after` extends `before` by at most one entry. */
  predicate GrowsByAtMostOne(before: seq<ApiCall>, after: seq<ApiCall>)
  {
    |before| <= |after| <= |before| + 1 && after[..|before|] == before
  }

  /**
   * What every handler keeps: at most one request appended to the log, an
   * idle page left idle, and the user's account as it was.
   */
  predicate Respects(s: PageState, t: PageState)
  {
    GrowsByAtMostOne(s.requests, t.requests) && (Idle(s) ==> Idle(t)) && SameAccount(s.user, t.user)
  }

  lemma AppendOneGrows(log: seq<ApiCall>, call: ApiCall)
    ensures GrowsByAtMostOne(log, log + [call])
  {
    assert (log + [call])[..|log|] == log;
  }

  lemma SaveProfileRespects(s: PageState, reply: Reply)
    ensures Respects(s, SaveProfile(s, reply))
  {
    if NameError(s.formName).None? {
      var call := PostProfile(s.formName);
      AppendOneGrows(s.requests, call);
      assert SendProfile(s, reply).requests == s.requests + [call];
    }
  }

  lemma UpdatePasswordRespects(s: PageState, reply: PasswordReply)
    ensures Respects(s, UpdatePassword(s, reply))
  {
    if PasswordError(s.passwords).None? {
      var call := PostPassword(s.passwords.current, s.passwords.newPassword);
      AppendOneGrows(s.requests, call);
      assert SendPassword(s, reply).requests == s.requests + [call];
    }
  }

  lemma UploadAvatarRespects(s: PageState, file: Option<File>, reply: AvatarReply)
    ensures Respects(s, UploadAvatar(s, file, reply))
  {
    if file.Some? && AvatarError(file.value).None? {
      AppendOneGrows(s.requests, PostAvatar(file.value));
      assert SendAvatar(s, file.value, reply).requests == s.requests + [PostAvatar(file.value)];
    }
  }

  lemma LogoutRespects(s: PageState, reply: Reply)
    ensures Respects(s, Logout(s, reply))
    ensures |Logout(s, reply).requests| == |s.requests| + 1
  {
    AppendOneGrows(s.requests, PostLogout);
  }

  lemma DeleteAccountRespects(s: PageState, confirmed: bool, reply: Reply)
    ensures Respects(s, DeleteAccount(s, confirmed, reply))
  {
    AppendOneGrows(s.requests, PostDeleteAccount);
    assert s.requests[..|s.requests|] == s.requests;
  }

  lemma ResendVerificationRespects(s: PageState, reply: Reply)
    ensures Respects(s, ResendVerification(s, reply))
    ensures |ResendVerification(s, reply).requests| == |s.requests| + 1
  {
    AppendOneGrows(s.requests, PostSendVerification);
  }

  /**
   * One event issues at most one request and only appends to the log, leaves
   * an idle page idle, and, unless it is the load, keeps the user's account.
   */
  lemma ApplyFacts(s: PageState, e: Event)
    ensures var t := Apply(s, e);
      && GrowsByAtMostOne(s.requests, t.requests)
      && (Idle(s) ==> Idle(t))
      && (!e.Load? ==> SameAccount(s.user, t.user))
  {
    match e {
      case Load(auth) => AppendOneGrows(s.requests, CheckAuth);
      case SubmitProfile(reply) => SaveProfileRespects(s, reply);
      case SubmitPassword(reply) => UpdatePasswordRespects(s, reply);
      case ClickLogout(reply) => LogoutRespects(s, reply);
      case ClickDelete(confirmed, reply) => DeleteAccountRespects(s, confirmed, reply);
      case PickAvatar(file, reply) => UploadAvatarRespects(s, file, reply);
      case ClickResend(reply) => ResendVerificationRespects(s, reply);
      case TypeName(text) => assert s.requests[..|s.requests|] == s.requests;
      case TypeCurrentPassword(text) => assert s.requests[..|s.requests|] == s.requests;
      case TypeNewPassword(text) => assert s.requests[..|s.requests|] == s.requests;
      case TypeConfirmPassword(text) => assert s.requests[..|s.requests|] == s.requests;
    }
  }

  /** A run of events issues at most one request per event, and never rewrites earlier ones. */
  lemma {:induction false} RunIssuesAtMostOnePerEvent(s: PageState, events: seq<Event>)
    ensures var t := Run(s, events);
      |s.requests| <= |t.requests| <= |s.requests| + |events|
      && t.requests[..|s.requests|] == s.requests
    decreases |events|
  {
    if events != [] {
      var s1 := Apply(s, events[0]);
      ApplyFacts(s, events[0]);
      RunIssuesAtMostOnePerEvent(s1, events[1..]);
      var t := Run(s1, events[1..]);
      assert t.requests[..|s.requests|] == t.requests[..|s1.requests|][..|s.requests|];
    }
  }

  /** Handlers switch their busy flag back off: an idle page stays idle across any run. */
  lemma {:induction false} RunStaysIdle(s: PageState, events: seq<Event>)
    requires Idle(s)
    ensures Idle(Run(s, events))
    decreases |events|
  {
    if events != [] {
      ApplyFacts(s, events[0]);
      RunStaysIdle(Apply(s, events[0]), events[1..]);
    }
  }

  /**
   * After loading, the page changes only the user's name and avatar: any run
   * without a load keeps the user's identity, email, verification flag and
   * timestamps, and never makes a user appear or disappear.
   */
  lemma {:induction false} RunKeepsAccount(s: PageState, events: seq<Event>)
    requires forall i :: 0 <= i < |events| ==> !events[i].Load?
    ensures SameAccount(s.user, Run(s, events).user)
    decreases |events|
  {
    if events != [] {
      var s1 := Apply(s, events[0]);
      ApplyFacts(s, events[0]);
      assert forall i :: 0 <= i < |events[1..]| ==> !events[1..][i].Load? by {
        forall i | 0 <= i < |events[1..]| ensures !events[1..][i].Load? {
          assert events[1..][i] == events[i + 1];
        }
      }
      RunKeepsAccount(s1, events[1..]);
    }
  }
}
