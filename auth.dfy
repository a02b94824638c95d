/**
  The sign-in / sign-up form (components/Auth.tsx): its fields are those of
  an `AuthForm` object, and a submission runs against a `UserDirectory`.
  The answers of the authentication service are parameters, and so are the
  translated messages of the current language.
 */
module AuthForm {
  import opened Types
  import UserService

  /** The translated messages the form shows. */
  datatype Messages = Messages(authErrorParams: string, authErrorExists: string, passwordsDoNotMatch: string)

  /** A failure reported by the authentication service: an error code and a message. */
  datatype AuthFailure = AuthFailure(code: string, message: string)

  /** The answer of a sign-in or account-creation request. */
  datatype AuthOutcome = Accepted(user: UserService.AuthUser) | Rejected(failure: AuthFailure)

  const UnexpectedError := "An unexpected error occurred"

  /** The codes a failed sign-in reports as wrong credentials. */
  const CredentialCodes: set<string> := {"auth/invalid-credential", "auth/wrong-password", "auth/user-not-found"}
  const EmailInUse := "auth/email-already-in-use"

  /** The message of a failed sign-in: the credential codes become one translated message, any other error keeps its own. */
  function LoginMessage(f: AuthFailure, t: Messages): (m: string)
    ensures f.code in CredentialCodes ==> m == t.authErrorParams
    ensures f.code !in CredentialCodes ==> m == f.message
  {
    if f.code in CredentialCodes then t.authErrorParams else f.message
  }

  /** The message of a failed account creation: an e-mail already in use becomes a translated message. */
  function SignUpMessage(f: AuthFailure, t: Messages): (m: string)
    ensures f.code == EmailInUse ==> m == t.authErrorExists
    ensures f.code != EmailInUse ==> m == f.message
  {
    if f.code == EmailInUse then t.authErrorExists else f.message
  }

  /** The text shown for an error: its message, or a generic one when the message is empty. */
  function Shown(message: string): (r: string)
    ensures r != ""
    ensures message != "" ==> r == message
    ensures message == "" ==> r == UnexpectedError
  {
    if message != "" then message else UnexpectedError
  }

  /** The account after sign-up has set its display name and photo URL. */
  function Named(user: UserService.AuthUser, fullName: string, photoUrl: Option<string>): (r: UserService.AuthUser)
    ensures r.uid == user.uid && r.email == user.email
    ensures r.displayName == Some(fullName) && r.photoURL == photoUrl
  {
    user.(displayName := Some(fullName), photoURL := photoUrl)
  }

  /** The extra data a sign-up passes on: the full name, and the photo URL unless it is empty. */
  function SignUpExtra(fullName: string, photoUrl: Option<string>): (e: UserService.ExtraData)
    ensures e.displayName == Some(fullName)
    ensures Truthy(e.photoURL) <==> Truthy(photoUrl)
    ensures Truthy(photoUrl) ==> e.photoURL == photoUrl
  {
    UserService.ExtraData(Some(fullName), if Truthy(photoUrl) then photoUrl else None)
  }

  class Form {
    var isLogin: bool
    var email: string
    var password: string
    var fullName: string
    var confirmPassword: string
    var photo: Option<File>
    var photoPreview: Option<string>
    var error: Option<string>
    var isLoading: bool
    const messages: Messages

    constructor (messages: Messages)
      ensures isLogin && email == "" && password == "" && fullName == "" && confirmPassword == ""
      ensures photo.None? && photoPreview.None? && error.None? && !isLoading
      ensures this.messages == messages
    {
      isLogin := true;
      email := "";
      password := "";
      fullName := "";
      confirmPassword := "";
      photo := None;
      photoPreview := None;
      error := None;
      isLoading := false;
      this.messages := messages;
    }

    /** The inputs of the form. */
    method SetFields(email: string, password: string, fullName: string, confirmPassword: string)
      modifies this`email, this`password, this`fullName, this`confirmPassword
      ensures this.email == email && this.password == password
      ensures this.fullName == fullName && this.confirmPassword == confirmPassword
    {
      this.email := email;
      this.password := password;
      this.fullName := fullName;
      this.confirmPassword := confirmPassword;
    }

    /** handlePhotoChange: the first chosen file becomes the photo, with a preview URL; an empty choice changes nothing. */
    method ChoosePhoto(files: seq<File>, previewUrl: string)
      modifies this`photo, this`photoPreview
      ensures files != [] ==> photo == Some(files[0]) && photoPreview == Some(previewUrl)
      ensures files == [] ==> photo == old(photo) && photoPreview == old(photoPreview)
    {
      if files != [] {
        photo := Some(files[0]);
        photoPreview := Some(previewUrl);
      }
    }

    /** The mode toggle: switches between sign-in and sign-up and clears the error. */
    method ToggleMode()
      modifies this`isLogin, this`error
      ensures isLogin == !old(isLogin) && error.None?
    {
      isLogin := !isLogin;
      error := None;
    }

    /**
      handleSubmit, from the error being cleared to isLoading being reset.
      Sign-in: a rejection shows its mapped message; an accepted account
      becomes the signed-in one and gets a profile if it had none.
      Sign-up: different passwords fail before any account is created; a
      rejection shows its mapped message; an accepted account is signed
      in, its photo (if one was chosen) is stored at the fixed profile path,
      it is given the full name and photo URL, and it gets a profile if it
      had none. isLoading is false at the end on every path.
     */
    method Submit(dir: UserService.UserDirectory, outcome: AuthOutcome, photoUrl: string, now: nat, writeFails: bool)
      requires dir.Valid()
      modifies this`error, this`isLoading, dir`accounts, dir`currentUser, dir`profiles, dir`objects
      ensures dir.Valid()
      ensures !isLoading
      ensures isLogin ==>
        match outcome
        case Rejected(f) =>
          && error == Some(Shown(LoginMessage(f, messages)))
          && dir.accounts == old(dir.accounts) && dir.currentUser == old(dir.currentUser)
          && dir.profiles == old(dir.profiles) && dir.objects == old(dir.objects)
        case Accepted(u) =>
          && error.None?
          && dir.accounts == old(dir.accounts) + {u.uid} && dir.currentUser == Some(u)
          && dir.profiles == (if writeFails then old(dir.profiles) else UserService.Created(old(dir.profiles), Some(u), None, now))
          && dir.objects == old(dir.objects)
      ensures !isLogin && password != confirmPassword ==>
        && error == Some(Shown(messages.passwordsDoNotMatch))
        && dir.accounts == old(dir.accounts) && dir.currentUser == old(dir.currentUser)
        && dir.profiles == old(dir.profiles) && dir.objects == old(dir.objects)
      ensures !isLogin && password == confirmPassword ==>
        match outcome
        case Rejected(f) =>
          && error == Some(Shown(SignUpMessage(f, messages)))
          && dir.accounts == old(dir.accounts) && dir.currentUser == old(dir.currentUser)
          && dir.profiles == old(dir.profiles) && dir.objects == old(dir.objects)
        case Accepted(u) =>
          var url := if photo.Some? then Some(photoUrl) else None;
          && error.None?
          && dir.accounts == old(dir.accounts) + {u.uid}
          && dir.currentUser == Some(Named(u, fullName, url))
          && dir.objects == (if photo.Some? then old(dir.objects) + {UserService.ProfilePhotoPath(u.uid)} else old(dir.objects))
          && dir.profiles == (if writeFails then old(dir.profiles)
                              else UserService.Created(old(dir.profiles), Some(Named(u, fullName, url)), Some(SignUpExtra(fullName, url)), now))
    {
      error := None;
      isLoading := true;
      if isLogin {
        match outcome {
          case Rejected(f) =>
            error := Some(Shown(LoginMessage(f, messages)));
          case Accepted(u) =>
            dir.accounts := dir.accounts + {u.uid};
            dir.currentUser := Some(u);
            dir.CreateUserDocument(Some(u), None, now, writeFails);
        }
      } else if password != confirmPassword {
        error := Some(Shown(messages.passwordsDoNotMatch));
      } else {
        match outcome {
          case Rejected(f) =>
            error := Some(Shown(SignUpMessage(f, messages)));
          case Accepted(u) =>
            dir.accounts := dir.accounts + {u.uid};
            dir.currentUser := Some(u);
            var url: Option<string> := None;
            if photo.Some? {
              dir.objects := dir.objects + {UserService.ProfilePhotoPath(u.uid)};
              url := Some(photoUrl);
            }
            var named := Named(u, fullName, url);
            dir.currentUser := Some(named);
            dir.CreateUserDocument(Some(named), Some(SignUpExtra(fullName, url)), now, writeFails);
        }
      }
      isLoading := false;
    }
  }
}
