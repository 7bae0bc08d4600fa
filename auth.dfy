/** The authentication context: the provider's user and loading flag, the
    sign-in and sign-up wrappers around the hosted identity service, and the
    mapping from its error codes to the messages the sign-in page shows. */
module Auth {
  import opened Js

  /** The signed-in account as the identity service reports it. */
  datatype User = User(uid: string, email: Option<string>, displayName: Option<string>)

  const GenericMessage := "An error occurred. Please try again."

  /** The seven codes with their own message. */
  const KnownMessages: map<string, string> := map[
    "auth/invalid-email" := "Invalid email address.",
    "auth/user-disabled" := "This account has been disabled.",
    "auth/user-not-found" := "No account found with this email.",
    "auth/wrong-password" := "Incorrect password.",
    "auth/email-already-in-use" := "An account with this email already exists.",
    "auth/weak-password" := "Password should be at least 6 characters.",
    "auth/network-request-failed" := "Network error. Please check your connection."]

  /** `getAuthErrorMessage(code)`: total; a listed code gets its own message,
      every other code the generic one. */
  function AuthErrorMessage(code: string): (message: string)
    ensures code in KnownMessages ==> message == KnownMessages[code]
    ensures code !in KnownMessages ==> message == GenericMessage
  {
    if code == "auth/invalid-email" then "Invalid email address."
    else if code == "auth/user-disabled" then "This account has been disabled."
    else if code == "auth/user-not-found" then "No account found with this email."
    else if code == "auth/wrong-password" then "Incorrect password."
    else if code == "auth/email-already-in-use" then "An account with this email already exists."
    else if code == "auth/weak-password" then "Password should be at least 6 characters."
    else if code == "auth/network-request-failed" then "Network error. Please check your connection."
    else GenericMessage
  }

  /** The message tells the codes apart: it is specific exactly for the seven
      listed codes, and no two codes share a specific message. */
  lemma MessageIdentifiesCode(a: string, b: string)
    ensures AuthErrorMessage(a) != GenericMessage <==> a in KnownMessages
    ensures a in KnownMessages && AuthErrorMessage(a) == AuthErrorMessage(b) ==> a == b
  {
  }

  /** What `signin` and `signup` resolve to; neither ever rejects. */
  datatype AuthResult = Success(user: User) | Failure(message: string)

  /** `signin(email, password)` given the identity service's answer. */
  function Signin(answer: Outcome<User>): (r: AuthResult)
    ensures r.Success? <==> answer.Ok?
    ensures r.Success? ==> r.user == answer.value
    ensures r.Failure? ==> r.message == AuthErrorMessage(answer.code)
  {
    match answer
    case Ok(user) => Success(user)
    case Err(code) => Failure(AuthErrorMessage(code))
  }

  /** One `signup` call: the result, and whether the profile update ran. */
  datatype SignupCall = SignupCall(result: AuthResult, profileUpdated: bool)

  /** `signup(email, password, displayName)` given the answers of the account
      creation and of the profile update; the latter is consulted only when
      it runs. A failed profile update fails the whole call, although the
      account was created. */
  function Signup(displayName: string, created: Outcome<User>, profile: Outcome<bool>): (c: SignupCall)
    ensures c.profileUpdated <==> created.Ok? && displayName != ""
    ensures c.result.Success? <==> created.Ok? && (displayName == "" || profile.Ok?)
    ensures c.result.Success? ==> c.result.user == created.value
    ensures created.Err? ==> c.result == Failure(AuthErrorMessage(created.code))
    ensures created.Ok? && displayName != "" && profile.Err? ==>
      c.result == Failure(AuthErrorMessage(profile.code))
  {
    match created
    case Err(code) => SignupCall(Failure(AuthErrorMessage(code)), false)
    case Ok(user) =>
      if displayName == "" then SignupCall(Success(user), false)
      else match profile
        case Ok(_) => SignupCall(Success(user), true)
        case Err(code) => SignupCall(Failure(AuthErrorMessage(code)), true)
  }

  /** An empty display name never reaches the profile update, so sign-up then
      fails exactly when sign-in with the same answer would. */
  lemma SignupWithoutName(created: Outcome<User>, profile: Outcome<bool>)
    ensures Signup("", created, profile).result == Signin(created)
  {
  }

  /** The provider's state: no user and loading until the first report of the
      identity service, then the reported user and not loading. */
  class AuthProvider {
    var user: Option<User>
    var loading: bool

    constructor ()
      ensures user.None? && loading
    {
      user := None;
      loading := true;
    }

    /** The `onAuthStateChanged` callback. */
    method OnAuthStateChanged(reported: Option<User>)
      modifies this
      ensures user == reported && !loading
    {
      user := reported;
      loading := false;
    }
  }

  /** `useAuth()`: the provider's value, or the error it throws when no
      provider is above the caller. */
  function UseAuth(context: Option<AuthProvider>): (r: Outcome<AuthProvider>)
    ensures r.Ok? <==> context.Some?
    ensures r.Ok? ==> r.value == context.value
    ensures r.Err? ==> r.code == "useAuth must be used within an AuthProvider"
  {
    if context.Some? then Ok(context.value) else Err("useAuth must be used within an AuthProvider")
  }
}
