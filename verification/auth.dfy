/** The identity state (src/app/core/services/auth.service.ts): the current
    account held by `currentUserSubject`, how sign-up, sign-in, sign-out and
    profile changes move it, and the error messages the service throws. */
module Auth {
  import opened Common
  import opened UserModel

  /** What reading the `users/{uid}` document gives. */
  datatype Lookup = Missing | Found(data: User) | LookupFailed

  /** The user of a Firebase credential; `email` is "" when the credential has none. */
  datatype FirebaseUser = FirebaseUser(uid: string, email: string)

  /** A partial account record handed to `updateUserProfile`; None is an undefined field. */
  datatype UserPatch = UserPatch(
    email: Option<string>,
    displayName: Option<string>,
    photoURL: Option<string>,
    role: Option<Role>)

  /** The fields handed on to Firebase's `updateProfile`. */
  datatype ProfileFields = ProfileFields(displayName: Option<string>, photoURL: Option<string>)

  /** The fixed message for each Firebase error code the service recognises. */
  const AuthMessages: map<string, string> := map[
    "auth/user-not-found" := "No account found with this email address.",
    "auth/wrong-password" := "Incorrect password.",
    "auth/invalid-email" := "Invalid email address.",
    "auth/email-already-in-use" := "An account with this email already exists.",
    "auth/weak-password" := "Password is too weak. Please choose a stronger password.",
    "auth/too-many-requests" := "Too many failed attempts. Please try again later.",
    "auth/network-request-failed" := "Network error. Please check your connection."
  ]

  const UnexpectedError := "An unexpected error occurred."
  const LogoutFailed := "Failed to log out. Please try again."
  const ProfileUpdateFailed := "Failed to update profile. Please try again."
  const NoAuthenticatedUser := "No authenticated user found"

  /** An `Error` built from a message alone: it has no code. */
  function Plain(message: string): ThrownError
  {
    ThrownError("", message)
  }

  /** `getUserData`: the stored record when the document exists and has a
      non-empty uid and email; otherwise null, and never an error. */
  function GetUserData(lookup: Lookup): (r: Option<User>)
    ensures r.Some? <==> lookup.Found? && lookup.data.uid != "" && lookup.data.email != ""
    ensures r.Some? ==> r.value == lookup.data
  {
    match lookup
    case Missing => None
    case LookupFailed => None
    case Found(data) => if data.uid == "" || data.email == "" then None else Some(data)
  }

  /** `getErrorMessage`: the fixed message of a recognised code; otherwise the
      error's own message, or a generic one when that is empty. Never empty. */
  function ErrorMessage(error: ThrownError): (r: string)
    ensures error.code in AuthMessages ==> r == AuthMessages[error.code]
    ensures error.code !in AuthMessages ==>
      r == if error.message != "" then error.message else UnexpectedError
    ensures r != ""
  {
    if error.code in AuthMessages then AuthMessages[error.code]
    else if error.message != "" then error.message
    else UnexpectedError
  }

  /** What the catch blocks of register, login and resetPassword throw: a new
      `Error` carrying the mapped message, and no code. */
  function Rethrown(error: ThrownError): (e: ThrownError)
    ensures e.code == "" && e.message == ErrorMessage(error)
  {
    Plain(ErrorMessage(error))
  }

  /** The record `register` stores for a new account: a customer, with the
      credential's uid, and the credential's e-mail unless it has none. */
  function NewCustomer(account: FirebaseUser, email: string, displayName: string): (u: User)
    ensures u.role == Customer && u.uid == account.uid && u.displayName == Some(displayName)
    ensures u.email == if account.email != "" then account.email else email
  {
    User(account.uid, if account.email != "" then account.email else email, Some(displayName), None, Customer)
  }

  class AuthService {
    /** The value held by `currentUserSubject`. */
    var current: Option<User>

    constructor()
      ensures current == None
    {
      current := None;
    }

    /** The `user$` pipeline and its subscriber: every Firebase auth event
        replaces the current user, by null on sign-out and by the looked-up
        record (or null) on sign-in. */
    method OnFirebaseUser(signedIn: Option<string>, lookup: Lookup)
      modifies this
      ensures signedIn.None? ==> current == None
      ensures signedIn.Some? ==> current == GetUserData(lookup)
    {
      if signedIn.None? {
        current := None;
      } else {
        current := GetUserData(lookup);
      }
    }

    /** `register`: create the account, set its display name, store a customer
        record and make it the current user. Any failure rejects with the mapped
        message and leaves the current user alone. */
    method Register(email: string, displayName: string, create: Result<Option<FirebaseUser>>,
                    profile: Result<()>, write: Result<()>) returns (r: Result<User>)
      modifies this
      ensures create.Err? ==> r == Err(Rethrown(create.error))
      ensures create == Ok(None) ==> r == Err(Plain("Failed to create user account"))
      ensures create.Ok? && create.value.Some? ==>
        && (profile.Err? ==> r == Err(Rethrown(profile.error)))
        && (profile.Ok? && write.Err? ==> r == Err(Rethrown(write.error)))
        && (profile.Ok? && write.Ok? ==> r == Ok(NewCustomer(create.value.value, email, displayName)))
      ensures r.Ok? ==> current == Some(r.value)
      ensures r.Err? ==> current == old(current)
    {
      if create.Err? {
        return Err(Rethrown(create.error));
      }
      if create.value.None? {
        return Err(Rethrown(Plain("Failed to create user account")));
      }
      var account := create.value.value;
      if profile.Err? {
        return Err(Rethrown(profile.error));
      }
      var userData := NewCustomer(account, email, displayName);
      if write.Err? {
        return Err(Rethrown(write.error));
      }
      current := Some(userData);
      r := Ok(userData);
    }

    /** `login`: sign in, then load the account record; without a valid record
        the call rejects with 'User data not found' and the current user stays. */
    method Login(signIn: Result<Option<FirebaseUser>>, lookup: Lookup) returns (r: Result<User>)
      modifies this
      ensures signIn.Err? ==> r == Err(Rethrown(signIn.error))
      ensures signIn == Ok(None) ==> r == Err(Plain("Login failed"))
      ensures signIn.Ok? && signIn.value.Some? ==>
        r == match GetUserData(lookup)
             case None => Err(Plain("User data not found"))
             case Some(u) => Ok(u)
      ensures r.Ok? ==> current == Some(r.value) && r.value.uid != "" && r.value.email != ""
      ensures r.Err? ==> current == old(current)
    {
      if signIn.Err? {
        return Err(Rethrown(signIn.error));
      }
      if signIn.value.None? {
        return Err(Rethrown(Plain("Login failed")));
      }
      var userData := GetUserData(lookup);
      if userData.None? {
        return Err(Rethrown(Plain("User data not found")));
      }
      current := userData;
      r := Ok(userData.value);
    }

    /** `logout`: a successful sign-out clears the current user; a failed one
        leaves it and rejects with a fixed message. */
    method Logout(signOut: Result<()>) returns (r: Result<()>)
      modifies this
      ensures signOut.Ok? ==> r == Ok(()) && current == None
      ensures signOut.Err? ==> r == Err(Plain(LogoutFailed)) && current == old(current)
    {
      if signOut.Err? {
        return Err(Plain(LogoutFailed));
      }
      current := None;
      r := Ok(());
    }

    /** `resetPassword`: the reset e-mail request, with its error mapped. */
    method ResetPassword(email: string, send: Result<()>) returns (r: Result<()>)
      ensures r.Ok? <==> send.Ok?
      ensures send.Err? ==> r.error.code == "" && r.error.message == ErrorMessage(send.error)
    {
      if send.Err? {
        return Err(Rethrown(send.error));
      }
      r := Ok(());
    }

    /** `updateUserProfile`: with no signed-in Firebase user it rejects before
        any write. Otherwise it writes the record, hands on to Firebase only the
        display name and photo URL that are defined (and calls nothing when
        neither is), and replaces the current user only by a valid re-read
        record. Every store failure rejects with one fixed message. */
    method UpdateUserProfile(signedIn: Option<FirebaseUser>, patch: UserPatch, docWrite: Result<()>,
                             profile: Result<()>, reread: Lookup)
      returns (r: Result<()>, forwarded: Option<ProfileFields>)
      modifies this
      ensures signedIn.None? ==>
        r == Err(Plain(NoAuthenticatedUser)) && forwarded == None && current == old(current)
      ensures signedIn.Some? && docWrite.Err? ==>
        r == Err(Plain(ProfileUpdateFailed)) && forwarded == None && current == old(current)
      ensures signedIn.Some? && docWrite.Ok? ==>
        && (forwarded.Some? <==> patch.displayName.Some? || patch.photoURL.Some?)
        && (forwarded.Some? ==> forwarded.value == ProfileFields(patch.displayName, patch.photoURL))
      ensures signedIn.Some? && docWrite.Ok? && forwarded.Some? && profile.Err? ==>
        r == Err(Plain(ProfileUpdateFailed)) && current == old(current)
      ensures signedIn.Some? && docWrite.Ok? && (forwarded.None? || profile.Ok?) ==>
        && r == Ok(())
        && current == match GetUserData(reread)
                      case Some(u) => Some(u)
                      case None => old(current)
    {
      forwarded := None;
      if signedIn.None? {
        return Err(Plain(NoAuthenticatedUser)), forwarded;
      }
      if docWrite.Err? {
        return Err(Plain(ProfileUpdateFailed)), forwarded;
      }
      var updates := ProfileFields(None, None);
      if patch.displayName.Some? {
        updates := updates.(displayName := patch.displayName);
      }
      if patch.photoURL.Some? {
        updates := updates.(photoURL := patch.photoURL);
      }
      if updates.displayName.Some? || updates.photoURL.Some? {
        forwarded := Some(updates);
        if profile.Err? {
          return Err(Plain(ProfileUpdateFailed)), forwarded;
        }
      }
      var updated := GetUserData(reread);
      if updated.Some? {
        current := updated;
      }
      r := Ok(());
    }

    /** `isAuthenticated`: there is a current user. */
    function IsAuthenticated(): (b: bool)
      reads this
      ensures b <==> current.Some?
    {
      current != None
    }

    /** `isAdmin`: the current user's role is admin; false with no user. */
    function IsAdmin(): (b: bool)
      reads this
      ensures b <==> current.Some? && current.value.role == Admin
      ensures b ==> IsAuthenticated()
    {
      match current
      case Some(u) => RoleName(u.role) == "admin"
      case None => false
    }
  }
}
