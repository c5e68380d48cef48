/** The sign-up form (src/app/features/auth/register/register.component.ts). */
module Register {
  import opened Common
  import opened UserModel
  import Auth

  /** The form-level error `{ passwordMismatch: true }`. */
  datatype ValidationErrors = PasswordMismatch

  /** The fixed message for each error code the form recognises. */
  const RegisterMessages: map<string, string> := map[
    "auth/email-already-in-use" := "An account with this email already exists.",
    "auth/invalid-email" := "Invalid email address.",
    "auth/weak-password" := "Password is too weak. Please choose a stronger password."
  ]

  const RegistrationFailed := "An error occurred during registration. Please try again."

  /** `passwordMatchValidator`, given the values of the 'password' and
      'confirmPassword' controls (None when the form has no such control): a
      mismatch error exactly when both controls exist and their values differ. */
  function PasswordMatchValidator(password: Option<string>, confirmPassword: Option<string>)
    : (r: Option<ValidationErrors>)
    ensures r.Some? <==> password.Some? && confirmPassword.Some? && password.value != confirmPassword.value
    ensures r.Some? ==> r.value == PasswordMismatch
  {
    if password.Some? && confirmPassword.Some? && password.value != confirmPassword.value
    then Some(PasswordMismatch)
    else None
  }

  /** `getErrorMessage` of the form: the fixed message of a recognised code,
      the generic registration message for any other code or none. */
  function ErrorMessage(error: ThrownError): (r: string)
    ensures error.code in RegisterMessages ==> r == RegisterMessages[error.code]
    ensures error.code !in RegisterMessages ==> r == RegistrationFailed
  {
    if error.code in RegisterMessages then RegisterMessages[error.code] else RegistrationFailed
  }

  /** Every code the form recognises is one the service recognises, with the same message. */
  lemma SharedCodesAgree(code: string)
    requires code in RegisterMessages
    ensures code in Auth.AuthMessages && Auth.AuthMessages[code] == RegisterMessages[code]
  {
  }

  /** An error as `AuthService.register` rethrows it has no code, so the form
      shows the generic message for it. */
  lemma RethrownErrorShowsGenericMessage(error: ThrownError)
    ensures ErrorMessage(Auth.Rethrown(error)) == RegistrationFailed
  {
  }

  class RegisterComponent {
    var isLoading: bool
    var errorMessage: string

    constructor()
      ensures !isLoading && errorMessage == ""
    {
      isLoading := false;
      errorMessage := "";
    }

    /** `onSubmit`. The form is valid when its controls pass their own validators
        (`fieldsValid`) and the group validator finds no password mismatch. An
        invalid form changes nothing. Otherwise the form awaits the sign-up and
        ends not loading; on success the message is empty and the router goes
        home, on failure the message is the mapped error. */
    method OnSubmit(fieldsValid: bool, password: Option<string>, confirmPassword: Option<string>,
                    registered: Result<User>) returns (navigate: Option<string>)
      modifies this
      ensures PasswordMatchValidator(password, confirmPassword).Some? ==>
        navigate == None && isLoading == old(isLoading) && errorMessage == old(errorMessage)
      ensures !fieldsValid ==>
        navigate == None && isLoading == old(isLoading) && errorMessage == old(errorMessage)
      ensures fieldsValid && PasswordMatchValidator(password, confirmPassword).None? ==>
        && !isLoading
        && (registered.Ok? ==> errorMessage == "" && navigate == Some("/"))
        && (registered.Err? ==> errorMessage == ErrorMessage(registered.error) && navigate == None)
    {
      navigate := None;
      var formValid := fieldsValid && PasswordMatchValidator(password, confirmPassword).None?;
      if formValid {
        isLoading := true;
        errorMessage := "";
        if registered.Ok? {
          navigate := Some("/");
        } else {
          errorMessage := ErrorMessage(registered.error);
        }
        isLoading := false;
      }
    }
  }
}
