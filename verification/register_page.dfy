/**
 * The registration form: a guard on the password's length, then the
 * request; a successful registration logs the new professional in.
 */
module RegisterPage {
  import opened Wrappers
  import opened Entities
  import AS = AuthStore

  /** The shortest password the form accepts. */
  const MinPasswordLength: nat := 6

  const PasswordTooShort: string := "Le mot de passe doit contenir au moins 6 caractères"
  const Registered: string := "Inscription réussie !"
  const RegisterFailed: string := "Erreur lors de l'inscription"

  /** The form's fields, sent as they are. */
  datatype RegisterForm = RegisterForm(name: string, email: string, password: string)

  /** The message of a failed registration: an `Error`'s own message, else the fallback. */
  function FailureMessage(f: Failure): (m: string)
    ensures f.isError ==> m == f.message
    ensures !f.isError ==> m == RegisterFailed
  {
    if f.isError then f.message else RegisterFailed
  }

  class RegisterPage {
    var loading: bool
    var form: RegisterForm
    const auth: AS.AuthStore

    constructor (auth: AS.AuthStore)
      ensures this.auth == auth && !loading && form == RegisterForm("", "", "")
    {
      this.auth := auth;
      loading := false;
      form := RegisterForm("", "", "");
    }

    /**
     * `handleSubmit()`: a password shorter than six characters is refused
     * with nothing sent and `loading` untouched.  Otherwise the form is
     * sent; on success the returned token and profile are passed to
     * `setAuth` and the browser goes to the dashboard.  `loading` ends
     * false.
     */
    method HandleSubmit(result: Outcome<AuthResponse>) returns (request: Option<RegisterForm>, nav: Navigation, notice: Notice)
      modifies this, auth, auth.storage
      ensures request.Some? <==> |old(form.password)| >= MinPasswordLength
      ensures request.None? ==>
        notice == Error(PasswordTooShort) && nav == Stay && loading == old(loading) &&
        auth.Current() == old(auth.Current())
      ensures request.Some? ==> request.value == old(form) && !loading
      ensures request.Some? && result.Ok? ==>
        nav == ToDashboard && notice == Success(Registered) &&
        auth.Current() == AS.AfterSetAuth(old(auth.Current()), result.value.token, result.value.professional)
      ensures request.Some? && result.Err? ==>
        nav == Stay && notice == Error(FailureMessage(result.failure)) &&
        auth.Current() == old(auth.Current())
      ensures form == old(form)
    {
      if |form.password| < MinPasswordLength {
        request, nav, notice := None, Stay, Error(PasswordTooShort);
        return;
      }
      loading := true;
      request := Some(form);
      match result {
        case Ok(response) =>
          auth.SetAuth(response.token, response.professional);
          notice := Success(Registered);
          nav := ToDashboard;
        case Err(f) =>
          nav := Stay;
          notice := Error(if f.isError then f.message else RegisterFailed);
      }
      loading := false;
    }
  }
}
