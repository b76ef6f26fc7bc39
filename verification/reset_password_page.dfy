/**
 * The password-reset form reached from an e-mailed link carrying a
 * `token` query value.
 */
module ResetPasswordPage {
  import opened Wrappers
  import opened Entities

  const PasswordMismatch: string := "Les mots de passe ne correspondent pas"
  const InvalidLink: string := "Lien invalide ou expiré"

  /** What the page shows. */
  datatype View = InvalidLinkView | DoneView | FormView

  /** Without a (non-empty) token only the invalid-link view is shown; then the success view once done, else the form. */
  function ViewOf(token: string, done: bool): (v: View)
    ensures v == InvalidLinkView <==> token == ""
    ensures v == DoneView <==> token != "" && done
    ensures v == FormView <==> token != "" && !done
  {
    if token == "" then InvalidLinkView else if done then DoneView else FormView
  }

  /** The body of a reset request. */
  datatype ResetRequest = ResetRequest(token: string, password: string)

  class ResetPasswordPage {
    /** `searchParams.get("token") || ""`. */
    const token: string
    var password: string
    var confirm: string
    var loading: bool
    var done: bool

    constructor (query: Option<string>)
      ensures token == (if query.Some? then query.value else "")
      ensures password == "" && confirm == "" && !loading && !done
    {
      token := if query.Some? then query.value else "";
      password := "";
      confirm := "";
      loading := false;
      done := false;
    }

    /**
     * `handleSubmit()`: a confirmation that differs from the password sends
     * nothing and leaves `loading` alone.  Otherwise the token and password
     * are sent; success sets `done`, failure reports the error and leaves
     * `done` as it was.  `loading` ends false.
     */
    method HandleSubmit(result: Outcome<()>) returns (request: Option<ResetRequest>, notice: Notice)
      modifies this
      ensures request.Some? <==> old(password) == old(confirm)
      ensures request.None? ==> notice == Error(PasswordMismatch) && loading == old(loading) && done == old(done)
      ensures request.Some? ==> request.value == ResetRequest(token, old(password)) && !loading
      ensures request.Some? && result.Ok? ==> done && notice == Silent
      ensures request.Some? && result.Err? ==>
        done == old(done) && notice == Error(MessageOr(result.failure, InvalidLink))
      ensures password == old(password) && confirm == old(confirm)
    {
      if password != confirm {
        request, notice := None, Error(PasswordMismatch);
        return;
      }
      loading := true;
      request := Some(ResetRequest(token, password));
      match result {
        case Ok(_) =>
          done := true;
          notice := Silent;
        case Err(f) =>
          notice := Error(MessageOr(f, InvalidLink));
      }
      loading := false;
    }
  }
}
