/** The login form: one user-details request with the alias and the typed
    code; the session record is created only when the server's user carries
    the email the user typed. */
module LoginPage {
  import opened Common
  import opened Session
  import opened Api

  /** The server's message for an account whose code was never confirmed. */
  const TotpPendingMessage := "Debes completar la verificación TOTP para acceder a los detalles del usuario"
  const CheckCredentials := "Verifique las credenciales"

  /** The success test of the login reply: `success`, a `user`, and that
      user's email equal to the typed one. */
  predicate Accepts(reply: Reply<UserDetailsData>, email: string) {
    reply.Ok? && reply.data.success && reply.data.user.Some?
    && reply.data.user.value.email == Some(email)
  }

  /** The reply that sends the user to confirm their second factor. */
  predicate MustVerify(reply: Reply<UserDetailsData>) {
    reply == HttpErr(403, Some(TotpPendingMessage))
  }

  class Login {
    var email: string
    var alias: string
    var codigo: string
    var loading: bool
    var snackbar: Option<Notice>

    constructor ()
      ensures email == "" && alias == "" && codigo == ""
      ensures !loading && snackbar == None
    {
      email, alias, codigo := "", "", "";
      loading, snackbar := false, None;
    }

    /** The form's submit handler. The button is disabled while a request is
        in flight, so the handler never runs with `loading` set. */
    method HandleSubmit(store: SessionStore, reply: Reply<UserDetailsData>)
      returns (sent: Request, nav: Option<Route>)
      requires !loading
      modifies this`loading, this`snackbar, store
      ensures sent == UserDetails(Credentials(alias, codigo))
      ensures !loading
      ensures Accepts(reply, email) ==>
        && store.record == Some(RecordFor(reply.data.user.value, codigo))
        && nav == Some(AccountRoute(false, false))
        && snackbar == old(snackbar)
      ensures !Accepts(reply, email) ==> store.record == old(store.record)
      ensures MustVerify(reply) ==>
        nav == Some(VerifyAccountRoute(alias)) && snackbar == old(snackbar)
      ensures !Accepts(reply, email) && !MustVerify(reply) ==>
        nav == None && snackbar == Some(Notice(CheckCredentials, Error))
    {
      loading := true;
      sent := UserDetails(Credentials(alias, codigo));
      nav := None;
      match reply {
        case Ok(res) =>
          if res.success && res.user.Some? && res.user.value.email == Some(email) {
            store.SetItem(RecordFor(res.user.value, codigo));
            nav := Some(AccountRoute(false, false));
          } else {
            snackbar := Some(Notice(CheckCredentials, Error));
          }
        case HttpErr(status, message) =>
          if status == 403 && message == Some(TotpPendingMessage) {
            nav := Some(VerifyAccountRoute(alias));
          } else {
            snackbar := Some(Notice(CheckCredentials, Error));
          }
        case NetErr =>
          snackbar := Some(Notice(CheckCredentials, Error));
      }
      loading := false;
    }
  }
}
