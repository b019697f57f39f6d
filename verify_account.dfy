/** First-time confirmation of the second factor: confirm the code with the
    setup endpoint, then load the user's details with the same credentials and
    create the session record. */
module VerifyAccountPage {
  import opened Common
  import opened Session
  import opened Api

  const WrongSetupCode := "Código TOTP incorrecto."
  const NoUserDetails := "No se pudieron obtener los datos del usuario."
  const VerifyFailed := "Error al verificar el código TOTP."

  predicate SetupConfirmed(reply: Reply<SetupData>) {
    reply.Ok? && reply.data.success
  }

  predicate DetailsLoaded(reply: Reply<UserDetailsData>) {
    reply.Ok? && reply.data.success && reply.data.user.Some?
  }

  class VerifyAccount {
    const alias: string
    var codigo: string
    var loading: bool
    var snackbar: Option<Notice>

    /** `navAlias` is the alias carried by the navigation state, if any. */
    constructor (navAlias: Option<string>)
      ensures navAlias.Some? ==> alias == navAlias.value
      ensures navAlias.None? ==> alias == ""
      ensures codigo == "" && !loading && snackbar == None
    {
      alias := navAlias.GetOr("");
      codigo := "";
      loading, snackbar := false, None;
    }

    method HandleSubmit(store: SessionStore, setupReply: Reply<SetupData>, detailsReply: Reply<UserDetailsData>)
      returns (sent: seq<Request>, nav: Option<Route>)
      requires !loading
      modifies this`loading, this`snackbar, store
      ensures !loading
      // the details request follows a confirmed setup, with the same body
      ensures sent == [VerifyTotpSetup(Credentials(alias, codigo))]
        + (if SetupConfirmed(setupReply) then [UserDetails(Credentials(alias, codigo))] else [])
      ensures SetupConfirmed(setupReply) && DetailsLoaded(detailsReply) ==>
        && store.record == Some(RecordFor(detailsReply.data.user.value, codigo))
        && nav == Some(AccountRoute(false, false))
        && snackbar == old(snackbar)
      ensures !(SetupConfirmed(setupReply) && DetailsLoaded(detailsReply)) ==>
        store.record == old(store.record) && nav == None
      ensures setupReply.Ok? && !setupReply.data.success ==>
        snackbar == Some(Notice(WrongSetupCode, Error))
      ensures SetupConfirmed(setupReply) && detailsReply.Ok? && !DetailsLoaded(detailsReply) ==>
        snackbar == Some(Notice(NoUserDetails, Error))
      ensures !setupReply.Ok? || (SetupConfirmed(setupReply) && !detailsReply.Ok?) ==>
        snackbar == Some(Notice(VerifyFailed, Error))
    {
      loading := true;
      var creds := Credentials(alias, codigo);
      sent := [VerifyTotpSetup(creds)];
      nav := None;
      match setupReply {
        case Ok(setup) =>
          if setup.success {
            sent := sent + [UserDetails(creds)];
            match detailsReply {
              case Ok(details) =>
                if details.success && details.user.Some? {
                  store.SetItem(RecordFor(details.user.value, codigo));
                  nav := Some(AccountRoute(false, false));
                } else {
                  snackbar := Some(Notice(NoUserDetails, Error));
                }
              case _ =>
                snackbar := Some(Notice(VerifyFailed, Error));
            }
          } else {
            snackbar := Some(Notice(WrongSetupCode, Error));
          }
        case _ =>
          snackbar := Some(Notice(VerifyFailed, Error));
      }
      loading := false;
    }
  }
}
