/** The profile page: edits name and username (the server's user replaces the
    stored record), and changes the email after checking its format and the
    code's format locally. */
module ProfileEditPage {
  import opened Common
  import opened Session
  import opened Api
  import opened Text

  const Saved := "Cambios guardados con éxito"
  const NoChanges := "No se detectaron cambios en el perfil"
  const Unexpected := "Error inesperado"
  const BadEmail := "El email no tiene un formato válido"
  const BadCode := "El código TOTP debe tener 6 dígitos"
  const EmailUpdated := "Email actualizado correctamente"

  /** The notice for a request that threw: the error body's message, or the
      generic one. */
  function ThrownNotice(message: Option<string>): (n: Notice)
    ensures n.severity == Error && n.message != ""
    ensures message.None? || message == Some("") ==> n.message == Unexpected
    ensures message.Some? && message.value != "" ==> n.message == message.value
  {
    Notice(MessageOr(message, Unexpected), Error)
  }

  class ProfileEdit {
    var name: string
    var username: string
    const email: string
    var newEmail: string
    var totpToken: string
    var loadingEdit: bool
    var loadingEmail: bool
    var submitted: bool
    var snackbar: Option<Notice>

    /** The form starts from the stored record, with empty fields when there
        is none. */
    constructor (store: SessionStore)
      ensures store.record.Some? ==>
        && name == store.record.value.name
        && username == store.record.value.username
        && email == store.record.value.email.GetOr("")
      ensures store.record.None? ==> name == "" && username == "" && email == ""
      ensures newEmail == "" && totpToken == ""
      ensures !loadingEdit && !loadingEmail && !submitted && snackbar == None
    {
      match store.record {
        case Some(r) =>
          name, username, email := r.name, r.username, r.email.GetOr("");
        case None =>
          name, username, email := "", "", "";
      }
      newEmail, totpToken := "", "";
      loadingEdit, loadingEmail, submitted, snackbar := false, false, false, None;
    }

    /** The save button. It is disabled while a save is in flight. */
    method HandleSubmit(store: SessionStore, reply: Reply<EditProfileData>)
      returns (sent: Request, nav: Option<Route>)
      requires !loadingEdit
      modifies this`loadingEdit, this`snackbar, this`submitted, store
      ensures sent == EditProfile(email, name, username)
      ensures !loadingEdit
      // a success replaces the whole record, before `changes` is read
      ensures reply.Ok? && reply.data.success ==> store.record == Some(reply.data.user)
      ensures !(reply.Ok? && reply.data.success) ==> store.record == old(store.record)
      ensures reply.Ok? && reply.data.success && reply.data.changes.Some? && |reply.data.changes.value| > 0 ==>
        && snackbar == Some(Notice(Saved, Success)) && submitted
        && nav == Some(AccountRoute(true, false))
      ensures reply.Ok? && reply.data.success && reply.data.changes == Some([]) ==>
        snackbar == Some(Notice(NoChanges, Info)) && submitted == old(submitted) && nav == None
      // without a `changes` array the handler throws after the record is written
      ensures reply.Ok? && reply.data.success && reply.data.changes.None? ==>
        snackbar == Some(Notice(Unexpected, Error)) && submitted == old(submitted) && nav == None
      ensures reply.Ok? && !reply.data.success ==>
        snackbar == Some(Notice(reply.data.message.GetOr(""), Error)) && nav == None
      ensures reply.HttpErr? ==> snackbar == Some(ThrownNotice(reply.message)) && nav == None
      ensures reply.NetErr? ==> snackbar == Some(Notice(Unexpected, Error)) && nav == None
      ensures !(reply.Ok? && reply.data.success) ==> submitted == old(submitted)
    {
      loadingEdit := true;
      sent := EditProfile(email, name, username);
      nav := None;
      match reply {
        case Ok(data) =>
          if data.success {
            store.SetItem(data.user);
            match data.changes {
              case Some(changes) =>
                if |changes| > 0 {
                  snackbar := Some(Notice(Saved, Success));
                  submitted := true;
                  nav := Some(AccountRoute(true, false));
                } else {
                  snackbar := Some(Notice(NoChanges, Info));
                }
              case None =>
                snackbar := Some(ThrownNotice(None));
            }
          } else {
            snackbar := Some(Notice(data.message.GetOr(""), Error));
          }
        case HttpErr(_, message) =>
          snackbar := Some(ThrownNotice(message));
        case NetErr =>
          snackbar := Some(ThrownNotice(None));
      }
      loadingEdit := false;
    }

    /** The email-change button: the email format is checked first, then the
        code format, and only then is the request sent. A success schedules
        the logout that `FinishEmailChange` performs. */
    method HandleChangeEmail(store: SessionStore, reply: Reply<ChangeEmailData>)
      returns (sent: seq<Request>, nav: Option<Route>, logoutScheduled: bool)
      requires !loadingEmail
      modifies this`loadingEmail, this`snackbar, store
      ensures !loadingEmail
      ensures !IsValidEmail(newEmail) ==>
        && sent == [] && nav == None && !logoutScheduled
        && store.record == old(store.record)
        && snackbar == Some(Notice(BadEmail, Warning))
      ensures IsValidEmail(newEmail) && !IsSixDigitCode(totpToken) ==>
        && sent == [] && nav == None && !logoutScheduled
        && store.record == old(store.record)
        && snackbar == Some(Notice(BadCode, Warning))
      ensures sent != [] <==> IsValidEmail(newEmail) && IsSixDigitCode(totpToken)
      ensures sent != [] ==> sent == [ChangeEmail(username, totpToken, newEmail)]
      ensures sent != [] && reply.Ok? && reply.data.success ==>
        && store.record == Some(reply.data.user) && logoutScheduled && nav == None
        && snackbar == Some(Notice(EmailUpdated, Success))
      ensures sent != [] && reply.Ok? && !reply.data.success ==>
        && store.record == old(store.record) && !logoutScheduled && nav == None
        && snackbar == Some(Notice(reply.data.message.GetOr(""), Error))
      ensures sent != [] && reply.HttpErr? && reply.status == 401 ==>
        && store.record == None && !logoutScheduled && nav == Some(LoginRoute)
        && snackbar == old(snackbar)
      ensures sent != [] && reply.HttpErr? && reply.status != 401 ==>
        && store.record == old(store.record) && !logoutScheduled && nav == None
        && snackbar == Some(ThrownNotice(reply.message))
      ensures sent != [] && reply.NetErr? ==>
        && store.record == old(store.record) && !logoutScheduled && nav == None
        && snackbar == Some(Notice(Unexpected, Error))
    {
      sent, nav, logoutScheduled := [], None, false;
      if !IsValidEmail(newEmail) {
        snackbar := Some(Notice(BadEmail, Warning));
        return;
      }
      if !IsSixDigitCode(totpToken) {
        snackbar := Some(Notice(BadCode, Warning));
        return;
      }
      loadingEmail := true;
      sent := [ChangeEmail(username, totpToken, newEmail)];
      match reply {
        case Ok(data) =>
          if data.success {
            snackbar := Some(Notice(EmailUpdated, Success));
            store.SetItem(data.user);
            logoutScheduled := true;
          } else {
            snackbar := Some(Notice(data.message.GetOr(""), Error));
          }
        case HttpErr(status, message) =>
          if status == 401 {
            store.RemoveItem();
            nav := Some(LoginRoute);
          } else {
            snackbar := Some(ThrownNotice(message));
          }
        case NetErr =>
          snackbar := Some(ThrownNotice(None));
      }
      loadingEmail := false;
    }

    /** The delayed logout after an email change: the record is removed and the
        identity provider's logout returns to '/login'. */
    method FinishEmailChange(store: SessionStore) returns (nav: Route)
      modifies store
      ensures store.record == None && PhaseOf(store.record) == Anonymous
      ensures nav == LoginRoute
    {
      store.RemoveItem();
      nav := LoginRoute;
    }
  }
}
