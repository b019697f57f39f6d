/** Values shared by every page of the wallet client: optional values, the
    notices shown in a snackbar, and the routes a handler can navigate to. */
module Common {

  datatype Option<+T> = None | Some(value: T) {
    function GetOr(default: T): T {
      match this
      case Some(v) => v
      case None => default
    }
  }

  /** The severity of a snackbar alert. */
  datatype Severity = Info | Success | Warning | Error

  /** One snackbar notification: its text and its severity. */
  datatype Notice = Notice(message: string, severity: Severity)

  /** The state a transfer carries to its receipt page. */
  datatype Receipt = Receipt(from: string, to: string, amount: string)

  /** The client-side routes the handlers navigate to, with the navigation
      state each one carries. */
  datatype Route =
    | Root                                          // '/'
    | LoginRoute                                    // '/login'
    | AccountRoute(reload: bool, clearToken: bool)  // '/account'
    | VerifyAccountRoute(alias: string)             // '/verify-account'
    | TransferProofRoute(receipt: Receipt)          // '/transfer-proof'

  /** JavaScript's `message || fallback` on a possibly absent string:
      an absent or empty message gives way to the fallback. */
  function MessageOr(message: Option<string>, fallback: string): (r: string)
    ensures r == fallback || (message == Some(r) && r != "")
    ensures message.Some? && message.value != "" ==> r == message.value
    ensures fallback != "" ==> r != ""
  {
    if message.Some? && message.value != "" then message.value else fallback
  }
}
