/** The transfer form: local field checks, then the two-step protocol (verify
    the code, then transfer with the operation token the verification
    returned), and on success the server's new balance in the session record. */
module TransferPage {
  import opened Common
  import opened Session
  import opened Api
  import opened Text

  const MissingFields := "Completa todos los campos."
  const WrongCode := "Código incorrecto."
  const TransferFailed := "Error en la transferencia."

  /** The required-field test: every field non-empty. */
  predicate AllFilled(alias: string, cantidad: string, detalle: string, codigo: string) {
    alias != "" && cantidad != "" && detalle != "" && codigo != ""
  }

  predicate CodeVerified(reply: Reply<VerifyData>) {
    reply.Ok? && reply.data.success
  }

  /** A transfer reply the client can apply: success and a new balance. */
  predicate Applied(reply: Reply<TransferData>) {
    reply.Ok? && reply.data.success && reply.data.newBalance.Some?
  }

  /** The notice for a transfer reply that is not applied: the server's
      message for a reported failure, the generic one otherwise. */
  function FailureNotice(reply: Reply<TransferData>): (n: Notice)
    requires !Applied(reply)
    ensures n.severity == Error && n.message != ""
    ensures reply.Ok? && !reply.data.success ==> n.message == MessageOr(reply.data.message, TransferFailed)
    ensures !(reply.Ok? && !reply.data.success) ==> n.message == TransferFailed
  {
    match reply
    case Ok(data) => Notice(if data.success then TransferFailed else MessageOr(data.message, TransferFailed), Error)
    case _ => Notice(TransferFailed, Error)
  }

  /** The protocol's ordering rule over the requests one submission issued:
      a transfer request only ever comes second, right after a verify-totp
      request that succeeded, and carries that reply's operation token. */
  ghost predicate VerifiedBeforeTransfer(sent: seq<Request>, verify: Reply<VerifyData>) {
    forall k :: 0 <= k < |sent| && sent[k].TransferFunds? ==>
      && k == 1 && sent[0].VerifyTotp? && CodeVerified(verify)
      && sent[k].operationToken == verify.data.operationToken
  }

  /** Under the ordering rule, one submission issues at most one transfer.
      This only unfolds `VerifiedBeforeTransfer`; it records a consequence of
      the rule rather than a proof of its own. */
  lemma AtMostOneTransfer(sent: seq<Request>, verify: Reply<VerifyData>, a: nat, b: nat)
    requires VerifiedBeforeTransfer(sent, verify)
    requires a < |sent| && b < |sent| && sent[a].TransferFunds? && sent[b].TransferFunds?
    ensures a == b == 1
  {
  }

  class Transfer {
    var alias: string
    var cantidad: string
    var detalle: string
    var codigo: string
    var loading: bool
    var alert: Option<Notice>

    constructor ()
      ensures alias == "" && cantidad == "" && detalle == "" && codigo == ""
      ensures !loading && alert == None
    {
      alias, cantidad, detalle, codigo := "", "", "", "";
      loading, alert := false, None;
    }

    /** The amount field's change handler: only the typed digits are kept. */
    method TypeAmount(typed: string)
      modifies this`cantidad
      ensures cantidad == StripNonDigits(typed) && AllDigits(cantidad)
    {
      cantidad := StripNonDigits(typed);
    }

    /** The submit handler. The button is disabled while a submission is in
        flight, so the handler never runs with `loading` set. */
    method HandleTransfer(store: SessionStore, verifyReply: Reply<VerifyData>, transferReply: Reply<TransferData>)
      returns (sent: seq<Request>, nav: Option<Route>)
      requires !loading
      modifies this`loading, this`alert, store
      ensures !loading
      ensures VerifiedBeforeTransfer(sent, verifyReply)
      // a missing field: reported, nothing sent, nothing stored
      ensures !AllFilled(alias, cantidad, detalle, codigo) ==>
        && sent == [] && nav == None && store.record == old(store.record)
        && alert == Some(Notice(MissingFields, Error))
      // no stored record: reading its username fails before any request
      ensures AllFilled(alias, cantidad, detalle, codigo) && old(store.record).None? ==>
        && sent == [] && nav == None && store.record == None
        && alert == Some(Notice(TransferFailed, Error))
      ensures AllFilled(alias, cantidad, detalle, codigo) && old(store.record).Some? ==>
        var r := old(store.record).value;
        && |sent| >= 1 && sent[0] == VerifyTotp(Credentials(r.username, codigo))
        && (!CodeVerified(verifyReply) ==>
              && sent == [sent[0]] && nav == None && store.record == old(store.record)
              && alert == Some(Notice(if verifyReply.Ok? then WrongCode else TransferFailed, Error)))
        && (CodeVerified(verifyReply) ==>
              sent == [sent[0], TransferFunds(r.username, alias, cantidad, detalle, verifyReply.data.operationToken)])
        && (CodeVerified(verifyReply) && Applied(transferReply) ==>
              && store.record == Some(r.(balance := transferReply.data.newBalance.value))
              && nav == Some(TransferProofRoute(Receipt(r.username, alias, cantidad)))
              && alert == old(alert))
        && (CodeVerified(verifyReply) && !Applied(transferReply) ==>
              && store.record == old(store.record) && nav == None
              && alert == Some(FailureNotice(transferReply)))
    {
      sent, nav := [], None;
      if !AllFilled(alias, cantidad, detalle, codigo) {
        alert := Some(Notice(MissingFields, Error));
        return;
      }
      loading := true;
      var userData := store.record;
      if userData.None? {
        alert := Some(Notice(TransferFailed, Error));
        loading := false;
        return;
      }
      var r := userData.value;
      sent := [VerifyTotp(Credentials(r.username, codigo))];
      if !verifyReply.Ok? {
        alert := Some(Notice(TransferFailed, Error));
      } else if !verifyReply.data.success {
        alert := Some(Notice(WrongCode, Error));
      } else {
        sent := sent + [TransferFunds(r.username, alias, cantidad, detalle, verifyReply.data.operationToken)];
        if Applied(transferReply) {
          store.SetItem(r.(balance := transferReply.data.newBalance.value));
          nav := Some(TransferProofRoute(Receipt(r.username, alias, cantidad)));
        } else {
          alert := Some(FailureNotice(transferReply));
        }
      }
      loading := false;
    }

    /** The "Volver" button: back to the account page, asking it to drop the
        stored token. */
    method Back() returns (nav: Route)
      ensures nav == AccountRoute(true, true) && nav.clearToken
    {
      nav := AccountRoute(true, true);
    }
  }
}
