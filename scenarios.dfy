/** Client code that drives the page handlers through whole sessions and
    states, with assertions, what callers can conclude from the handlers'
    contracts alone. */
module Scenarios {
  import opened Common
  import opened Session
  import opened Api
  import LoginPage
  import AccountPage
  import TransferPage
  import Text

  /** Login with the matching email stores the server's figures and the
      typed code, and the account page opens without a prompt. */
  method LoginSession() {
    var store := new SessionStore(None);
    var login := new LoginPage.Login();
    login.email, login.alias, login.codigo := "juan@mail.com", "juan.123", "123456";
    var juan := User("Juan", "juan.123", Some("juan@mail.com"), 1000);
    var _, nav := login.HandleSubmit(store, Ok(UserDetailsData(true, Some(juan))));
    assert store.record == Some(SessionRecord("Juan", "juan.123", 1000, None, Some("123456")));
    assert nav == Some(AccountRoute(false, false));

    var account := new AccountPage.Account();
    nav := account.LoadSession(store, false);
    assert !account.showTotpPrompt && nav == None;
  }

  /** "juan.123" sends 200 to "ana.55": the stored balance becomes the
      server's figure; a second attempt with a rejected code changes nothing. */
  method TransferSession() {
    var store := new SessionStore(Some(SessionRecord("Juan", "juan.123", 1000, None, Some("123456"))));
    var transfer := new TransferPage.Transfer();
    transfer.alias, transfer.detalle, transfer.codigo := "ana.55", "cena", "654321";
    transfer.TypeAmount("2a00");
    Text.StripDropsNonDigit("2a00", 1);
    assert transfer.cantidad == "200";
    var sent, nav := transfer.HandleTransfer(store,
      Ok(VerifyData(true, Some("op-1"))),
      Ok(TransferData(true, None, Some(790))));
    assert sent[1] == TransferFunds("juan.123", "ana.55", "200", "cena", Some("op-1"));
    assert store.record.value.balance == 790;
    assert nav == Some(TransferProofRoute(Receipt("juan.123", "ana.55", "200")));

    sent, nav := transfer.HandleTransfer(store,
      Ok(VerifyData(false, None)),
      Ok(TransferData(true, None, Some(590))));
    assert |sent| == 1 && nav == None;
    assert store.record.value.balance == 790;
    assert transfer.alert == Some(Notice(TransferPage.WrongCode, Error)) && !transfer.loading;
  }

  /** Going back from a transfer drops the token; the account page then asks
      for a code and accepts only one of six characters. */
  method BackToAccount() {
    var store := new SessionStore(Some(SessionRecord("Juan", "juan.123", 790, None, Some("654321"))));
    var transfer := new TransferPage.Transfer();
    var back := transfer.Back();
    var account := new AccountPage.Account();
    var nav := account.LoadSession(store, back.clearToken);
    assert account.showTotpPrompt && PhaseOf(store.record) == AwaitingCode;
    assert store.record.value.balance == 790;

    account.tempToken := "12345";
    account.ConfirmPrompt(store);
    assert account.showTotpPrompt && PhaseOf(store.record) == AwaitingCode;
    account.tempToken := "112233";
    account.ConfirmPrompt(store);
    assert !account.showTotpPrompt && PhaseOf(store.record) == Unlocked;
  }

  /** An unconfirmed account is sent to the verification page and stores
      nothing; a reloaded record without a token is never shown unlocked. */
  method UnconfirmedSession() {
    var store := new SessionStore(None);
    var login := new LoginPage.Login();
    login.email, login.alias, login.codigo := "ana@mail.com", "ana.55", "000000";
    var _, nav := login.HandleSubmit(store, HttpErr(403, Some(LoginPage.TotpPendingMessage)));
    assert nav == Some(VerifyAccountRoute("ana.55")) && store.record == None;

    var stale := new SessionStore(Some(SessionRecord("Ana", "ana.55", 50, None, None)));
    var account := new AccountPage.Account();
    nav := account.LoadSession(stale, false);
    assert account.showTotpPrompt;
    var cancel := account.CancelPrompt(stale);
    assert stale.record == None && cancel == Root;
  }
}
