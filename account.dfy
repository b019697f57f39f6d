/** The account page: loads the stored session record (dropping its token when
    the navigation asks for it), prompts for a code whenever the record has no
    token, lists the history, and logs out. */
module AccountPage {
  import opened Common
  import opened Session
  import opened Api
  import History

  class Account {
    var userData: Option<SessionRecord>   // the page's copy of the record
    var movimientos: seq<Movement>
    var loading: bool
    var showTotpPrompt: bool
    var tempToken: string                 // the code typed into the prompt

    /** The page never shows an account whose record lacks a token without
        the code prompt in front of it. */
    ghost predicate Valid()
      reads this
    {
      userData.Some? && !showTotpPrompt ==> HasToken(userData.value)
    }

    constructor ()
      ensures Valid()
      ensures userData == None && movimientos == [] && loading
      ensures !showTotpPrompt && tempToken == ""
    {
      userData, movimientos, loading := None, [], true;
      showTotpPrompt, tempToken := false, "";
    }

    /** The effect that runs when the page is entered; `clearToken` is the
        navigation state's flag. */
    method LoadSession(store: SessionStore, clearToken: bool) returns (nav: Option<Route>)
      requires Valid()
      modifies this`userData, this`showTotpPrompt, store
      ensures Valid()
      ensures old(store.record).None? ==>
        && nav == Some(Root) && store.record == None
        && userData == old(userData) && showTotpPrompt == old(showTotpPrompt)
      ensures old(store.record).Some? ==>
        && nav == None
        && store.record == Some(if clearToken then old(store.record).value.(token := None)
                                else old(store.record).value)
        && userData == store.record
        && showTotpPrompt == (old(showTotpPrompt) || !HasToken(store.record.value))
      ensures clearToken && old(store.record).Some? ==> PhaseOf(store.record) == AwaitingCode && showTotpPrompt
    {
      nav := None;
      var saved := store.record;
      if saved.None? {
        nav := Some(Root);
        return;
      }
      var r := saved.value;
      if clearToken {
        r := r.(token := None);
        store.SetItem(r);
      }
      if !HasToken(r) {
        showTotpPrompt := true;
      }
      userData := Some(r);
    }

    /** Loads the history for the page's record; `reply` is the server's
        answer to the request. */
    method FetchHistory(reply: Reply<TransactionsData>) returns (sent: Option<Request>)
      modifies this`movimientos, this`loading
      ensures userData.None? ==>
        sent == None && movimientos == old(movimientos) && loading == old(loading)
      ensures userData.Some? ==>
        && sent == Some(Transactions(userData.value.username, userData.value.token))
        && movimientos == History.HistoryFrom(reply)
        && !loading
      ensures !(reply.Ok? && reply.data.transactions.Some?) && userData.Some? ==> movimientos == []
    {
      sent := None;
      if userData.None? {
        return;
      }
      loading := true;
      sent := Some(Transactions(userData.value.username, userData.value.token));
      match reply {
        case Ok(TransactionsData(Some(ts))) => movimientos := ts;
        case _ => movimientos := [];
      }
      loading := false;
    }

    method Logout(store: SessionStore) returns (nav: Route)
      modifies store
      ensures store.record == None && PhaseOf(store.record) == Anonymous
      ensures nav == Root
    {
      store.RemoveItem();
      nav := Root;
    }

    /** The prompt's Cancel button. */
    method CancelPrompt(store: SessionStore) returns (nav: Route)
      modifies store
      ensures store.record == None && PhaseOf(store.record) == Anonymous
      ensures nav == Root
    {
      nav := Root;
      store.RemoveItem();
    }

    /** The prompt's Confirm button; the dialog is only rendered, open, once
        the page holds a record. */
    method ConfirmPrompt(store: SessionStore)
      requires Valid() && userData.Some? && showTotpPrompt
      modifies this`userData, this`showTotpPrompt, store
      ensures Valid()
      ensures |tempToken| == 6 ==>
        && userData == Some(old(userData).value.(token := Some(tempToken)))
        && store.record == userData
        && PhaseOf(store.record) == Unlocked
        && !showTotpPrompt
      ensures |tempToken| != 6 ==>
        && userData == old(userData)
        && store.record == old(store.record)
        && showTotpPrompt
    {
      if |tempToken| == 6 {
        var updated := userData.value.(token := Some(tempToken));
        store.SetItem(updated);
        userData := Some(updated);
        showTotpPrompt := false;
      } else {
        showTotpPrompt := true;
      }
    }
  }
}
