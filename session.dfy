/** The client-side session record: the single value the browser keeps under
    the local-storage key 'userData', and the store that holds it. */
module Session {
  import opened Common

  /** The stored session record. Records written by login and account
      verification have no email; records written from a profile reply carry
      whatever the server sent. An absent token is `None`. */
  datatype SessionRecord = SessionRecord(
    name: string,
    username: string,
    balance: int,
    email: Option<string>,
    token: Option<string>)

  /** The `user` object of a user-details reply. */
  datatype User = User(name: string, username: string, email: Option<string>, balance: int)

  /** JavaScript truthiness of `record.token`: absent and empty both count as
      "no token". */
  predicate HasToken(r: SessionRecord) {
    r.token.Some? && r.token.value != ""
  }

  /** The three shapes the stored record can take. */
  datatype Phase = Anonymous | AwaitingCode | Unlocked

  function PhaseOf(stored: Option<SessionRecord>): (p: Phase)
    ensures p == Anonymous <==> stored.None?
    ensures p == Unlocked <==> stored.Some? && HasToken(stored.value)
  {
    match stored
    case None => Anonymous
    case Some(r) => if HasToken(r) then Unlocked else AwaitingCode
  }

  /** The record login and account verification write: the server's name,
      username and balance, and the code the user typed as token. */
  function RecordFor(u: User, code: string): SessionRecord {
    SessionRecord(u.name, u.username, u.balance, None, Some(code))
  }

  /** A record written at login or verification is unlocked exactly when the
      typed code was not empty; otherwise the account page prompts for one. */
  lemma NewRecordUnlockedIffCode(u: User, code: string)
    ensures PhaseOf(Some(RecordFor(u, code))) == Unlocked <==> code != ""
    ensures RecordFor(u, code).balance == u.balance && RecordFor(u, code).username == u.username
  {
  }

  /** The local-storage slot 'userData'. */
  class SessionStore {
    var record: Option<SessionRecord>

    constructor (initial: Option<SessionRecord>)
      ensures record == initial
    {
      record := initial;
    }

    /** localStorage.setItem('userData', ...): replaces the whole record. */
    method SetItem(r: SessionRecord)
      modifies this
      ensures record == Some(r)
    {
      record := Some(r);
    }

    /** localStorage.removeItem('userData'): idempotent. */
    method RemoveItem()
      modifies this
      ensures record == None
    {
      record := None;
    }
  }
}
