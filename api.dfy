/** The requests the client sends to the ledger service and the shapes of the
    replies it reads. The service itself is not modelled: a handler receives
    each reply as a parameter and reports the requests it issued. */
module Api {
  import opened Common
  import opened Session

  /** The body `{username, totpToken}` shared by several endpoints. */
  datatype Credentials = Credentials(username: string, totpToken: string)

  datatype Request =
    | UserDetails(creds: Credentials)            // POST /api/user-details
    | VerifyTotpSetup(creds: Credentials)        // POST /api/verify-totp-setup
    | VerifyTotp(creds: Credentials)             // POST /api/verify-totp
    | TransferFunds(                             // POST /api/transfer
        fromUsername: string,
        toUsername: string,
        amount: string,
        description: string,
        operationToken: Option<string>)
    | Transactions(username: string, token: Option<string>)  // POST /api/transactions
    | EditProfile(email: string, name: string, username: string) // POST /api/auth0/edit-profile
    | ChangeEmail(username: string, totpToken: string, newEmail: string) // POST /api/change-email

  /** What an awaited request yields: a 2xx reply body, a non-2xx status with
      the body's `message` (thrown by the HTTP client), or a failure with no
      response at all. */
  datatype Reply<T> = Ok(data: T) | HttpErr(status: int, message: Option<string>) | NetErr

  datatype UserDetailsData = UserDetailsData(success: bool, user: Option<User>)

  datatype SetupData = SetupData(success: bool)

  datatype VerifyData = VerifyData(success: bool, operationToken: Option<string>)

  /** `newBalance` is `transfer.from.newBalance`; `None` when the `transfer`
      object is missing from the reply. */
  datatype TransferData = TransferData(success: bool, message: Option<string>, newBalance: Option<int>)

  datatype Movement = Movement(
    kind: string,            // 'sent', 'received', 'award', or anything else
    amount: int,
    description: string,
    toName: string,
    fromName: string,
    awardedBy: Option<string>,
    createdAt: int)

  datatype TransactionsData = TransactionsData(transactions: Option<seq<Movement>>)

  /** `changes` is `None` when the reply has no `changes` array. */
  datatype EditProfileData = EditProfileData(
    success: bool,
    message: Option<string>,
    user: SessionRecord,
    changes: Option<seq<string>>)

  datatype ChangeEmailData = ChangeEmailData(success: bool, message: Option<string>, user: SessionRecord)
}
