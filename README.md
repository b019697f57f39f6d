# Wallet client session and transfer rules, in Dafny

This project models the logic underneath the pages of a React wallet client
(the "raulocoin" web app). It covers three things.

- **The session record.** This is the one value kept in the browser under the
  local-storage key `userData`. It can be absent, present without a token, or
  present with a token (`Session.PhaseOf`). Login and first-time account
  verification create it. The account page can drop its token or ask for a new
  one. A transfer overwrites its balance. A profile edit replaces it. Logout,
  the prompt's Cancel button and an HTTP 401 on email change remove it.
- **The two-step transfer.** The fields are checked locally first. Then
  `verify-totp` is called, and only after it succeeds is `transfer` called,
  with the operation token that verification returned. Only a successful
  transfer touches the stored balance, and it stores the server's figure.
- **The client-side validators and classifiers.** These are the amount
  field's digit filter, the six-digit code check, the email format check, the
  required-field check, and how a history entry is labelled, coloured and
  signed.

The store is a class (`Session.SessionStore`) whose `record` field the
handlers reassign. Each page is a class that holds its React state as fields:
the form fields, `loading`, the snackbar notice, and the account page's prompt
state. Each event handler is a method that modifies the page and the store.
The server is not modelled. A handler takes the server's reply to each request
as a parameter, either `Ok(body)`, `HttpErr(status, message)` or `NetErr`. It
returns the requests it issued and the route it navigates to. Its
postcondition gives the whole new state for every kind of reply.

Two contracts carry the protocol's main rules:
- The account page keeps the invariant `Valid()`: a record without a token is
  never shown without the code prompt in front of it.
- The transfer handler's requests satisfy `VerifiedBeforeTransfer`: a
  transfer request only comes second, right after a successful verification,
  and it carries that verification's operation token.

The model follows the code. In particular:
- Transfer failures are not told apart. The user sees the server's message or
  one generic message.
- Only the email change reacts to HTTP 401 by removing the record.
- The record has no "second factor confirmed" flag. A truthy `token` field is
  the only marker, so an empty token counts as no token, as JavaScript
  truthiness has it.

`scenarios.dfy` holds client methods. They drive the handlers through a login,
a transfer, a rejected code and a return to the account page, and assert what
follows from the handlers' contracts, with the text helpers' definitions and
lemmas used where a concrete amount is filtered.

## Model

| member | source | states |
|---|---|---|
| `Common.MessageOr` | Wallet/src/pages/Transfer.js:72 | the server's message when it is present and non-empty, otherwise the fallback; never empty when the fallback is not |
| `Session.PhaseOf` | Wallet/src/pages/Account.js:20-28 | the record is absent (anonymous), present without a truthy token (awaiting a code), or present with one (unlocked) |
| `Session.NewRecordUnlockedIffCode` | Wallet/src/pages/Login.js:52-57 | a record written from a user and a typed code keeps the server's balance and username, and is unlocked exactly when the code is non-empty |
| `Session.SessionStore.SetItem` | Wallet/src/pages/Login.js:52 | `localStorage.setItem('userData', …)` replaces the whole record |
| `Session.SessionStore.RemoveItem` | Wallet/src/pages/Account.js:56 | `localStorage.removeItem('userData')` leaves no record, whether or not one was there |
| `Text.StripNonDigits` | Wallet/src/pages/Transfer.js:134 | `replace(/\D/g, '')`: the result holds only ASCII digits and is no longer than the input |
| `Text.StripConcat` | Wallet/src/pages/Transfer.js:134 | filtering a concatenation is concatenating the filtered parts |
| `Text.StripKeepsDigitString` | Wallet/src/pages/Transfer.js:134 | a string of digits is left unchanged |
| `Text.StripIdempotent` | Wallet/src/pages/Transfer.js:134 | filtering twice equals filtering once |
| `Text.StripPlacesDigit` | Wallet/src/pages/Transfer.js:134 | every digit of the input appears in the output, at the position counted by the digits before it, so the digits keep their original order |
| `Text.StripDropsNonDigit` | Wallet/src/pages/Transfer.js:134 | a non-digit is dropped where it stands and contributes nothing |
| `Text.SixDigitCodeIsFilterFixpoint` | Wallet/src/pages/ProfileEdit.js:74 | the code check (length 6 and `/^\d+$/`) accepts a code exactly when it has six characters and the digit filter leaves it unchanged |
| `Text.ValidEmailMatches` | Wallet/src/pages/ProfileEdit.js:66 | every address the check accepts matches `^[^\s@]+@[^\s@]+\.[^\s@]+$` |
| `Text.MatchingEmailValid` | Wallet/src/pages/ProfileEdit.js:66 | every string the pattern matches is accepted by the check |
| `Text.ValidEmailMatchesPattern` | Wallet/src/pages/ProfileEdit.js:66 | the email check holds if and only if the string matches the pattern: a non-empty local part, one '@', no white space, and a '.' strictly inside the domain |
| `Text.ValidEmailHasOneAt` | Wallet/src/pages/ProfileEdit.js:66 | an accepted address has exactly one '@' |
| `Text.NatToString` | Wallet/src/pages/Account.js:189 | the decimal text of a number is non-empty, all digits, and has no leading zero |
| `Text.ParseNatToString` | Wallet/src/pages/Account.js:189 | reading back the decimal text of n gives n |
| `Text.IntToString` | Wallet/src/pages/Account.js:189 | `String(n)` starts with '-' exactly for negative n, and its digits read back as the absolute value |
| `History.TypeLabel` | Wallet/src/pages/Account.js:62-66 | 'sent' gets the sent label, 'received' and 'award' the received label, any other type its own string |
| `History.AmountText` | Wallet/src/pages/Account.js:188-189 | the amount text starts with '+' exactly when the amount is ≥ 0, with '-' exactly when it is negative, ends in " R$", and its digits read back as the absolute amount |
| `History.CounterpartyLine` | Wallet/src/pages/Account.js:192-194 | a counterparty line appears exactly for the three known types: "Enviado a: " with the recipient, "Recibido de: " with the sender, or with the awarder ('Sistema' by default) |
| `History.Render` | Wallet/src/pages/Account.js:179-194 | an entry's border is the error colour exactly for 'sent', its amount green exactly when ≥ 0, with the label, amount text and counterparty line above |
| `History.HistoryFrom` | Wallet/src/pages/Account.js:43-46 | the listed history is the reply's `transactions`, or empty when the request failed or the field is missing |
| `LoginPage.Login.constructor` | Wallet/src/pages/Login.js:18-26 | the form starts empty, not loading, with no notice |
| `LoginPage.Login.HandleSubmit` | Wallet/src/pages/Login.js:38-75 | sends `{username: alias, totpToken: code}`; writes `{name, username, balance, token: code}` only when the reply succeeds with a user whose email is the typed one; a 403 with the verification message goes to '/verify-account' with the alias; every other outcome reports 'Verifique las credenciales'; no failure touches the record; `loading` ends false |
| `VerifyAccountPage.VerifyAccount.constructor` | Wallet/src/pages/VerifyAccount.js:18-21 | the alias is the navigation state's alias, or '' without one |
| `VerifyAccountPage.VerifyAccount.HandleSubmit` | Wallet/src/pages/VerifyAccount.js:25-61 | user-details is requested only after verify-totp-setup succeeds, and with the same credentials; the record is written only when both succeed and the user is present; each failure has its own message and writes nothing; `loading` ends false |
| `AccountPage.Account.constructor` | Wallet/src/pages/Account.js:13-17 | the page starts with no record, no history, loading, and the prompt closed |
| `AccountPage.Account.LoadSession` | Wallet/src/pages/Account.js:19-31 | with no record: go to '/' and change nothing; with `clearToken`: the stored record loses exactly its token and is stored again; a loaded record without a truthy token opens the prompt; keeps `Valid()` |
| `AccountPage.Account.FetchHistory` | Wallet/src/pages/Account.js:33-53 | with a record: requests the history with its username and token, then lists the reply's transactions or nothing; `loading` ends false; without a record: nothing happens |
| `AccountPage.Account.Logout` | Wallet/src/pages/Account.js:55-58 | removes the record and goes to '/' |
| `AccountPage.Account.CancelPrompt` | Wallet/src/pages/Account.js:219-222 | removes the record and goes to '/' |
| `AccountPage.Account.ConfirmPrompt` | Wallet/src/pages/Account.js:233-242 | an entry of exactly 6 characters is stored as the token of the page's record and closes the prompt; any other length changes nothing and keeps the prompt open; keeps `Valid()` |
| `TransferPage.FailureNotice` | Wallet/src/pages/Transfer.js:71-77 | a reported failure shows the server's message, or 'Error en la transferencia.' when it has none; every other failure shows 'Error en la transferencia.' |
| `TransferPage.AtMostOneTransfer` | Wallet/src/pages/Transfer.js:43-58 | under the ordering rule, one submission issues at most one transfer, as its second request |
| `TransferPage.Transfer.constructor` | Wallet/src/pages/Transfer.js:12-18 | the form starts empty, not loading, with no alert |
| `TransferPage.Transfer.TypeAmount` | Wallet/src/pages/Transfer.js:134 | the amount field keeps only the digits typed |
| `TransferPage.Transfer.HandleTransfer` | Wallet/src/pages/Transfer.js:36-80 | an empty field (the required-fields check `AllFilled`) reports 'Completa todos los campos.' and sends nothing; otherwise verify-totp is sent with the record's username; a rejected code reports 'Código incorrecto.' and sends no transfer; the transfer carries the alias, the amount, the detail and verification's operation token; success stores exactly the server's new balance, keeps every other field, and goes to the receipt (from the username, to the alias, the typed amount); every failure leaves the record unchanged; `loading` ends false |
| `TransferPage.Transfer.Back` | Wallet/src/pages/Transfer.js:191 | "Volver" always returns to the account page with `clearToken` set |
| `ProfileEditPage.ThrownNotice` | Wallet/src/pages/ProfileEdit.js:56 | a thrown request shows the error body's message when it is present and non-empty, and 'Error inesperado' when it is absent or empty |
| `ProfileEditPage.ProfileEdit.constructor` | Wallet/src/pages/ProfileEdit.js:12-23 | name, username and email start from the stored record, or '' when there is none |
| `ProfileEditPage.ProfileEdit.HandleSubmit` | Wallet/src/pages/ProfileEdit.js:26-63 | success replaces the whole record with the server's user; non-empty `changes` reports success and returns to the account page with `reload`; empty `changes` reports 'No se detectaron cambios en el perfil'; a failure or a thrown request reports and leaves the record as it was |
| `ProfileEditPage.ProfileEdit.HandleChangeEmail` | Wallet/src/pages/ProfileEdit.js:65-119 | an email failing the pattern is reported first, then a code that is not six digits, and in both cases nothing is sent; otherwise the change is requested; success stores the server's user and schedules the logout; a 401 removes the record and goes to '/login'; other failures only report |
| `ProfileEditPage.ProfileEdit.FinishEmailChange` | Wallet/src/pages/ProfileEdit.js:95-100 | the delayed step after an email change removes the record and logs out to '/login' |

## Left out

- Rendering is not modelled: JSX, MUI styling, animation, closing the snackbar and the spinners.
- The ledger service is not modelled. Its replies are parameters. TOTP checking, single use of operation tokens, secret regeneration and balance arithmetic all happen on the server.
- The user-search autocomplete (Wallet/src/pages/Transfer.js:26-34) is not modelled. It only fills suggestions and swallows its errors.
- Wallet/src/pages/Register.js, RegenerateTotp.js, Totp.js and TransferProof.js are not part of this model. They forward one request or show navigation state, with no client-side decisions.
- Wallet/src/index.js and Wallet/src/App.js are not part of this model. They only wire up the identity provider and the root render; the components App.js imports (`LoginButton`, `Profile`) are not part of this model.
- Timer delays are not modelled, only their eventual effect. The profile save returns its delayed navigation directly. The email change is split into `HandleChangeEmail` and `FinishEmailChange`.
- Dates and the receipt's timestamp are left out, because they depend on the clock and the locale.
- JSON (de)serialisation of the record is left out. The store holds a typed record.
- ProfileEditPage.ProfileEdit.HandleSubmit: assumes a successful reply always carries a `user`. Without one, the client would store the text "undefined", and that text fails to parse on the next page load.
- ProfileEditPage.ProfileEdit.HandleChangeEmail: assumes a successful reply always carries a `user`. Without one, the client would store the text "undefined" until the delayed removal.
- TransferPage.Transfer.HandleTransfer: a reply whose `transfer.from` exists but has no `newBalance` is treated like a reply with no `transfer` object. The client would instead store an undefined balance.
- TransferPage.Transfer.HandleTransfer: reads the record from the store when it is called. The page reads it when it renders, and no handler runs between the two.
- AccountPage.Account.ConfirmPrompt: counts characters as Unicode scalar values. JavaScript's `.length` counts UTF-16 code units, so the two differ for characters outside the Basic Multilingual Plane.
- History.AmountText: amounts are integers within JavaScript's safe-integer range (below 2^53 in magnitude). Numbers with a fraction, integers beyond that range (which lose precision) and magnitudes of 1e21 or more (which `String(n)` writes in exponent form) are not modelled.
- Text.IntToString: models `String(n)` for safe integers only, for the same reason; exponent form is not produced.
- History.TypeLabel: a type that names an inherited `Object.prototype` member (such as 'constructor') would make `tipo[type]` yield that member instead of the raw string. This is not modelled.
- React's asynchronous state updates, effect re-runs and interleavings of handlers with pending requests are not modelled. Each handler runs to completion on its own. The buttons' `disabled={loading}` guard appears as the handlers' `!loading` precondition.
- The trivial navigations are left out: the account page's "Transferir" button and the profile page's cancel button. Plain field setters are not separate methods either, because the form fields are public fields.
- The browser's own form checks (`required`, `type="email"`, `maxLength`) are not modelled. The handlers accept any strings.
