# Contact manager client: authentication, OTP entry and contacts, in Dafny

This project models the behavioural core of a browser client for a contact
manager. The client is written as three React screens. Everything else in
the client is layout.

- **Login / register** (`Auth`, auth.dfy). The credential validator checks
  email, password and, in register mode, username. The submit step does one
  of three things: it stores the session token and opens the dashboard, it
  moves on to OTP entry, or it records the server's complaint under `api`.
- **OTP verification** (`VerifyOtp`, verify_otp.dfy). Six slots each hold
  nothing or one digit, and the code sent is their concatenation. The verify
  and resend handlers each replace the errors with a single `api` message.
  The buttons are disabled while their own request runs and whenever the
  email is missing.
- **Contacts** (`Contacts`, contacts.dfy). Schema issues are folded into a
  field-to-message map in which the last issue for a field wins. The contact
  list is loaded on mount and extended on add. A 401 answer removes the
  session token and sends the user to `/auth`.
- **Session store** (`Session`, session.dfy). `localStorage` is reduced to
  its single `authToken` slot, an `Option<string>` shared by the screens.
- **Outcomes** (outcomes.dfy). Each HTTP request is a `Reply<T>` parameter
  with three cases: `Ok(data)`, `Rejected(status, message)` and `NoResponse`.
  It also holds JavaScript's `message || fallback` rule.

Each event handler is one method of the screen's class. The method runs the
handler's steps in order and states the whole new state. The value of the
loading flag while the request is awaited is returned in a ghost
out-parameter. Pure logic is written as functions: the validator, the email
pattern, the join and the issue fold. Lemmas relate those functions to
independent readings of them:

- the issue fold is compared with a backwards scan for the last issue;
- the join is compared with slot-by-slot indexing;
- validation is compared with the per-field conditions.

Scenario methods replay these cases:

- a login answered with token `T` leaves `T` in the store;
- a 401 login shows the server's message and leaves the store empty;
- a missing email sends nothing from either OTP button;
- a 401 on add logs the user out.

Behaviours of the code worth knowing:

- A failed login or register merges `api` into the errors as they stood
  **before** the submit, because the handler's closure captured that value.
  Field errors from an earlier attempt therefore reappear beside the server
  message (`Auth.AuthPage.HandleSubmit`).
- When the server answers, the OTP handlers show its `message` with no
  fallback. An absent message yields an `api` entry whose value is
  `undefined`, written `None` here (`VerifyOtp.FailureMessage`). Only the
  login, register and contacts handlers fall back on an empty or absent
  message.
- The screens keep independent boolean flags (`loading`, `resendLoading`,
  `isLogin`), and the model keeps those flags.
- A login reply without a `token` field stores the text `"undefined"`
  (`Auth.StoredText`). The contacts screen treats a stored empty string as no
  token (`Session.SessionStore.HasToken`).
- `password.length` counts UTF-16 code units, so a character outside the
  Basic Multilingual Plane counts twice (`Auth.Utf16Length`).

## Model

| member | source | states |
|---|---|---|
| `Auth.Validate` | app/auth/page.js:19-28 | Each key depends only on its own field. `email` is present iff the email is empty or fails `\S+@\S+\.\S+`, with "Email is required" for the empty one and "Email is invalid" otherwise. `password` is present iff its UTF-16 length is below 6, with "Password is required" for the empty one. `username` is present iff in register mode with an empty username. No other key appears. |
| `Auth.ValidateAcceptsIff` | app/auth/page.js:29-30 | `validate()` returns true exactly when the map is empty. That happens iff the email is non-empty and matches, the password has at least 6 code units, and the mode is login or the username is non-empty. |
| `Auth.LoginIgnoresUsername` | app/auth/page.js:27 | In login mode the result does not depend on the username, so an empty username never adds a key. |
| `Auth.IsSpace` | app/auth/page.js:22 | JavaScript's `\s`: space, tab and newline are white space; no printable ASCII character is. |
| `Auth.EmailShapeAt` | app/auth/page.js:22 | A match placed at an `@` index and a later `.` index has at least one character between them and one after the dot, and the whole stretch from the character before `@` to the one after the dot holds no white space. |
| `Auth.MatchesEmailPattern` | app/auth/page.js:22 | A string that passes `\S+@\S+\.\S+` somewhere is at least 5 characters long and has an `@` that is neither its first nor its last character. |
| `Auth.Utf16Length` | app/auth/page.js:25 | The JavaScript length of a string is between its number of characters and twice that. |
| `Auth.Utf16LengthOfBmp` | app/auth/page.js:25 | For a string with no character outside the Basic Multilingual Plane, the JavaScript length equals the number of characters. |
| `Auth.MatchSurvivesContext` | app/auth/page.js:22 | The pattern is not anchored: a matching string still matches with any text before and after it. |
| `Auth.NoAtSignNoMatch` | app/auth/page.js:22 | A string without `@` never matches the email pattern. |
| `Auth.EmailExamples` | app/auth/page.js:21-22 | "a@b.co" matches. "not-an-email" does not, and with a valid password it yields exactly an `email: "Email is invalid"` error. |
| `Auth.PasswordBoundary` | app/auth/page.js:24-25 | An empty password gives "Password is required". Five characters give "Password must be at least 6 characters". Six characters give no error. |
| `Auth.StoredText` | app/auth/page.js:52 | A present token is stored as it is; an absent one is stringified by `localStorage` to the text `"undefined"`. |
| `Auth.AuthPage.constructor` | app/auth/page.js:10-16 | The screen starts in login mode with empty fields, no errors and `loading` false. |
| `Auth.AuthPage.ToggleMode` | app/auth/page.js:137 | The mode link flips `isLogin` and changes nothing else. |
| `Auth.AuthPage.HandleSubmit` | app/auth/page.js:33-73 | If validation fails, the errors become the validation map, no request is sent, and `loading`, the route and the token are untouched. Otherwise the mode's request is sent with `loading` true during the await and false afterwards. Login success stores the token and routes to `/dashboard`. Register success routes to `/auth/verify-otp?email=<email>` and writes no token. Success leaves the errors empty. Failure sets `api` to the server message or the generic text over the pre-submit errors, and leaves the route and the token unchanged. |
| `Outcomes.OrFallback` | app/auth/page.js:67 | The logical-or fallback on the message: the result is the message when it is present and non-empty, the fallback otherwise, and never empty when the fallback is not. |
| `Outcomes.ServerMessage` | app/dashboard/contacts/page.js:69 | `error.response?.data?.message`: for a reply that got an error response it is exactly that response's message, present or absent; for any other reply it is absent. |
| `Outcomes.Unauthorized` | app/dashboard/contacts/page.js:70 | `error.response?.status === 401`, tested by both contacts handlers: only a reply with an error response can be unauthorized, and such a reply is unauthorized iff its status is 401. |
| `Session.SessionStore.constructor` | app/dashboard/contacts/page.js:52 | The slot starts holding what `localStorage` had saved under `authToken`, or nothing. |
| `Session.SessionStore.HasToken` | app/dashboard/contacts/page.js:53 | `if (savedToken)` is truthiness: a stored token counts only when present and non-empty, so an empty string or an empty slot counts as no token. |
| `Session.SessionStore.Save` | app/auth/page.js:52 | Writing the token replaces whatever was stored. |
| `Session.SessionStore.Clear` | app/dashboard/contacts/page.js:71 | Removing the token leaves the slot empty. |
| `VerifyOtp.IsDigit` | app/auth/verify-otp/page.js:25 | `\d` matches exactly the ten ASCII digits `0`-`9`. |
| `VerifyOtp.AllDigits` | app/auth/verify-otp/page.js:25 | `/^\d*$/` accepts a value iff every character is one of the ten ASCII digits; the empty value is accepted. |
| `VerifyOtp.Join` | app/auth/verify-otp/page.js:41 | `otp.join('')` has as many characters as the slots hold together. |
| `VerifyOtp.EmptyBuffer` | app/auth/verify-otp/page.js:8 | The buffer starts as exactly six empty strings. |
| `VerifyOtp.FirstChar` | app/auth/verify-otp/page.js:27 | `value.slice(0, 1)` is a prefix of the value, of length 1 unless the value is empty. |
| `VerifyOtp.JoinAppend` | app/auth/verify-otp/page.js:41 | Joining the concatenation of two slot sequences is the concatenation of their joins. |
| `VerifyOtp.JoinOfValidSlots` | app/auth/verify-otp/page.js:41 | The joined code of slots that are empty or one digit has only digits and is no longer than the number of slots, so at most 6. |
| `VerifyOtp.JoinOfFilledSlots` | app/auth/verify-otp/page.js:41 | With every slot filled, the code has one character per slot and character `i` is slot `i`'s digit, in order. |
| `VerifyOtp.JoinAfterEdit` | app/auth/verify-otp/page.js:26-28 | After one slot is edited, the code is the unchanged slots before it, the new slot, then the unchanged slots after it. |
| `VerifyOtp.FailureMessage` | app/auth/verify-otp/page.js:53 | With a response, the text is the server's `message`, possibly absent, with no fallback. Without a response, it is the generic text. |
| `VerifyOtp.OtpPage.constructor` | app/auth/verify-otp/page.js:8-21 | The buffer is six empty slots and the email is the query value or "". A missing email sets the errors to exactly `{api: "Email is required for OTP verification."}`. |
| `VerifyOtp.OtpPage.HandleChange` | app/auth/verify-otp/page.js:23-35 | A value with a non-digit leaves the buffer unchanged. An all-digit value sets only slot `index`, to its first character or to empty. The buffer stays six slots of at most one digit each. |
| `VerifyOtp.OtpPage.HandleSubmit` | app/auth/verify-otp/page.js:37-57 | Sends the email and the joined code, which has at most 6 digits. `loading` is true during the await and false afterwards. Success routes to `/auth/success`. Failure replaces the errors by `{api: FailureMessage}`. |
| `VerifyOtp.OtpPage.HandleResendOtp` | app/auth/verify-otp/page.js:59-76 | Sends the email. `resendLoading` is true during the await and false afterwards. The errors become exactly one `api` entry: the resent notice on success, the same failure text as verify on failure. |
| `VerifyOtp.OtpPage.VerifyDisabled` | app/auth/verify-otp/page.js:101 | Without an email the verify button is disabled; with one it is disabled iff `loading`. |
| `VerifyOtp.OtpPage.ResendDisabled` | app/auth/verify-otp/page.js:109 | Without an email the resend button is disabled; with one it is disabled iff `resendLoading`. |
| `VerifyOtp.OtpPage.ClickVerify` | app/auth/verify-otp/page.js:98-102 | While `loading` or without an email the button sends nothing and changes nothing. Otherwise it behaves as the verify handler. |
| `VerifyOtp.OtpPage.ClickResend` | app/auth/verify-otp/page.js:105-110 | While `resendLoading` or without an email the button sends nothing and changes nothing. Otherwise it behaves as the resend handler. |
| `Contacts.IssueKey` | app/dashboard/contacts/page.js:32 | `acc[curr.path[0]]`: an issue is filed under its first path element, and an issue with an empty path under the key `"undefined"`, as JavaScript stringifies the missing element. |
| `Contacts.FoldIssues` | app/dashboard/contacts/page.js:31-34 | The folded map's keys are the accumulator's keys plus the first path element of every issue. |
| `Contacts.LastMessage` | app/dashboard/contacts/page.js:31-34 | Reference reading that scans from the end. It is absent iff no issue has the key. Otherwise it is the message of an issue with that key that no later issue shares. |
| `Contacts.LastMessageDropFirst` | app/dashboard/contacts/page.js:31-34 | The first issue's message is the last one for its key only if no later issue has that key. |
| `Contacts.FoldIssuesKeepsLast` | app/dashboard/contacts/page.js:31-34 | The left-to-right fold gives each key the message of the last issue with that key. Keys no issue mentions keep the accumulator's value. |
| `Contacts.ValidateZod` | app/dashboard/contacts/page.js:25-39 | A successful parse gives the empty map. A schema error gives one entry per distinct first path element, carrying the message of the last issue with that key. Any other exception gives exactly `{general: "Validation error"}`. |
| `Contacts.DuplicateKeyExample` | app/dashboard/contacts/page.js:31-34 | Two issues on `firstName` and one on `lastName` give two entries, and `firstName` shows the later message. |
| `Contacts.ContactsPage.constructor` | app/dashboard/contacts/page.js:42-46 | The screen starts with no contacts, the modal closed, an empty token and error, and `loading` false. |
| `Contacts.ContactsPage.FetchContacts` | app/dashboard/contacts/page.js:61-75 | Success replaces the list. Failure keeps the list and sets `error` to the server message or the fetch fallback. A 401 removes the token and routes to `/auth`; any other failure leaves the token and the route as they were. |
| `Contacts.ContactsPage.Mount` | app/dashboard/contacts/page.js:51-59 | Without a truthy stored token, nothing is fetched and the route is `/auth`. With one, it is copied into state and the fetch uses it. |
| `Contacts.ContactsPage.OpenModal` | app/dashboard/contacts/page.js:100-102 | Opens the add-contact modal. |
| `Contacts.ContactsPage.CloseModal` | app/dashboard/contacts/page.js:104-106 | Closes the add-contact modal. |
| `Contacts.ContactsPage.HandleAddContact` | app/dashboard/contacts/page.js:77-98 | Posts the values with the state token. `error` is cleared and `loading` set before the await, and both `loading` and `submitting` are false afterwards. Success appends exactly the returned contact at the end and closes the modal. Failure keeps the list and modal and sets `error` to the server message or the add fallback. A 401 removes the token and routes to `/auth`; any other failure leaves the token and the route as they were. |

## Left out

- Rendering: JSX, styling, icons, the password-visibility toggle, and the modal beyond its boolean.
- The `onChange` setters of the text inputs are not modelled. A field is set by assigning to it.
- The HTTP calls themselves are not modelled. Base-URL resolution from the environment, the hard-coded URLs, headers and `console` logging are left out too. Each call's result is a `Reply` parameter, and the data a handler sends is returned as its request value.
- React's asynchronous state batching and effect scheduling are not modelled. Each handler is one sequential step. The OTP mount effect is folded into the constructor.
- While a request is in flight, `loading` is true, but no state between handlers can observe that. The ghost out-parameters record the flag's value at the await.
- The query string between the register and OTP screens is not modelled. The register route is built by plain concatenation, and `OtpPage` receives the email directly. URL decoding, in which a `+` in the email reads back as a space, is not modelled.
- Moving DOM focus to the next OTP input (app/auth/verify-otp/page.js:31-33) is not modelled.
- The zod schema's own checks (app/dashboard/contacts/page.js:15-22) are not modelled. `ValidateZod` takes the outcome of `parse` as its argument.
- Issue paths are strings only. Numeric path elements, which JavaScript would stringify, are not modelled.
- The form library's submit cycle is not modelled: validating before `onSubmit` and setting `isSubmitting` are its own code. Only the handler's reset of `submitting` is modelled.
- `handleViewContact` and `handleEditContact` only push a route and are not modelled.
- A `TypeError` from an error response whose `data` is null or undefined, inside the OTP handlers' `catch`, is not modelled.
- A successful login whose response body is JSON `null` is not modelled. Reading `response.data.token` (app/auth/page.js:52) then throws inside the `try`, so the `catch` (app/auth/page.js:66-69) shows the generic text, no token is stored and the screen stays put. `Auth.AuthPage.HandleSubmit` takes the login body as an optional token and cannot express a null body.
- Strings are sequences of Unicode scalar values. Lone UTF-16 surrogates cannot be expressed.
- Not part of this model: app/lib/api.js, app/dashboard/page.js, the contact detail and edit screens, the success screen, the landing page and the Sidebar, Widget, Chart and OtpInput components.
