# Fueled Forward authentication forms, modelled in Dafny

The site is a thin front end to an external authentication library. The only
decision logic of its own is in four form components. This project models
them, with every call to the authentication client replaced by the way the
awaited promise settles (`Outcome = Resolved | Rejected`):

- **Reset-password form** (`ResetPassword`). On mount it reads the `token` and
  `error` query parameters. Only the exact value `error=INVALID_TOKEN` makes it
  return early, with the token left null; otherwise an absent or empty token
  gives the missing-token error. The submit handler runs three guards in order
  (no token, passwords differ, password shorter than 8) and calls
  `resetPassword` only when all three pass. On success it schedules a redirect
  to `/` after 2000 ms.
- **Email-verification landing page** (`EmailVerification`). This is a pure
  classification of the optional `error` parameter into a status and a
  message. It recognises exactly two spellings, `INVALID_TOKEN` and
  `invalid_token`. Any other non-empty value is a generic failure, and an
  absent or empty value is success. The page offers a "Request New Link"
  action to `/resend-verification` exactly when the status is error.
- **Request-reset form** (`PasswordResetRequest`) and **resend-verification
  form** (`ResendVerification`). These are identical submit handlers around
  one call. They set `loading` and clear the message, then send the current
  email with a fixed target (`/reset-password` or `/verify-email`). On success
  they show the notice and clear the email; on failure they show the error and
  keep the email. In both cases they clear `loading`.

Each stateful form is a `class` with the component's state as fields. Its
methods mirror the source's setter calls and early returns: `Mount`,
`SetPassword`/`SetEmail`, and `HandleSubmit`. `HandleSubmit` is split at the
`await` into `BeginSubmit` (the synchronous prefix, returning the request sent)
and `FinishSubmit(outcome)` (the continuation and its `finally`). Each method
is specified by a pure function of the old state (`AfterMount`, `AfterBegin`,
`AfterFinish`, `AfterSubmit`), and the properties are proved about those
functions. A `Replay` function runs a sequence of user events (edits and
submissions) through the handlers. Lemmas over it state what holds for a whole
session: one request per submission, a redirect only after a resolved reset,
and a form mounted with an invalid link that stays inert.

The `error` and `token` parameters are taken already decoded, as
`Option<string>`; `None` is JavaScript's `null`. `Common.Truthy` is
JavaScript truthiness of a `string | null`.

The verification page accepts exactly `INVALID_TOKEN` and `invalid_token`.
Any other capitalisation, such as `Invalid_Token`, is a generic failure
(`EmailVerification.CaseVariantsAndEmptyValue`). The reset-password form
accepts only `INVALID_TOKEN`.

## Model

| member | source | states |
|---|---|---|
| `EmailVerification.Classify` | src/components/EmailVerification.tsx:17-36 | The status is success iff `error` is absent or empty. Exactly `INVALID_TOKEN`/`invalid_token` gives the invalid-link error. Any other non-empty value gives "Verification failed. Please try again.". Absent or empty gives the verified message. The result depends on `error` alone. |
| `EmailVerification.InitialViewBeforeEffect` | src/components/EmailVerification.tsx:14-15 | The blank error view shown before classification (status error, empty message) already offers the resend link. No `error` value classifies back to it, so after mount the alert always has a text. |
| `EmailVerification.MessageIdentifiesOutcome` | src/components/EmailVerification.tsx:23-35 | The three branches are disjoint and exhaustive: each message arises from exactly one class of `error` values. |
| `EmailVerification.RequestNewLinkIffErrorParam` | src/components/EmailVerification.tsx:69-85 | After classification, the call to action is "Request New Link" to `/resend-verification` iff the URL carried a non-empty `error`, and there is none otherwise. |
| `EmailVerification.CaseVariantsAndEmptyValue` | src/components/EmailVerification.tsx:23-34 | `Invalid_Token` and `INVALID_token` are generic failures. `?error=` and a missing parameter are success. |
| `ResetPassword.CheckSubmission` | src/components/ResetPasswordForm.tsx:53-80 | The ordered guards yield a request iff the token is non-empty, the entries match and the length is at least 8; the request carries that password and token. "Invalid reset token." appears iff there is no token. The mismatch error appears iff there is a token and the entries differ. The length error appears only for a token with matching entries shorter than 8. |
| `ResetPassword.ResetPasswordForm.constructor` | src/components/ResetPasswordForm.tsx:17-24 | Initial state: empty entries, not loading, null token, no message, no redirect pending. |
| `ResetPassword.ResetPasswordForm.Mount` | src/components/ResetPasswordForm.tsx:26-48 | The new state is `AfterMount` of the old state and the URL parameters. |
| `ResetPassword.ResetPasswordForm.SetPassword` | src/components/ResetPasswordForm.tsx:127 | Only `password` changes. |
| `ResetPassword.ResetPasswordForm.SetConfirmPassword` | src/components/ResetPasswordForm.tsx:141 | Only `confirmPassword` changes. |
| `ResetPassword.ResetPasswordForm.BeginSubmit` | src/components/ResetPasswordForm.tsx:50-86 | The new state and the request sent are `AfterBegin` of the old state. |
| `ResetPassword.ResetPasswordForm.FinishSubmit` | src/components/ResetPasswordForm.tsx:87-102 | The new state is `AfterFinish` of the old state and the outcome. |
| `ResetPassword.ResetPasswordForm.HandleSubmit` | src/components/ResetPasswordForm.tsx:50-103 | The new state and the request sent are `AfterSubmit` of the old state and the outcome. |
| `ResetPassword.InvalidTokenParamDisablesForm` | src/components/ResetPasswordForm.tsx:32-38 | With `error=INVALID_TOKEN` the token stays null whatever `token` says. The invalid/expired-link error is shown and the form is disabled. |
| `ResetPassword.MountTakesTokenFromUrl` | src/components/ResetPasswordForm.tsx:40-47 | Otherwise the token is the URL's. "Invalid or missing reset token." is shown iff it is absent or empty, which is exactly when the form stays disabled. |
| `ResetPassword.RemoteCallIffGuardsPass` | src/components/ResetPasswordForm.tsx:53-86 | A submit calls `resetPassword` iff the token is non-empty, the passwords are equal and at least 8 long. The call sends exactly that password and token. |
| `ResetPassword.GuardErrorsInOrder` | src/components/ResetPasswordForm.tsx:53-80 | No token: only the message changes, to "Invalid reset token.", and `loading` is untouched. Token and mismatch: "Passwords do not match!" with `loading` false and nothing else changed. Token, matching and shorter than 8: "Password must be at least 8 characters long." with `loading` false and nothing else changed. So no guard path schedules a redirect. The length error appears iff there is a token and the entries match and are shorter than 8. |
| `ResetPassword.RedirectOnlyAfterSuccess` | src/components/ResetPasswordForm.tsx:87-99 | After a call, success shows the success notice and appends exactly one redirect to `/` after 2000 ms. Failure shows "Error resetting password. Link may be expired." and schedules nothing. |
| `ResetPassword.SubmitEndsIdle` | src/components/ResetPasswordForm.tsx:53-102 | Every path that sets `loading` ends with it false. Only the token guard leaves it unchanged. From an enabled form a submit always ends idle. |
| `ResetPassword.PendingCallDisablesSubmit` | src/components/ResetPasswordForm.tsx:148-152 | Once the call is sent, `loading` is true, the message is cleared and the `disabled` condition (loading, or no token; also at lines 130 and 144) holds. Whichever way the call settles, the form is enabled again, because it keeps the token that let the call start. |
| `ResetPassword.TokenlessFormNeverCalls` | src/components/ResetPasswordForm.tsx:53-59 | A form without a usable token keeps it through any sequence of edits and submits, makes no call and schedules no redirect. |
| `ResetPassword.InvalidLinkIsPermanent` | src/components/ResetPasswordForm.tsx:32-38 | After mounting with `error=INVALID_TOKEN`, no later interaction reaches the server or redirects. |
| `ResetPassword.SessionCallsAndRedirects` | src/components/ResetPasswordForm.tsx:82-102 | Over any session from an idle form: every call carries the session's token and a password of at least 8. Redirects grow by exactly the number of resolved calls, each to `/` after 2000 ms, and earlier ones are kept. The form is idle at the end and the token never changes. |
| `PasswordResetRequest.PasswordResetForm.constructor` | src/components/PasswordResetForm.tsx:17-22 | Initial state: empty email, not loading, no message. |
| `PasswordResetRequest.PasswordResetForm.SetEmail` | src/components/PasswordResetForm.tsx:74 | Only `email` changes. |
| `PasswordResetRequest.PasswordResetForm.BeginSubmit` | src/components/PasswordResetForm.tsx:26-33 | The new state and the request are `AfterBegin` of the old state. |
| `PasswordResetRequest.PasswordResetForm.FinishSubmit` | src/components/PasswordResetForm.tsx:34-46 | The new state is `AfterFinish` of the old state and the outcome. |
| `PasswordResetRequest.PasswordResetForm.HandleSubmit` | src/components/PasswordResetForm.tsx:24-47 | The new state and the request are `AfterSubmit` of the old state and the outcome. |
| `PasswordResetRequest.DisabledWhilePending` | src/components/PasswordResetForm.tsx:76-80 | `disabled={loading}` on the input and the button: both are disabled once the request is sent, and enabled again whichever way it settles, so no second submit can start from this instance while one is pending. |
| `PasswordResetRequest.BeginDisablesAndSends` | src/components/PasswordResetForm.tsx:26-33 | Starting a submit sets `loading` and clears the message, with nothing else changed. The request carries exactly the current email and `/reset-password`. |
| `PasswordResetRequest.SubmitSettles` | src/components/PasswordResetForm.tsx:29-46 | Whatever the outcome, `loading` ends false. Success: "Password reset link sent! Check your email." and the email becomes "". Failure: "Error sending reset link. Please try again." and the email is kept. |
| `PasswordResetRequest.MessageReflectsOutcome` | src/components/PasswordResetForm.tsx:34-43 | The final message is the success kind and text iff the call resolved. |
| `PasswordResetRequest.OneRequestPerSubmit` | src/components/PasswordResetForm.tsx:24-47 | Over any session, the number of requests equals the number of submits and every request targets `/reset-password`. After any submit `loading` is false. Without submits the message is unchanged. |
| `ResendVerification.ResendVerificationForm.constructor` | src/components/ResendVerificationForm.tsx:17-22 | Initial state: empty email, not loading, no message. |
| `ResendVerification.ResendVerificationForm.SetEmail` | src/components/ResendVerificationForm.tsx:73 | Only `email` changes. |
| `ResendVerification.ResendVerificationForm.BeginSubmit` | src/components/ResendVerificationForm.tsx:26-33 | The new state and the request are `AfterBegin` of the old state. |
| `ResendVerification.ResendVerificationForm.FinishSubmit` | src/components/ResendVerificationForm.tsx:34-46 | The new state is `AfterFinish` of the old state and the outcome. |
| `ResendVerification.ResendVerificationForm.HandleSubmit` | src/components/ResendVerificationForm.tsx:24-47 | The new state and the request are `AfterSubmit` of the old state and the outcome. |
| `ResendVerification.DisabledWhilePending` | src/components/ResendVerificationForm.tsx:75-79 | `disabled={loading}` on the input and the button: both are disabled once the request is sent, and enabled again whichever way it settles, so no second submit can start from this instance while one is pending. |
| `ResendVerification.BeginDisablesAndSends` | src/components/ResendVerificationForm.tsx:26-33 | Starting a submit sets `loading` and clears the message, with nothing else changed. The request carries exactly the current email and `/verify-email`. |
| `ResendVerification.SubmitSettles` | src/components/ResendVerificationForm.tsx:29-46 | Whatever the outcome, `loading` ends false. Success: "Verification email sent! Check your inbox." and the email becomes "". Failure: "Error sending verification email. Please try again." and the email is kept. |
| `ResendVerification.MessageReflectsOutcome` | src/components/ResendVerificationForm.tsx:34-43 | The final message is the success kind and text iff the call resolved. |
| `ResendVerification.OneRequestPerSubmit` | src/components/ResendVerificationForm.tsx:24-47 | Over any session, the number of requests equals the number of submits and every request targets `/verify-email`. After any submit `loading` is false. Without submits the message is unchanged. |

## Left out

- The authentication client's network calls (`resetPassword`, `requestPasswordReset`, `sendVerificationEmail`) are modelled only by how the promise settles. Token validity, expiry and single use are decided by the server and are not visible here.
- The value a resolved call returns is not modelled. The handlers never inspect it: they show the error message only when the promise rejects. The client (src/lib/auth-client.ts:3-5) is built without an option that makes it throw, and it can report a server-side error by resolving with an `error` field. A server rejection reported that way is `Resolved` in this model, as in the source: the form shows its success message and, for a password reset, schedules the redirect.
- Query-string parsing and percent-decoding (`URLSearchParams`): the decoded `token` and `error` values are inputs.
- Timers and navigation: `setTimeout` is a pending `Redirect("/", 2000)` appended to `redirects`, and the navigation itself is not performed. The "Request New Link" navigation is the target that `CallToAction` returns.
- Asynchrony: the model runs each handler to completion between events. Interleaving of two pending calls, React re-rendering and effect scheduling, and several tabs are not modelled. The `disabled` predicates state when the UI blocks a second submission, but `Replay` runs handlers regardless of them, so its lemmas also hold if that blocking were bypassed.
- Browser-enforced input attributes (`required`, `minLength`, `type="email"`) are not part of the handlers and are not modelled.
- Password length is the length of a Dafny `string`, a sequence of characters. JavaScript's `.length` counts UTF-16 code units, so the two differ for characters outside the Basic Multilingual Plane.
- Rendering (JSX, CSS, icons, card and alert components) is not modelled, and neither is the alert variant chosen from `message.type`.
- src/lib/auth.ts (server configuration handed to the authentication library, its startup check of `DATABASE_URL` and its logging email hooks), src/lib/auth-client.ts (the client constructor and its base-URL fallback), src/env.d.ts (type declarations) and src/pages/api/auth/[...all].ts (a pass-through route) are not part of this model.
