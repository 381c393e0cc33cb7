/** The email-verification landing page. The authentication server redirects
    here after a verification attempt and signals failure only through an
    `error` query parameter; the page classifies that parameter once, when it
    mounts, into a status and a message. */
module EmailVerification {
  import opened Common

  /** What the page renders: its status and the text of its alert. */
  datatype View = View(status: MessageType, message: string)

  const InvalidLinkText: string := "Invalid or expired verification link. Please request a new one."
  const FailedText: string := "Verification failed. Please try again."
  const VerifiedText: string := "Email verified successfully! You can now sign in."

  /** Where the "Request New Link" button navigates. */
  const ResendPath: string := "/resend-verification"

  /** The view rendered before the mount effect has classified the URL. */
  const Initial: View := View(Error, "")

  /** The two spellings of the invalid-token code the page recognises; no
      other capitalisation is accepted. */
  predicate IsInvalidTokenCode(code: string)
  {
    code == "INVALID_TOKEN" || code == "invalid_token"
  }

  /** The mount effect: the view is a function of the decoded `error`
      parameter alone. Success is inferred from the absence of an error, so a
      missing parameter and `?error=` both read as success. */
  function Classify(error: Option<string>): (v: View)
    ensures v.status == Success <==> !Truthy(error)
    ensures error.Some? && IsInvalidTokenCode(error.value) ==> v == View(Error, InvalidLinkText)
    ensures Truthy(error) && !IsInvalidTokenCode(error.value) ==> v == View(Error, FailedText)
    ensures !Truthy(error) ==> v == View(Success, VerifiedText)
  {
    if error == Some("INVALID_TOKEN") || error == Some("invalid_token") then
      View(Error, InvalidLinkText)
    else if Truthy(error) then
      View(Error, FailedText)
    else
      View(Success, VerifiedText)
  }

  /** The call to action under the alert: on error a "Request New Link"
      button that navigates to the resend page, on success none. */
  function CallToAction(v: View): Option<string>
  {
    match v.status
    case Success => None
    case Error => Some(ResendPath)
  }

  /** The blank error view rendered before the effect runs already offers
      the resend link, and no `error` value leads back to it: once the URL
      has been classified the alert always has a text. */
  lemma InitialViewBeforeEffect()
    ensures CallToAction(Initial) == Some(ResendPath)
    ensures forall error :: Classify(error) != Initial
  {
  }

  /** The alert text tells the three outcomes apart: each message is produced
      by exactly one class of `error` values. */
  lemma MessageIdentifiesOutcome(error: Option<string>)
    ensures Classify(error).message == InvalidLinkText <==> error.Some? && IsInvalidTokenCode(error.value)
    ensures Classify(error).message == FailedText <==> Truthy(error) && !IsInvalidTokenCode(error.value)
    ensures Classify(error).message == VerifiedText <==> !Truthy(error)
  {
  }

  /** The resend link is offered exactly when the URL carried a non-empty
      `error` value, and it always leads to the resend page. */
  lemma RequestNewLinkIffErrorParam(error: Option<string>)
    ensures CallToAction(Classify(error)) == if Truthy(error) then Some(ResendPath) else None
  {
  }

  /** Other capitalisations of the code are generic failures, and an empty
      `error` value is success. */
  lemma CaseVariantsAndEmptyValue()
    ensures Classify(Some("Invalid_Token")) == View(Error, FailedText)
    ensures Classify(Some("INVALID_token")) == View(Error, FailedText)
    ensures Classify(Some("")) == View(Success, VerifiedText)
    ensures Classify(None) == View(Success, VerifiedText)
  {
  }
}
