/** The request-reset form: the user enters an email address and the form
    asks the authentication client's `requestPasswordReset` to send a reset
    link that leads back to the reset-password page. */
module PasswordResetRequest {
  import opened Common

  /** Where the emailed link sends the user. */
  const RedirectTo: string := "/reset-password"

  const SentText: string := "Password reset link sent! Check your email."
  const FailureText: string := "Error sending reset link. Please try again."

  /** The arguments of `authClient.requestPasswordReset`. */
  datatype ResetLinkRequest = ResetLinkRequest(email: string, redirectTo: string)

  datatype FormState = FormState(email: string, loading: bool, message: Option<Message>)

  const Initial: FormState := FormState("", false, None)

  /** `disabled={loading}` on the input and on the submit button: both are
      blocked exactly while a submission is loading. */
  predicate InputsDisabled(s: FormState)
  {
    s.loading
  }

  /** The submit handler up to the `await`: the new state and the request. */
  function AfterBegin(s: FormState): (FormState, ResetLinkRequest)
  {
    (s.(loading := true, message := None), ResetLinkRequest(s.email, RedirectTo))
  }

  /** The continuation after the awaited call settles, with its `finally`. */
  function AfterFinish(s: FormState, outcome: Outcome): FormState
  {
    match outcome
    case Resolved => s.(message := Some(Message(Success, SentText)), email := "", loading := false)
    case Rejected => s.(message := Some(Message(Error, FailureText)), loading := false)
  }

  /** One whole run of the submit handler, the call answering `outcome`. */
  function AfterSubmit(s: FormState, outcome: Outcome): (FormState, ResetLinkRequest)
  {
    var (begun, request) := AfterBegin(s);
    (AfterFinish(begun, outcome), request)
  }

  class PasswordResetForm {
    var email: string
    var loading: bool
    var message: Option<Message>

    function State(): FormState
      reads this
    {
      FormState(email, loading, message)
    }

    constructor ()
      ensures State() == Initial
    {
      email := "";
      loading := false;
      message := None;
    }

    method SetEmail(value: string)
      modifies this
      ensures State() == old(State()).(email := value)
    {
      email := value;
    }

    /** `handleSubmit` up to the `await`; returns the request it sends. */
    method BeginSubmit() returns (request: ResetLinkRequest)
      modifies this
      ensures (State(), request) == AfterBegin(old(State()))
    {
      loading := true;
      message := None;
      request := ResetLinkRequest(email, RedirectTo);
    }

    /** `handleSubmit` after the awaited call settles. */
    method FinishSubmit(outcome: Outcome)
      modifies this
      ensures State() == AfterFinish(old(State()), outcome)
    {
      if outcome == Resolved {
        message := Some(Message(Success, SentText));
        email := "";
      } else {
        message := Some(Message(Error, FailureText));
      }
      loading := false;
    }

    /** The whole submit handler. */
    method HandleSubmit(outcome: Outcome) returns (request: ResetLinkRequest)
      modifies this
      ensures (State(), request) == AfterSubmit(old(State()), outcome)
    {
      request := BeginSubmit();
      FinishSubmit(outcome);
    }
  }

  /** Starting a submission sets `loading` and clears the previous
      message, so the form is disabled before the call (see
      `DisabledWhilePending`); the call carries exactly the current
      email and the fixed reset page. */
  lemma BeginDisablesAndSends(s: FormState)
    ensures AfterBegin(s).0 == s.(loading := true, message := None)
    ensures AfterBegin(s).1 == ResetLinkRequest(s.email, RedirectTo)
  {
  }

  /** However the call settles, the handler ends with `loading` false; the
      email is cleared after a success and kept after a failure, and the
      message says which it was. */
  lemma SubmitSettles(s: FormState, outcome: Outcome)
    ensures !AfterSubmit(s, outcome).0.loading
    ensures AfterSubmit(s, outcome).1 == ResetLinkRequest(s.email, RedirectTo)
    ensures outcome == Resolved ==>
      AfterSubmit(s, outcome).0 == FormState("", false, Some(Message(Success, SentText)))
    ensures outcome == Rejected ==>
      AfterSubmit(s, outcome).0 == FormState(s.email, false, Some(Message(Error, FailureText)))
  {
  }

  /** The message tells the outcome apart: it is the success notice exactly
      when the call resolved. */
  lemma MessageReflectsOutcome(s: FormState, outcome: Outcome)
    ensures AfterSubmit(s, outcome).0.message.value.kind == Success <==> outcome == Resolved
    ensures AfterSubmit(s, outcome).0.message.value.text == SentText <==> outcome == Resolved
  {
  }

  /** The input and the button are disabled from the moment the request is
      sent until it settles, and enabled again however it settles, so this
      instance cannot start a second submission while one is pending. */
  lemma DisabledWhilePending(s: FormState)
    ensures InputsDisabled(AfterBegin(s).0)
    ensures forall outcome :: !InputsDisabled(AfterFinish(AfterBegin(s).0, outcome))
  {
  }

  /** A user's interaction with the form, one handler run per event. */
  datatype Event = EditEmail(value: string) | Submit(outcome: Outcome)

  /** One event: the new state and the request it sent, if any. */
  function Step(s: FormState, e: Event): (FormState, seq<ResetLinkRequest>)
  {
    match e
    case EditEmail(v) => (s.(email := v), [])
    case Submit(o) =>
      var (after, request) := AfterSubmit(s, o);
      (after, [request])
  }

  /** The state after `events` and the requests sent, in order. */
  function Replay(s: FormState, events: seq<Event>): (FormState, seq<ResetLinkRequest>)
    decreases |events|
  {
    if events == [] then (s, [])
    else
      var (next, sent) := Step(s, events[0]);
      var (final, rest) := Replay(next, events[1..]);
      (final, sent + rest)
  }

  /** The number of submissions among `events`. */
  function SubmitCount(events: seq<Event>): nat
  {
    if events == [] then 0
    else (if events[0].Submit? then 1 else 0) + SubmitCount(events[1..])
  }

  /** Over any session, each submission sends exactly one request and
      nothing else sends one (no retries), every request names the reset
      page, and once anything was submitted the form is idle again. */
  lemma {:induction false} OneRequestPerSubmit(s: FormState, events: seq<Event>)
    ensures |Replay(s, events).1| == SubmitCount(events)
    ensures forall r :: r in Replay(s, events).1 ==> r.redirectTo == RedirectTo
    ensures SubmitCount(events) > 0 || !s.loading ==> !Replay(s, events).0.loading
    ensures SubmitCount(events) == 0 ==> Replay(s, events).0.message == s.message
    decreases |events|
  {
    if events != [] {
      var (next, sent) := Step(s, events[0]);
      OneRequestPerSubmit(next, events[1..]);
    }
  }
}
