/** The reset-password form. It reads the reset token (or an error code) from
    the URL when it mounts, validates the two password entries when it is
    submitted, calls the authentication client's `resetPassword` only when
    every guard passes, and on success schedules a redirect to the
    application root. */
module ResetPassword {
  import opened Common

  const MinLength: nat := 8

  const InvalidLinkText: string := "Invalid or expired reset link. Please request a new one."
  const MissingTokenText: string := "Invalid or missing reset token."
  const InvalidTokenText: string := "Invalid reset token."
  const MismatchText: string := "Passwords do not match!"
  const TooShortText: string := "Password must be at least 8 characters long."
  const SuccessText: string := "Password reset successful! Redirecting..."
  const FailureText: string := "Error resetting password. Link may be expired."

  const HomePath: string := "/"
  const RedirectDelayMs: nat := 2000

  /** The arguments of `authClient.resetPassword`. */
  datatype ResetRequest = ResetRequest(newPassword: string, token: string)

  /** A navigation scheduled with `setTimeout`; nothing ever cancels one. */
  datatype Redirect = Redirect(path: string, delayMs: nat)

  /** The component's state, plus the redirects its timers will perform. */
  datatype FormState = FormState(
    password: string,
    confirmPassword: string,
    loading: bool,
    token: Option<string>,
    message: Option<Message>,
    redirects: seq<Redirect>)

  const Initial: FormState := FormState("", "", false, None, None, [])

  /** `disabled={loading || !token}` on both inputs and the submit button:
      the form is usable only when it is idle and holds a non-empty token. */
  predicate SubmitDisabled(s: FormState)
  {
    s.loading || !Truthy(s.token)
  }

  /** The mount effect, given the decoded `token` and `error` parameters. */
  function AfterMount(s: FormState, tokenParam: Option<string>, errorParam: Option<string>): FormState
  {
    if errorParam == Some("INVALID_TOKEN") then
      s.(message := Some(Message(Error, InvalidLinkText)))
    else if !Truthy(tokenParam) then
      s.(token := tokenParam, message := Some(Message(Error, MissingTokenText)))
    else
      s.(token := tokenParam)
  }

  /** The submit handler's guards, in the order the handler runs them: the
      first that fails names the error, and only when none fails is there a
      request to send. */
  function CheckSubmission(token: Option<string>, password: string, confirmPassword: string): (r: Result<ResetRequest, string>)
    ensures r.Ok? <==> Truthy(token) && password == confirmPassword && |password| >= MinLength
    ensures r.Ok? ==> r.value == ResetRequest(password, token.value)
    ensures r == Err(InvalidTokenText) <==> !Truthy(token)
    ensures r == Err(MismatchText) <==> Truthy(token) && password != confirmPassword
    ensures r == Err(TooShortText) <==> Truthy(token) && password == confirmPassword && |password| < MinLength
  {
    if !Truthy(token) then Err(InvalidTokenText)
    else if password != confirmPassword then Err(MismatchText)
    else if |password| < MinLength then Err(TooShortText)
    else Ok(ResetRequest(password, token.value))
  }

  /** The synchronous part of the submit handler, up to the `await`: the new
      state and the request sent, if any. The token guard returns before
      `loading` is touched; the password guards set it and reset it. */
  function AfterBegin(s: FormState): (FormState, Option<ResetRequest>)
  {
    match CheckSubmission(s.token, s.password, s.confirmPassword)
    case Err(text) =>
      (s.(loading := if Truthy(s.token) then false else s.loading,
          message := Some(Message(Error, text))),
       None)
    case Ok(request) =>
      (s.(loading := true, message := None), Some(request))
  }

  /** The continuation after the awaited call settles, with its `finally`. */
  function AfterFinish(s: FormState, outcome: Outcome): FormState
  {
    match outcome
    case Resolved =>
      s.(message := Some(Message(Success, SuccessText)),
         redirects := s.redirects + [Redirect(HomePath, RedirectDelayMs)],
         loading := false)
    case Rejected =>
      s.(message := Some(Message(Error, FailureText)), loading := false)
  }

  /** One whole run of the submit handler, the remote call answering
      `outcome` if it is made. */
  function AfterSubmit(s: FormState, outcome: Outcome): (FormState, Option<ResetRequest>)
  {
    var (begun, request) := AfterBegin(s);
    if request.Some? then (AfterFinish(begun, outcome), request) else (begun, None)
  }

  class ResetPasswordForm {
    var password: string
    var confirmPassword: string
    var loading: bool
    var token: Option<string>
    var message: Option<Message>
    var redirects: seq<Redirect>

    function State(): FormState
      reads this
    {
      FormState(password, confirmPassword, loading, token, message, redirects)
    }

    constructor ()
      ensures State() == Initial
    {
      password, confirmPassword := "", "";
      loading := false;
      token := None;
      message := None;
      redirects := [];
    }

    /** The `useEffect` that runs once when the component mounts. */
    method Mount(tokenParam: Option<string>, errorParam: Option<string>)
      modifies this
      ensures State() == AfterMount(old(State()), tokenParam, errorParam)
    {
      if errorParam == Some("INVALID_TOKEN") {
        message := Some(Message(Error, InvalidLinkText));
        return;
      }
      token := tokenParam;
      if !(tokenParam.Some? && tokenParam.value != "") {
        message := Some(Message(Error, MissingTokenText));
      }
    }

    method SetPassword(value: string)
      modifies this
      ensures State() == old(State()).(password := value)
    {
      password := value;
    }

    method SetConfirmPassword(value: string)
      modifies this
      ensures State() == old(State()).(confirmPassword := value)
    {
      confirmPassword := value;
    }

    /** `handleSubmit` up to the `await`; returns the request it sends. */
    method BeginSubmit() returns (request: Option<ResetRequest>)
      modifies this
      ensures (State(), request) == AfterBegin(old(State()))
    {
      if !(token.Some? && token.value != "") {
        message := Some(Message(Error, InvalidTokenText));
        return None;
      }
      loading := true;
      message := None;
      if password != confirmPassword {
        message := Some(Message(Error, MismatchText));
        loading := false;
        return None;
      }
      if |password| < MinLength {
        message := Some(Message(Error, TooShortText));
        loading := false;
        return None;
      }
      request := Some(ResetRequest(password, token.value));
    }

    /** `handleSubmit` after the awaited call settles. */
    method FinishSubmit(outcome: Outcome)
      modifies this
      ensures State() == AfterFinish(old(State()), outcome)
    {
      if outcome == Resolved {
        message := Some(Message(Success, SuccessText));
        redirects := redirects + [Redirect(HomePath, RedirectDelayMs)];
      } else {
        message := Some(Message(Error, FailureText));
      }
      loading := false;
    }

    /** The whole submit handler. */
    method HandleSubmit(outcome: Outcome) returns (request: Option<ResetRequest>)
      modifies this
      ensures (State(), request) == AfterSubmit(old(State()), outcome)
    {
      request := BeginSubmit();
      if request.Some? {
        FinishSubmit(outcome);
      }
    }
  }

  /** With `error=INVALID_TOKEN` the effect returns early: the token stays
      null, whatever the `token` parameter says, so the form is disabled. */
  lemma InvalidTokenParamDisablesForm(tokenParam: Option<string>)
    ensures AfterMount(Initial, tokenParam, Some("INVALID_TOKEN")).token == None
    ensures AfterMount(Initial, tokenParam, Some("INVALID_TOKEN")).message == Some(Message(Error, InvalidLinkText))
    ensures SubmitDisabled(AfterMount(Initial, tokenParam, Some("INVALID_TOKEN")))
  {
  }

  /** Any other `error` value is ignored: the token is taken from the URL and
      the missing-token error is shown exactly when it is absent or empty,
      which is exactly when the form stays disabled. */
  lemma MountTakesTokenFromUrl(tokenParam: Option<string>, errorParam: Option<string>)
    requires errorParam != Some("INVALID_TOKEN")
    ensures AfterMount(Initial, tokenParam, errorParam).token == tokenParam
    ensures AfterMount(Initial, tokenParam, errorParam).message == Some(Message(Error, MissingTokenText))
        <==> !Truthy(tokenParam)
    ensures SubmitDisabled(AfterMount(Initial, tokenParam, errorParam)) <==> !Truthy(tokenParam)
  {
  }

  /** The remote call is made if and only if the token is non-empty, the
      entries match and are at least eight long, and it carries exactly that
      password and that token. */
  lemma RemoteCallIffGuardsPass(s: FormState, outcome: Outcome)
    ensures AfterSubmit(s, outcome).1.Some?
        <==> Truthy(s.token) && s.password == s.confirmPassword && |s.password| >= MinLength
    ensures AfterSubmit(s, outcome).1.Some?
        ==> AfterSubmit(s, outcome).1.value == ResetRequest(s.password, s.token.value)
  {
  }

  /** Which inline error a rejected submission shows: the token guard comes
      first, then the mismatch, and the length error only for matching
      entries; none of these paths schedules a redirect. */
  lemma GuardErrorsInOrder(s: FormState, outcome: Outcome)
    ensures !Truthy(s.token) ==>
      AfterSubmit(s, outcome).0 == s.(message := Some(Message(Error, InvalidTokenText)))
    ensures Truthy(s.token) && s.password != s.confirmPassword ==>
      AfterSubmit(s, outcome).0 == s.(loading := false, message := Some(Message(Error, MismatchText)))
    ensures Truthy(s.token) && s.password == s.confirmPassword && |s.password| < MinLength ==>
      AfterSubmit(s, outcome).0 == s.(loading := false, message := Some(Message(Error, TooShortText)))
    ensures AfterSubmit(s, outcome).0.message == Some(Message(Error, TooShortText))
        <==> Truthy(s.token) && s.password == s.confirmPassword && |s.password| < MinLength
  {
  }

  /** A submission that reaches the server shows the success notice and
      schedules exactly one redirect to the root after two seconds when the
      call resolves; otherwise it shows the failure notice and schedules
      nothing. */
  lemma RedirectOnlyAfterSuccess(s: FormState, outcome: Outcome)
    requires AfterSubmit(s, outcome).1.Some?
    ensures outcome == Resolved ==>
      AfterSubmit(s, outcome).0.message == Some(Message(Success, SuccessText)) &&
      AfterSubmit(s, outcome).0.redirects == s.redirects + [Redirect(HomePath, RedirectDelayMs)]
    ensures outcome == Rejected ==>
      AfterSubmit(s, outcome).0.message == Some(Message(Error, FailureText)) &&
      AfterSubmit(s, outcome).0.redirects == s.redirects
  {
  }

  /** Every path that sets `loading` clears it again; only the token guard,
      which returns before setting it, leaves it as it was. So from an
      enabled form a submission always ends with the form idle. */
  lemma SubmitEndsIdle(s: FormState, outcome: Outcome)
    ensures AfterSubmit(s, outcome).0.loading == (s.loading && !Truthy(s.token))
    ensures !SubmitDisabled(s) ==> !AfterSubmit(s, outcome).0.loading
  {
  }

  /** While the call is in flight the form is loading and therefore
      disabled, so this instance cannot start a second submission; however
      the call settles, the form is enabled again, since it still holds the
      token that let the call start. */
  lemma PendingCallDisablesSubmit(s: FormState)
    requires AfterBegin(s).1.Some?
    ensures AfterBegin(s).0.loading && AfterBegin(s).0.message == None
    ensures SubmitDisabled(AfterBegin(s).0)
    ensures forall outcome :: !SubmitDisabled(AfterFinish(AfterBegin(s).0, outcome))
  {
  }

  /** A user's interaction with a mounted form, one handler run per event. */
  datatype Event = EditPassword(value: string) | EditConfirmPassword(value: string) | Submit(outcome: Outcome)

  /** One event: the new state and the remote call it made, if any. */
  function Step(s: FormState, e: Event): (FormState, seq<(ResetRequest, Outcome)>)
  {
    match e
    case EditPassword(v) => (s.(password := v), [])
    case EditConfirmPassword(v) => (s.(confirmPassword := v), [])
    case Submit(o) =>
      var (after, request) := AfterSubmit(s, o);
      (after, if request.Some? then [(request.value, o)] else [])
  }

  /** The form's state after `events`, with each remote call made and how it
      settled, in order. Handlers run whether or not the controls are
      disabled. */
  function Replay(s: FormState, events: seq<Event>): (FormState, seq<(ResetRequest, Outcome)>)
    decreases |events|
  {
    if events == [] then (s, [])
    else
      var (next, calls) := Step(s, events[0]);
      var (final, rest) := Replay(next, events[1..]);
      (final, calls + rest)
  }

  /** The number of calls in `calls` that resolved. */
  function ResolvedCount(calls: seq<(ResetRequest, Outcome)>): nat
  {
    if calls == [] then 0
    else (if calls[0].1 == Resolved then 1 else 0) + ResolvedCount(calls[1..])
  }

  /** A form without a usable token stays without one, whatever the user
      does: no event sequence reaches the server or schedules a redirect. */
  lemma {:induction false} TokenlessFormNeverCalls(s: FormState, events: seq<Event>)
    requires !Truthy(s.token)
    ensures Replay(s, events).1 == []
    ensures Replay(s, events).0.token == s.token
    ensures Replay(s, events).0.redirects == s.redirects
    decreases |events|
  {
    if events != [] {
      TokenlessFormNeverCalls(Step(s, events[0]).0, events[1..]);
    }
  }

  /** Mounting with `error=INVALID_TOKEN` disables the form for the life of
      the page: no later interaction sends a request or redirects. */
  lemma InvalidLinkIsPermanent(tokenParam: Option<string>, events: seq<Event>)
    ensures Replay(AfterMount(Initial, tokenParam, Some("INVALID_TOKEN")), events).1 == []
    ensures Replay(AfterMount(Initial, tokenParam, Some("INVALID_TOKEN")), events).0.redirects == []
  {
    TokenlessFormNeverCalls(AfterMount(Initial, tokenParam, Some("INVALID_TOKEN")), events);
  }

  /** Over any session: every request that reaches the server carries the
      session's token and a password of at least eight characters, each
      resolved call adds exactly one redirect to the root after two seconds
      and nothing else adds one, and the form is idle between events. */
  lemma {:induction false} SessionCallsAndRedirects(s: FormState, events: seq<Event>)
    requires !s.loading
    ensures forall c :: c in Replay(s, events).1 ==>
      |c.0.newPassword| >= MinLength && Truthy(s.token) && c.0.token == s.token.value
    ensures |Replay(s, events).0.redirects| == |s.redirects| + ResolvedCount(Replay(s, events).1)
    ensures Replay(s, events).0.redirects[..|s.redirects|] == s.redirects
    ensures forall i :: |s.redirects| <= i < |Replay(s, events).0.redirects| ==>
      Replay(s, events).0.redirects[i] == Redirect(HomePath, RedirectDelayMs)
    ensures !Replay(s, events).0.loading
    ensures Replay(s, events).0.token == s.token
    decreases |events|
  {
    if events != [] {
      var (next, calls) := Step(s, events[0]);
      SessionCallsAndRedirects(next, events[1..]);
      var (final, rest) := Replay(next, events[1..]);
      assert Replay(s, events) == (final, calls + rest);
      ResolvedCountAppend(calls, rest);
      if events[0].Submit? {
        SubmitEndsIdle(s, events[0].outcome);
        RemoteCallIffGuardsPass(s, events[0].outcome);
      }
    }
  }

  /** `ResolvedCount` distributes over concatenation; used by
      `SessionCallsAndRedirects`. */
  lemma {:induction false} ResolvedCountAppend(a: seq<(ResetRequest, Outcome)>, b: seq<(ResetRequest, Outcome)>)
    ensures ResolvedCount(a + b) == ResolvedCount(a) + ResolvedCount(b)
    decreases |a|
  {
    if a == [] {
      assert a + b == b;
    } else {
      assert (a + b)[1..] == a[1..] + b;
      ResolvedCountAppend(a[1..], b);
    }
  }
}
