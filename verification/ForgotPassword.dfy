/**
 * The forgot-password page: a three-step flow (request a code by email, verify
 * the code to obtain a reset token, set a new password under that token). The
 * server's reply to each request is an input; the request a handler issues and
 * the toast it shows are outputs.
 */
module ForgotPassword {
  import opened Wrappers
  import opened Session

  /**
   * The JSON body the server answers with. An absent field is `None`; a present
   * `message` is held as the text `new Error(message)` makes of it, so a `null`
   * message is the text `null`.
   */
  datatype Reply = Reply(success: bool, message: Option<string>, token: Option<string>)

  /** What a thrown value looks like to the `catch` clause. */
  datatype Thrown = ErrorValue(message: string) | OtherValue

  /** How a request settles: with a parsed reply, or by throwing (transport or parse failure). */
  datatype Response = Replied(reply: Reply) | Rejected(thrown: Thrown)

  predicate Succeeded(r: Response) {
    r.Replied? && r.reply.success
  }

  /**
   * The `try`/`catch` of a handler: a successful reply, or the text of the error
   * toast. A reply with `success` false is rethrown as `new Error(data.message)`,
   * whose message is `""` when the reply carries none; `fallback` is used only
   * when the thrown value is not an `Error`.
   */
  function Settle(r: Response, fallback: string): (s: Result<Reply, string>)
    ensures s.Ok? <==> Succeeded(r)
    ensures s.Ok? ==> s.value == r.reply
  {
    match r
    case Replied(reply) =>
      if reply.success then Ok(reply) else Err(reply.message.GetOr(""))
    case Rejected(ErrorValue(m)) => Err(m)
    case Rejected(OtherValue) => Err(fallback)
  }

  /** The error toast carries the server's message when the failed reply has one. */
  lemma SettleShowsServerMessage(r: Response, fallback: string)
    requires r.Replied? && !r.reply.success && r.reply.message.Some?
    ensures Settle(r, fallback) == Err(r.reply.message.value)
  {
  }

  /** The fallback text matters only when a non-`Error` value is thrown. */
  lemma FallbackOnlyForNonErrors(r: Response, f1: string, f2: string, m: string)
    requires r != Rejected(OtherValue)
    ensures Settle(r, f1) == Settle(r, f2)
    ensures Settle(Rejected(OtherValue), f1) == Err(f1)
    ensures Settle(Rejected(ErrorValue(m)), f1) == Err(m)
  {
  }

  /** A failed reply without a `message` field shows an empty error toast, not the fallback. */
  lemma MissingMessageIsEmpty(r: Response, fallback: string)
    requires r.Replied? && !r.reply.success && r.reply.message.None?
    ensures Settle(r, fallback) == Err("")
  {
  }

  const SendEmailSuccess := "A verification code has been sent to your email. Please check your inbox and enter the code below."
  const SendEmailFallback := "Something went wrong"
  const VerifySuccess := "Your verification code is correct. You can now set a new password."
  const VerifyFallback := "Invalid code, please try again."
  const ResetSuccess := "Your password has been successfully reset! Redirecting to login page..."
  const ResetFallback := "Reset failed, please try again."
  const MismatchMessage := "Passwords do not match. Please ensure both fields match."

  datatype ToastKind = SuccessToast | ErrorToast
  datatype Toast = Toast(kind: ToastKind, message: string)

  /** The toast a settled request shows: the handler's success text, or the error message. */
  function ToastFor(settled: Result<Reply, string>, successText: string): Toast {
    match settled
    case Ok(_) => Toast(SuccessToast, successText)
    case Err(m) => Toast(ErrorToast, m)
  }

  // ---------------------------------------------------------------------------
  // The step machine
  // ---------------------------------------------------------------------------

  /** The part of the page state the handlers move: the step and the reset token. */
  datatype Flow = Flow(step: int, token: Option<string>)

  const Initial := Flow(1, None)

  /** A submitted form together with the response its request settled with. */
  datatype Action = SendEmail(resp: Response) | VerifyCode(resp: Response) | ResetPassword(resp: Response)

  /**
   * One handler run. Each form is rendered only on its own step, so an action on
   * another step has no effect. The reset handler never changes step or token:
   * on success it leaves the page.
   */
  function Transition(f: Flow, a: Action): (r: Flow)
    ensures 1 <= f.step <= 3 ==> f.step <= r.step <= 3
    ensures r.step != f.step ==> r.step == f.step + 1 && Succeeded(a.resp) && !a.ResetPassword?
    ensures r.token != f.token ==> a.VerifyCode? && r.step == 3
  {
    match a
    case SendEmail(r) => if f.step == 1 && Succeeded(r) then f.(step := 2) else f
    case VerifyCode(r) => if f.step == 2 && Succeeded(r) then Flow(3, r.reply.token) else f
    case ResetPassword(_) => f
  }

  /** The state after a sequence of handler runs, the last one applied last. */
  function Run(f: Flow, acts: seq<Action>): Flow
    decreases |acts|
  {
    if acts == [] then f else Transition(Run(f, acts[..|acts| - 1]), acts[|acts| - 1])
  }

  /** The step stays within 1..3 and never decreases. */
  lemma {:induction false} RunNeverGoesBack(f: Flow, acts: seq<Action>)
    requires 1 <= f.step <= 3
    ensures f.step <= Run(f, acts).step <= 3
    decreases |acts|
  {
    if acts != [] {
      RunNeverGoesBack(f, acts[..|acts| - 1]);
    }
  }

  predicate EmailSentAt(acts: seq<Action>, i: int) {
    0 <= i < |acts| && acts[i].SendEmail? && Succeeded(acts[i].resp)
  }

  predicate CodeVerifiedAt(acts: seq<Action>, i: int) {
    0 <= i < |acts| && acts[i].VerifyCode? && Succeeded(acts[i].resp)
  }

  /**
   * From the initial state: step 2 is reached only after a successful send-email
   * reply; step 3 only after a later successful verify reply, whose token is the
   * one held; and before step 3 no token is held.
   */
  lemma {:induction false} RunFromInitial(acts: seq<Action>)
    ensures Run(Initial, acts).step >= 2 ==> exists i :: EmailSentAt(acts, i)
    ensures Run(Initial, acts).step == 3 ==>
      exists i, j :: EmailSentAt(acts, i) && CodeVerifiedAt(acts, j) && i < j &&
                     Run(Initial, acts).token == acts[j].resp.reply.token
    ensures Run(Initial, acts).step < 3 ==> Run(Initial, acts).token == None
    decreases |acts|
  {
    if acts != [] {
      var n := |acts| - 1;
      var front := acts[..n];
      RunFromInitial(front);
      RunNeverGoesBack(Initial, front);
      var before := Run(Initial, front);
      var after := Run(Initial, acts);
      assert after == Transition(before, acts[n]);
      forall i | EmailSentAt(front, i) ensures EmailSentAt(acts, i) {
        assert front[i] == acts[i];
      }
      forall j | CodeVerifiedAt(front, j) ensures CodeVerifiedAt(acts, j) {
        assert front[j] == acts[j];
      }
      if after.step >= 2 && before.step < 2 {
        assert EmailSentAt(acts, n);
      }
      if after.step == 3 {
        if before.step == 3 {
          var i, j :| EmailSentAt(front, i) && CodeVerifiedAt(front, j) && i < j &&
                      before.token == front[j].resp.reply.token;
          assert EmailSentAt(acts, i) && CodeVerifiedAt(acts, j);
          assert after.token == acts[j].resp.reply.token;
        } else {
          var i :| EmailSentAt(front, i);
          assert EmailSentAt(acts, i);
          assert CodeVerifiedAt(acts, n);
          assert after.token == acts[n].resp.reply.token;
        }
      }
    }
  }

  /** Once the reset token is held, no further handler run replaces it. */
  lemma {:induction false} TokenFixedAtStepThree(f: Flow, acts: seq<Action>)
    requires f.step == 3
    ensures Run(f, acts) == f
    decreases |acts|
  {
    if acts != [] {
      TokenFixedAtStepThree(f, acts[..|acts| - 1]);
    }
  }

  // ---------------------------------------------------------------------------
  // The page
  // ---------------------------------------------------------------------------

  /** The request a handler sends; the reset request carries its `Authorization` header. */
  datatype Request =
    | SendEmailRequest(email: string)
    | VerifyCodeRequest(email: string, code: string)
    | ResetRequest(password: string, authorization: string)

  class ForgotPasswordPage {
    var step: int
    var email: string
    var verificationCode: string
    var password: string
    var confirmPassword: string
    var token: Option<string>
    var loading: bool

    function State(): Flow
      reads this
    {
      Flow(step, token)
    }

    /** Between handler runs nothing is loading, and the token is held only on step 3. */
    predicate Valid()
      reads this
    {
      1 <= step <= 3 && (step < 3 ==> token.None?) && !loading
    }

    constructor ()
      ensures Valid() && State() == Initial
      ensures email == "" && verificationCode == "" && password == "" && confirmPassword == ""
    {
      step := 1;
      email, verificationCode, password, confirmPassword := "", "", "", "";
      token := None;
      loading := false;
    }

    method SetEmail(v: string)
      modifies this`email
      ensures email == v
    {
      email := v;
    }

    method SetVerificationCode(v: string)
      modifies this`verificationCode
      ensures verificationCode == v
    {
      verificationCode := v;
    }

    method SetPassword(v: string)
      modifies this`password
      ensures password == v
    {
      password := v;
    }

    method SetConfirmPassword(v: string)
      modifies this`confirmPassword
      ensures confirmPassword == v
    {
      confirmPassword := v;
    }

    /** Step 1's form: request a verification code for `email`. */
    method HandleSendEmail(resp: Response) returns (sent: Request, shown: Toast)
      requires Valid() && step == 1
      modifies this`step, this`loading
      ensures Valid()
      ensures State() == Transition(old(State()), SendEmail(resp))
      ensures sent == SendEmailRequest(email)
      ensures shown == ToastFor(Settle(resp, SendEmailFallback), SendEmailSuccess)
    {
      loading := true;
      sent := SendEmailRequest(email);
      var settled := Settle(resp, SendEmailFallback);
      if settled.Ok? {
        shown := Toast(SuccessToast, SendEmailSuccess);
        step := 2;
      } else {
        shown := Toast(ErrorToast, settled.error);
      }
      loading := false;
    }

    /** Step 2's form: submit the code; on success hold the reply's reset token. */
    method HandleVerifyCode(resp: Response) returns (sent: Request, shown: Toast)
      requires Valid() && step == 2
      modifies this`step, this`token, this`loading
      ensures Valid()
      ensures State() == Transition(old(State()), VerifyCode(resp))
      ensures sent == VerifyCodeRequest(email, verificationCode)
      ensures shown == ToastFor(Settle(resp, VerifyFallback), VerifySuccess)
    {
      loading := true;
      sent := VerifyCodeRequest(email, verificationCode);
      var settled := Settle(resp, VerifyFallback);
      if settled.Ok? {
        shown := Toast(SuccessToast, VerifySuccess);
        token := settled.value.token;
        step := 3;
      } else {
        shown := Toast(ErrorToast, settled.error);
      }
      loading := false;
    }

    /**
     * Step 3's form: mismatched passwords show an error and send nothing;
     * otherwise send the new password under the reset token, and on success
     * leave for the home page.
     */
    method HandleResetPassword(resp: Response) returns (sent: Option<Request>, shown: Toast, redirectHome: bool)
      requires Valid() && step == 3
      modifies this`loading
      ensures Valid()
      ensures State() == Transition(old(State()), ResetPassword(resp))
      ensures sent.None? <==> password != confirmPassword
      ensures password != confirmPassword ==> shown == Toast(ErrorToast, MismatchMessage) && !redirectHome
      ensures sent.Some? ==> sent.value == ResetRequest(password, BearerHeader(token))
      ensures sent.Some? ==> shown == ToastFor(Settle(resp, ResetFallback), ResetSuccess)
      ensures redirectHome <==> password == confirmPassword && Succeeded(resp)
    {
      if password != confirmPassword {
        return None, Toast(ErrorToast, MismatchMessage), false;
      }
      loading := true;
      sent := Some(ResetRequest(password, BearerHeader(token)));
      var settled := Settle(resp, ResetFallback);
      if settled.Ok? {
        shown := Toast(SuccessToast, ResetSuccess);
        redirectHome := true;
      } else {
        shown := Toast(ErrorToast, settled.error);
        redirectHome := false;
      }
      loading := false;
    }
  }
}
