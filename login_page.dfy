/** The sign-in page of the frontend (`pages/LoginPage.tsx`): requesting an SMS code,
    the 60-second resend countdown, and signing in with the phone and code.

    The identity service's answers are parameters; the one-second interval is the
    method `Tick`, run once per elapsed second. Texts shown to the user are
    translation keys, or the service's own `detail`. */
module LoginPage {
  import opened Common
  import opened ApiClient
  import Text
  import AuthContext

  const CountdownSeconds: int := 60

  /** What the error banner shows. */
  datatype ErrorText =
    | InvalidPhone
    | SendCodeFailed
    | NetworkError
    | FillAll
    | LoginFailed
    | ServiceDetail(detail: JsValue)

  /** An answer of the identity service: ok with a body, not ok with a `detail`, or thrown. */
  datatype ServiceReply<T> = ReplyOk(body: T) | ReplyNotOk(detail: JsValue) | ReplyThrew

  /** The body of a successful sign-in. */
  datatype LoginBody = LoginBody(accessToken: string, user: AuthContext.User)

  /** The code may be requested only for a non-empty phone whose JavaScript `length`,
      counted in UTF-16 code units, is at least 11. */
  predicate PhoneAccepted(phone: string) {
    phone != "" && Text.Utf16Length(phone) >= 11
  }

  /** The length test counts code units: six characters outside the Basic Multilingual
      Plane (mathematical bold digits) pass it, while ten ordinary digits do not. */
  lemma PhoneLengthCountsCodeUnits()
    ensures PhoneAccepted("\U{1D7CF}\U{1D7D0}\U{1D7D1}\U{1D7D2}\U{1D7D3}\U{1D7D4}")
    ensures !PhoneAccepted("1380013800")
    ensures PhoneAccepted("13800138000")
  {
  }

  /** `data.detail || t(key)`. */
  function DetailOr(detail: JsValue, fallback: ErrorText): (e: ErrorText)
    ensures Truthy(detail) ==> e == ServiceDetail(detail)
    ensures !Truthy(detail) ==> e == fallback
  {
    if Truthy(detail) then ServiceDetail(detail) else fallback
  }

  /** One tick of the interval: the countdown goes down by one and stops at zero. */
  function NextCountdown(c: int): (n: int)
    ensures n >= 0
    ensures c >= 1 ==> n == c - 1
    ensures c <= 1 ==> n == 0
  {
    if c <= 1 then 0 else c - 1
  }

  /** The countdown after `k` ticks. */
  function CountdownAfter(c: int, k: nat): int
    decreases k
  {
    if k == 0 then c else CountdownAfter(NextCountdown(c), k - 1)
  }

  /** From 60 the button shows 60, 59, ..., 1 and then re-enables: after `k` ticks the
      countdown is 60 - k, and it is 0 from the sixtieth tick on. */
  lemma {:induction false} CountdownRunsDown(c: int, k: nat)
    requires c >= 0
    ensures k <= c ==> CountdownAfter(c, k) == c - k
    ensures k >= c ==> CountdownAfter(c, k) == 0
    decreases k
  {
    if k > 0 {
      CountdownRunsDown(NextCountdown(c), k - 1);
    }
  }

  lemma ResendAfterSixtySeconds()
    ensures CountdownAfter(CountdownSeconds, 59) == 1
    ensures CountdownAfter(CountdownSeconds, 60) == 0
  {
    CountdownRunsDown(CountdownSeconds, 59);
    CountdownRunsDown(CountdownSeconds, 60);
  }

  class LoginForm {
    var phone: string
    var code: string
    var isCodeSent: bool
    var isLoading: bool
    var countdown: int
    var ticking: bool
    var error: Option<ErrorText>

    constructor ()
      ensures phone == "" && code == "" && !isCodeSent && !isLoading
      ensures countdown == 0 && !ticking && error == None
    {
      phone, code, isCodeSent, isLoading := "", "", false, false;
      countdown, ticking, error := 0, false, None;
    }

    /** The send-code button is disabled while a request runs or the countdown shows. */
    function SendCodeDisabled(): bool
      reads this
    {
      isLoading || countdown > 0
    }

    /** The submit button is disabled while a request runs or before a code was sent. */
    function SubmitDisabled(): bool
      reads this
    {
      isLoading || !isCodeSent
    }

    /** `sendCode`; `requested` says whether the service was asked. */
    method SendCode(reply: ServiceReply<()>) returns (requested: bool)
      modifies this
      ensures phone == old(phone) && code == old(code)
      ensures requested <==> PhoneAccepted(phone)
      ensures requested ==> !isLoading
      ensures !requested ==>
        (error == Some(InvalidPhone) && isCodeSent == old(isCodeSent)
         && countdown == old(countdown) && ticking == old(ticking) && isLoading == old(isLoading))
      ensures requested && reply.ReplyOk? ==>
        error == None && isCodeSent && countdown == CountdownSeconds && ticking
      // after a sent code: no second request until the countdown ends, and signing in is possible
      ensures requested && reply.ReplyOk? ==> SendCodeDisabled() && !SubmitDisabled()
      ensures requested && reply.ReplyNotOk? ==>
        error == Some(DetailOr(reply.detail, SendCodeFailed)) && isCodeSent == old(isCodeSent)
        && countdown == old(countdown) && ticking == old(ticking)
      ensures requested && reply.ReplyThrew? ==>
        error == Some(NetworkError) && isCodeSent == old(isCodeSent)
        && countdown == old(countdown) && ticking == old(ticking)
    {
      if phone == "" || Text.Utf16Length(phone) < 11 {
        error := Some(InvalidPhone);
        return false;
      }
      requested := true;
      isLoading, error := true, None;
      match reply {
        case ReplyOk(_) =>
          isCodeSent, countdown, ticking := true, CountdownSeconds, true;
        case ReplyNotOk(detail) =>
          error := Some(DetailOr(detail, SendCodeFailed));
        case ReplyThrew =>
          error := Some(NetworkError);
      }
      isLoading := false;
    }

    /** One second of the countdown's interval; the interval clears itself at zero. */
    method Tick()
      modifies this
      ensures old(ticking) ==> countdown == NextCountdown(old(countdown)) && ticking == (old(countdown) > 1)
      ensures !old(ticking) ==> countdown == old(countdown) && !ticking
      // the last tick re-enables the send-code button unless a request is running
      ensures old(ticking) && old(countdown) <= 1 ==> (SendCodeDisabled() <==> isLoading)
      ensures phone == old(phone) && code == old(code) && isCodeSent == old(isCodeSent)
        && isLoading == old(isLoading) && error == old(error)
    {
      if ticking {
        if countdown <= 1 {
          ticking := false;
          countdown := 0;
        } else {
          countdown := countdown - 1;
        }
      }
    }

    /** `handleLogin`: signs in through the provider and goes home on success. */
    method HandleLogin(auth: AuthContext.AuthProvider, reply: ServiceReply<LoginBody>)
      returns (requested: bool, navigatedHome: bool)
      modifies this, auth, auth.storage
      ensures phone == old(phone) && code == old(code) && isCodeSent == old(isCodeSent)
      ensures countdown == old(countdown) && ticking == old(ticking)
      ensures requested <==> phone != "" && code != ""
      ensures !requested ==>
        (error == Some(FillAll) && isLoading == old(isLoading) && !navigatedHome
         && auth.State() == old(auth.State()))
      ensures requested ==> !isLoading
      ensures navigatedHome <==> requested && reply.ReplyOk?
      ensures navigatedHome ==>
        error == None
        && auth.State() == AuthContext.LoginStep(old(auth.State()), reply.body.accessToken, reply.body.user)
      ensures requested && reply.ReplyNotOk? ==>
        error == Some(DetailOr(reply.detail, LoginFailed)) && auth.State() == old(auth.State())
      ensures requested && reply.ReplyThrew? ==> error == Some(NetworkError) && auth.State() == old(auth.State())
    {
      navigatedHome := false;
      if phone == "" || code == "" {
        error := Some(FillAll);
        return false, false;
      }
      requested := true;
      isLoading, error := true, None;
      match reply {
        case ReplyOk(body) =>
          auth.Login(body.accessToken, body.user);
          navigatedHome := true;
        case ReplyNotOk(detail) =>
          error := Some(DetailOr(detail, LoginFailed));
        case ReplyThrew =>
          error := Some(NetworkError);
      }
      isLoading := false;
    }
  }
}
