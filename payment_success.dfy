/** The page the payment processor returns to (`pages/PaymentSuccessPage.tsx`): it
    polls the backend for the checkout's status at most ten times, a second apart,
    stops at the first "completed" answer, records the tokens granted and refreshes
    the token status once.

    The answers of the status endpoint are a parameter `poll`: `poll(i)` is the
    answer to the `i`-th call (counting from 0), a status or a thrown error. The
    one-second waits are counted, not timed. */
module PaymentSuccess {
  import opened Common
  import opened Browser

  const MaxAttempts: nat := 10
  const CompletedStatus: string := "completed"

  datatype PollReply = StatusReply(status: string, tokensGranted: int) | PollThrew

  /** An answer that ends the loop: a completed status (break) or a thrown error
      (caught outside the loop). */
  predicate Stops(r: PollReply) {
    r.PollThrew? || r.status == CompletedStatus
  }

  /** What `checkPayment` did: whether it went home, the status calls and waits it
      made, the `tokensAdded` and `loading` it left, and how many token refreshes. */
  datatype PageResult = PageResult(navigatedHome: bool, statusCalls: nat, waits: nat,
                                   tokensAdded: int, refreshes: nat, loading: bool)

  /** The first attempt at or after `from` whose answer ends the loop, or
      `MaxAttempts` when no attempt does. */
  function FirstStop(poll: nat -> PollReply, from: nat): (k: nat)
    requires from <= MaxAttempts
    ensures from <= k <= MaxAttempts
    ensures k < MaxAttempts ==> Stops(poll(k))
    ensures forall j :: from <= j < k ==> !Stops(poll(j))
    decreases MaxAttempts - from
  {
    if from == MaxAttempts || Stops(poll(from)) then from else FirstStop(poll, from + 1)
  }

  /** The outcome of `checkPayment`, attempt by attempt. */
  function CheckPaymentResult(checkoutId: Option<string>, poll: nat -> PollReply): PageResult {
    if !Present(checkoutId) then PageResult(true, 0, 0, 0, 0, true)
    else
      var k := FirstStop(poll, 0);
      if k == MaxAttempts then PageResult(false, MaxAttempts, MaxAttempts, 0, 0, false)
      else if poll(k).PollThrew? then PageResult(false, k + 1, k, 0, 0, false)
      else PageResult(false, k + 1, k, poll(k).tokensGranted, 1, false)
  }

  lemma {:induction false} FirstStopIs(poll: nat -> PollReply, from: nat, i: nat)
    requires from <= i < MaxAttempts && Stops(poll(i))
    requires forall j :: from <= j < i ==> !Stops(poll(j))
    ensures FirstStop(poll, from) == i
    decreases i - from
  {
    if from < i {
      FirstStopIs(poll, from + 1, i);
    }
  }

  /** `checkPayment`. */
  method CheckPayment(checkoutId: Option<string>, poll: nat -> PollReply) returns (r: PageResult)
    ensures r == CheckPaymentResult(checkoutId, poll)
  {
    if checkoutId.None? || checkoutId.value == "" {
      return PageResult(true, 0, 0, 0, 0, true);
    }
    var i := 0;
    while i < MaxAttempts
      invariant 0 <= i <= MaxAttempts
      invariant forall j :: 0 <= j < i ==> !Stops(poll(j))
    {
      var status := poll(i);
      if status.PollThrew? {
        FirstStopIs(poll, 0, i);
        return PageResult(false, i + 1, i, 0, 0, false);
      }
      if status.status == CompletedStatus {
        FirstStopIs(poll, 0, i);
        return PageResult(false, i + 1, i, status.tokensGranted, 1, false);
      }
      i := i + 1;
    }
    r := PageResult(false, MaxAttempts, MaxAttempts, 0, 0, false);
  }

  /** Without a checkout id the page goes home at once, makes no status call and
      stays loading. With one it makes between 1 and 10 calls, one wait after each
      answer that does not end the loop, and always stops loading. */
  lemma PollIsBounded(checkoutId: Option<string>, poll: nat -> PollReply)
    ensures var r := CheckPaymentResult(checkoutId, poll);
      && (!Present(checkoutId) ==> r.navigatedHome && r.statusCalls == 0 && r.refreshes == 0 && r.loading)
      && (Present(checkoutId) ==>
            && !r.navigatedHome && !r.loading
            && 1 <= r.statusCalls <= MaxAttempts
            && (r.waits == r.statusCalls || r.waits == r.statusCalls - 1))
  {
  }

  /** Polling stops at the first completed answer: the calls are exactly the attempts
      up to and including it, `tokensAdded` is its grant and one refresh follows. */
  lemma StopsAtFirstCompleted(poll: nat -> PollReply, id: string, k: nat)
    requires id != "" && k < MaxAttempts
    requires poll(k).StatusReply? && poll(k).status == CompletedStatus
    requires forall j :: 0 <= j < k ==> !Stops(poll(j))
    ensures CheckPaymentResult(Some(id), poll)
            == PageResult(false, k + 1, k, poll(k).tokensGranted, 1, false)
  {
    FirstStopIs(poll, 0, k);
  }

  /** A thrown status call ends the whole loop: no later attempt is made, nothing is
      granted and no refresh happens. */
  lemma ThrownCallEndsPolling(poll: nat -> PollReply, id: string, k: nat)
    requires id != "" && k < MaxAttempts && poll(k).PollThrew?
    requires forall j :: 0 <= j < k ==> !Stops(poll(j))
    ensures CheckPaymentResult(Some(id), poll) == PageResult(false, k + 1, k, 0, 0, false)
  {
    FirstStopIs(poll, 0, k);
  }

  /** The "tokens added" banner (shown when `tokensAdded > 0`) appears only after a
      completed answer that granted tokens, and then the status was refreshed. */
  lemma BannerMeansCompleted(checkoutId: Option<string>, poll: nat -> PollReply)
    ensures var r := CheckPaymentResult(checkoutId, poll);
      r.tokensAdded > 0 ==>
        && r.refreshes == 1
        && 1 <= r.statusCalls <= MaxAttempts
        && poll(r.statusCalls - 1).StatusReply?
        && poll(r.statusCalls - 1).status == CompletedStatus
        && poll(r.statusCalls - 1).tokensGranted == r.tokensAdded
  {
  }

  /** Two pending answers then a completed one granting 5: three calls, two waits,
      5 tokens added, one refresh. A payment that never completes: ten calls and
      waits, nothing added, no refresh. */
  lemma PollScenarios(pendingThenCompleted: nat -> PollReply, neverCompleted: nat -> PollReply)
    requires forall i :: (pendingThenCompleted(i) ==
                          if i < 2 then StatusReply("pending", 0) else StatusReply(CompletedStatus, 5))
    requires forall i :: neverCompleted(i) == StatusReply("pending", 0)
    ensures CheckPaymentResult(Some("chk"), pendingThenCompleted) == PageResult(false, 3, 2, 5, 1, false)
    ensures CheckPaymentResult(Some("chk"), neverCompleted) == PageResult(false, 10, 10, 0, 0, false)
  {
    StopsAtFirstCompleted(pendingThenCompleted, "chk", 2);
    NeverStopsRunsOut(neverCompleted, 0);
  }

  lemma {:induction false} NeverStopsRunsOut(poll: nat -> PollReply, from: nat)
    requires from <= MaxAttempts
    requires forall j :: from <= j < MaxAttempts ==> !Stops(poll(j))
    ensures FirstStop(poll, from) == MaxAttempts
    decreases MaxAttempts - from
  {
    if from < MaxAttempts {
      NeverStopsRunsOut(poll, from + 1);
    }
  }
}
