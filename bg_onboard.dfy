/** The page a BG returns to from the payment processor's onboarding flow
    (app/bg/onboard/page.tsx). It reads two query flags, fetches the BG's
    onboarding status once, and turns the answer into a status, a message and
    a follow-up: a delayed redirect, a delayed re-check, or nothing. */
module BgOnboard {
  import opened Common

  /** `searchParams.get(name) === "true"`: only the exact string counts. */
  function QueryFlag(value: Option<string>): (b: bool)
    ensures b <==> value == Some("true")
  {
    value.Some? && value.value == "true"
  }

  datatype Status = Loading | Success | Incomplete | Error

  /** What a `setTimeout` scheduled by the page will do. */
  datatype FollowUp = NoFollowUp | RedirectTo(path: string) | Recheck

  /** How the GET `/api/v1/payments/connect/status` call ends: it throws, or a
      response with `res.ok` and what `res.json()` gave (None when it threw). */
  datatype StatusReply = StatusUnreachable | StatusResponse(ok: bool, body: Option<Json>)

  /** One run of `checkStatus`: the status and message it sets, the status
      value it records (None: it records none), and the timer it schedules. */
  datatype Check = Check(status: Status, message: string, stripeStatus: Option<Json>, followUp: FollowUp)

  const NotLoggedInMessage: string := "Not logged in. Redirecting to login..."
  const OnboardedMessage: string := "Your payment account is fully set up! Redirecting to dashboard..."
  const ExpiredMessage: string := "Your onboarding session expired. Please continue setup from the dashboard."
  const ReviewingMessage: string := "Almost there! Stripe is reviewing your information. This usually takes a few moments."
  const RemainingStepsMessage: string := "Please complete the remaining onboarding steps from the dashboard."
  const NotCompleteMessage: string := "Onboarding not complete. Redirecting to dashboard..."
  const CheckFailedMessage: string := "Error checking onboarding status. Redirecting to dashboard..."

  /** The reply delivered a status object whose fields can be read. */
  predicate Readable(reply: StatusReply) {
    reply.StatusResponse? && reply.ok && reply.body.Some? && reply.body.value != JNull
  }

  predicate Onboarded(reply: StatusReply)
    requires Readable(reply)
  {
    Truthy(Prop(reply.body.value, "onboarded"))
  }

  predicate DetailsSubmitted(reply: StatusReply)
    requires Readable(reply)
  {
    Truthy(Prop(reply.body.value, "detailsSubmitted"))
  }

  /** `checkStatus`. */
  function CheckStatus(reply: StatusReply, isRefresh: bool, isSuccess: bool): (c: Check)
    ensures c.status != Loading
    // a failed call or an unreadable body is an error, with a redirect to the dashboard
    ensures !Readable(reply) ==>
      c.status == Error && c.message == CheckFailedMessage && c.followUp == RedirectTo("/bg")
    // a null body is recorded before reading its `onboarded` throws
    ensures !Readable(reply) ==>
      c.stripeStatus == (if reply.StatusResponse? && reply.ok && reply.body.Some? then Some(JNull) else None)
    // an onboarded BG succeeds whatever the flags say
    ensures Readable(reply) && Onboarded(reply) ==>
      c == Check(Success, OnboardedMessage, reply.body, RedirectTo("/bg"))
    // otherwise the status is incomplete, and the flags pick message and follow-up
    ensures Readable(reply) && !Onboarded(reply) ==> c.status == Incomplete && c.stripeStatus == reply.body
    ensures Readable(reply) && !Onboarded(reply) && isRefresh ==>
      c.message == ExpiredMessage && c.followUp == NoFollowUp
    ensures Readable(reply) && !Onboarded(reply) && !isRefresh && isSuccess ==>
      if DetailsSubmitted(reply) then c.message == ReviewingMessage && c.followUp == Recheck
      else c.message == RemainingStepsMessage && c.followUp == NoFollowUp
    ensures Readable(reply) && !Onboarded(reply) && !isRefresh && !isSuccess ==>
      c.message == NotCompleteMessage && c.followUp == RedirectTo("/bg")
    // a re-check is scheduled in exactly one case
    ensures c.followUp == Recheck <==>
      Readable(reply) && !Onboarded(reply) && !isRefresh && isSuccess && DetailsSubmitted(reply)
  {
    if !Readable(reply) then
      var recorded := if reply.StatusResponse? && reply.ok && reply.body.Some? then Some(JNull) else None;
      Check(Error, CheckFailedMessage, recorded, RedirectTo("/bg"))
    else if Onboarded(reply) then
      Check(Success, OnboardedMessage, reply.body, RedirectTo("/bg"))
    else if isRefresh then
      Check(Incomplete, ExpiredMessage, reply.body, NoFollowUp)
    else if isSuccess then
      if DetailsSubmitted(reply) then Check(Incomplete, ReviewingMessage, reply.body, Recheck)
      else Check(Incomplete, RemainingStepsMessage, reply.body, NoFollowUp)
    else
      Check(Incomplete, NotCompleteMessage, reply.body, RedirectTo("/bg"))
  }

  /** The mount effect: without a token (null or empty) no status is fetched
      and the page redirects to the login page; otherwise `checkStatus` runs. */
  function OnMount(token: Option<string>, reply: StatusReply, isRefresh: bool, isSuccess: bool): (c: Check)
    ensures !Present(token) ==> c == Check(Error, NotLoggedInMessage, None, RedirectTo("/login"))
    ensures Present(token) ==> c == CheckStatus(reply, isRefresh, isSuccess)
    ensures Present(token) ==> c.followUp != RedirectTo("/login") && c.message != NotLoggedInMessage
  {
    if !Present(token) then Check(Error, NotLoggedInMessage, None, RedirectTo("/login"))
    else CheckStatus(reply, isRefresh, isSuccess)
  }

  /** Following the re-check timer through successive replies: the next
      reply is consumed only while the previous run scheduled a re-check. */
  function Poll(replies: seq<StatusReply>, isRefresh: bool, isSuccess: bool): (trace: seq<Check>)
    requires |replies| > 0
    ensures 1 <= |trace| <= |replies|
    ensures forall k :: 0 <= k < |trace| ==> trace[k] == CheckStatus(replies[k], isRefresh, isSuccess)
    // every run but the last scheduled a re-check, and the walk stops only when one does not
    ensures forall k :: 0 <= k < |trace| - 1 ==> trace[k].followUp == Recheck
    ensures |trace| < |replies| ==> trace[|trace| - 1].followUp != Recheck
    decreases |replies|
  {
    var c := CheckStatus(replies[0], isRefresh, isSuccess);
    if c.followUp == Recheck && |replies| > 1 then [c] + Poll(replies[1..], isRefresh, isSuccess)
    else [c]
  }

  /** Re-checks only ever happen on a success return with details submitted;
      once the BG is onboarded, polling ends in success. */
  lemma {:induction false} PollEndsOnOnboarded(replies: seq<StatusReply>, isRefresh: bool, isSuccess: bool, k: nat)
    requires k < |replies| && Readable(replies[k]) && Onboarded(replies[k])
    requires forall j :: 0 <= j < k ==> CheckStatus(replies[j], isRefresh, isSuccess).followUp == Recheck
    ensures |Poll(replies, isRefresh, isSuccess)| == k + 1
    ensures Poll(replies, isRefresh, isSuccess)[k].status == Success
    decreases k
  {
    if k > 0 {
      assert CheckStatus(replies[0], isRefresh, isSuccess).followUp == Recheck;
      assert replies[1..][k - 1] == replies[k];
      forall j | 0 <= j < k - 1
        ensures CheckStatus(replies[1..][j], isRefresh, isSuccess).followUp == Recheck
      {
        assert replies[1..][j] == replies[j + 1];
      }
      PollEndsOnOnboarded(replies[1..], isRefresh, isSuccess, k - 1);
    }
  }

  /** The page's state cells and the timer it has scheduled. */
  class OnboardPage {
    const isSuccess: bool
    const isRefresh: bool
    var status: Status
    var message: string
    /** The recorded status value, null until one is recorded. */
    var stripeStatus: Json
    var pending: FollowUp
    /** Status fetches issued so far. */
    var fetches: nat

    /** The page as first rendered, with the query string's two flags. */
    constructor (success: Option<string>, refresh: Option<string>)
      ensures isSuccess == QueryFlag(success) && isRefresh == QueryFlag(refresh)
      ensures status == Loading && message == "" && stripeStatus == JNull
      ensures pending == NoFollowUp && fetches == 0
    {
      isSuccess, isRefresh := QueryFlag(success), QueryFlag(refresh);
      status, message, stripeStatus := Loading, "", JNull;
      pending, fetches := NoFollowUp, 0;
    }

    /** The mount effect, with `reply` the answer the fetch would get. */
    method Mount(token: Option<string>, reply: StatusReply)
      modifies this
      ensures var c := OnMount(token, reply, isRefresh, isSuccess);
        status == c.status && message == c.message && pending == c.followUp
      ensures !Present(token) ==> fetches == old(fetches) && stripeStatus == old(stripeStatus)
      ensures Present(token) ==>
        fetches == old(fetches) + 1
        && stripeStatus == (if CheckStatus(reply, isRefresh, isSuccess).stripeStatus.Some?
                            then CheckStatus(reply, isRefresh, isSuccess).stripeStatus.value else old(stripeStatus))
    {
      if !Present(token) {
        status, message, pending := Error, NotLoggedInMessage, RedirectTo("/login");
        return;
      }
      Apply(reply);
    }

    /** The re-check timer fires and `checkStatus` runs again. */
    method FireRecheck(reply: StatusReply)
      requires pending == Recheck
      modifies this
      ensures var c := CheckStatus(reply, isRefresh, isSuccess);
        status == c.status && message == c.message && pending == c.followUp
        && stripeStatus == (if c.stripeStatus.Some? then c.stripeStatus.value else old(stripeStatus))
      ensures fetches == old(fetches) + 1
    {
      Apply(reply);
    }

    method Apply(reply: StatusReply)
      modifies this
      ensures var c := CheckStatus(reply, isRefresh, isSuccess);
        status == c.status && message == c.message && pending == c.followUp
        && stripeStatus == (if c.stripeStatus.Some? then c.stripeStatus.value else old(stripeStatus))
      ensures fetches == old(fetches) + 1
    {
      fetches := fetches + 1;
      var c := CheckStatus(reply, isRefresh, isSuccess);
      if c.stripeStatus.Some? {
        stripeStatus := c.stripeStatus.value;
      }
      status, message, pending := c.status, c.message, c.followUp;
    }
  }
}
