/** The prompt detail page's side of a claim: who may call the backend's
    `claim_prompt` procedure, how its reply is reported, and how the claim
    button is labelled. The procedure itself (balance check, duplicate
    check, deduction) runs on the backend and is only seen through its reply. */
module PromptClaim {
  import opened Types
  import opened Text
  import Catalog
  import ProfileHook

  /** The subscription tier that claims without spending credits. */
  const UnlimitedTier: string := "unlimited"

  /** The text the page looks for in a failed claim's message. */
  const InsufficientCreditsMarker: string := "Insufficient credits"

  /** The description shown for a failed claim whose message is empty. */
  const ClaimFailedFallback: string := "Failed to claim prompt. Please try again."

  /** The notice a claim attempt ends with. */
  datatype ClaimNotice =
    | LoginRequired
    | InsufficientCredits
    | ClaimFailed(description: string)
    | Claimed
    | Unexpected

  /** How the page reports an error returned by `claim_prompt`. */
  function ClassifyClaimError(e: DbError): (n: ClaimNotice)
    ensures n.InsufficientCredits? <==> Includes(e.message, InsufficientCreditsMarker)
    ensures !n.InsufficientCredits? ==> n.ClaimFailed?
    ensures n.ClaimFailed? ==> n.description != []
    ensures n.ClaimFailed? && e.message != [] ==> n.description == e.message
    ensures n.ClaimFailed? && e.message == [] ==> n.description == ClaimFailedFallback
  {
    if Includes(e.message, InsufficientCreditsMarker) then InsufficientCredits
    else if e.message == [] then ClaimFailed(ClaimFailedFallback)
    else ClaimFailed(e.message)
  }

  /** The procedure call a claim makes: the id of the prompt to claim. */
  datatype ClaimCall = ClaimPromptRpc(promptIdToClaim: string)

  datatype ClaimResult = ClaimResult(notice: ClaimNotice, call: Option<ClaimCall>, claiming: bool)

  /** `handleClaim`, given the `claiming` flag before the click, the current
      user and prompt, and the reply `claim_prompt` would give. */
  function HandleClaim(claiming: bool, user: Option<AuthUser>, prompt: Option<Catalog.Prompt>,
                       reply: Reply<()>): (r: ClaimResult)
    // Without a user or a loaded prompt: a notice, no call, the flag untouched.
    ensures user.None? || prompt.None? ==> r == ClaimResult(LoginRequired, None, claiming)
    // Otherwise exactly one call, for that prompt, and the flag ends cleared.
    ensures user.Some? && prompt.Some? ==>
              r.call == Some(ClaimPromptRpc(prompt.value.id)) && !r.claiming
    ensures r.notice == Claimed <==> user.Some? && prompt.Some? && reply.Rows?
    ensures r.notice.InsufficientCredits? <==>
              user.Some? && prompt.Some? && reply.Failed?
              && Includes(reply.error.message, InsufficientCreditsMarker)
    ensures r.notice.ClaimFailed? ==> user.Some? && prompt.Some? && reply.Failed?
    // A returned error is reported as its classification says.
    ensures user.Some? && prompt.Some? && reply.Failed? ==> r.notice == ClassifyClaimError(reply.error)
    ensures r.notice.Unexpected? <==> user.Some? && prompt.Some? && reply.Threw?
  {
    if user.None? || prompt.None? then ClaimResult(LoginRequired, None, claiming)
    else
      var call := Some(ClaimPromptRpc(prompt.value.id));
      match reply
      case Rows(_) => ClaimResult(Claimed, call, false)
      case Failed(e) => ClaimResult(ClassifyClaimError(e), call, false)
      case Threw(_) => ClaimResult(Unexpected, call, false)
  }

  /** The toast shown for each notice. */
  function NoticeToast(n: ClaimNotice): (t: Toast)
    ensures t.destructive <==> !n.Claimed?
  {
    match n
    case LoginRequired => Toast("Error", "You must be logged in to claim prompts.", true)
    case InsufficientCredits =>
      Toast("Insufficient Credits", "You don't have enough credits to claim this prompt.", true)
    case ClaimFailed(d) => Toast("Error", d, true)
    case Claimed => Toast("Success!", "Prompt claimed successfully!", false)
    case Unexpected => Toast("Error", "An unexpected error occurred. Please try again.", true)
  }

  /** A returned error without the credits marker is shown as a generic
      error carrying the backend's message, or the fixed text when that
      message is empty. */
  lemma GenericFailureShowsMessage(claiming: bool, u: AuthUser, p: Catalog.Prompt, e: DbError)
    requires !Includes(e.message, InsufficientCreditsMarker)
    ensures var t := NoticeToast(HandleClaim(claiming, Some(u), Some(p), Failed(e)).notice);
            && t.title == "Error" && t.destructive
            && t.description == (if e.message == [] then ClaimFailedFallback else e.message)
  {
  }

  /** Whatever `claim_prompt` replies, a claim that reached the backend
      leaves the `claiming` flag cleared, so the button is enabled again. */
  lemma ClaimAlwaysReenables(claiming: bool, u: AuthUser, p: Catalog.Prompt, reply: Reply<()>)
    ensures !HandleClaim(claiming, Some(u), Some(p), reply).claiming
  {
  }

  /** A user claims for free iff their loaded profile is on the unlimited tier. */
  function IsUnlimited(profile: Option<ProfileHook.Profile>): (b: bool)
    ensures b <==> profile.Some? && profile.value.subscriptionTier == UnlimitedTier
  {
    match profile
    case Some(p) => p.subscriptionTier == UnlimitedTier
    case None => false
  }

  /** A profile created on first use is on the free tier and so pays for
      claims; the unlimited tier is never a default. */
  lemma DefaultProfileIsNotUnlimited(u: AuthUser, p: ProfileHook.Profile)
    requires p.subscriptionTier == ProfileHook.DefaultProfileFor(u).subscriptionTier
    ensures !IsUnlimited(Some(p))
  {
  }

  const ClaimPrefix: string := "Claim with "
  const CreditWord: string := " Credit"

  /** The text of the claim button. */
  function ClaimButtonLabel(loggedIn: bool, claiming: bool, unlimited: bool, cost: int): (caption: string)
    ensures !loggedIn ==> caption == "Login to Claim"
    ensures loggedIn && claiming ==> caption == "Claiming..."
    ensures loggedIn && !claiming && unlimited ==> caption == "Claim for Free"
    ensures loggedIn && !claiming && !unlimited ==>
              |caption| > |ClaimPrefix| && caption[..|ClaimPrefix|] == ClaimPrefix
  {
    if !loggedIn then "Login to Claim"
    else if claiming then "Claiming..."
    else if unlimited then "Claim for Free"
    else ClaimPrefix + IntDecimal(cost) + CreditWord + (if cost != 1 then "s" else "")
  }

  /** Reads the cost back from a "Claim with N Credit(s)" caption. */
  function LabelCost(caption: string): Option<int> {
    if |caption| >= |ClaimPrefix| && caption[..|ClaimPrefix|] == ClaimPrefix then
      var rest := caption[|ClaimPrefix|..];
      var digits :=
        if |rest| >= 8 && rest[|rest| - 8..] == CreditWord + "s" then rest[..|rest| - 8]
        else if |rest| >= 7 && rest[|rest| - 7..] == CreditWord then rest[..|rest| - 7]
        else [];
      if IsNumeral(digits) then Some(DecimalValue(digits)) else None
    else None
  }

  /** The priced caption names exactly the prompt's cost, and says "Credits"
      (plural) iff the cost is not 1. */
  lemma PricedLabelStatesCost(cost: int)
    ensures var caption := ClaimButtonLabel(true, false, false, cost);
            && LabelCost(caption) == Some(cost)
            && (caption[|caption| - 1] == 's' <==> cost != 1)
  {
    var n := IntDecimal(cost);
    IntDecimalRoundTrip(cost);
    var caption := ClaimButtonLabel(true, false, false, cost);
    var rest := caption[|ClaimPrefix|..];
    assert caption[..|ClaimPrefix|] == ClaimPrefix;
    if cost != 1 {
      assert rest == n + " Credits";
      assert rest[|rest| - 8..] == " Credits";
      assert rest[..|rest| - 8] == n;
    } else {
      assert rest == n + " Credit";
      assert rest[|rest| - 7..] == " Credit";
      assert rest[|rest| - 8..] != " Credits" by {
        assert n == "1";
        assert rest[|rest| - 8] == '1';
      }
      assert rest[..|rest| - 7] == n;
    }
  }

  /** The caption ignores the cost on the unlimited tier. */
  lemma UnlimitedLabelIgnoresCost(c1: int, c2: int)
    ensures ClaimButtonLabel(true, false, true, c1) == ClaimButtonLabel(true, false, true, c2)
  {
  }
}
