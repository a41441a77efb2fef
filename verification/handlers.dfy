/** The two intent handlers. Each query round-trip to the warehouse is given
    to them as an outcome value, so that the handlers themselves only choose
    and template the fulfillment text. */
module Handlers {
  import opened Wrappers

  /** What the entitlement query came back with: its one row and the value of
      its `entitled` column, no row at all, or an exception. */
  datatype QueryOutcome = Row(entitled: bool) | NoRow | Failed

  /** What `check_entitlement` returns (its always-`None` `suggested_plan` is dropped). */
  datatype EntitlementResult = EntitlementResult(entitled: bool, message: string)

  /** What the plan UPDATE came back with: the affected-row count, or an exception. */
  datatype UpdateOutcome = Affected(count: nat) | UpdateFailed

  // The longer messages are written as two literals joined with `+` (the
  // text is unchanged); the verifier reads the characters of a short literal
  // more readily than those of a long one.
  const AccessGranted: string := "Access granted."
  const NotIncluded: string := "This feature is not included in your " + "current plan. Please contact support to upgrade."
  const NotVerified: string := "We could not verify your subscription " + "plan for this feature."
  const CheckFailed: string := "An error occurred while checking " + "entitlements."

  const PromptFeature: string := "Please specify which report you " + "would like to access."
  const PromptPlan: string := "Please specify which plan you " + "would like to upgrade to."
  const AccountNotFound: string := "We could not find your user account " + "to upgrade. Please contact support."
  const UpgradeFailed: string := "An error occurred while upgrading " + "your plan. Please try again later."

  /** The link handed out for a granted report: feature and user copied in verbatim. */
  function ReportUrl(feature: string, userId: string): (url: string)
    ensures |url| == 42 + |feature| + 1 + |userId|
    ensures "https://your-reporting-system.com/" + "reports/" <= url
    ensures url[|url| - |feature + "/" + userId|..] == feature + "/" + userId
  {
    "https://your-reporting-system.com/" + "reports/" + feature + "/" + userId
  }

  /** The reply to an entitled GetReport request: it opens with "You have
      access", names the feature in quotes and closes with the report link. */
  function GrantedReply(feature: string, userId: string): (reply: string)
    ensures |reply| == 42 + |feature| + 3 + |ReportUrl(feature, userId)|
    ensures "You have access. " + "Here is your report for '" <= reply
    ensures reply[42..42 + |feature|] == feature
    ensures reply[42 + |feature|..45 + |feature|] == "': "
    ensures reply[|reply| - |ReportUrl(feature, userId)|..] == ReportUrl(feature, userId)
  {
    "You have access. " + "Here is your report for '" + feature + "': " + ReportUrl(feature, userId)
  }

  /** The reply to a successful UpgradePlan request: after its opening words
      it reads "successfully upgraded to the '<plan>' plan." with the plan
      copied verbatim. */
  function UpgradedReply(newPlan: string): (reply: string)
    ensures "Your subscription has been " <= reply
    ensures reply[27..] == "successfully upgraded to the '" + newPlan + "' plan."
  {
    "Your subscription has been " + "successfully upgraded to the '" + newPlan + "' plan."
  }

  /** `check_entitlement`: access only for a returned row whose `entitled` is
      true; each of the three other outcomes denies with its own message. */
  function CheckEntitlement(outcome: QueryOutcome): (r: EntitlementResult)
    ensures r.entitled <==> outcome == Row(true)
    ensures r.entitled ==> r.message == AccessGranted
    ensures outcome == Row(false) ==> r.message == NotIncluded
    ensures outcome == NoRow ==> r.message == NotVerified
    ensures outcome == Failed ==> r.message == CheckFailed
  {
    match outcome
    case Row(entitled) =>
      if entitled then EntitlementResult(true, AccessGranted)
      else EntitlementResult(false, NotIncluded)
    case NoRow => EntitlementResult(false, NotVerified)
    case Failed => EntitlementResult(false, CheckFailed)
  }

  /** Distinct outcomes give distinct results: the message tells the three
      denials apart. */
  lemma CheckEntitlementInjective(a: QueryOutcome, b: QueryOutcome)
    requires CheckEntitlement(a) == CheckEntitlement(b)
    ensures a == b
  {
  }

  /** `handle_get_report`: without a feature it prompts for one; otherwise it
      replies with the report link exactly when the entitlement outcome grants
      access, and with the entitlement check's message when it does not. */
  function HandleGetReport(userId: string, feature: Option<string>, outcome: QueryOutcome): (text: string)
    ensures !Truthy(feature) ==> text == PromptFeature
    ensures Truthy(feature) ==> (text == GrantedReply(feature.value, userId) <==> outcome == Row(true))
    ensures Truthy(feature) && outcome != Row(true) ==> text == CheckEntitlement(outcome).message
  {
    if !Truthy(feature) then PromptFeature
    else
      var entitlement := CheckEntitlement(outcome);
      var granted := GrantedReply(feature.value, userId);
      assert granted[0] == 'Y';
      assert NotIncluded[0] != 'Y' && NotVerified[0] != 'Y' && CheckFailed[0] != 'Y';
      if entitlement.entitled then granted
      else entitlement.message
  }

  /** `handle_upgrade_plan`: without a plan it prompts for one; otherwise it
      reports success exactly when the UPDATE affected at least one row, that
      the account was not found when it affected none, and asks to retry when
      the statement failed. */
  function HandleUpgradePlan(newPlan: Option<string>, outcome: UpdateOutcome): (text: string)
    ensures !Truthy(newPlan) ==> text == PromptPlan
    ensures Truthy(newPlan) ==> (text == UpgradedReply(newPlan.value) <==> outcome.Affected? && outcome.count > 0)
    ensures Truthy(newPlan) && outcome == Affected(0) ==> text == AccountNotFound
    ensures Truthy(newPlan) && outcome == UpdateFailed ==> text == UpgradeFailed
  {
    if !Truthy(newPlan) then PromptPlan
    else
      var upgraded := UpgradedReply(newPlan.value);
      assert upgraded[0] == 'Y';
      assert AccountNotFound[0] != 'Y' && UpgradeFailed[0] != 'Y';
      match outcome
      case Affected(count) => if count > 0 then upgraded else AccountNotFound
      case UpdateFailed => UpgradeFailed
  }
}
