/** The `/webhook` endpoint: from an already-extracted request to a status
    and a fulfillment text, through the client check, the user check and the
    intent routing. */
module Dispatcher {
  import opened Wrappers
  import opened Tables
  import opened Handlers
  import opened Store

  /** The fields the endpoint reads from the payload: `queryResult.intent.displayName`
      and the `user_id`, `feature` and `new_plan` parameters; each may be absent. */
  datatype Request = Request(intent: Option<string>, userId: Option<string>, feature: Option<string>, newPlan: Option<string>)

  /** The HTTP status and the `fulfillmentText` of the JSON reply. */
  datatype Response = Response(status: int, text: string)

  /** The statement a request sends to the warehouse, if any. */
  datatype Statement =
    | NoStatement
    | SelectEntitlement(userId: string, feature: string)
    | UpdatePlanOf(userId: string, newPlan: string)

  const GetReportIntent: string := "GetReport"
  const UpgradePlanIntent: string := "UpgradePlan"

  const NotInitialized: string := "Error: BigQuery client " + "is not initialized."
  const UnidentifiedUser: string := "Sorry, I could not identify the user."
  const UnknownIntentPrefix: string := "Sorry, I don't know how " + "to handle the intent: "

  /** How an intent name is rendered into the reply: a missing display name
      formats as `None`. */
  function IntentText(intent: Option<string>): (text: string)
    ensures intent.Some? ==> text == intent.value
    ensures intent.None? ==> text == "None"
  {
    match intent
    case Some(name) => name
    case None => "None"
  }

  /** The endpoint, given whether the client was constructed and what each
      statement would come back with. Only a missing client yields a non-200
      status; every other failure is reported in the text. */
  function Webhook(clientReady: bool, req: Request, entitlement: QueryOutcome, update: UpdateOutcome): (r: Response)
    ensures r.status == (if clientReady then 200 else 500)
    ensures !clientReady ==> r.text == NotInitialized
    ensures clientReady && !Truthy(req.userId) ==> r.text == UnidentifiedUser
    ensures clientReady && Truthy(req.userId) && req.intent == Some(GetReportIntent) ==>
      r.text == HandleGetReport(req.userId.value, req.feature, entitlement)
    ensures clientReady && Truthy(req.userId) && req.intent == Some(UpgradePlanIntent) ==>
      r.text == HandleUpgradePlan(req.newPlan, update)
    ensures (clientReady && Truthy(req.userId) &&
      req.intent != Some(GetReportIntent) && req.intent != Some(UpgradePlanIntent)) ==>
      r.text == UnknownIntentPrefix + IntentText(req.intent)
  {
    if !clientReady then Response(500, NotInitialized)
    else if !Truthy(req.userId) then Response(200, UnidentifiedUser)
    else if req.intent == Some(GetReportIntent) then
      Response(200, HandleGetReport(req.userId.value, req.feature, entitlement))
    else if req.intent == Some(UpgradePlanIntent) then
      Response(200, HandleUpgradePlan(req.newPlan, update))
    else Response(200, UnknownIntentPrefix + IntentText(req.intent))
  }

  /** The statement the request makes the handlers issue: the entitlement query
      for a GetReport with a feature, the UPDATE for an UpgradePlan with a plan,
      and nothing otherwise. */
  function IssuedStatement(clientReady: bool, req: Request): (s: Statement)
    ensures s != NoStatement ==> clientReady && Truthy(req.userId) && s.userId == req.userId.value
    ensures s.SelectEntitlement? <==>
      clientReady && Truthy(req.userId) && req.intent == Some(GetReportIntent) && Truthy(req.feature)
    ensures s.SelectEntitlement? ==> s.feature == req.feature.value
    ensures s.UpdatePlanOf? <==>
      clientReady && Truthy(req.userId) && req.intent == Some(UpgradePlanIntent) && Truthy(req.newPlan)
    ensures s.UpdatePlanOf? ==> s.newPlan == req.newPlan.value
  {
    if !clientReady || !Truthy(req.userId) then NoStatement
    else if req.intent == Some(GetReportIntent) then
      if Truthy(req.feature) then SelectEntitlement(req.userId.value, req.feature.value) else NoStatement
    else if req.intent == Some(UpgradePlanIntent) then
      if Truthy(req.newPlan) then UpdatePlanOf(req.userId.value, req.newPlan.value) else NoStatement
    else NoStatement
  }

  /** The reply depends on a statement's outcome only when that statement is
      issued, and then it does depend on it. */
  lemma ReplyUsesOnlyIssuedStatement(clientReady: bool, req: Request, e1: QueryOutcome, e2: QueryOutcome, u1: UpdateOutcome, u2: UpdateOutcome)
    ensures !IssuedStatement(clientReady, req).SelectEntitlement? ==>
      Webhook(clientReady, req, e1, u1) == Webhook(clientReady, req, e2, u1)
    ensures !IssuedStatement(clientReady, req).UpdatePlanOf? ==>
      Webhook(clientReady, req, e1, u1) == Webhook(clientReady, req, e1, u2)
    ensures IssuedStatement(clientReady, req).SelectEntitlement? ==>
      Webhook(clientReady, req, Row(true), u1) != Webhook(clientReady, req, Row(false), u1)
    ensures IssuedStatement(clientReady, req).UpdatePlanOf? ==>
      Webhook(clientReady, req, e1, Affected(1)) != Webhook(clientReady, req, e1, Affected(0))
  {
  }

  /** Without a client every request gets the same 500 reply and no statement,
      whatever its payload. */
  lemma NoClientRejectsEverything(req: Request, entitlement: QueryOutcome, update: UpdateOutcome)
    ensures Webhook(false, req, entitlement, update) == Response(500, NotInitialized)
    ensures IssuedStatement(false, req) == NoStatement
  {
  }

  /** A missing or empty `user_id` gets the same reply whatever the intent,
      and no statement is issued. */
  lemma MissingUserIdShortCircuits(req: Request, entitlement: QueryOutcome, update: UpdateOutcome)
    requires !Truthy(req.userId)
    ensures Webhook(true, req, entitlement, update) == Response(200, UnidentifiedUser)
    ensures IssuedStatement(true, req) == NoStatement
  {
  }

  /** Any intent other than GetReport and UpgradePlan is echoed back as
      unhandled, and no statement is issued. */
  lemma UnknownIntentEchoed(req: Request, entitlement: QueryOutcome, update: UpdateOutcome)
    requires Truthy(req.userId)
    requires req.intent != Some(GetReportIntent) && req.intent != Some(UpgradePlanIntent)
    ensures Webhook(true, req, entitlement, update) == Response(200, UnknownIntentPrefix + IntentText(req.intent))
    ensures IssuedStatement(true, req) == NoStatement
  {
  }

  /** The reply a request gets from a warehouse holding `users` and `reports`,
      when its statement fails or not. */
  function Reply(users: seq<UserRow>, reports: seq<ReportRow>, req: Request, fails: bool): (r: Response)
    ensures r.status == 200
    ensures IssuedStatement(true, req).SelectEntitlement? ==>
      (r.text == GrantedReply(req.feature.value, req.userId.value) <==>
        !fails && Entitled(users, reports, req.userId.value, req.feature.value))
    ensures IssuedStatement(true, req).UpdatePlanOf? ==>
      (r.text == UpgradedReply(req.newPlan.value) <==>
        !fails && exists i :: 0 <= i < |users| && users[i].userId == req.userId.value)
  {
    // The outcome of a statement that is not issued is never consulted
    // (ReplyUsesOnlyIssuedStatement); NoRow and UpdateFailed stand in for it.
    match IssuedStatement(true, req)
    case NoStatement => Webhook(true, req, NoRow, UpdateFailed)
    case SelectEntitlement(userId, feature) =>
      Webhook(true, req, if fails then Failed else Row(EntitledByQuery(users, reports, userId, feature)), UpdateFailed)
    case UpdatePlanOf(userId, _) =>
      Webhook(true, req, NoRow, if fails then UpdateFailed else Affected(MatchCount(users, userId)))
  }

  /** The `user_map` table after the request: rewritten by an UPDATE that
      succeeds, unchanged otherwise. */
  function UserMapAfter(users: seq<UserRow>, req: Request, fails: bool): (r: seq<UserRow>)
    ensures |r| == |users|
    ensures forall i :: 0 <= i < |users| && r[i] != users[i] ==>
      !fails && IssuedStatement(true, req).UpdatePlanOf? && req.userId == Some(users[i].userId)
    ensures !fails && IssuedStatement(true, req).UpdatePlanOf? ==>
      forall i :: 0 <= i < |users| && req.userId == Some(users[i].userId) ==>
        r[i] == users[i].(plan := req.newPlan.value)
  {
    match IssuedStatement(true, req)
    case UpdatePlanOf(userId, newPlan) => if fails then users else SetPlan(users, userId, newPlan)
    case _ => users
  }

  /** Serving a request against a warehouse: issue the statement the request
      calls for, then build the reply from its outcome. `client` is null when
      the client could not be constructed. */
  method Serve(client: Warehouse?, req: Request, fails: bool) returns (resp: Response)
    modifies client
    ensures client == null ==> resp == Response(500, NotInitialized)
    ensures client != null ==> resp == Reply(old(client.userMap), old(client.reportPlan), req, fails)
    ensures client != null ==> client.userMap == UserMapAfter(old(client.userMap), req, fails)
    ensures client != null ==> client.reportPlan == old(client.reportPlan)
  {
    var entitlement := NoRow;
    var update := UpdateFailed;
    match IssuedStatement(client != null, req) {
      case NoStatement =>
      case SelectEntitlement(userId, feature) =>
        entitlement := client.SelectEntitled(userId, feature, fails);
      case UpdatePlanOf(userId, newPlan) =>
        update := client.UpdatePlan(userId, newPlan, fails);
    }
    resp := Webhook(client != null, req, entitlement, update);
  }

  /** A failed entitlement query is reported in the text of a 200 reply. */
  lemma EntitlementFailureReported(users: seq<UserRow>, reports: seq<ReportRow>, req: Request)
    requires IssuedStatement(true, req).SelectEntitlement?
    ensures Reply(users, reports, req, true) == Response(200, CheckFailed)
  {
  }

  /** A failed UPDATE is reported in the text of a 200 reply and leaves the table as it was. */
  lemma UpgradeFailureReported(users: seq<UserRow>, reports: seq<ReportRow>, req: Request)
    requires IssuedStatement(true, req).UpdatePlanOf?
    ensures Reply(users, reports, req, true) == Response(200, UpgradeFailed)
    ensures UserMapAfter(users, req, true) == users
  {
  }

  /** A GetReport request with a user and a feature gets the report link
      exactly when the tables entitle that user to that feature. */
  lemma ReportLinkIffEntitled(users: seq<UserRow>, reports: seq<ReportRow>, req: Request)
    requires req.intent == Some(GetReportIntent) && Truthy(req.userId) && Truthy(req.feature)
    ensures Reply(users, reports, req, false).text == GrantedReply(req.feature.value, req.userId.value)
      <==> Entitled(users, reports, req.userId.value, req.feature.value)
  {
  }

  /** A GetReport request with a user but no feature is asked for one, and
      no statement is issued. */
  lemma MissingFeaturePrompts(users: seq<UserRow>, reports: seq<ReportRow>, req: Request, fails: bool)
    requires req.intent == Some(GetReportIntent) && Truthy(req.userId) && !Truthy(req.feature)
    ensures Reply(users, reports, req, fails) == Response(200, PromptFeature)
    ensures IssuedStatement(true, req) == NoStatement
  {
  }

  /** An UpgradePlan request with a user but no plan is asked for one, and no
      statement is issued. */
  lemma MissingPlanPrompts(users: seq<UserRow>, reports: seq<ReportRow>, req: Request, fails: bool)
    requires req.intent == Some(UpgradePlanIntent) && Truthy(req.userId) && !Truthy(req.newPlan)
    ensures Reply(users, reports, req, fails) == Response(200, PromptPlan)
    ensures UserMapAfter(users, req, fails) == users
  {
  }

  /** A GetReport request the tables do not entitle, whether the user is
      unknown or the user's plan lacks the feature, gets the not-included
      message. */
  lemma NotEntitledIsNotIncluded(users: seq<UserRow>, reports: seq<ReportRow>, req: Request)
    requires req.intent == Some(GetReportIntent) && Truthy(req.userId) && Truthy(req.feature)
    requires !Entitled(users, reports, req.userId.value, req.feature.value)
    ensures Reply(users, reports, req, false) == Response(200, NotIncluded)
  {
  }

  /** A user with no `user_map` row is told the feature is not in their plan:
      the query still returns its one row, so the "could not verify" reply
      (no row at all) does not arise from the tables. */
  lemma UnknownUserNotIncluded(users: seq<UserRow>, reports: seq<ReportRow>, req: Request)
    requires req.intent == Some(GetReportIntent) && Truthy(req.userId) && Truthy(req.feature)
    requires forall i :: 0 <= i < |users| ==> users[i].userId != req.userId.value
    ensures Reply(users, reports, req, false) == Response(200, NotIncluded)
  {
  }

  /** An UpgradePlan request with a user and a plan reports success exactly
      when the user has a `user_map` row, and that the account was not found
      otherwise. */
  lemma UpgradeSucceedsIffUserKnown(users: seq<UserRow>, reports: seq<ReportRow>, req: Request)
    requires req.intent == Some(UpgradePlanIntent) && Truthy(req.userId) && Truthy(req.newPlan)
    ensures var known := exists i :: 0 <= i < |users| && users[i].userId == req.userId.value;
      Reply(users, reports, req, false).text ==
        if known then UpgradedReply(req.newPlan.value) else AccountNotFound
  {
  }

  /** Sending any request again, to the table the first one left behind, gets
      the same reply and leaves the same table: in particular a repeated
      UpgradePlan reports success again. */
  lemma RepeatingARequestChangesNothing(users: seq<UserRow>, reports: seq<ReportRow>, req: Request)
    ensures var after := UserMapAfter(users, req, false);
      Reply(after, reports, req, false) == Reply(users, reports, req, false) &&
      UserMapAfter(after, req, false) == after
  {
  }

  /** After a user's plan is upgraded, a GetReport of theirs for a feature gets
      the report link exactly when the feature's column for the new plan is TRUE. */
  lemma ReportAfterUpgrade(users: seq<UserRow>, reports: seq<ReportRow>, userId: string, newPlan: string, feature: string)
    requires userId != "" && feature != ""
    requires exists i :: 0 <= i < |users| && users[i].userId == userId
    ensures var req := Request(Some(GetReportIntent), Some(userId), Some(feature), None);
      Reply(SetPlan(users, userId, newPlan), reports, req, false).text == GrantedReply(feature, userId)
      <==> exists j :: 0 <= j < |reports| && reports[j].service == feature && Grants(reports[j], newPlan)
  {
  }
}
