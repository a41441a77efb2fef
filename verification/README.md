# Subscription webhook: verified model

This project models the request handling of a conversational-agent webhook
backend. The webhook receives an intent (`GetReport` or `UpgradePlan`)
together with parameters. It checks a user's subscription entitlement in a
BigQuery data warehouse, or rewrites the user's plan there. It then answers
with one plain-text fulfillment message.

The model has five modules:

- `Wrappers` (wrappers.dfy) holds `Option`, plus `Truthy`. `Truthy` is the test
  `not x` applies to a parameter: a missing value and `""` are both "not given".
- `Tables` (tables.dfy) is a relational model of the two warehouse tables.
  - `user_map` is a sequence of `UserRow(userId, plan)`.
  - `report_plan` is a sequence of `ReportRow(service, bronze, silver, gold)`.
    Each access column is a nullable BOOL (`Option<bool>`).
  - The entitlement query is modelled in the shape of its SQL:
    - `Unpivot` is the `Entitlements` table expression: UNPIVOT over the three
      columns, keeping the TRUE cells.
    - `JoinExists` is the `EXISTS (... JOIN ... WHERE ...)`.
    - `EntitledByQuery` composes the two. It is proved equal to `Entitled`, a
      direct existential statement of the relation.
  - The plan UPDATE is modelled by `SetPlan`, the table afterwards, and
    `MatchCount`, the affected-row count.
- `Handlers` (handlers.dfy) holds `check_entitlement`, `handle_get_report` and
  `handle_upgrade_plan`. The BigQuery round-trip is an outcome value:
  - `QueryOutcome` is `Row(entitled)`, `NoRow` or `Failed`.
  - `UpdateOutcome` is `Affected(count)` or `UpdateFailed`.
- `Store` (warehouse.dfy) has the class `Warehouse`, which holds both tables.
  - `SelectEntitled` runs the entitlement query.
  - `UpdatePlan` rewrites `userMap` in place, row by row. It is proved equal to
    `SetPlan`, with the count equal to `MatchCount`.
- `Dispatcher` (dispatcher.dfy) is the `/webhook` endpoint.
  - `Webhook` is the routing function over the outcomes.
  - `IssuedStatement` says which statement, if any, a request issues.
  - `Reply` and `UserMapAfter` give the reply and the new `user_map` when the
    request runs against given tables.
  - `Serve` runs a request against a `Warehouse?` client. A null client stands
    for the client that failed to construct at start-up.

A query or statement can fail (network, permissions, a malformed query). That
is decided outside the program, and the model takes it as a `fails` parameter.

Where the code and its descriptions differ, the model follows the code:

- The user id is rejected when it is missing AND when it is empty, because the
  code tests `not user_id` (main.py:43).
- The comment at main.py:100 says the `StopIteration` branch covers unknown
  users and features. It does not: `SELECT EXISTS (...)` always returns exactly
  one row, so an unknown user or feature gets the "not included in your current
  plan" reply (`Dispatcher.UnknownUserNotIncluded`). The "could not verify" reply
  needs a `NoRow` outcome. It is modelled in `Handlers.CheckEntitlement`, but
  the tables never produce it.
- A missing intent display name is rendered as `None` in the unknown-intent
  reply, as Python's f-string formats it (`Dispatcher.IntentText`).
- UNPIVOT yields the plan names `Bronze`, `Silver` and `Gold`, spelled as the
  column list at main.py:68 spells them. A user's plan must equal one of these
  exactly to match. A plan written by the UPDATE is not validated
  (`Tables.UnknownPlanEntitlesNothing`).

Several message literals are written as two literals joined with `+`. The text
is unchanged; the split lets the verifier read their leading characters, which
tell the messages apart.

## Model

| member | source | states |
|---|---|---|
| `Tables.UnpivotRow` | main.py:65-70 | an entitlement comes from a report row exactly when it names that row's service and a plan whose access column is TRUE (NULL and FALSE deny) |
| `Tables.Unpivot` | main.py:65-70 | the `Entitlements` expression holds (service, plan) exactly when some `report_plan` row of that service has a TRUE column for that plan |
| `Tables.JoinExists` | main.py:72-77 | the EXISTS is true exactly when some `user_map` row of the user has a plan that the entitlements pair with the feature |
| `Tables.EntitledByQuery` | main.py:63-77 | the query's `entitled` value equals the relation "a row of the user and a row of the feature whose column for the user's plan is TRUE" |
| `Tables.UnknownUserNotEntitled` | main.py:72-77 | a user with no `user_map` row is not entitled; the query gives false, not an error |
| `Tables.UnknownFeatureNotEntitled` | main.py:72-77 | a feature with no `report_plan` row is granted to nobody |
| `Tables.SetPlan` | main.py:133-137 | the UPDATE gives every row of the user the new plan, leaves every other row as it was, and keeps the row order and number |
| `Tables.MatchCount` | main.py:133-137 | the affected count is at most the table size, and zero exactly when no row has the user's id |
| `Tables.MatchCountCountsRows` | main.py:133-137 | the affected count equals the number of rows whose User_ID matches |
| `Tables.SetPlanIdempotent` | main.py:133-137 | applying the UPDATE twice leaves the same table as applying it once |
| `Tables.SetPlanKeepsMatchCount` | main.py:133-137 | the UPDATE changes no User_ID, so every user's match count is the same afterwards |
| `Tables.EntitledAfterSetPlan` | main.py:133-137 | after the UPDATE the user is entitled to a feature exactly when the user has a row and the feature's column for the new plan is TRUE |
| `Tables.UnknownPlanEntitlesNothing` | main.py:133-137 | upgrading to a plan name that is none of Bronze, Silver and Gold leaves the user entitled to nothing |
| `Tables.EntitledOthersUnchanged` | main.py:133-137 | the UPDATE of one user changes no other user's entitlements |
| `Handlers.CheckEntitlement` | main.py:86-108 | access is granted exactly for a returned row whose `entitled` is true; a false row, no row and a failure each deny with their own fixed message |
| `Handlers.CheckEntitlementInjective` | main.py:91-108 | different outcomes give different results, so the message identifies the denial |
| `Handlers.ReportUrl` | main.py:120 | the report link starts with the reporting host followed by the `reports/` path, and ends with the feature, a slash and the user id, copied verbatim |
| `Handlers.GrantedReply` | main.py:121 | the granted reply starts with "You have access. Here is your report for '", then carries the feature verbatim, then the closing quote, a colon and a space, and ends with the report link |
| `Handlers.UpgradedReply` | main.py:150 | the success reply reads "successfully upgraded to the '<plan>' plan." after its opening words, with the plan copied verbatim |
| `Handlers.HandleGetReport` | main.py:110-124 | a missing or empty feature gets the prompt; otherwise the reply is the report link exactly when the outcome grants access, else the entitlement check's message |
| `Handlers.HandleUpgradePlan` | main.py:126-157 | a missing or empty plan gets the prompt; otherwise the reply is the success message exactly when at least one row was affected; zero rows give "could not find your user account"; a failure gives the retry message |
| `Store.Warehouse.SelectEntitled` | main.py:86-91 | the query returns its one row holding the entitlement relation, or fails; it never returns no row |
| `Store.Warehouse.UpdatePlan` | main.py:133-149 | the row-by-row update leaves `user_map` equal to `SetPlan` of the old table and returns `MatchCount` of it as the affected count; a failed statement changes nothing; `report_plan` is untouched |
| `Wrappers.FalsyValues` | main.py:43 | a parameter is treated as not given exactly when it is absent or the empty string, as `not x` does here and at lines 114 and 130 |
| `Dispatcher.IntentText` | main.py:55 | a present intent name is echoed as it is; a missing one is rendered "None" |
| `Dispatcher.Webhook` | main.py:31-57 | for a well-formed payload, the status is 500 exactly when the client is missing, with the not-initialized text; a missing or empty user id gets the could-not-identify text; otherwise a GetReport is answered by the report handler, an UpgradePlan by the upgrade handler, and any other intent by the don't-know text and the intent name |
| `Dispatcher.Reply` | main.py:31-57 | a request against given tables always gets status 200; a GetReport that queries gets the report link exactly when its statement succeeds and the tables entitle the user; an UpgradePlan that updates reports success exactly when its statement succeeds and the user has a row |
| `Dispatcher.UserMapAfter` | main.py:133-137 | after a request, `user_map` has the same number of rows; a row changes only when a successful UPDATE was issued and the row is the requesting user's; in that case each of the user's rows keeps its User_ID and carries the new plan |
| `Dispatcher.MissingFeaturePrompts` | main.py:114-115 | a GetReport with a user and no feature gets the report prompt, and no statement is issued |
| `Dispatcher.MissingPlanPrompts` | main.py:130-131 | an UpgradePlan with a user and no plan gets the plan prompt, and the table is unchanged |
| `Dispatcher.NotEntitledIsNotIncluded` | main.py:91-98 | a GetReport the tables do not entitle gets the not-included message, whether the user is unknown or their plan lacks the feature |
| `Dispatcher.IssuedStatement` | main.py:43-55 | the entitlement query is issued exactly for a GetReport with a user and a feature; the UPDATE is issued exactly for an UpgradePlan with a user and a plan; each uses those values |
| `Dispatcher.ReplyUsesOnlyIssuedStatement` | main.py:43-55 | the reply depends on a statement's outcome only when that statement is issued, and then it does depend on it |
| `Dispatcher.NoClientRejectsEverything` | main.py:35-36 | without a client every payload gets the same 500 reply and no statement |
| `Dispatcher.MissingUserIdShortCircuits` | main.py:43-44 | a missing or empty user id gets "Sorry, I could not identify the user." whatever the intent, and no statement |
| `Dispatcher.UnknownIntentEchoed` | main.py:54-55 | any other intent gets the don't-know text followed by the intent name, and no statement |
| `Dispatcher.Serve` | main.py:31-57 | serving a request against a warehouse gives `Reply` of the old tables and leaves `user_map` as `UserMapAfter` says, `report_plan` unchanged |
| `Dispatcher.EntitlementFailureReported` | main.py:106-108 | a failed entitlement query gives a 200 reply with the entitlement error message |
| `Dispatcher.UpgradeFailureReported` | main.py:155-157 | a failed UPDATE gives a 200 reply with the retry message and leaves the table unchanged |
| `Dispatcher.ReportLinkIffEntitled` | main.py:117-122 | a GetReport with a user and a feature gets the report link exactly when the tables entitle the user to the feature |
| `Dispatcher.UnknownUserNotIncluded` | main.py:91-98 | a GetReport from a user with no row gets the not-included message, not the could-not-verify one |
| `Dispatcher.UpgradeSucceedsIffUserKnown` | main.py:149-152 | an UpgradePlan with a user and a plan succeeds exactly when the user has a row, and otherwise gets the account-not-found message |
| `Dispatcher.RepeatingARequestChangesNothing` | main.py:133-152 | repeating any request on the table the first one left gets the same reply and the same table, so a repeated upgrade succeeds again |
| `Dispatcher.ReportAfterUpgrade` | main.py:63-77 | after a known user is upgraded, their GetReport for a feature is granted exactly when the feature's column for the new plan is TRUE |

## Left out

- The Flask application: routes, `request.get_json`, `jsonify`, the health check and `app.run`. The model starts from the already-extracted intent and parameters, and ends at a status and a text.
- JSON parameter values other than strings, such as numbers, lists or `null`. Python's `not x` would judge these by their own truthiness. The model takes each parameter as an optional string.
- A display name that is not a string, such as `5` or `true`. It would fail to match both intents and be rendered by Python as "5" or "True". The model takes the intent as an optional string.
- Payloads whose `queryResult`, `intent` or `parameters` is `null` or not an object. Reading them raises an error at main.py:39-41, and Flask answers 500 even though the client exists. The model's "500 exactly when the client is missing" holds for well-formed payloads only.
- BigQuery client construction and its error handling at start-up. This is a foreign library call; the model reduces it to whether a client exists (`Serve`'s `client` may be null).
- The SQL text, the project and dataset names, and the query-parameter objects. The model states what the statements mean over the tables. Parameter binding, and so injection safety, belongs to the BigQuery library and is not modelled.
- Why a statement fails (network, permissions, timeouts). This is taken as the `fails` parameter. A failure is assumed to happen before the UPDATE changes anything.
- NULL cells in `user_map`. `UserRow` has plain string fields, so a NULL `User_ID` or `Plan` cannot be written down. A NULL never satisfies `=` in the JOIN or the WHERE, so such a row behaves like one holding a string that matches no user id and no plan name, which the model can express.
- The `print` logging in the exception handlers.
- The `suggested_plan` field of `check_entitlement`'s result, which is always `None`.
- Concurrent requests, and the warehouse's own transaction semantics.
