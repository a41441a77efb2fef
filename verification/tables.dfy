/** The two warehouse tables the webhook reads and writes, and the meaning of
    the two statements it issues against them: the entitlement query (UNPIVOT,
    JOIN, EXISTS) and the plan UPDATE. */
module Tables {
  import opened Wrappers

  /** A row of `user_map`: a user and the name of their current plan. */
  datatype UserRow = UserRow(userId: string, plan: string)

  /** A row of `report_plan`: a report or service name and one nullable BOOL
      access column per plan tier. */
  datatype ReportRow = ReportRow(service: string, bronze: Option<bool>, silver: Option<bool>, gold: Option<bool>)

  /** A row of the `Entitlements` table expression: a service and a plan whose
      access column for it is TRUE. */
  datatype Entitlement = Entitlement(service: string, plan: string)

  /** The plan names UNPIVOT produces, one per access column. */
  const Bronze: string := "Bronze"
  const Silver: string := "Silver"
  const Gold: string := "Gold"

  /** The access column of `row` that belongs to `plan`; a plan without a
      column has no value, like a missing or NULL cell. */
  function PlanColumn(row: ReportRow, plan: string): Option<bool>
  {
    if plan == Bronze then row.bronze
    else if plan == Silver then row.silver
    else if plan == Gold then row.gold
    else None
  }

  /** `HasAccess IS TRUE` for the cell of `row` under `plan`: NULL and FALSE both deny. */
  predicate Grants(row: ReportRow, plan: string)
  {
    PlanColumn(row, plan) == Some(true)
  }

  /** The entitlement relation, stated directly: some `user_map` row of the user
      and some `report_plan` row of the feature whose column for that user's
      plan is TRUE. */
  ghost predicate Entitled(users: seq<UserRow>, reports: seq<ReportRow>, userId: string, feature: string)
  {
    exists i, j :: 0 <= i < |users| && 0 <= j < |reports| &&
      users[i].userId == userId && reports[j].service == feature && Grants(reports[j], users[i].plan)
  }

  /** The entitlements one `report_plan` row contributes to the UNPIVOT:
      one per access column that is TRUE, in column order. */
  function UnpivotRow(row: ReportRow): (r: seq<Entitlement>)
    ensures forall e :: e in r <==> e.service == row.service && Grants(row, e.plan)
  {
    (if row.bronze == Some(true) then [Entitlement(row.service, Bronze)] else []) +
    (if row.silver == Some(true) then [Entitlement(row.service, Silver)] else []) +
    (if row.gold == Some(true) then [Entitlement(row.service, Gold)] else [])
  }

  /** Some `report_plan` row of the entitlement's service has a TRUE column
      for its plan. */
  ghost predicate Unpivoted(reports: seq<ReportRow>, e: Entitlement)
  {
    exists j :: 0 <= j < |reports| && reports[j].service == e.service && Grants(reports[j], e.plan)
  }

  /** The `Entitlements` table expression: `report_plan` unpivoted over the
      three access columns, keeping the cells that are TRUE. */
  function Unpivot(reports: seq<ReportRow>): (r: seq<Entitlement>)
    ensures forall e :: e in r <==> Unpivoted(reports, e)
  {
    if reports == [] then []
    else
      var rest := Unpivot(reports[1..]);
      assert forall e :: Unpivoted(reports[1..], e) ==> Unpivoted(reports, e) by {
        forall e | Unpivoted(reports[1..], e) ensures Unpivoted(reports, e) {
          var j :| 0 <= j < |reports[1..]| && reports[1..][j].service == e.service && Grants(reports[1..][j], e.plan);
          assert reports[j + 1] == reports[1..][j];
        }
      }
      UnpivotRow(reports[0]) + rest
  }

  /** `EXISTS (SELECT 1 FROM user_map um JOIN ents e ON um.Plan = e.Plan
      WHERE um.User_ID = userId AND e.Reports_Services = feature)`. */
  function JoinExists(users: seq<UserRow>, ents: seq<Entitlement>, userId: string, feature: string): (b: bool)
    ensures b <==> exists i :: 0 <= i < |users| && users[i].userId == userId && Entitlement(feature, users[i].plan) in ents
  {
    if users == [] then false
    else
      var here := users[0].userId == userId && Entitlement(feature, users[0].plan) in ents;
      var later := JoinExists(users[1..], ents, userId, feature);
      assert later ==> exists i :: 0 <= i < |users| && users[i].userId == userId && Entitlement(feature, users[i].plan) in ents
        by {
          if later {
            var i :| 0 <= i < |users[1..]| && users[1..][i].userId == userId && Entitlement(feature, users[1..][i].plan) in ents;
            assert users[i + 1] == users[1..][i];
          }
        }
      here || later
  }

  /** The value of the `entitled` column the entitlement query returns: it is
      exactly the entitlement relation, so an unknown user or an unknown
      feature yields false rather than an error. */
  function EntitledByQuery(users: seq<UserRow>, reports: seq<ReportRow>, userId: string, feature: string): (b: bool)
    ensures b <==> Entitled(users, reports, userId, feature)
  {
    var ents := Unpivot(reports);
    var b := JoinExists(users, ents, userId, feature);
    assert b ==> Entitled(users, reports, userId, feature) by {
      if b {
        var i :| 0 <= i < |users| && users[i].userId == userId && Entitlement(feature, users[i].plan) in ents;
        var j :| 0 <= j < |reports| && reports[j].service == feature && Grants(reports[j], users[i].plan);
      }
    }
    assert Entitled(users, reports, userId, feature) ==> b by {
      if Entitled(users, reports, userId, feature) {
        var i, j :| 0 <= i < |users| && 0 <= j < |reports| &&
          users[i].userId == userId && reports[j].service == feature && Grants(reports[j], users[i].plan);
        assert Entitlement(feature, users[i].plan) in ents;
      }
    }
    b
  }

  /** A user that has no `user_map` row is entitled to nothing. */
  lemma UnknownUserNotEntitled(users: seq<UserRow>, reports: seq<ReportRow>, userId: string, feature: string)
    requires forall i :: 0 <= i < |users| ==> users[i].userId != userId
    ensures !EntitledByQuery(users, reports, userId, feature)
  {
  }

  /** A feature that has no `report_plan` row is granted to nobody. */
  lemma UnknownFeatureNotEntitled(users: seq<UserRow>, reports: seq<ReportRow>, userId: string, feature: string)
    requires forall j :: 0 <= j < |reports| ==> reports[j].service != feature
    ensures !EntitledByQuery(users, reports, userId, feature)
  {
  }

  // ---------------------------------------------------------------------
  // UPDATE user_map SET Plan = newPlan WHERE User_ID = userId
  // ---------------------------------------------------------------------

  /** One row after the UPDATE: its plan is replaced when its User_ID matches. */
  function Reassign(row: UserRow, userId: string, newPlan: string): UserRow
  {
    if row.userId == userId then row.(plan := newPlan) else row
  }

  /** The `user_map` table after the UPDATE: every row of the user carries the
      new plan, every other row is as it was, and no row moves. */
  function SetPlan(users: seq<UserRow>, userId: string, newPlan: string): (r: seq<UserRow>)
    ensures |r| == |users|
    ensures forall i :: 0 <= i < |users| && users[i].userId == userId ==> r[i] == UserRow(userId, newPlan)
    ensures forall i :: 0 <= i < |users| && users[i].userId != userId ==> r[i] == users[i]
  {
    if users == [] then []
    else [Reassign(users[0], userId, newPlan)] + SetPlan(users[1..], userId, newPlan)
  }

  /** The number of `user_map` rows the UPDATE matches, which BigQuery reports
      as the affected-row count; it is zero exactly when the user has no row. */
  function MatchCount(users: seq<UserRow>, userId: string): (n: nat)
    ensures n <= |users|
    ensures n == 0 <==> forall i :: 0 <= i < |users| ==> users[i].userId != userId
  {
    if users == [] then 0
    else
      var rest := MatchCount(users[1..], userId);
      assert forall i :: 0 < i < |users| ==> users[i] == users[1..][i - 1];
      (if users[0].userId == userId then 1 else 0) + rest
  }

  /** The positions of the user's rows in `user_map`. */
  ghost function MatchingRows(users: seq<UserRow>, userId: string): set<nat>
  {
    set i: nat | i < |users| && users[i].userId == userId
  }

  /** Appending a row to the table appends its reassigned image to the result. */
  lemma SetPlanSnoc(users: seq<UserRow>, row: UserRow, userId: string, newPlan: string)
    ensures SetPlan(users + [row], userId, newPlan) == SetPlan(users, userId, newPlan) + [Reassign(row, userId, newPlan)]
  {
  }

  /** Appending a row adds one to the count exactly when the row matches. */
  lemma {:induction false} MatchCountSnoc(users: seq<UserRow>, row: UserRow, userId: string)
    ensures MatchCount(users + [row], userId) == MatchCount(users, userId) + (if row.userId == userId then 1 else 0)
  {
    if users == [] {
      assert users + [row] == [row];
    } else {
      assert (users + [row])[1..] == users[1..] + [row];
      MatchCountSnoc(users[1..], row, userId);
    }
  }

  /** The affected-row count is the number of rows whose User_ID matches. */
  lemma {:induction false} MatchCountCountsRows(users: seq<UserRow>, userId: string)
    ensures MatchCount(users, userId) == |MatchingRows(users, userId)|
  {
    if users == [] {
      assert MatchingRows(users, userId) == {};
    } else {
      var init, last := users[..|users| - 1], users[|users| - 1];
      assert users == init + [last];
      MatchCountCountsRows(init, userId);
      MatchCountSnoc(init, last, userId);
      assert MatchingRows(users, userId) ==
        MatchingRows(init, userId) + (if last.userId == userId then {|init|} else {});
    }
  }

  /** Applying the UPDATE a second time leaves the table as the first left it. */
  lemma SetPlanIdempotent(users: seq<UserRow>, userId: string, newPlan: string)
    ensures SetPlan(SetPlan(users, userId, newPlan), userId, newPlan) == SetPlan(users, userId, newPlan)
  {
  }

  /** The UPDATE changes no User_ID, so it matches the same rows when repeated. */
  lemma {:induction false} SetPlanKeepsMatchCount(users: seq<UserRow>, userId: string, other: string, newPlan: string)
    ensures MatchCount(SetPlan(users, userId, newPlan), other) == MatchCount(users, other)
  {
    if users != [] {
      SetPlanKeepsMatchCount(users[1..], userId, other, newPlan);
      assert SetPlan(users, userId, newPlan)[1..] == SetPlan(users[1..], userId, newPlan);
    }
  }

  /** After the UPDATE the user is entitled to a feature exactly when the user
      has a row and the feature's column for the new plan is TRUE. */
  lemma EntitledAfterSetPlan(users: seq<UserRow>, reports: seq<ReportRow>, userId: string, newPlan: string, feature: string)
    ensures Entitled(SetPlan(users, userId, newPlan), reports, userId, feature) <==>
      MatchCount(users, userId) > 0 &&
      exists j :: 0 <= j < |reports| && reports[j].service == feature && Grants(reports[j], newPlan)
  {
  }

  /** The UPDATE accepts any plan name; one that names none of the access
      columns leaves the user entitled to nothing. */
  lemma UnknownPlanEntitlesNothing(users: seq<UserRow>, reports: seq<ReportRow>, userId: string, newPlan: string, feature: string)
    requires newPlan != Bronze && newPlan != Silver && newPlan != Gold
    ensures !Entitled(SetPlan(users, userId, newPlan), reports, userId, feature)
  {
  }

  /** The UPDATE of one user does not change what any other user is entitled to. */
  lemma EntitledOthersUnchanged(users: seq<UserRow>, reports: seq<ReportRow>, userId: string, newPlan: string, other: string, feature: string)
    requires other != userId
    ensures Entitled(SetPlan(users, userId, newPlan), reports, other, feature) <==> Entitled(users, reports, other, feature)
  {
  }
}
