/** The warehouse the webhook talks to through its client: the `user_map` and
    `report_plan` tables, the entitlement query and the plan UPDATE. Whether a
    statement fails (network, permissions, a malformed query) is decided
    outside the program and is given to each statement as `fails`. */
module Store {
  import opened Tables
  import opened Handlers

  class Warehouse {
    /** `user_map`: User_ID and Plan, one row per record. */
    var userMap: seq<UserRow>
    /** `report_plan`: Reports_Services and the Bronze, Silver and Gold access columns. */
    var reportPlan: seq<ReportRow>

    constructor (users: seq<UserRow>, reports: seq<ReportRow>)
      ensures userMap == users && reportPlan == reports
    {
      userMap := users;
      reportPlan := reports;
    }

    /** The entitlement query. `SELECT EXISTS (...)` always yields exactly one
        row, so the outcome is that row, holding the entitlement relation, or
        the failure; it never comes back without a row. */
    method SelectEntitled(userId: string, feature: string, fails: bool) returns (outcome: QueryOutcome)
      ensures fails ==> outcome == Failed
      ensures !fails ==> outcome == Row(Entitled(userMap, reportPlan, userId, feature))
    {
      if fails {
        return Failed;
      }
      outcome := Row(EntitledByQuery(userMap, reportPlan, userId, feature));
    }

    /** `UPDATE user_map SET Plan = newPlan WHERE User_ID = userId`, row by row,
        and the affected-row count the job reports. A failed statement changes
        nothing. */
    method UpdatePlan(userId: string, newPlan: string, fails: bool) returns (outcome: UpdateOutcome)
      modifies this`userMap
      ensures reportPlan == old(reportPlan)
      ensures fails ==> outcome == UpdateFailed && userMap == old(userMap)
      ensures !fails ==> outcome == Affected(MatchCount(old(userMap), userId))
      ensures !fails ==> userMap == SetPlan(old(userMap), userId, newPlan)
    {
      if fails {
        return UpdateFailed;
      }
      var rows := userMap;
      var updated: seq<UserRow> := [];
      var affected: nat := 0;
      var i := 0;
      while i < |rows|
        invariant 0 <= i <= |rows|
        invariant updated == SetPlan(rows[..i], userId, newPlan)
        invariant affected == MatchCount(rows[..i], userId)
      {
        var row := rows[i];
        assert rows[..i + 1] == rows[..i] + [row];
        SetPlanSnoc(rows[..i], row, userId, newPlan);
        MatchCountSnoc(rows[..i], row, userId);
        updated := updated + [Reassign(row, userId, newPlan)];
        if row.userId == userId {
          affected := affected + 1;
        }
        i := i + 1;
      }
      assert rows[..i] == rows;
      userMap := updated;
      outcome := Affected(affected);
    }
  }
}
