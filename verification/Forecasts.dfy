/** The cost-limit forecast: which certificates it lists, and what is left of their limits. */
module Forecasts {
  import opened Options
  import opened Calendar
  import opened Claims
  import opened Tables
  import opened Consistency
  import opened Ledger
  import opened Assessments
  import opened Runs
  import opened Funds

  /** The forecast's view of an application: its raw limit in pounds and its claims. */
  datatype ForecastCandidate = ForecastCandidate(
    live: bool,
    granted: bool,
    certificateEnd: Option<Date>,
    costLimit: Option<int>,
    claims: seq<Claim>)
  {
    predicate IsLive(reportDate: Date) {
      live && granted && (certificateEnd.None? || !certificateEnd.value.Before(reportDate))
    }

    predicate HasPaidFinalBill() {
      exists c | c in claims :: c.claimType == FinalBill && c.IsPaid()
    }

    function RemainingCostLimit(): int {
      AvailableFunds(PoundsLimit(costLimit), PaidAmounts(claims))
    }

    /** Whether the certificate is part of the forecast. */
    predicate Listed(reportDate: Date) {
      IsLive(reportDate) && !HasPaidFinalBill() && RemainingCostLimit() > 0
    }
  }

  function PoundsLimit(costLimit: Option<int>): Option<int> {
    match costLimit
    case None => None
    case Some(pounds) => Some(100 * pounds)
  }

  function PaidAmounts(claims: seq<Claim>): seq<ApprovedAmount> {
    if claims == [] then []
    else
      var last := claims[|claims| - 1];
      PaidAmounts(claims[..|claims| - 1])
      + if last.IsPaid() then [ApprovedAmount(Some(PayInFull), last.Amount())] else []
  }

  lemma {:induction false} PaidAmountsTotal(claims: seq<Claim>)
    ensures ApprovedTotal(PaidAmounts(claims)) == PaidTotal(claims)
  {
    if claims != [] {
      var last := |claims| - 1;
      PaidAmountsTotal(claims[..last]);
      if claims[last].IsPaid() {
        ApprovedTotalAdds(PaidAmounts(claims[..last]), ApprovedAmount(Some(PayInFull), claims[last].Amount()));
      } else {
        assert PaidAmounts(claims) == PaidAmounts(claims[..last]);
      }
    }
  }

  function Candidate(db: Database, app: nat, live: bool, certificateEnd: Option<Date>): ForecastCandidate
    requires app < |db.applications|
  {
    var application := db.applications[app];
    ForecastCandidate(live, application.granted, certificateEnd, application.costLimit, ClaimsOf(db.claims, app))
  }

  /** For a granted application the forecast's remainder is the decision-based available funds. */
  lemma ForecastAgrees(db: Database, recouped: Recouped, app: nat, live: bool, certificateEnd: Option<Date>)
    requires Consistent(db, recouped) && app < |db.applications| && db.applications[app].granted
    ensures Candidate(db, app, live, certificateEnd).RemainingCostLimit()
         == AvailableFunds(db.applications[app].Limit(), ApprovedAmounts(db.claims, db.decisions, app))
  {
    CountsAgree(db, recouped, app);
    PaidAmountsTotal(ClaimsOf(db.claims, app));
  }

  // ---------------------------------------------------------------------- runs

  /** After every run the decision-based, status-based and forecast counts of used funds agree. */
  lemma EveryRunCountsAgree(applications: seq<Application>, actions: seq<Action>, app: nat, live: bool,
                            certificateEnd: Option<Date>)
    requires app < |After(applications, actions).db.applications|
             && After(applications, actions).db.applications[app].granted
    ensures var db := After(applications, actions).db;
            var limit := db.applications[app].Limit();
            && ApprovedTotal(ApprovedAmounts(db.claims, db.decisions, app)) == PaidTotal(ClaimsOf(db.claims, app))
            && Candidate(db, app, live, certificateEnd).RemainingCostLimit()
               == AvailableFunds(limit, ApprovedAmounts(db.claims, db.decisions, app))
  {
    EveryRunConsistent(applications, actions);
    var w := After(applications, actions);
    CountsAgree(w.db, w.recouped, app);
    ForecastAgrees(w.db, w.recouped, app, live, certificateEnd);
  }

  predicate PaidFinalBillAt(claims: seq<Claim>, app: nat, k: nat) {
    k < |claims| && claims[k].app == app && claims[k].claimType == FinalBill && claims[k].IsPaid()
  }

  lemma PaidFinalBills(db: Database, app: nat, live: bool, certificateEnd: Option<Date>)
    requires app < |db.applications|
    ensures Candidate(db, app, live, certificateEnd).HasPaidFinalBill()
            <==> exists k: nat :: PaidFinalBillAt(db.claims, app, k)
  {
    hide ClaimsOf;
    ClaimsOfMembers(db.claims, app);
    if k: nat :| PaidFinalBillAt(db.claims, app, k) {
      assert db.claims[k] in ClaimsOf(db.claims, app);
    }
    if c :| c in ClaimsOf(db.claims, app) && c.claimType == FinalBill && c.IsPaid() {
      var k :| 0 <= k < |db.claims| && db.claims[k] == c;
      assert PaidFinalBillAt(db.claims, app, k);
    }
  }

  /** The paid bill of an application, of which there is one, takes it off the forecast just if it is a final bill. */
  lemma PaidBillDelists(db: Database, recouped: Recouped, b: nat, live: bool, certificateEnd: Option<Date>)
    requires Consistent(db, recouped) && b < |db.claims| && !db.claims[b].IsPoa() && db.claims[b].IsPaid()
    ensures db.claims[b].app < |db.applications|
    ensures Candidate(db, db.claims[b].app, live, certificateEnd).HasPaidFinalBill()
            <==> db.claims[b].claimType == FinalBill
  {
    assert ClaimFits(db.claims[b], |db.applications|);
    hide Consistent, Candidate;
    var app := db.claims[b].app;
    PaidFinalBills(db, app, live, certificateEnd);
    if k: nat :| PaidFinalBillAt(db.claims, app, k) {
      OnePaidBill(db, recouped, b, k);
    }
    assert db.claims[b].claimType == FinalBill ==> PaidFinalBillAt(db.claims, app, b);
  }

  /**
   After every run an application with a paid bill is still on the forecast exactly when that bill is a nil bill, the
   certificate is live, and the claims paid leave something of the limit.
   */
  lemma EveryRunListedExactly(applications: seq<Application>, actions: seq<Action>, b: nat, live: bool,
                              certificateEnd: Option<Date>, reportDate: Date)
    requires var db := After(applications, actions).db;
             b < |db.claims| && !db.claims[b].IsPoa() && db.claims[b].IsPaid()
    ensures var db := After(applications, actions).db;
            var app := db.claims[b].app;
            && app < |db.applications|
            && var candidate := Candidate(db, app, live, certificateEnd);
               candidate.Listed(reportDate) <==>
               && db.claims[b].claimType == NilBill
               && live && db.applications[app].granted
               && (certificateEnd.Some? ==> !certificateEnd.value.Before(reportDate))
               && PaidTotal(ClaimsOf(db.claims, app))
                  < (if db.applications[app].costLimit.Some? then 100 * db.applications[app].costLimit.value else 0)
  {
    var w := After(applications, actions);
    EveryRunConsistent(applications, actions);
    InvariantConsistent(w);
    hide Invariant, Consistent, After;
    PaidBillDelists(w.db, w.recouped, b, live, certificateEnd);
    PaidAmountsTotal(ClaimsOf(w.db.claims, w.db.claims[b].app));
  }
}
