/** How much of an application's cost limit is left: three ways of counting, and what automatic approval may use. */
module Funds {
  import opened Options
  import opened Money
  import opened Calendar
  import opened Claims
  import opened PayInFullAmounts
  import opened PaymentExtract
  import opened Tables
  import opened Consistency

  // -------------------------------------------------------- the counts agree

  /** Funds are used by the claims granted and those paid, and by no others. */
  lemma ApprovedTotalAdds(amounts: seq<ApprovedAmount>, more: ApprovedAmount)
    ensures ApprovedTotal([]) == 0
    ensures ApprovedTotal(amounts + [more])
         == ApprovedTotal(amounts)
            + if more.decision == Some(Grant) || more.decision == Some(PayInFull) then more.amount else 0
  {
    assert (amounts + [more])[..|amounts|] == amounts;
  }

  lemma PaidTotalMore(claims: seq<Claim>, claim: Claim)
    ensures PaidTotal(claims + [claim]) == PaidTotal(claims) + if claim.IsPaid() then claim.Amount() else 0
  {
    assert (claims + [claim])[..|claims|] == claims;
  }

  function AmountOf(claim: Claim, decision: Option<Decision>): ApprovedAmount {
    ApprovedAmount(if decision.Some? then Some(decision.value.status) else None, claim.Amount())
  }

  lemma ApprovedMeansPaid(claim: Claim, decision: Option<Decision>)
    requires StatusFits(claim, decision)
    ensures AmountOf(claim, decision).IsApproved() <==> claim.IsPaid()
  {
  }

  /** Counting by latest decision and counting by status give the same total. */
  lemma {:induction false} CountsAgreeUpTo(claims: seq<Claim>, decisions: seq<Decision>, app: nat)
    requires forall c | 0 <= c < |claims| :: StatusFits(claims[c], LatestDecision(decisions, c))
    ensures ApprovedTotal(ApprovedAmounts(claims, decisions, app)) == PaidTotal(ClaimsOf(claims, app))
  {
    hide StatusFits, LatestDecision, ApprovedTotal, PaidTotal;
    if claims == [] {
      assert ApprovedTotal([]) == PaidTotal([]) by { NothingCounted(); }
    } else {
      var last := |claims| - 1;
      CountsAgreeUpTo(claims[..last], decisions, app);
      if claims[last].app == app {
        ApprovedMeansPaid(claims[last], LatestDecision(decisions, last));
        ApprovedTotalAdds(ApprovedAmounts(claims[..last], decisions, app),
                          AmountOf(claims[last], LatestDecision(decisions, last)));
        PaidTotalMore(ClaimsOf(claims[..last], app), claims[last]);
      } else {
        assert ApprovedAmounts(claims, decisions, app) == ApprovedAmounts(claims[..last], decisions, app);
        assert ClaimsOf(claims, app) == ClaimsOf(claims[..last], app);
      }
    }
  }

  lemma NothingCounted()
    ensures ApprovedTotal([]) == 0 && PaidTotal([]) == 0
  {
  }

  lemma CountsAgree(db: Database, recouped: Recouped, app: nat)
    requires Consistent(db, recouped)
    ensures ApprovedTotal(ApprovedAmounts(db.claims, db.decisions, app)) == PaidTotal(ClaimsOf(db.claims, app))
  {
    CountsAgreeUpTo(db.claims, db.decisions, app);
  }

  /** A payment on account exceeds the aggregate limit exactly when the exact funds after it are negative. */
  lemma AggregateIsNegativeFunds(db: Database, recouped: Recouped, app: nat, form: ClaimForm)
    requires Consistent(db, recouped) && app < |db.applications|
    requires db.applications[app].Limit().Some?
    requires form.claimType == PaymentOnAccount && form.Total().Some?
    ensures ExceedsAggregateLimit(form, db.applications[app], ClaimsOf(db.claims, app)) <==>
            FundsAfter(db, app, form) < 0.0
  {
    CountsAgree(db, recouped, app);
  }

  /**
   The stored figure is a rounding, so it tells exactly except inside half a penny: an
   excess of at most half a penny is stored as zero.
   */
  lemma StoredFundsTell(db: Database, recouped: Recouped, app: nat, form: ClaimForm)
    requires Consistent(db, recouped) && app < |db.applications|
    requires db.applications[app].Limit().Some?
    requires form.claimType == PaymentOnAccount && form.Total().Some?
    ensures var exceeds := ExceedsAggregateLimit(form, db.applications[app], ClaimsOf(db.claims, app));
            var funds := FundsAfter(db, app, form);
            && (BankersRound(funds) < 0 ==> exceeds)
            && ((BankersRound(funds) < 0 <==> exceeds) <==> !(-0.5 <= funds < 0.0))
            && (WholePence(form.Total().value) ==> (BankersRound(funds) < 0 <==> exceeds))
  {
    hide *;
    AggregateIsNegativeFunds(db, recouped, app, form);
    RoundedSign(FundsAfter(db, app, form));
    if WholePence(form.Total().value) {
      WholeFunds(db, app, form);
    }
  }

  lemma RoundedSign(funds: real)
    ensures BankersRound(funds) < 0 <==> funds < -0.5
    ensures WholePence(funds) ==> (BankersRound(funds) < 0 <==> funds < 0.0)
  {
    if WholePence(funds) {
      BankersRoundOfWhole(funds.Floor);
    }
  }

  lemma WholeFunds(db: Database, app: nat, form: ClaimForm)
    requires app < |db.applications| && form.Total().Some? && WholePence(form.Total().value)
    ensures WholePence(FundsAfter(db, app, form))
  {
    var funds := AvailableFunds(db.applications[app].Limit(), ApprovedAmounts(db.claims, db.decisions, app));
    var whole := funds - form.Total().value.Floor;
    assert FundsAfter(db, app, form) == whole as real;
  }

  /** A quarter of a penny over a one-pound limit: held for review, yet stored with zero funds remaining. */
  lemma QuarterPennyOver()
    ensures var application := Application(Some(1), true, false, None);
            var db := Database([application], [], [], [], []);
            var form := ClaimForm(PaymentOnAccount, Some(ExpertCost), None, Some(100.25), None);
            && ExceedsAggregateLimit(form, application, [])
            && BankersRound(FundsAfter(db, 0, form)) == 0
  {
    BankersRoundUnique(-0.25, 0);
  }

  // ------------------------------------------------ what a stored claim comes to

  /** A non-zero gross entered beside a zero-rated amount is still non-zero once stored. */
  predicate GrossSurvives(form: ClaimForm) {
    form.gross.Some? && form.vatZero.Some? && form.gross.value != 0.0 ==> StoreRound(form.gross.value) != 0
  }

  function StoredAmount(form: ClaimForm): int {
    ResolveTotal(Stored(form.gross), Stored(form.vatZero), 0).GetOr(0)
  }

  /** What the stored claim comes to is the rounded total, unless its gross vanished in storing. */
  lemma StoredAmountIs(form: ClaimForm)
    requires form.Total().Some?
    ensures GrossSurvives(form) ==> StoredAmount(form) == StoreRound(form.Total().value)
    ensures !GrossSurvives(form) ==> StoredAmount(form) == StoreRound(form.vatZero.value)
    ensures (form.gross.Some? ==> WholePence(form.gross.value)) ==> GrossSurvives(form)
  {
    if form.gross.Some? && WholePence(form.gross.value) {
      StoreRoundOfWhole(form.gross.value);
    }
    if form.gross.Some? && form.gross.value == 0.0 {
      StoreRoundOfWhole(0.0);
    }
  }

  // ------------------------------------------------------------ automatic approval

  /** The submission that ends in an automatic approval. */
  predicate Approves(db: Database, s: Submission, env: SubmitEnv) {
    && CheckSubmission(db, s).Ok? && env.created && env.decided && UsableReference(db.claims, env.reference)
    && AutoVerdict(db, s.app, CheckSubmission(db, s).value, env.clock).AutoApprove?
  }

  /** An approval adds one paid claim with the stored amounts, its decision, and its lines. */
  lemma ApprovalAdds(db: Database, s: Submission, env: SubmitEnv)
    requires Approves(db, s, env)
    ensures var form := CheckSubmission(db, s).value;
            var claim := NewClaim(db, s.app, form, env);
            var after := Submitting(db, s, env);
            && form.claimType == PaymentOnAccount && form.Total().Some?
            && PoaLines(claim, FromSubmitted(claim)).Some?
            && after.applications == db.applications
            && after.claims == db.claims + [claim.(status := PaidInFull)]
            && after.decisions
               == db.decisions + [Decision(|db.claims|, PayInFull, Some(FromSubmitted(claim)), [], env.decidedAt)]
            && after.ledger == db.ledger + Rows(|db.claims|, PoaLines(claim, FromSubmitted(claim)).value, env.decidedAt)
  {
    ValidateFormExact(s.form);
    var form := CheckSubmission(db, s).value;
    AcceptedBuilds(s.form);
    var claim := NewClaim(db, s.app, form, env);
    assert PoaLines(claim, FromSubmitted(claim)).Some?;
    hide PoaLines, ValidateForm, NewClaim;
    var created := CreatedClaim(db, s.app, form, env);
    assert created.claims[|created.claims| - 1] == claim;
  }

  /** An accepted profit-cost claim always has an amount its invoice line can be built from. */
  lemma AcceptedBuilds(form: ClaimForm)
    requires ValidateForm(form).Ok?
    ensures form.poaType == Some(ProfitCost) ==>
              ValidateForm(form).value.net.Some? || ValidateForm(form).value.vatZero.Some?
  {
    ValidateFormExact(form);
  }

  lemma PaidTotalAdds(claims: seq<Claim>, claim: Claim, app: nat)
    requires claim.app == app && claim.IsPaid()
    ensures PaidTotal(ClaimsOf(claims + [claim], app)) == PaidTotal(ClaimsOf(claims, app)) + claim.Amount()
  {
    var all := claims + [claim];
    assert all[..|all| - 1] == claims;
    PaidTotalMore(ClaimsOf(claims, app), claim);
  }

  /**
   Automatic approval stays within a set limit, on the totals of the paid claims, exactly
   unless the entered gross vanishes in storing and leaves a larger zero-rated amount.
   */
  lemma ApprovalWithinLimit(db: Database, s: Submission, env: SubmitEnv)
    requires Approves(db, s, env) && db.applications[s.app].Limit().Some?
    ensures var form := CheckSubmission(db, s).value;
            var limit := db.applications[s.app].Limit().value;
            PaidTotal(ClaimsOf(Submitting(db, s, env).claims, s.app)) <= limit
            <==> GrossSurvives(form) || PaidTotal(ClaimsOf(db.claims, s.app)) + StoreRound(form.vatZero.value) <= limit
  {
    ApprovalAdds(db, s, env);
    var form := CheckSubmission(db, s).value;
    var claim := NewClaim(db, s.app, form, env).(status := PaidInFull);
    PaidTotalAdds(db.claims, claim, s.app);
    assert claim.Amount() == StoredAmount(form);
    StoredAmountIs(form);
    var paid, limit := PaidTotal(ClaimsOf(db.claims, s.app)), db.applications[s.app].Limit().value;
    assert form.Total().value <= (limit - paid) as real;
    StoreRoundBelow(form.Total().value, limit - paid);
  }

  lemma VanishingGrossApproved(db: Database, s: Submission, env: SubmitEnv)
    requires db == Database([Application(Some(100), true, false, None)], [], [], [], [])
    requires var form := ClaimForm(PaymentOnAccount, Some(ExpertCost), None, Some(0.3), Some(1000000.0));
             s == Submission(0, form, true, true, true)
    requires env.created && env.decided && |env.reference| == REFERENCE_LENGTH
    ensures CheckSubmission(db, s) == Ok(Normalized(s.form)) && Approves(db, s, env)
  {
    assert CheckSubmission(db, s) == Ok(Normalized(s.form));
    hide CheckSubmission;
  }

  /**
   A submission whose gross of 0.3 pence is stored as nothing, so that 10,000 pounds is approved against a limit of
   100.
   */
  lemma VanishingGrossOverspends()
    ensures var at := 719163 * DAY;
            var application := Application(Some(100), true, false, None);
            var db := Database([application], [], [], [], []);
            var s := Submission(0, ClaimForm(PaymentOnAccount, Some(ExpertCost), None, Some(0.3), Some(1000000.0)),
                                true, true, true);
            var env := SubmitEnv("INQC-ACEF-HJKL", at, Clock(at, Date(1970, 1, 1)), at, true, true, true);
            && env.clock.Valid() && Approves(db, s, env)
            && PaidTotal(ClaimsOf(Submitting(db, s, env).claims, 0)) == 1000000 > application.Limit().value
  {
    var at := 719163 * DAY;
    var application := Application(Some(100), true, false, None);
    var db := Database([application], [], [], [], []);
    var form := ClaimForm(PaymentOnAccount, Some(ExpertCost), None, Some(0.3), Some(1000000.0));
    var s := Submission(0, form, true, true, true);
    var env := SubmitEnv("INQC-ACEF-HJKL", at, Clock(at, Date(1970, 1, 1)), at, true, true, true);
    VanishingGrossApproved(db, s, env);
    hide CheckSubmission, Approves, AutoVerdict, Submitting, PoaLines, FundsAfter;
    ApprovalAdds(db, s, env);
    var claim := NewClaim(db, 0, Normalized(form), env).(status := PaidInFull);
    PaidTotalAdds(db.claims, claim, 0);
    StoreRoundOfWhole(1000000.0);
    StoredAmountIs(Normalized(form));
    assert claim.Amount() == StoredAmount(Normalized(form)) == 1000000;
  }

  /** Latest decisions of earlier claims are unaffected by an approval of a later one. */
  lemma {:induction false} EarlierAmountsStand(claims: seq<Claim>, decisions: seq<Decision>, decision: Decision,
                                               app: nat)
    requires decision.claim >= |claims|
    ensures ApprovedAmounts(claims, decisions + [decision], app) == ApprovedAmounts(claims, decisions, app)
  {
    if claims != [] {
      EarlierAmountsStand(claims[..|claims| - 1], decisions, decision, app);
      LatestAfter(decisions, decision, |claims| - 1);
    }
  }

  /**
   Half a penny is stored away from zero, and leaves the funds at the even penny; so the two agree on it just when what
   is then left is even. A gross that vanishes in storing must leave nothing behind.
   */
  predicate RoundsAlike(form: ClaimForm, before: int)
    requires form.Total().Some?
  {
    var total := form.Total().value;
    if GrossSurvives(form) then total - total.Floor as real == 0.5 ==> (before - StoreRound(total)) % 2 == 0
    else StoreRound(form.vatZero.value) == 0
  }

  lemma StoredTie(total: real)
    ensures (StoreRound(total) as real in {total - 0.5, total + 0.5}) <==> total - total.Floor as real == 0.5
  {
    var below := total.Floor;
    assert below <= StoreRound(total) <= below + 1;
  }

  lemma RoundedDifference(whole: int, total: real)
    ensures BankersRound(whole as real - total) == whole - StoreRound(total)
            <==> (total - total.Floor as real == 0.5 ==> (whole - StoreRound(total)) % 2 == 0)
  {
    StoredTie(total);
    hide StoreRound;
    var amount := StoreRound(total);
    if total - total.Floor as real == 0.5 ==> (whole - amount) % 2 == 0 {
      BankersRoundUnique(whole as real - total, whole - amount);
    }
  }

  lemma RoundsAlikeExactly(form: ClaimForm, before: int)
    requires form.Total().Some?
    ensures BankersRound(before as real - form.Total().value) == before - StoredAmount(form)
            <==> RoundsAlike(form, before)
  {
    StoredAmountIs(form);
    RoundedDifference(before, form.Total().value);
    if !GrossSurvives(form) {
      StoredTie(form.gross.value);
      BankersRoundUnique(before as real - form.gross.value, before);
    }
    hide StoredAmount, BankersRound, StoreRound;
  }

  lemma FundsAfterApproval(db: Database, s: Submission, env: SubmitEnv)
    requires Approves(db, s, env)
    ensures var form := CheckSubmission(db, s).value;
            var after := Submitting(db, s, env);
            && after.applications == db.applications && |after.claims| == |db.claims| + 1
            && after.claims[|db.claims|].fundsRemaining == BankersRound(FundsAfter(db, s.app, form))
            && ApprovedTotal(ApprovedAmounts(after.claims, after.decisions, s.app))
               == ApprovedTotal(ApprovedAmounts(db.claims, db.decisions, s.app)) + StoredAmount(form)
  {
    ApprovalAdds(db, s, env);
    var form := CheckSubmission(db, s).value;
    var after := Submitting(db, s, env);
    var c := |db.claims|;
    var claim := after.claims[c];
    var decision := after.decisions[|db.decisions|];
    hide Submitting, CheckSubmission, Approves, PoaLines;
    EarlierAmountsStand(db.claims, db.decisions, decision, s.app);
    LatestAfter(db.decisions, decision, c);
    assert after.claims[..c] == db.claims;
    assert claim.Amount() == StoredAmount(form);
    ApprovedTotalAdds(ApprovedAmounts(db.claims, db.decisions, s.app), ApprovedAmount(Some(PayInFull), claim.Amount()));
  }

  /**
   The funds figure stored with an automatically approved claim is what the available funds come to right after the
   approval, exactly when the entered total passes that test on the funds before it.
   */
  lemma StoredFundsRecomputed(db: Database, s: Submission, env: SubmitEnv)
    requires Approves(db, s, env)
    ensures var form := CheckSubmission(db, s).value;
            var after := Submitting(db, s, env);
            var limit := db.applications[s.app].Limit();
            && |after.claims| == |db.claims| + 1
            && form.Total().Some?
            && (after.claims[|db.claims|].fundsRemaining
                == AvailableFunds(limit, ApprovedAmounts(after.claims, after.decisions, s.app))
                <==> RoundsAlike(form, AvailableFunds(limit, ApprovedAmounts(db.claims, db.decisions, s.app))))
  {
    ApprovalAdds(db, s, env);
    FundsAfterApproval(db, s, env);
    var form := CheckSubmission(db, s).value;
    var before := AvailableFunds(db.applications[s.app].Limit(), ApprovedAmounts(db.claims, db.decisions, s.app));
    RoundsAlikeExactly(form, before);
  }

  /** Whole pence always pass it. */
  lemma WholePenceAgree(form: ClaimForm, before: int)
    requires form.Total().Some?
    requires form.gross.Some? ==> WholePence(form.gross.value)
    requires form.vatZero.Some? ==> WholePence(form.vatZero.value)
    ensures RoundsAlike(form, before)
  {
    StoredAmountIs(form);
  }

  lemma HalfPennyApproved(db: Database, s: Submission, env: SubmitEnv)
    requires db == Database([Application(Some(100), true, false, None)], [], [], [], [])
    requires s == Submission(0, ClaimForm(PaymentOnAccount, Some(ExpertCost), None, Some(0.5), None), true, true, true)
    requires env.created && env.decided && |env.reference| == REFERENCE_LENGTH
    ensures CheckSubmission(db, s) == Ok(Normalized(s.form)) && Approves(db, s, env)
  {
    assert CheckSubmission(db, s) == Ok(Normalized(s.form));
    hide CheckSubmission;
  }

  /** Half a penny, paid and stored as one, of a limit of 100 pounds: the stored figure still says 100 pounds. */
  lemma HalfPennyDisagrees()
    ensures var at := 719163 * DAY;
            var db := Database([Application(Some(100), true, false, None)], [], [], [], []);
            var s := Submission(0, ClaimForm(PaymentOnAccount, Some(ExpertCost), None, Some(0.5), None),
                                true, true, true);
            var env := SubmitEnv("INQC-ACEF-HJKL", at, Clock(at, Date(1970, 1, 1)), at, true, true, true);
            var after := Submitting(db, s, env);
            && env.clock.Valid() && Approves(db, s, env)
            && |after.claims| == 1 && after.claims[0].fundsRemaining == 10000
            && AvailableFunds(Some(10000), ApprovedAmounts(after.claims, after.decisions, 0)) == 9999
  {
    var at := 719163 * DAY;
    var db := Database([Application(Some(100), true, false, None)], [], [], [], []);
    var form := ClaimForm(PaymentOnAccount, Some(ExpertCost), None, Some(0.5), None);
    var s := Submission(0, form, true, true, true);
    var env := SubmitEnv("INQC-ACEF-HJKL", at, Clock(at, Date(1970, 1, 1)), at, true, true, true);
    HalfPennyApproved(db, s, env);
    hide CheckSubmission, Approves, AutoVerdict, Submitting;
    FundsAfterApproval(db, s, env);
    BankersRoundUnique(9999.5, 10000);
  }
}
