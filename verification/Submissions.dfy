/** What one submission can leave behind, whichever of its three transactions fail. */
module Submissions {
  import opened Options
  import opened Money
  import opened Calendar
  import opened Claims
  import opened PayInFullAmounts
  import opened PaymentExtract
  import opened Tables
  import opened Funds

  /** The submission passes its checks and its first transaction commits. */
  predicate Creates(db: Database, s: Submission, env: SubmitEnv) {
    CheckSubmission(db, s).Ok? && env.created && UsableReference(db.claims, env.reference)
  }

  predicate Rejects(db: Database, s: Submission, env: SubmitEnv) {
    && Creates(db, s, env) && env.decided
    && AutoVerdict(db, s.app, CheckSubmission(db, s).value, env.clock).AutoReject?
  }

  function StatusAfter(db: Database, s: Submission, env: SubmitEnv): ClaimStatus {
    if Approves(db, s, env) then PaidInFull else if Rejects(db, s, env) then Rejected else Submitted
  }

  /**
   Nothing, or one new claim: submitted with no decision and no lines, rejected with
   all its reasons and no lines, or paid with its amounts and all its lines. A claim
   with rejection reasons is never paid, even when saving the rejection fails.
   */
  lemma SubmissionAtomic(db: Database, s: Submission, env: SubmitEnv)
    ensures var after := Submitting(db, s, env);
            && after.applications == db.applications
            && (!Creates(db, s, env) ==> after == db)
            && (Creates(db, s, env) ==>
                  var claim := NewClaim(db, s.app, CheckSubmission(db, s).value, env);
                  var reasons := RejectionReasons(CheckSubmission(db, s).value, db.applications[s.app],
                                                  ClaimsOf(db.claims, s.app), env.clock);
                  && after.claims == db.claims + [claim.(status := StatusAfter(db, s, env))]
                  && (reasons != [] ==> StatusAfter(db, s, env) != PaidInFull)
                  && match StatusAfter(db, s, env)
                     case Submitted => after.decisions == db.decisions && after.ledger == db.ledger
                     case Rejected =>
                       && after.decisions
                          == db.decisions + [Decision(|db.claims|, Reject, None, reasons, env.decidedAt)]
                       && reasons != [] && after.ledger == db.ledger
                     case PaidInFull =>
                       && after.decisions
                          == db.decisions
                             + [Decision(|db.claims|, PayInFull, Some(FromSubmitted(claim)), [], env.decidedAt)]
                       && PoaLines(claim, FromSubmitted(claim)).Some?
                       && after.ledger
                          == db.ledger + Rows(|db.claims|, PoaLines(claim, FromSubmitted(claim)).value, env.decidedAt)
                     case _ => false)
  {
    if Approves(db, s, env) {
      ApprovalAdds(db, s, env);
    } else if Creates(db, s, env) {
      hide CheckSubmission, ValidateForm, RejectionReasons, RequiresManualReview, EligibleForAutoApproval, NewClaim,
           EarliestBeyondCalendar, UsableReference, PoaLines;
      AcceptedApplication(db, s);
      var created := CreatedClaim(db, s.app, CheckSubmission(db, s).value, env);
      assert created.claims[|db.claims|] == NewClaim(db, s.app, CheckSubmission(db, s).value, env);
      assert NewClaim(db, s.app, CheckSubmission(db, s).value, env).status == Submitted by {
        NewClaimStatus(db, s.app, CheckSubmission(db, s).value, env);
      }
    }
  }

  /** The claim a submission adds, and the lines it adds with it. */
  function Added(db: Database, s: Submission, env: SubmitEnv): Claim
    requires Creates(db, s, env)
  {
    NewClaim(db, s.app, CheckSubmission(db, s).value, env).(status := StatusAfter(db, s, env))
  }

  function AddedLines(db: Database, s: Submission, env: SubmitEnv): seq<Line>
    requires Creates(db, s, env)
  {
    if !Approves(db, s, env) then []
    else
      var claim := NewClaim(db, s.app, CheckSubmission(db, s).value, env);
      PoaLines(claim, FromSubmitted(claim)).GetOr([])
  }

  lemma SubmissionAdds(db: Database, s: Submission, env: SubmitEnv)
    ensures Submitting(db, s, env).applications == db.applications
    ensures !Creates(db, s, env) ==> Submitting(db, s, env) == db
    ensures Creates(db, s, env) ==>
              && Submitting(db, s, env).claims == db.claims + [Added(db, s, env)]
              && Submitting(db, s, env).ledger == db.ledger + Rows(|db.claims|, AddedLines(db, s, env), env.decidedAt)
  {
    SubmissionAtomic(db, s, env);
    hide CheckSubmission, Submitting, PoaLines, AutoVerdict, RejectionReasons;
    if Creates(db, s, env) {
      assert db.ledger + Rows(|db.claims|, [], env.decidedAt) == db.ledger;
    }
  }

  lemma NewClaimStatus(db: Database, app: nat, form: ClaimForm, env: SubmitEnv)
    requires app < |db.applications|
    ensures NewClaim(db, app, form, env).status == Submitted && NewClaim(db, app, form, env).app == app
  {
  }

  /** A money column keeps the nearest penny, ties away from zero; what is absent stays absent. */
  predicate Keeps(entered: Option<real>, stored: Option<int>) {
    && entered.Some? == stored.Some?
    && (entered.Some? ==>
          var x, n := entered.value, stored.value as real;
          && -0.5 <= n - x <= 0.5
          && (n - x == 0.5 ==> x > 0.0) && (n - x == -0.5 ==> x < 0.0))
  }

  lemma StoredKeeps(x: Option<real>)
    ensures Keeps(x, Stored(x))
  {
  }

  /**
   What a submission that creates a claim stores, from what was entered: bills and profit costs each total as entered;
   other costs the net and the zero-rated amount, or nothing, and as gross the amount claimed.
   */
  lemma StoredAsEntered(db: Database, s: Submission, env: SubmitEnv)
    requires Creates(db, s, env)
    ensures var after := Submitting(db, s, env);
            var form := s.form;
            && |after.claims| == |db.claims| + 1 && after.claims[..|db.claims|] == db.claims
            && var claim := after.claims[|db.claims|];
               && claim.app == s.app && claim.reference == env.reference && claim.submittedAt == env.submittedAt
               && claim.claimType == form.claimType && claim.poaType == form.poaType
               && claim.status in {Submitted, PaidInFull, Rejected}
               && if form.poaType in {None, Some(ProfitCost)}
                  then Keeps(form.net, claim.net) && Keeps(form.gross, claim.gross)
                       && Keeps(form.vatZero, claim.vatZero)
                  else && Keeps(Some(if form.net.Some? then form.net.value else 0.0), claim.net)
                       && Keeps(Some(if form.vatZero.Some? then form.vatZero.value else 0.0), claim.vatZero)
                       && Keeps(if form.gross.Some? && (form.gross.value != 0.0 || form.vatZero.None?) then form.gross
                                else form.vatZero, claim.gross)
  {
    SubmissionAdds(db, s, env);
    AcceptedTotals(s.form);
    AcceptedApplication(db, s);
    ValidatedForm(db, s);
    var v := CheckSubmission(db, s).value;
    StoredKeeps(v.net);
    StoredKeeps(v.gross);
    StoredKeeps(v.vatZero);
    var claim := NewClaim(db, s.app, v, env);
    hide CheckSubmission, ValidateForm, Submitting, Stored, UsableReference, AutoVerdict, Keeps;
    assert Submitting(db, s, env).claims[|db.claims|] == claim.(status := StatusAfter(db, s, env));
  }

  /** What an automatic approval pays, from the totals stored with the claim. */
  lemma ApprovalPays(db: Database, s: Submission, env: SubmitEnv) returns (lines: seq<Line>)
    requires Approves(db, s, env)
    ensures var after := Submitting(db, s, env);
            && after.ledger == db.ledger + Rows(|db.claims|, lines, env.decidedAt)
            && |after.claims| == |db.claims| + 1
            && var claim := after.claims[|db.claims|];
               PaysPoa(claim,
                       if claim.poaType == Some(ProfitCost)
                       then Amounts(claim.net, claim.gross, claim.vatZero, None, None, None)
                       else Amounts(None, None, None, claim.net, claim.gross, claim.vatZero),
                       lines)
  {
    ApprovalAdds(db, s, env);
    var claim := NewClaim(db, s.app, CheckSubmission(db, s).value, env);
    var a := FromSubmitted(claim);
    PoaLinesExact(claim, a);
    lines := PoaLines(claim, a).value;
    assert PaysPoa(claim.(status := PaidInFull), a, lines);
    hide PoaLines, PaysPoa, CheckSubmission, Submitting, NewClaim, Approves;
  }

  lemma ValidatedForm(db: Database, s: Submission)
    requires CheckSubmission(db, s).Ok?
    ensures ValidateForm(s.form) == Ok(CheckSubmission(db, s).value)
  {
  }

  /** The one check a submission is refused for. */
  predicate SubmissionRefused(db: Database, s: Submission, e: SubmitError) {
    var combined := s.form.claimType == PaymentOnAccount <==> s.form.poaType.Some?;
    var known := s.evidenceFits && s.app < |db.applications|;
    var open := known && s.accessGranted && db.applications[s.app].granted;
    match e
    case EvidenceMismatch => !s.evidenceFits
    case ApplicationNotFound => s.evidenceFits && s.app >= |db.applications|
    case AccessDenied => known && !s.accessGranted
    case NotGranted => known && s.accessGranted && !db.applications[s.app].granted
    case DetailsMismatch => open && combined && !s.detailsFit
    case Invalid(ActiveFinalBillExists) =>
      && open && s.detailsFit && Acceptable(s.form)
      && exists c :: c in db.claims && c.app == s.app && !c.IsPoa() && c.status in {Submitted, PaidInFull}
    case Invalid(error) => open && (combined ==> s.detailsFit) && FormRefused(s.form, error)
  }

  /** A submission is refused with the error that says why. */
  lemma RefusedExactly(db: Database, s: Submission, e: SubmitError)
    ensures CheckSubmission(db, s) == Err(e) <==> SubmissionRefused(db, s, e)
  {
    ValidateFormExact(s.form);
    ClaimsOfMembers(db.claims, s.app);
    if e.Invalid? {
      RefusedFormExactly(s.form, e.error);
      RefusedFormExactly(s.form, ActiveFinalBillExists);
    }
    CombinationFirst(s.form);
    hide ValidateForm, Acceptable, CheckCombination, FormRefused;
  }

  lemma CombinationFirst(form: ClaimForm)
    ensures CheckCombination(form).None? <==> (form.claimType == PaymentOnAccount <==> form.poaType.Some?)
    ensures CheckCombination(form).Some? ==> !Acceptable(form)
  {
  }

  /** Which submissions are accepted, said without the order of the checks. */
  lemma SubmissionAccepted(db: Database, s: Submission)
    ensures CheckSubmission(db, s).Ok? <==>
            && s.evidenceFits && s.app < |db.applications| && s.accessGranted && s.detailsFit
            && db.applications[s.app].granted
            && Acceptable(s.form)
            && forall c | c in db.claims && c.app == s.app && !c.IsPoa() :: c.status !in {Submitted, PaidInFull}
  {
    ValidateFormExact(s.form);
    ClaimsOfMembers(db.claims, s.app);
    assert CheckCombination(s.form).Some? ==> !Acceptable(s.form);
    hide ValidateForm, Acceptable, CheckCombination;
  }

  /**
   The verdict in the rules' own terms: a bill is always held; a payment on account is rejected for any one reason,
   and approved exactly when it fits every limit of an application that is granted and not withdrawn; unless the
   earliest date is beyond the calendar.
   */
  lemma VerdictExact(form: ClaimForm, application: Application, existing: seq<Claim>, clock: Clock)
    requires form.Total().Some? && (form.claimType == PaymentOnAccount <==> form.poaType.Some?)
    ensures var verdict := Judged(form, application, existing, clock);
            var total := form.Total().value;
            var limit := if !application.granted then Some(0)
                         else if application.costLimit.Some? then Some(100 * application.costLimit.value) else None;
            var fourth := form.poaType == Some(ProfitCost) && CountActivePoas(existing, clock.at - 365 * 86400) >= 4;
            var early := TooEarly(form, application, clock.today);
            var over := limit.Some? && total > limit.value as real;
            && (form.claimType != PaymentOnAccount ==> verdict == HoldForCaseworker)
            && (verdict.RulesRaise? <==> EarliestBeyondCalendar(form, application))
            && (verdict.AutoReject? <==>
                  form.claimType == PaymentOnAccount && !verdict.RulesRaise? && (fourth || over || early))
            && (verdict.AutoReject? ==>
                  verdict.reasons == (if fourth then [MaxPoaClaimsExceeded] else [])
                                     + (if over then [ClaimExceedsSubstantiveCostLimit] else [])
                                     + (if early then [ProfitCostPoaClaimSubmittedTooEarly] else []))
            && (verdict.AutoApprove? <==>
                  && form.claimType == PaymentOnAccount && !verdict.RulesRaise? && !fourth && !over && !early
                  && total <= 5000000.0
                  && (limit.Some? ==> PaidTotal(existing) as real + total <= limit.value as real)
                  && application.granted && !application.withdrawn)
  {
    hide CountActivePoas, TooEarly, PaidTotal;
    var reasons := RejectionReasons(form, application, existing, clock);
    EarlyMeansProfitCost(form, application, clock.today);
    assert reasons != [] ==> reasons[0] in reasons;
  }

  lemma EarlyMeansProfitCost(form: ClaimForm, application: Application, today: Date)
    ensures TooEarly(form, application, today) ==> form.poaType == Some(ProfitCost)
  {
  }
}
