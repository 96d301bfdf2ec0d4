/**
 What every committed database satisfies: statuses and decisions correspond, at most one
 bill per application is active, and each claim's invoice lines are exactly those its
 payment prescribes. Every write of the use cases keeps it.
 */
module Consistency {
  import opened Options
  import opened Claims
  import opened PayInFullAmounts
  import opened PaymentExtract
  import opened Tables

  /** For each paid bill, the payments on account its recoupment covered. */
  type Recouped = map<nat, seq<nat>>

  ghost predicate ClaimFits(claim: Claim, applications: nat) {
    && claim.app < applications
    && |claim.reference| == REFERENCE_LENGTH
    && (claim.IsPoa() <==> claim.poaType.Some?)
    && claim.status in {Submitted, PaidInFull, Rejected}
  }

  ghost predicate ClaimsFit(claims: seq<Claim>, applications: nat) {
    && (forall i | 0 <= i < |claims| :: ClaimFits(claims[i], applications))
    && (forall i, j | 0 <= i < j < |claims| :: claims[i].reference != claims[j].reference)
    && (forall i, j | 0 <= i < j < |claims| ::
          claims[i].app == claims[j].app ==> !(claims[i].IsActiveBill() && claims[j].IsActiveBill()))
  }

  /** A bill is only ever paid with amounts that pass the decision checks. */
  predicate Payable(claim: Claim, a: Amounts) {
    !claim.IsPoa() ==> Check(claim.claimType, claim.poaType, a).None?
  }

  /** Paid, rejected and submitted correspond to a payment, a rejection and no decision. */
  predicate StatusFits(claim: Claim, decision: Option<Decision>) {
    match claim.status
    case Submitted => decision.None?
    case PaidInFull =>
      && decision.Some? && decision.value.status == PayInFull
      && decision.value.amounts.Some? && Payable(claim, decision.value.amounts.value)
    case Rejected => decision.Some? && decision.value.status == Reject
    case _ => false
  }

  ghost predicate DecisionsFit(claims: seq<Claim>, decisions: seq<Decision>) {
    && (forall d | d in decisions :: d.claim < |claims|)
    && (forall i, j | 0 <= i < j < |decisions| :: decisions[i].claim != decisions[j].claim)
    && (forall c | 0 <= c < |claims| :: StatusFits(claims[c], LatestDecision(decisions, c)))
  }

  ghost predicate RecoupFits(claims: seq<Claim>, bill: nat, ids: seq<nat>)
    requires bill < |claims|
  {
    && (forall i, j | 0 <= i < j < |ids| :: ids[i] < ids[j])
    && (forall p | p in ids :: p < |claims| && p != bill && IsRecoupable(claims[p], claims[bill].app))
  }

  ghost predicate RecoupsFit(claims: seq<Claim>, recouped: Recouped) {
    && (forall b: nat :: b in recouped <==> b < |claims| && !claims[b].IsPoa() && claims[b].IsPaid())
    && (forall b | b in recouped && b < |claims| :: RecoupFits(claims, b, recouped[b]))
  }

  /** The lines a claim must have, given its decision and, for a bill, what it recouped. */
  function Expected(claim: Claim, decision: Option<Decision>, sources: seq<Line>): seq<Line> {
    if !claim.IsPaid() || decision.None? || decision.value.amounts.None? then []
    else
      var a := decision.value.amounts.value;
      if claim.IsPoa() then PoaLines(claim, a).GetOr([])
      else
        var own := BillLines(claim, a);
        own + RecoupmentLines(|own| + 1, Day(decision.value.createdAt), sources)
  }

  function RecoupedBy(recouped: Recouped, c: nat): seq<nat> {
    if c in recouped then recouped[c] else []
  }

  ghost predicate LedgerFits(claims: seq<Claim>, decisions: seq<Decision>, ledger: seq<LedgerRow>, recouped: Recouped) {
    && (forall r | r in ledger :: r.claim < |claims|)
    && (forall c | 0 <= c < |claims| ::
          LinesOf(ledger, c)
          == Expected(claims[c], LatestDecision(decisions, c), Sources(ledger, RecoupedBy(recouped, c))))
  }

  ghost predicate Consistent(db: Database, recouped: Recouped) {
    && ClaimsFit(db.claims, |db.applications|)
    && DecisionsFit(db.claims, db.decisions)
    && RecoupsFit(db.claims, recouped)
    && LedgerFits(db.claims, db.decisions, db.ledger, recouped)
  }

  // ------------------------------------------------------------- adding a claim

  lemma {:induction false} NoLinesYet(ledger: seq<LedgerRow>, c: nat)
    requires forall r | r in ledger :: r.claim != c
    ensures LinesOf(ledger, c) == []
  {
    if ledger != [] {
      NoLinesYet(ledger[..|ledger| - 1], c);
    }
  }

  lemma {:induction false} NoDecisionYet(decisions: seq<Decision>, c: nat)
    requires forall d | d in decisions :: d.claim != c
    ensures LatestDecision(decisions, c).None?
  {
    if decisions != [] {
      NoDecisionYet(decisions[..|decisions| - 1], c);
    }
  }

  lemma AddedClaimFits(claims: seq<Claim>, applications: nat, claim: Claim)
    requires ClaimsFit(claims, applications) && ClaimFits(claim, applications)
    requires FindByReference(claims, claim.reference).None?
    requires !claim.IsPoa() ==> !HasActiveBill(ClaimsOf(claims, claim.app))
    ensures ClaimsFit(claims + [claim], applications)
  {
    ClaimsOfMembers(claims, claim.app);
  }

  lemma AddedClaimDecisions(claims: seq<Claim>, decisions: seq<Decision>, claim: Claim)
    requires DecisionsFit(claims, decisions) && claim.status == Submitted
    ensures DecisionsFit(claims + [claim], decisions)
  {
    NoDecisionYet(decisions, |claims|);
  }

  lemma AddedClaimRecoups(claims: seq<Claim>, recouped: Recouped, claim: Claim)
    requires RecoupsFit(claims, recouped) && claim.status == Submitted
    ensures RecoupsFit(claims + [claim], recouped)
  {
    forall b | b in recouped && b < |claims| + 1
      ensures RecoupFits(claims + [claim], b, recouped[b])
    {
      assert b < |claims|;
      assert RecoupFits(claims, b, recouped[b]);
    }
  }

  lemma AddedClaimLedger(claims: seq<Claim>, decisions: seq<Decision>, ledger: seq<LedgerRow>, recouped: Recouped,
                         claim: Claim)
    requires LedgerFits(claims, decisions, ledger, recouped) && claim.status == Submitted
    ensures LedgerFits(claims + [claim], decisions, ledger, recouped)
  {
    NoLinesYet(ledger, |claims|);
    var claims' := claims + [claim];
    forall k | 0 <= k < |claims'|
      ensures LinesOf(ledger, k)
           == Expected(claims'[k], LatestDecision(decisions, k), Sources(ledger, RecoupedBy(recouped, k)))
    {
      if k < |claims| {
        hide Expected, LinesOf, Sources, LatestDecision;
        assert claims'[k] == claims[k];
      }
    }
  }

  /** A submitted claim with an unused reference may be added, a bill only when none is active. */
  lemma AddClaimKeeps(db: Database, recouped: Recouped, claim: Claim)
    requires Consistent(db, recouped)
    requires ClaimFits(claim, |db.applications|) && claim.status == Submitted
    requires FindByReference(db.claims, claim.reference).None?
    requires !claim.IsPoa() ==> !HasActiveBill(ClaimsOf(db.claims, claim.app))
    ensures Consistent(AddClaim(db, claim), recouped)
  {
    AddedClaimFits(db.claims, |db.applications|, claim);
    AddedClaimDecisions(db.claims, db.decisions, claim);
    AddedClaimRecoups(db.claims, recouped, claim);
    AddedClaimLedger(db.claims, db.decisions, db.ledger, recouped, claim);
  }

  // -------------------------------------------------------------------- deciding

  function WithStatus(claims: seq<Claim>, c: nat, status: ClaimStatus): seq<Claim>
    requires c < |claims|
  {
    claims[c := claims[c].(status := status)]
  }

  lemma DecidedClaimsFit(claims: seq<Claim>, applications: nat, c: nat, status: ClaimStatus)
    requires ClaimsFit(claims, applications) && c < |claims| && claims[c].status == Submitted
    requires status in {PaidInFull, Rejected}
    ensures ClaimsFit(WithStatus(claims, c, status), applications)
  {
    var after := WithStatus(claims, c, status);
    assert forall i | 0 <= i < |after| :: after[i].IsActiveBill() ==> claims[i].IsActiveBill();
  }

  lemma {:induction false} HasLatest(decisions: seq<Decision>, d: Decision)
    requires d in decisions
    ensures LatestDecision(decisions, d.claim).Some?
  {
    var last := |decisions| - 1;
    if decisions[last].claim != d.claim {
      HasLatest(decisions[..last], d);
    }
  }

  lemma LatestAfter(decisions: seq<Decision>, decision: Decision, c: nat)
    ensures LatestDecision(decisions + [decision], c)
         == if decision.claim == c then Some(decision) else LatestDecision(decisions, c)
  {
    var all := decisions + [decision];
    assert all[..|all| - 1] == decisions;
  }

  lemma DecidedDecisionsFit(claims: seq<Claim>, decisions: seq<Decision>, decision: Decision, status: ClaimStatus)
    requires DecisionsFit(claims, decisions)
    requires decision.claim < |claims| && claims[decision.claim].status == Submitted
    requires StatusFits(claims[decision.claim].(status := status), Some(decision))
    ensures DecisionsFit(WithStatus(claims, decision.claim, status), decisions + [decision])
  {
    var c := decision.claim;
    forall d | d in decisions
      ensures d.claim != c
    {
      HasLatest(decisions, d);
    }
    forall k | 0 <= k < |claims|
      ensures StatusFits(WithStatus(claims, c, status)[k], LatestDecision(decisions + [decision], k))
    {
      LatestAfter(decisions, decision, k);
    }
  }

  /** How the recoupment record moves when a claim is decided. */
  ghost predicate RecordedFor(claims: seq<Claim>, recouped: Recouped, c: nat, status: ClaimStatus, after: Recouped)
    requires c < |claims|
  {
    if status == PaidInFull && !claims[c].IsPoa()
    then c in after && after == recouped[c := after[c]] && RecoupFits(claims, c, after[c])
    else after == recouped
  }

  lemma DecidedRecoupsFit(claims: seq<Claim>, recouped: Recouped, c: nat, status: ClaimStatus, after: Recouped)
    requires RecoupsFit(claims, recouped) && c < |claims| && claims[c].status == Submitted
    requires status in {PaidInFull, Rejected} && RecordedFor(claims, recouped, c, status, after)
    ensures RecoupsFit(WithStatus(claims, c, status), after)
  {
    var claims' := WithStatus(claims, c, status);
    forall b | b in after && b < |claims'|
      ensures RecoupFits(claims', b, after[b])
    {
      assert RecoupFits(claims, b, after[b]);
      forall p | p in after[b]
        ensures p < |claims'| && p != b && IsRecoupable(claims'[p], claims'[b].app)
      {
        assert IsRecoupable(claims[p], claims[b].app);
      }
    }
  }

  /** Another claim's lines are untouched: nothing it was prescribed refers to the decided claim. */
  lemma DecidedOtherLines(claims: seq<Claim>, ledger: seq<LedgerRow>, recouped: Recouped, c: nat, status: ClaimStatus,
                          after: Recouped, lines: seq<Line>, at: int, k: nat)
    requires RecoupsFit(claims, recouped) && c < |claims| && claims[c].status == Submitted
    requires RecordedFor(claims, recouped, c, status, after)
    requires k < |claims| && k != c
    ensures LinesOf(ledger + Rows(c, lines, at), k) == LinesOf(ledger, k)
    ensures Sources(ledger + Rows(c, lines, at), RecoupedBy(after, k)) == Sources(ledger, RecoupedBy(recouped, k))
  {
    LinesOfAppend(ledger, c, lines, at, k);
    assert RecoupedBy(after, k) == RecoupedBy(recouped, k);
    if k in recouped {
      assert RecoupFits(claims, k, recouped[k]);
    }
    SourcesAppend(ledger, c, lines, at, RecoupedBy(recouped, k));
  }

  lemma DecidedLedgerFits(claims: seq<Claim>, decisions: seq<Decision>, ledger: seq<LedgerRow>, recouped: Recouped,
                          decision: Decision, status: ClaimStatus, after: Recouped, lines: seq<Line>, at: int)
    requires RecoupsFit(claims, recouped) && LedgerFits(claims, decisions, ledger, recouped)
    requires decision.claim < |claims| && claims[decision.claim].status == Submitted
    requires RecordedFor(claims, recouped, decision.claim, status, after)
    requires lines == Expected(claims[decision.claim].(status := status), Some(decision),
                               Sources(ledger, RecoupedBy(after, decision.claim)))
    ensures LedgerFits(WithStatus(claims, decision.claim, status), decisions + [decision],
                       ledger + Rows(decision.claim, lines, at), after)
  {
    var c := decision.claim;
    var claims', ledger' := WithStatus(claims, c, status), ledger + Rows(c, lines, at);
    forall k | 0 <= k < |claims'|
      ensures LinesOf(ledger', k)
           == Expected(claims'[k], LatestDecision(decisions + [decision], k), Sources(ledger', RecoupedBy(after, k)))
    {
      LatestAfter(decisions, decision, k);
      if k == c {
        LinesOfAppend(ledger, c, lines, at, c);
        assert c !in recouped;
        assert c !in RecoupedBy(after, c);
        SourcesAppend(ledger, c, lines, at, RecoupedBy(after, c));
        assert LinesOf(ledger, c) == [];
      } else {
        DecidedOtherLines(claims, ledger, recouped, c, status, after, lines, at, k);
      }
    }
  }

  /** A proper decision on a claim that awaits assessment: fitting status, prescribed lines, recorded recoupment. */
  ghost predicate Decidable(db: Database, recouped: Recouped, decision: Decision, status: ClaimStatus,
                            lines: seq<Line>, after: Recouped) {
    var c := decision.claim;
    && c < |db.claims| && db.claims[c].status == Submitted
    && status in {PaidInFull, Rejected} && StatusFits(db.claims[c].(status := status), Some(decision))
    && RecordedFor(db.claims, recouped, c, status, after)
    && lines == Expected(db.claims[c].(status := status), Some(decision), Sources(db.ledger, RecoupedBy(after, c)))
  }

  lemma DecideKeeps(db: Database, recouped: Recouped, decision: Decision, status: ClaimStatus, lines: seq<Line>,
                    at: int, after: Recouped)
    requires Consistent(db, recouped) && Decidable(db, recouped, decision, status, lines, after)
    ensures Consistent(Decide(db, decision, status, lines, at), after)
  {
    DecidedClaimsFit(db.claims, |db.applications|, decision.claim, status);
    DecidedDecisionsFit(db.claims, db.decisions, decision, status);
    DecidedRecoupsFit(db.claims, recouped, decision.claim, status, after);
    DecidedLedgerFits(db.claims, db.decisions, db.ledger, recouped, decision, status, after, lines, at);
  }

  // ------------------------------------------------------------------ submitting

  lemma CreatedClaimKeeps(db: Database, recouped: Recouped, s: Submission, env: SubmitEnv)
    requires Consistent(db, recouped)
    requires CheckSubmission(db, s).Ok? && UsableReference(db.claims, env.reference)
    ensures Consistent(CreatedClaim(db, s.app, CheckSubmission(db, s).value, env), recouped)
  {
    ValidateFormExact(s.form);
    var form := CheckSubmission(db, s).value;
    var claim := NewClaim(db, s.app, form, env);
    AddClaimKeeps(db, recouped, claim);
    EventsKeep(AddClaim(db, claim), recouped,
               [Event(ClaimSubmitted, s.app, Some(claim.reference))]
               + if env.confirmed then [Event(SubmissionConfirmation, s.app, None)] else []);
  }

  /** A submission keeps the database consistent whichever of its transactions commit. */
  lemma SubmittingKeeps(db: Database, recouped: Recouped, s: Submission, env: SubmitEnv)
    requires Consistent(db, recouped)
    ensures Consistent(Submitting(db, s, env), recouped)
  {
    hide Consistent;
    if CheckSubmission(db, s).Ok? && env.created && UsableReference(db.claims, env.reference) {
      CreatedClaimKeeps(db, recouped, s, env);
      var form := CheckSubmission(db, s).value;
      AutoDecidedKeeps(CreatedClaim(db, s.app, form, env), recouped, AutoVerdict(db, s.app, form, env.clock), env);
    }
  }

  lemma AutoDecidedKeeps(db: Database, recouped: Recouped, verdict: Verdict, env: SubmitEnv)
    requires db.claims != [] && db.claims[|db.claims| - 1].status == Submitted
    requires verdict.AutoApprove? ==> db.claims[|db.claims| - 1].IsPoa()
    requires Consistent(db, recouped)
    ensures Consistent(AutoDecided(db, verdict, env), recouped)
  {
    hide Consistent;
    if env.decided {
      match verdict
      case HoldForCaseworker =>
      case RulesRaise =>
      case AutoReject(reasons) => AutoRejectedKeeps(db, recouped, reasons, env);
      case AutoApprove => AutoApprovedKeeps(db, recouped, env);
    }
  }

  lemma AutoRejectedKeeps(db: Database, recouped: Recouped, reasons: seq<ReasonCode>, env: SubmitEnv)
    requires db.claims != [] && db.claims[|db.claims| - 1].status == Submitted && env.decided
    requires Consistent(db, recouped)
    ensures Consistent(AutoDecided(db, AutoReject(reasons), env), recouped)
  {
    hide Consistent;
    var c := |db.claims| - 1;
    var decision := Decision(c, Reject, None, reasons, env.decidedAt);
    RejectionDecidable(db, recouped, decision);
    DecideKeeps(db, recouped, decision, Rejected, [], env.decidedAt, recouped);
    EventsKeep(Decide(db, decision, Rejected, [], env.decidedAt), recouped,
               [Event(PoaAutoRejected, db.claims[c].app, Some(db.claims[c].reference))]);
  }

  lemma AutoApprovedKeeps(db: Database, recouped: Recouped, env: SubmitEnv)
    requires db.claims != [] && db.claims[|db.claims| - 1].status == Submitted && env.decided
    requires db.claims[|db.claims| - 1].IsPoa()
    requires Consistent(db, recouped)
    ensures Consistent(AutoDecided(db, AutoApprove, env), recouped)
  {
    hide Consistent;
    var c := |db.claims| - 1;
    var claim := db.claims[c];
    var a := FromSubmitted(claim);
    var lines := PoaLines(claim, a);
    if lines.Some? {
      var decision := Decision(c, PayInFull, Some(a), [], env.decidedAt);
      PaymentDecidable(db, recouped, c, a, [], lines.value, env.decidedAt);
      DecideKeeps(db, recouped, decision, PaidInFull, lines.value, env.decidedAt, recouped);
      EventsKeep(Decide(db, decision, PaidInFull, lines.value, env.decidedAt), recouped,
                 [Event(PoaAutoApproved, claim.app, Some(claim.reference))]);
    }
  }

  lemma EventsKeep(db: Database, recouped: Recouped, events: seq<Event>)
    requires Consistent(db, recouped)
    ensures Consistent(AddEvents(db, events), recouped)
  {
  }

  function AfterPayment(db: Database, recouped: Recouped, c: nat, seen: seq<nat>): Recouped
    requires c < |db.claims|
  {
    if db.claims[c].IsPoa() then recouped else recouped[c := seen]
  }

  lemma PaymentDecidable(db: Database, recouped: Recouped, c: nat, a: Amounts, seen: seq<nat>, lines: seq<Line>,
                         at: int)
    requires c < |db.claims| && db.claims[c].status == Submitted
    requires RecoupFits(db.claims, c, seen) && Payable(db.claims[c], a)
    requires PaymentLines(db, c, a, seen, at) == Some(lines)
    ensures Decidable(db, recouped, Decision(c, PayInFull, Some(a), [], at), PaidInFull, lines,
                      AfterPayment(db, recouped, c, seen))
  {
    var claim := db.claims[c];
    var paid := claim.(status := PaidInFull);
    assert PoaLines(paid, a) == PoaLines(claim, a);
    assert BillLines(paid, a) == BillLines(claim, a);
    var after := AfterPayment(db, recouped, c, seen);
    if !claim.IsPoa() {
      assert RecoupedBy(after, c) == seen;
      assert after == recouped[c := after[c]];
    }
  }

  /** A payment commits consistently if its lines were built from paid payments on account of the application. */
  lemma PaidKeeps(db: Database, recouped: Recouped, c: nat, a: Amounts, seen: seq<nat>, lines: seq<Line>, at: int)
    requires Consistent(db, recouped)
    requires c < |db.claims| && db.claims[c].status == Submitted
    requires RecoupFits(db.claims, c, seen) && Payable(db.claims[c], a)
    requires PaymentLines(db, c, a, seen, at) == Some(lines)
    ensures Consistent(Paid(db, c, a, lines, at), AfterPayment(db, recouped, c, seen))
  {
    hide Consistent;
    var decision := Decision(c, PayInFull, Some(a), [], at);
    var after := AfterPayment(db, recouped, c, seen);
    PaymentDecidable(db, recouped, c, a, seen, lines, at);
    DecideKeeps(db, recouped, decision, PaidInFull, lines, at, after);
    EventsKeep(Decide(db, decision, PaidInFull, lines, at), after, PaymentEvents(db.claims[c]));
  }

  lemma RejectionDecidable(db: Database, recouped: Recouped, decision: Decision)
    requires decision.claim < |db.claims| && db.claims[decision.claim].status == Submitted
    requires decision.status == Reject
    ensures Decidable(db, recouped, decision, Rejected, [], recouped)
  {
  }

  lemma RejectedManuallyKeeps(db: Database, recouped: Recouped, c: nat, at: int)
    requires Consistent(db, recouped)
    requires c < |db.claims| && db.claims[c].status == Submitted
    ensures Consistent(RejectedManually(db, c, at), recouped)
  {
    hide Consistent;
    var decision := Decision(c, Reject, None, [ManualRejection], at);
    RejectionDecidable(db, recouped, decision);
    DecideKeeps(db, recouped, decision, Rejected, [], at, recouped);
    EventsKeep(Decide(db, decision, Rejected, [], at), recouped, RejectionEvents(db.claims[c]));
  }
}
