/** The database as a value: its tables, the queries the use cases make, and what each transaction writes. */
module Tables {
  import opened Options
  import opened Money
  import opened Claims
  import opened PayInFullAmounts
  import opened PaymentExtract

  /** The latest decision wins; amounts and reasons are kept with their decision. */
  datatype Decision = Decision(claim: nat, status: DecisionStatus, amounts: Option<Amounts>, reasons: seq<ReasonCode>,
                               createdAt: int)

  datatype LedgerRow = LedgerRow(claim: nat, line: Line, createdAt: int)

  datatype EventKind =
    | ClaimSubmitted
    | SubmissionConfirmation
    | PoaAutoRejected
    | PoaAutoApproved
    | AssessmentCompleted
    | ClaimApprovedEmail
    | FinalBillPaidEmail
    | ClaimRejectedEmail

  datatype Event = Event(kind: EventKind, app: nat, claimReference: Option<string>)

  datatype Database = Database(
    applications: seq<Application>,
    claims: seq<Claim>,
    decisions: seq<Decision>,
    ledger: seq<LedgerRow>,
    history: seq<Event>)

  // -------------------------------------------------------------------- queries

  function ClaimsOf(claims: seq<Claim>, app: nat): seq<Claim> {
    if claims == [] then []
    else
      var last := claims[|claims| - 1];
      ClaimsOf(claims[..|claims| - 1], app) + if last.app == app then [last] else []
  }

  function FindByReference(claims: seq<Claim>, reference: string): (r: Option<nat>)
    ensures match r
            case None => forall i | 0 <= i < |claims| :: claims[i].reference != reference
            case Some(c) => c < |claims| && claims[c].reference == reference
  {
    if claims == [] then None
    else
      var earlier := FindByReference(claims[..|claims| - 1], reference);
      if earlier.Some? then earlier
      else if claims[|claims| - 1].reference == reference then Some(|claims| - 1)
      else None
  }

  function LatestDecision(decisions: seq<Decision>, claim: nat): Option<Decision> {
    if decisions == [] then None
    else
      var last := decisions[|decisions| - 1];
      if last.claim == claim then Some(last) else LatestDecision(decisions[..|decisions| - 1], claim)
  }

  /** Each claim of an application with its latest decision, for the available-funds sum. */
  function ApprovedAmounts(claims: seq<Claim>, decisions: seq<Decision>, app: nat): seq<ApprovedAmount> {
    if claims == [] then []
    else
      var id := |claims| - 1;
      var decision := LatestDecision(decisions, id);
      ApprovedAmounts(claims[..id], decisions, app)
      + if claims[id].app == app
        then [ApprovedAmount(if decision.Some? then Some(decision.value.status) else None, claims[id].Amount())]
        else []
  }

  /** A claim's invoice lines, in the order they were written. */
  function LinesOf(ledger: seq<LedgerRow>, claim: nat): seq<Line> {
    if ledger == [] then []
    else
      var last := ledger[|ledger| - 1];
      LinesOf(ledger[..|ledger| - 1], claim) + if last.claim == claim then [last.line] else []
  }

  predicate IsRecoupable(claim: Claim, app: nat) {
    claim.app == app && claim.IsPoa() && claim.IsPaid()
  }

  /** The paid payments on account of an application, other than the claim being paid. */
  function Recoupable(claims: seq<Claim>, app: nat, current: nat): (ids: seq<nat>)
    ensures forall c: nat :: c in ids <==> c < |claims| && c != current && IsRecoupable(claims[c], app)
    ensures forall i, j | 0 <= i < j < |ids| :: ids[i] < ids[j]
  {
    if claims == [] then []
    else
      var id := |claims| - 1;
      var earlier := Recoupable(claims[..id], app, current);
      assert forall k | 0 <= k < |earlier| :: earlier[k] in earlier;
      earlier + if id != current && IsRecoupable(claims[id], app) then [id] else []
  }

  /** The lines of several claims, one claim after the other. */
  function Sources(ledger: seq<LedgerRow>, ids: seq<nat>): seq<Line> {
    if ids == [] then []
    else Sources(ledger, ids[..|ids| - 1]) + LinesOf(ledger, ids[|ids| - 1])
  }

  // --------------------------------------------------------------------- writes

  function Rows(claim: nat, lines: seq<Line>, at: int): seq<LedgerRow> {
    seq(|lines|, k requires 0 <= k < |lines| => LedgerRow(claim, lines[k], at))
  }

  function AddClaim(db: Database, claim: Claim): Database {
    db.(claims := db.claims + [claim])
  }

  function AddEvents(db: Database, events: seq<Event>): Database {
    db.(history := db.history + events)
  }

  /** A decision on a claim, its new status, and the invoice lines written with it. */
  function Decide(db: Database, decision: Decision, status: ClaimStatus, lines: seq<Line>, at: int): Database
    requires decision.claim < |db.claims|
  {
    var c := decision.claim;
    db.(claims := db.claims[c := db.claims[c].(status := status)],
        decisions := db.decisions + [decision],
        ledger := db.ledger + Rows(c, lines, at))
  }

  // ----------------------------------------------------------------- submission

  /**
   `evidenceFits`: evidence is present, or absent for a nil bill. `accessGranted`: firm
   and office match. `detailsFit`: the outcome, template, recovery and counsel details
   are those the kind of claim calls for.
   */
  datatype Submission = Submission(app: nat, form: ClaimForm, evidenceFits: bool, accessGranted: bool, detailsFit: bool)

  datatype SubmitError =
    | EvidenceMismatch
    | ApplicationNotFound
    | AccessDenied
    | NotGranted
    | DetailsMismatch
    | Invalid(error: ClaimError)

  /**
   What the surroundings decide: the generated reference, the clock readings (the claim
   is stamped first, the rules read the clock later), and which of the three
   transactions commit.
   */
  datatype SubmitEnv = SubmitEnv(
    reference: string,
    submittedAt: int,
    clock: Clock,
    decidedAt: int,
    created: bool,
    confirmed: bool,
    decided: bool)

  const REFERENCE_LENGTH: nat := 14

  predicate UsableReference(claims: seq<Claim>, reference: string) {
    |reference| == REFERENCE_LENGTH && FindByReference(claims, reference).None?
  }

  function CheckSubmission(db: Database, s: Submission): Result<ClaimForm, SubmitError> {
    if !s.evidenceFits then Err(EvidenceMismatch)
    else if !(s.app < |db.applications|) then Err(ApplicationNotFound)
    else if !s.accessGranted then Err(AccessDenied)
    else if !db.applications[s.app].granted then Err(NotGranted)
    else if CheckCombination(s.form).None? && !s.detailsFit then Err(DetailsMismatch)
    else
      match ValidateForm(s.form)
      case Err(e) => Err(Invalid(e))
      case Ok(form) =>
        if HasActiveBill(ClaimsOf(db.claims, s.app)) then Err(Invalid(ActiveFinalBillExists)) else Ok(form)
  }

  function FundsAfter(db: Database, app: nat, form: ClaimForm): real
    requires app < |db.applications|
  {
    ExactFundsAfter(db.applications[app].Limit(), ApprovedAmounts(db.claims, db.decisions, app), form)
  }

  function NewClaim(db: Database, app: nat, form: ClaimForm, env: SubmitEnv): Claim
    requires app < |db.applications|
  {
    Claim(app, env.reference, form.claimType, form.poaType, Submitted, env.submittedAt,
          Stored(form.net), Stored(form.gross), Stored(form.vatZero), BankersRound(FundsAfter(db, app, form)))
  }

  /** How the automatic assessment of a new claim comes out, from what the application held before it. */
  datatype Verdict = AutoReject(reasons: seq<ReasonCode>) | AutoApprove | HoldForCaseworker | RulesRaise {
    predicate Decides() { AutoReject? || AutoApprove? }
  }

  function Judged(form: ClaimForm, application: Application, existing: seq<Claim>, clock: Clock): Verdict {
    var reasons := RejectionReasons(form, application, existing, clock);
    if EarliestBeyondCalendar(form, application) then RulesRaise
    else if reasons != [] then AutoReject(reasons)
    else if !RequiresManualReview(form, application, existing) && EligibleForAutoApproval(form, application)
    then AutoApprove
    else HoldForCaseworker
  }

  function AutoVerdict(db: Database, app: nat, form: ClaimForm, clock: Clock): Verdict
    requires app < |db.applications|
  {
    Judged(form, db.applications[app], ClaimsOf(db.claims, app), clock)
  }

  /** The claim and its event, and the confirmation if that transaction commits too. */
  function CreatedClaim(db: Database, app: nat, form: ClaimForm, env: SubmitEnv): Database
    requires app < |db.applications|
  {
    var claim := NewClaim(db, app, form, env);
    AddEvents(AddClaim(db, claim),
              [Event(ClaimSubmitted, app, Some(claim.reference))]
              + if env.confirmed then [Event(SubmissionConfirmation, app, None)] else [])
  }

  /** The automatic decision on the claim just created, if one is due and it commits. */
  function AutoDecided(db: Database, verdict: Verdict, env: SubmitEnv): Database
    requires db.claims != []
  {
    var c := |db.claims| - 1;
    var claim := db.claims[c];
    if !env.decided then db else
      match verdict
      case HoldForCaseworker => db
      case RulesRaise => db
      case AutoReject(reasons) =>
        AddEvents(Decide(db, Decision(c, Reject, None, reasons, env.decidedAt), Rejected, [], env.decidedAt),
                  [Event(PoaAutoRejected, claim.app, Some(claim.reference))])
      case AutoApprove =>
        var a := FromSubmitted(claim);
        var lines := PoaLines(claim, a);
        if lines.None? then db else
          AddEvents(Decide(db, Decision(c, PayInFull, Some(a), [], env.decidedAt), PaidInFull, lines.value,
                           env.decidedAt),
                    [Event(PoaAutoApproved, claim.app, Some(claim.reference))])
  }

  /** One submission: nothing, or the claim, or the claim with its automatic decision. */
  function Submitting(db: Database, s: Submission, env: SubmitEnv): Database {
    var checked := CheckSubmission(db, s);
    if checked.Err? || !env.created || !UsableReference(db.claims, env.reference) then db
    else
      AutoDecided(CreatedClaim(db, s.app, checked.value, env), AutoVerdict(db, s.app, checked.value, env.clock), env)
  }

  // ----------------------------------------------------------------- assessment

  datatype AssessmentError = NoSuchClaim | Conflict | Refused(error: ClaimError)

  /** The locked, fresh read of a claim and the check that it still awaits assessment. */
  function Assessable(db: Database, app: nat, reference: string): Result<nat, AssessmentError> {
    var found := FindByReference(db.claims, reference);
    if !(app < |db.applications|) || found.None? || db.claims[found.value].app != app then Err(NoSuchClaim)
    else if !AwaitingAssessment(db.claims[found.value].status) then Err(Conflict)
    else Ok(found.value)
  }

  /** The lines of a payment, given the payments on account seen as paid. None where a builder refuses. */
  function PaymentLines(db: Database, c: nat, a: Amounts, seen: seq<nat>, decidedAt: int): Option<seq<Line>>
    requires c < |db.claims|
  {
    var claim := db.claims[c];
    if claim.IsPoa() then PoaLines(claim, a)
    else
      var own := BillLines(claim, a);
      Some(own + RecoupmentLines(|own| + 1, Day(decidedAt), Sources(db.ledger, seen)))
  }

  function PaymentEvents(claim: Claim): seq<Event> {
    [Event(AssessmentCompleted, claim.app, Some(claim.reference)),
     Event(if claim.IsPoa() then ClaimApprovedEmail else FinalBillPaidEmail, claim.app, None)]
  }

  function RejectionEvents(claim: Claim): seq<Event> {
    [Event(AssessmentCompleted, claim.app, Some(claim.reference)), Event(ClaimRejectedEmail, claim.app, None)]
  }

  function Paid(db: Database, c: nat, a: Amounts, lines: seq<Line>, at: int): Database
    requires c < |db.claims|
  {
    AddEvents(Decide(db, Decision(c, PayInFull, Some(a), [], at), PaidInFull, lines, at), PaymentEvents(db.claims[c]))
  }

  function RejectedManually(db: Database, c: nat, at: int): Database
    requires c < |db.claims|
  {
    AddEvents(Decide(db, Decision(c, Reject, None, [ManualRejection], at), Rejected, [], at),
              RejectionEvents(db.claims[c]))
  }

  datatype Payment = Payment(app: nat, reference: string, entered: Amounts)

  /** One payment that runs alone; `commits` says whether its transaction reaches the commit. */
  function Paying(db: Database, p: Payment, at: int, commits: bool): Database {
    match Assessable(db, p.app, p.reference)
    case Err(_) => db
    case Ok(c) =>
      match Decided(db.claims[c], p.entered)
      case Err(_) => db
      case Ok(a) =>
        var lines := PaymentLines(db, c, a, Recoupable(db.claims, p.app, c), at);
        if lines.None? || !commits then db else Paid(db, c, a, lines.value, at)
  }

  /** One rejection that runs alone. */
  function Rejecting(db: Database, app: nat, reference: string, at: int, commits: bool): Database {
    match Assessable(db, app, reference)
    case Err(_) => db
    case Ok(c) => if commits then RejectedManually(db, c, at) else db
  }

  // --------------------------------------------------------- facts about queries

  lemma AcceptedApplication(db: Database, s: Submission)
    requires CheckSubmission(db, s).Ok?
    ensures s.app < |db.applications|
  {
  }

  lemma {:induction false} LinesOfAppend(ledger: seq<LedgerRow>, c: nat, lines: seq<Line>, at: int, other: nat)
    ensures LinesOf(ledger + Rows(c, lines, at), other) == LinesOf(ledger, other) + (if other == c then lines else [])
  {
    var rows := Rows(c, lines, at);
    if lines == [] {
      assert ledger + rows == ledger;
    } else {
      var last := |lines| - 1;
      assert (ledger + rows)[..|ledger + rows| - 1] == ledger + Rows(c, lines[..last], at);
      LinesOfAppend(ledger, c, lines[..last], at, other);
    }
  }

  lemma {:induction false} SourcesAppend(ledger: seq<LedgerRow>, c: nat, lines: seq<Line>, at: int, ids: seq<nat>)
    requires c !in ids
    ensures Sources(ledger + Rows(c, lines, at), ids) == Sources(ledger, ids)
  {
    if ids != [] {
      SourcesAppend(ledger, c, lines, at, ids[..|ids| - 1]);
      LinesOfAppend(ledger, c, lines, at, ids[|ids| - 1]);
    }
  }

  lemma {:induction false} ClaimsOfMembers(claims: seq<Claim>, app: nat)
    ensures forall k | 0 <= k < |claims| && claims[k].app == app :: claims[k] in ClaimsOf(claims, app)
    ensures forall c | c in ClaimsOf(claims, app) :: c in claims && c.app == app
  {
    if claims != [] {
      ClaimsOfMembers(claims[..|claims| - 1], app);
    }
  }
}
