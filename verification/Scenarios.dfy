/** Whole runs written out: what the tables hold, to the last cell, after a few submissions and decisions. */
module Scenarios {
  import opened Options
  import opened Money
  import opened InvoiceNumbers
  import opened Calendar
  import opened Claims
  import opened PayInFullAmounts
  import opened PaymentExtract
  import opened Tables
  import opened Consistency
  import opened Assessments
  import opened Runs
  import opened Submissions
  import opened Witnesses

  // ------------------------------------------- a payment on account and the bill after it

  const EXPERT: Claim :=
    Claim(0, "INQC-ACEF-HJKL", PaymentOnAccount, Some(ExpertCost), Submitted, 62135683200, Some(0), Some(100), Some(0),
          999900)

  const BILL: Claim :=
    Claim(0, "INQC-ACEF-HJKM", FinalBill, None, Submitted, 62135683200, None, Some(300), None, 999700)

  const SUBMITTED_EVENTS: seq<Event> :=
    [Event(ClaimSubmitted, 0, Some("INQC-ACEF-HJKL")), Event(SubmissionConfirmation, 0, None),
     Event(ClaimSubmitted, 0, Some("INQC-ACEF-HJKM")), Event(SubmissionConfirmation, 0, None)]

  lemma ExpertSubmitted()
    ensures Submitting(Database([GRANTED], [], [], [], []), Submission(0, POA_FORM, true, true, true),
                       LeftToCaseworker("INQC-ACEF-HJKL"))
         == Database([GRANTED], [EXPERT], [], [], SUBMITTED_EVENTS[..2])
  {
    var db := Database([GRANTED], [], [], [], []);
    var s := Submission(0, POA_FORM, true, true, true);
    SubmissionAccepted(db, s);
    assert CheckSubmission(db, s) == Ok(Normalized(POA_FORM));
    StoreRoundOfWhole(0.0);
    StoreRoundOfWhole(100.0);
    BankersRoundOfWhole(999900);
    assert NewClaim(db, 0, Normalized(POA_FORM), LeftToCaseworker("INQC-ACEF-HJKL")) == EXPERT;
    hide AutoVerdict, CheckSubmission, StoreRound, BankersRound;
  }

  const ONE_SUBMITTED: Database := Database([GRANTED], [EXPERT], [], [], SUBMITTED_EVENTS[..2])

  lemma BillAccepted()
    ensures CheckSubmission(ONE_SUBMITTED, Submission(0, BILL_FORM, true, true, true)) == Ok(BILL_FORM)
    ensures UsableReference([EXPERT], "INQC-ACEF-HJKM")
  {
    SubmissionAccepted(ONE_SUBMITTED, Submission(0, BILL_FORM, true, true, true));
    assert "INQC-ACEF-HJKL"[13] != "INQC-ACEF-HJKM"[13];
  }

  lemma BillStored()
    ensures NewClaim(ONE_SUBMITTED, 0, BILL_FORM, LeftToCaseworker("INQC-ACEF-HJKM")) == BILL
  {
    assert ApprovedAmounts([EXPERT], [], 0) == [ApprovedAmount(None, 100)];
    assert ApprovedTotal([ApprovedAmount(None, 100)]) == 0 by { assert [ApprovedAmount(None, 100)][..0] == []; }
    StoreRoundOfWhole(300.0);
    BankersRoundOfWhole(999700);
    hide StoreRound, BankersRound, ApprovedAmounts, ApprovedTotal;
    assert FundsAfter(ONE_SUBMITTED, 0, BILL_FORM) == 999700.0;
  }

  lemma BillSubmitted()
    ensures Submitting(ONE_SUBMITTED, Submission(0, BILL_FORM, true, true, true), LeftToCaseworker("INQC-ACEF-HJKM"))
         == Database([GRANTED], [EXPERT, BILL], [], [], SUBMITTED_EVENTS)
  {
    BillAccepted();
    BillStored();
    hide AutoVerdict, CheckSubmission, UsableReference, NewClaim;
    assert SUBMITTED_EVENTS == SUBMITTED_EVENTS[..2] + SUBMITTED_EVENTS[2..];
  }

  const EXPERT_PAYMENT: Payment :=
    Payment(0, "INQC-ACEF-HJKL", Amounts(None, None, None, Some(60), Some(100), Some(20)))

  const BILL_PAYMENT: Payment :=
    Payment(0, "INQC-ACEF-HJKM", Amounts(Some(100), Some(120), None, Some(30), Some(60), Some(10)))

  /** A minute after the submissions, and a day after that. */
  const FIRST: int := 62135683260
  const SECOND: int := 62135769660

  const EXPERT_ROWS: seq<LedgerRow> := [
    LedgerRow(0, Line(1, "INQC-ACEF-HJKL_001", 80, 719163, POA, GbVat20), FIRST),
    LedgerRow(0, Line(2, "INQC-ACEF-HJKL_002", 20, 719163, POA, ZeroVat), FIRST)]

  const BILL_ROWS: seq<LedgerRow> := [
    LedgerRow(1, Line(1, "INQC-ACEF-HJKM_001", 120, 719163, FinalBillFees, GbVat20), SECOND),
    LedgerRow(1, Line(2, "INQC-ACEF-HJKM_002", 50, 719163, FinalBillDisbursement, GbVat20), SECOND),
    LedgerRow(1, Line(3, "INQC-ACEF-HJKM_003", 10, 719163, FinalBillDisbursement, ZeroVat), SECOND),
    LedgerRow(1, Line(4, "INQC-ACEF-HJKL_001-R", -80, 719164, Recouped, GbVat20), SECOND),
    LedgerRow(1, Line(5, "INQC-ACEF-HJKL_002-R", -20, 719164, Recouped, ZeroVat), SECOND)]

  const EXPERT_PAID: Database := Database(
    [GRANTED],
    [EXPERT.(status := PaidInFull), BILL],
    [Decision(0, PayInFull, Some(EXPERT_PAYMENT.entered), [], FIRST)],
    EXPERT_ROWS,
    SUBMITTED_EVENTS
    + [Event(AssessmentCompleted, 0, Some("INQC-ACEF-HJKL")), Event(ClaimApprovedEmail, 0, None)])

  const BOTH_PAID: Database := Database(
    [GRANTED],
    [EXPERT.(status := PaidInFull), BILL.(status := PaidInFull)],
    [Decision(0, PayInFull, Some(EXPERT_PAYMENT.entered), [], FIRST),
     Decision(1, PayInFull, Some(BILL_PAYMENT.entered), [], SECOND)],
    EXPERT_ROWS + BILL_ROWS,
    SUBMITTED_EVENTS
    + [Event(AssessmentCompleted, 0, Some("INQC-ACEF-HJKL")), Event(ClaimApprovedEmail, 0, None)]
    + [Event(AssessmentCompleted, 0, Some("INQC-ACEF-HJKM")), Event(FinalBillPaidEmail, 0, None)])

  lemma OneDigit(n: nat)
    requires 0 < n < 10
    ensures PadTo3(Decimal(n)) == "00" + [DigitChar(n)]
  {
    assert PadTo3("0" + Decimal(n)) == "0" + ("0" + Decimal(n));
  }

  lemma ExpertLines()
    ensures PoaLines(EXPERT, EXPERT_PAYMENT.entered) == Some([EXPERT_ROWS[0].line, EXPERT_ROWS[1].line])
  {
    OneDigit(1);
    OneDigit(2);
    hide PadTo3, Decimal;
    assert InvoiceNumber("INQC-ACEF-HJKL", 1) == "INQC-ACEF-HJKL_001";
    assert InvoiceNumber("INQC-ACEF-HJKL", 2) == "INQC-ACEF-HJKL_002";
    hide InvoiceNumber;
    assert PoaLines(EXPERT, EXPERT_PAYMENT.entered).value == [EXPERT_ROWS[0].line, EXPERT_ROWS[1].line];
  }

  lemma ExpertFound(bill: Claim, expert: Claim)
    requires expert.reference == "INQC-ACEF-HJKL" && bill.reference == "INQC-ACEF-HJKM"
    ensures FindByReference([expert, bill], "INQC-ACEF-HJKL") == Some(0)
    ensures FindByReference([expert, bill], "INQC-ACEF-HJKM") == Some(1)
  {
    assert "INQC-ACEF-HJKL"[13] != "INQC-ACEF-HJKM"[13];
    assert [expert, bill][..1] == [expert];
  }

  lemma ExpertPaid()
    ensures Paying(Database([GRANTED], [EXPERT, BILL], [], [], SUBMITTED_EVENTS), EXPERT_PAYMENT, FIRST, true)
         == EXPERT_PAID
  {
    var db := Database([GRANTED], [EXPERT, BILL], [], [], SUBMITTED_EVENTS);
    ExpertFound(BILL, EXPERT);
    ExpertLines();
    hide FindByReference, PoaLines, Recoupable;
    var lines := [EXPERT_ROWS[0].line, EXPERT_ROWS[1].line];
    assert Rows(0, lines, FIRST) == EXPERT_ROWS;
    assert Paid(db, 0, EXPERT_PAYMENT.entered, lines, FIRST) == EXPERT_PAID;
  }

  lemma BillOwnLines()
    ensures BillLines(BILL, BILL_PAYMENT.entered) == [BILL_ROWS[0].line, BILL_ROWS[1].line, BILL_ROWS[2].line]
  {
    OneDigit(1);
    OneDigit(2);
    OneDigit(3);
    hide PadTo3, Decimal;
    assert InvoiceNumber("INQC-ACEF-HJKM", 1) == "INQC-ACEF-HJKM_001";
    assert InvoiceNumber("INQC-ACEF-HJKM", 2) == "INQC-ACEF-HJKM_002";
    assert InvoiceNumber("INQC-ACEF-HJKM", 3) == "INQC-ACEF-HJKM_003";
    hide InvoiceNumber;
    assert |BillLines(BILL, BILL_PAYMENT.entered)| == 3;
  }

  lemma ExpertRowsAre()
    ensures LinesOf(EXPERT_ROWS, 0) == [EXPERT_ROWS[0].line, EXPERT_ROWS[1].line]
    ensures Sources(EXPERT_ROWS, [0]) == [EXPERT_ROWS[0].line, EXPERT_ROWS[1].line]
  {
    assert EXPERT_ROWS[..1] == [EXPERT_ROWS[0]] && [EXPERT_ROWS[0]][..0] == [];
    assert LinesOf([EXPERT_ROWS[0]], 0) == [EXPERT_ROWS[0].line];
    assert LinesOf(EXPERT_ROWS, 0) == [EXPERT_ROWS[0].line, EXPERT_ROWS[1].line];
    assert [0][..0] == [] && Sources(EXPERT_ROWS, []) == [];
  }

  /** What the bill takes back. */
  lemma BillTakesBack()
    ensures Recoupable(EXPERT_PAID.claims, 0, 1) == [0]
    ensures RecoupmentLines(4, Day(SECOND), [EXPERT_ROWS[0].line, EXPERT_ROWS[1].line])
         == [BILL_ROWS[3].line, BILL_ROWS[4].line]
  {
    var claims := EXPERT_PAID.claims;
    assert claims[..1] == [claims[0]] && [claims[0]][..0] == [];
    assert Recoupable([claims[0]], 0, 1) == [0];
    assert RecoupmentNumber("INQC-ACEF-HJKL_001") == "INQC-ACEF-HJKL_001-R";
    assert RecoupmentNumber("INQC-ACEF-HJKL_002") == "INQC-ACEF-HJKL_002-R";
  }

  const BILL_LINES: seq<Line> :=
    [BILL_ROWS[0].line, BILL_ROWS[1].line, BILL_ROWS[2].line, BILL_ROWS[3].line, BILL_ROWS[4].line]

  lemma AllBillLines()
    ensures PaymentLines(EXPERT_PAID, 1, BILL_PAYMENT.entered, [0], SECOND) == Some(BILL_LINES)
  {
    BillOwnLines();
    ExpertRowsAre();
    BillTakesBack();
    hide BillLines, RecoupmentLines, Sources, Recoupable;
    assert [BILL_ROWS[0].line, BILL_ROWS[1].line, BILL_ROWS[2].line] + [BILL_ROWS[3].line, BILL_ROWS[4].line]
           == BILL_LINES;
  }

  lemma BillPaid()
    ensures Paying(EXPERT_PAID, BILL_PAYMENT, SECOND, true) == BOTH_PAID
  {
    ExpertFound(BILL, EXPERT.(status := PaidInFull));
    AllBillLines();
    BillTakesBack();
    assert Decided(BILL, BILL_PAYMENT.entered) == Ok(BILL_PAYMENT.entered);
    hide FindByReference, Recoupable, PaymentLines, Decided;
    assert Rows(1, BILL_LINES, SECOND) == BILL_ROWS;
    assert Paid(EXPERT_PAID, 1, BILL_PAYMENT.entered, BILL_LINES, SECOND) == BOTH_PAID;
  }

  // ------------------------------------------------------------------ the run of both

  /** With no one else at work a payment leaves no transaction behind. */
  lemma LeavesNothing(w: World, tx: nat, p: Payment, at: int)
    requires w.txs == map[] && w.locks == map[]
    ensures var after := Run(w, [LockForPayment(tx, p, at), ReadClaims(tx), Write(tx), Commit(tx)]);
            after.txs == map[] && after.locks == map[]
  {
    FourSteps(w, LockForPayment(tx, p, at), ReadClaims(tx), Write(tx), Commit(tx));
    match Lock(w, tx, p.app, p.reference, Some(p.entered)) {
      case Acquired(c, job) =>
        LockedClaim(w, tx, p.app, p.reference, Some(p.entered));
        AcquiredLeavesNothing(w, tx, c, job.amounts, at);
      case _ =>
    }
    hide Lock, Reading, Writing, Committing;
  }

  lemma LockedClaim(w: World, tx: nat, app: nat, reference: string, entered: Option<Amounts>)
    requires Lock(w, tx, app, reference, entered).Acquired?
    ensures Lock(w, tx, app, reference, entered).claim < |w.db.claims|
  {
  }

  lemma AcquiredLeavesNothing(w: World, tx: nat, c: nat, a: Amounts, at: int)
    requires w.txs == map[] && w.locks == map[] && c < |w.db.claims|
    ensures var after := Committing(Writing(Reading(Start(w, tx, Acquired(c, PaymentJob(a)), at), tx), tx), tx);
            after.txs == map[] && after.locks == map[]
  {
    hide PaymentLines, Paid, Recoupable, AfterPayment;
  }

  function Alone(p: Payment, at: int): seq<Action> { [LockForPayment(0, p, at), ReadClaims(0), Write(0), Commit(0)] }

  const BOTH: seq<Action> := SUBMISSIONS + Alone(EXPERT_PAYMENT, FIRST) + Alone(BILL_PAYMENT, SECOND)

  /** The payment on account is submitted and paid, then the bill, which takes it back. */
  lemma BillAfterPayment()
    ensures After([GRANTED], BOTH).db == BOTH_PAID
  {
    hide Apply, Submitting, Paying;
    var w0 := Initial([GRANTED]);
    var a0, a1 := SUBMISSIONS[0], SUBMISSIONS[1];
    assert SUBMISSIONS == [a0] + [a1] && [a0] == [] + [a0];
    OneMore(w0, [], a0);
    OneMore(w0, [a0], a1);
    ExpertSubmitted();
    BillSubmitted();
    Submits(w0, a0);
    Submits(Run(w0, [a0]), a1);
    RunsOn(w0, SUBMISSIONS, Alone(EXPERT_PAYMENT, FIRST));
    var w2 := Run(w0, SUBMISSIONS);
    NotWaiting(w2, EXPERT_PAYMENT);
    SerialPayment(w2, 0, EXPERT_PAYMENT, FIRST);
    LeavesNothing(w2, 0, EXPERT_PAYMENT, FIRST);
    ExpertPaid();
    RunsOn(w0, SUBMISSIONS + Alone(EXPERT_PAYMENT, FIRST), Alone(BILL_PAYMENT, SECOND));
    var w3 := Run(w2, Alone(EXPERT_PAYMENT, FIRST));
    NotWaiting(w3, BILL_PAYMENT);
    SerialPayment(w3, 0, BILL_PAYMENT, SECOND);
    BillPaid();
  }

  lemma NotWaiting(w: World, p: Payment)
    requires w.txs == map[] && w.locks == map[]
    ensures !Lock(w, 0, p.app, p.reference, Some(p.entered)).Waits?
  {
    hide Assessable, Decided;
  }

  // ------------------------------------------------------------- automatic decisions

  const COUNSEL_FORM: ClaimForm := ClaimForm(PaymentOnAccount, Some(ProfitCost), Some(10000.0), Some(12000.0), None)

  const APPROVED: Database := Database(
    [GRANTED],
    [Claim(0, "INQC-ACEF-HJKL", PaymentOnAccount, Some(ProfitCost), PaidInFull, 62135683200, Some(10000), Some(12000),
           None, 988000)],
    [Decision(0, PayInFull, Some(Amounts(Some(10000), Some(12000), None, None, None, None)), [], FIRST)],
    [LedgerRow(0, Line(1, "INQC-ACEF-HJKL_001", 9600, 719163, POA, GbVat20), FIRST)],
    [Event(ClaimSubmitted, 0, Some("INQC-ACEF-HJKL")), Event(SubmissionConfirmation, 0, None),
     Event(PoaAutoApproved, 0, Some("INQC-ACEF-HJKL"))])

  function Decidedly(): SubmitEnv {
    SubmitEnv("INQC-ACEF-HJKL", 62135683200, EpochClock(), FIRST, true, true, true)
  }

  /** A profit cost of 100 pounds net, with VAT: approved, and paid 96 pounds. */
  lemma ApprovedAutomatically()
    ensures Submitting(Database([GRANTED], [], [], [], []), Submission(0, COUNSEL_FORM, true, true, true), Decidedly())
         == APPROVED
  {
    var db := Database([GRANTED], [], [], [], []);
    var s := Submission(0, COUNSEL_FORM, true, true, true);
    var claim := APPROVED.claims[0].(status := Submitted);
    SubmissionAccepted(db, s);
    assert CheckSubmission(db, s) == Ok(COUNSEL_FORM);
    VerdictExact(COUNSEL_FORM, GRANTED, [], EpochClock());
    StoreRoundOfWhole(10000.0);
    StoreRoundOfWhole(12000.0);
    BankersRoundOfWhole(988000);
    assert NewClaim(db, 0, COUNSEL_FORM, Decidedly()) == claim;
    CounselLine(claim);
    hide CheckSubmission, StoreRound, BankersRound, Judged, PoaLines;
    var line := APPROVED.ledger[0].line;
    assert Rows(0, [line], FIRST) == APPROVED.ledger;
    assert Submitting(db, s, Decidedly()).claims == APPROVED.claims;
    assert Submitting(db, s, Decidedly()).history == APPROVED.history;
  }

  lemma CounselLine(claim: Claim)
    requires claim == APPROVED.claims[0].(status := Submitted)
    ensures PoaLines(claim, FromSubmitted(claim)) == Some([APPROVED.ledger[0].line])
  {
    OneDigit(1);
    hide PadTo3, Decimal;
    assert InvoiceNumber("INQC-ACEF-HJKL", 1) == "INQC-ACEF-HJKL_001";
    StandardRatedError(10000);
  }

  const STARTED: Application := GRANTED.(certificateStart := Some(Date(1969, 12, 1)))

  const HIGH_FORM: ClaimForm := ClaimForm(PaymentOnAccount, Some(ProfitCost), None, None, Some(2000000.0))

  const REFUSED: Database := Database(
    [STARTED],
    [Claim(0, "INQC-ACEF-HJKL", PaymentOnAccount, Some(ProfitCost), Rejected, 62135683200, None, None,
           Some(2000000), -1000000)],
    [Decision(0, Reject, None, [ClaimExceedsSubstantiveCostLimit, ProfitCostPoaClaimSubmittedTooEarly], FIRST)],
    [],
    [Event(ClaimSubmitted, 0, Some("INQC-ACEF-HJKL")), Event(SubmissionConfirmation, 0, None),
     Event(PoaAutoRejected, 0, Some("INQC-ACEF-HJKL"))])

  /** Twice the limit, a month after the certificate began: rejected for both reasons. */
  lemma RejectedAutomatically()
    ensures Submitting(Database([STARTED], [], [], [], []), Submission(0, HIGH_FORM, true, true, true), Decidedly())
         == REFUSED
  {
    var db := Database([STARTED], [], [], [], []);
    var s := Submission(0, HIGH_FORM, true, true, true);
    SubmissionAccepted(db, s);
    assert CheckSubmission(db, s) == Ok(HIGH_FORM);
    TooEarlyExactly(HIGH_FORM, STARTED, Date(1970, 1, 1));
    VerdictExact(HIGH_FORM, STARTED, [], EpochClock());
    assert !EarliestBeyondCalendar(HIGH_FORM, STARTED);
    assert TooEarly(HIGH_FORM, STARTED, Date(1970, 1, 1));
    assert ClaimsOf([], 0) == [];
    assert AutoVerdict(db, 0, HIGH_FORM, EpochClock()).AutoReject?;
    assert AutoVerdict(db, 0, HIGH_FORM, EpochClock())
        == AutoReject([ClaimExceedsSubstantiveCostLimit, ProfitCostPoaClaimSubmittedTooEarly]);
    StoreRoundOfWhole(2000000.0);
    BankersRoundOfWhole(-1000000);
    assert NewClaim(db, 0, HIGH_FORM, Decidedly()) == REFUSED.claims[0].(status := Submitted);
    hide CheckSubmission, StoreRound, BankersRound, Judged;
    assert Submitting(db, s, Decidedly()).decisions == REFUSED.decisions;
    assert Submitting(db, s, Decidedly()).ledger == [];
    assert Submitting(db, s, Decidedly()).claims == REFUSED.claims;
    assert Submitting(db, s, Decidedly()).history == REFUSED.history;
  }

  /** A caseworker rejects the payment on account. */
  lemma RejectedByCaseworker()
    ensures Rejecting(Database([GRANTED], [EXPERT], [], [], SUBMITTED_EVENTS[..2]), 0, "INQC-ACEF-HJKL", FIRST, true)
         == Database([GRANTED], [EXPERT.(status := Rejected)],
                     [Decision(0, Reject, None, [ManualRejection], FIRST)], [],
                     SUBMITTED_EVENTS[..2]
                     + [Event(AssessmentCompleted, 0, Some("INQC-ACEF-HJKL")), Event(ClaimRejectedEmail, 0, None)])
  {
    assert FindByReference([EXPERT], "INQC-ACEF-HJKL") == Some(0) by { assert [EXPERT][..0] == []; }
  }
}
