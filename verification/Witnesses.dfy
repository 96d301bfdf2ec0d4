/** Runs, from an empty service, that reach what the code does not rule out. */
module Witnesses {
  import opened Options
  import opened Money
  import opened InvoiceNumbers
  import opened Calendar
  import opened Claims
  import opened PayInFullAmounts
  import opened PaymentExtract
  import opened Tables
  import opened Consistency
  import opened Ledger
  import opened Assessments
  import opened Runs
  import opened Histories
  import opened Funds
  import opened Submissions
  import opened Windows
  import opened ExtractReport
  import opened ReportWindows
  import opened CsvStream
  import opened Forecasts

  /** The first second of 1970. */
  const EPOCH: int := 719163 * DAY

  const GRANTED: Application := Application(Some(10000), true, false, None)

  function EpochClock(): (c: Clock)
    ensures c.Valid() && c.at == EPOCH
  {
    Clock(EPOCH, Date(1970, 1, 1))
  }

  /** A submission that commits and is left to a caseworker. */
  function LeftToCaseworker(reference: string): SubmitEnv {
    SubmitEnv(reference, EPOCH, EpochClock(), EPOCH, true, true, false)
  }

  /** A claim as just submitted. */
  predicate IsNew(claim: Claim, s: Submission, reference: string) {
    && claim.app == s.app && claim.reference == reference && claim.status == Submitted
    && claim.claimType == s.form.claimType && claim.poaType == s.form.poaType
  }

  /** Such a submission, if accepted, adds one submitted claim and nothing to the ledger. */
  lemma AddsOneClaim(w: World, s: Submission, reference: string)
    requires CheckSubmission(w.db, s).Ok? && UsableReference(w.db.claims, reference)
    ensures var after := Apply(w, SubmitClaim(s, LeftToCaseworker(reference)));
            && after.txs == w.txs && after.locks == w.locks && after.db.applications == w.db.applications
            && after.db.ledger == w.db.ledger
            && |after.db.claims| == |w.db.claims| + 1 && after.db.claims[..|w.db.claims|] == w.db.claims
            && IsNew(after.db.claims[|w.db.claims|], s, reference)
  {
    hide CheckSubmission, UsableReference, AutoVerdict, PoaLines, Submitting;
    var env := LeftToCaseworker(reference);
    SubmissionAdds(w.db, s, env);
    AcceptedForm(w.db, s);
    assert w.db.ledger + Rows(|w.db.claims|, [], EPOCH) == w.db.ledger;
  }

  lemma AcceptedForm(db: Database, s: Submission)
    requires CheckSubmission(db, s).Ok?
    ensures s.app < |db.applications|
    ensures var form := CheckSubmission(db, s).value;
            form.claimType == s.form.claimType && form.poaType == s.form.poaType
  {
    ValidateFormExact(s.form);
  }

  // ------------------------------------------------- a payment the bill does not see

  const POA_REFERENCE: string := "INQC-ACEF-HJKL"
  const BILL_REFERENCE: string := "INQC-ACEF-HJKM"

  const POA_FORM: ClaimForm := ClaimForm(PaymentOnAccount, Some(ExpertCost), None, Some(100.0), None)
  const BILL_FORM: ClaimForm := ClaimForm(FinalBill, None, None, Some(300.0), None)

  const POA_AMOUNTS: Amounts := EMPTY.(disbursementNet := Some(80), disbursementGross := Some(100))
  const BILL_AMOUNTS: Amounts :=
    EMPTY.(profitNet := Some(100), profitGross := Some(120), disbursementVatZero := Some(50))

  /** Both claims are submitted; then both are locked for payment, and the bill reads before the other commits. */
  const SUBMISSIONS: seq<Action> :=
    [SubmitClaim(Submission(0, POA_FORM, true, true, true), LeftToCaseworker(POA_REFERENCE)),
     SubmitClaim(Submission(0, BILL_FORM, true, true, true), LeftToCaseworker(BILL_REFERENCE))]

  const OVERLAP: seq<Action> :=
    [LockForPayment(0, Payment(0, POA_REFERENCE, POA_AMOUNTS), EPOCH),
     LockForPayment(1, Payment(0, BILL_REFERENCE, BILL_AMOUNTS), EPOCH),
     ReadClaims(0), Write(0), ReadClaims(1)]

  const COMMITS: seq<Action> := [Commit(0), Write(1), Commit(1)]

  /** A claim as the overlap needs it: submitted, of the first application, payable with the amounts. */
  ghost predicate Ready(db: Database, c: nat, reference: string, a: Amounts) {
    && |db.applications| > 0 && c < |db.claims|
    && db.claims[c].app == 0 && db.claims[c].reference == reference && db.claims[c].status == Submitted
    && FindByReference(db.claims, reference) == Some(c)
    && Decided(db.claims[c], a) == Ok(a)
  }

  lemma BothSubmitted()
    ensures var w := After([GRANTED], SUBMISSIONS);
            && w.txs == map[] && w.locks == map[] && w.db.ledger == [] && |w.db.claims| == 2
            && Ready(w.db, 0, POA_REFERENCE, POA_AMOUNTS) && w.db.claims[0].poaType == Some(ExpertCost)
            && w.db.claims[0].IsPoa()
            && Ready(w.db, 1, BILL_REFERENCE, BILL_AMOUNTS) && w.db.claims[1].claimType == FinalBill
  {
    var w0 := Initial([GRANTED]);
    var a0, a1 := SUBMISSIONS[0], SUBMISSIONS[1];
    assert SUBMISSIONS == [a0] + [a1] && [a0] == [] + [a0];
    FirstSubmitted(w0);
    var w1 := Apply(w0, a0);
    SecondSubmitted(w1);
    hide Apply;
    OneMore(w0, [], a0);
    OneMore(w0, [a0], a1);
  }

  lemma FirstSubmitted(w: World)
    requires w == Initial([GRANTED])
    ensures var s := Submission(0, POA_FORM, true, true, true);
            var after := Apply(w, SubmitClaim(s, LeftToCaseworker(POA_REFERENCE)));
            && after.txs == map[] && after.locks == map[] && after.db.applications == [GRANTED] && after.db.ledger == []
            && |after.db.claims| == 1 && IsNew(after.db.claims[0], s, POA_REFERENCE)
  {
    var s := Submission(0, POA_FORM, true, true, true);
    SubmissionAccepted(w.db, s);
    AddsOneClaim(w, s, POA_REFERENCE);
  }

  lemma SecondSubmitted(w: World)
    requires w.txs == map[] && w.locks == map[] && w.db.applications == [GRANTED] && w.db.ledger == []
    requires |w.db.claims| == 1 && IsNew(w.db.claims[0], Submission(0, POA_FORM, true, true, true), POA_REFERENCE)
    ensures var s := Submission(0, BILL_FORM, true, true, true);
            var after := Apply(w, SubmitClaim(s, LeftToCaseworker(BILL_REFERENCE)));
            && after.txs == map[] && after.locks == map[] && after.db.ledger == [] && |after.db.claims| == 2
            && Ready(after.db, 0, POA_REFERENCE, POA_AMOUNTS) && after.db.claims[0].poaType == Some(ExpertCost)
            && after.db.claims[0].IsPoa()
            && Ready(after.db, 1, BILL_REFERENCE, BILL_AMOUNTS) && after.db.claims[1].claimType == FinalBill
  {
    hide CheckSubmission;
    var s := Submission(0, BILL_FORM, true, true, true);
    SubmissionAccepted(w.db, s);
    assert POA_REFERENCE[13] != BILL_REFERENCE[13];
    AddsOneClaim(w, s, BILL_REFERENCE);
    hide Apply;
    var claims := Apply(w, SubmitClaim(s, LeftToCaseworker(BILL_REFERENCE))).db.claims;
    assert claims[..1] == w.db.claims;
    assert claims[0] == claims[..1][0];
  }

  lemma LocksClaim(w: World, tx: nat, reference: string, a: Amounts, c: nat)
    requires Ready(w.db, c, reference, a) && tx !in w.txs && c !in w.locks
    ensures Apply(w, LockForPayment(tx, Payment(0, reference, a), EPOCH))
         == w.(txs := w.txs[tx := Tx(c, PaymentJob(a), EPOCH, Held)], locks := w.locks[c := tx])
  {
    hide Decided, FindByReference;
  }

  lemma FiveSteps(w: World, a: Action, b: Action, c: Action, d: Action, e: Action)
    ensures Run(w, [a, b, c, d, e]) == Apply(Apply(Apply(Apply(Apply(w, a), b), c), d), e)
  {
    assert [a, b, c, d, e] == [a, b, c, d] + [e];
    hide Apply;
    OneMore(w, [a, b, c, d], e);
    FourSteps(w, a, b, c, d);
  }

  lemma RunsOn(w: World, first: seq<Action>, rest: seq<Action>)
    ensures Run(w, first + rest) == Run(Run(w, first), rest)
  {
    RunOn(w, first + rest, |first|);
    assert (first + rest)[..|first|] == first && (first + rest)[|first|..] == rest;
  }

  /** Claim 0 is locked for payment and written, claim 1 locked for payment and past its read, nothing committed. */
  lemma Overlapping(w: World)
    requires w.txs == map[] && w.locks == map[]
    requires Ready(w.db, 0, POA_REFERENCE, POA_AMOUNTS) && w.db.claims[0].poaType == Some(ExpertCost)
             && w.db.claims[0].IsPoa()
    requires Ready(w.db, 1, BILL_REFERENCE, BILL_AMOUNTS)
    ensures var after := Run(w, OVERLAP);
            var day := Day(w.db.claims[0].submittedAt);
            && after.db == w.db && 0 in after.txs && 1 in after.txs
            && after.txs[0].claim == 0 && after.txs[0].job == PaymentJob(POA_AMOUNTS) && after.txs[0].phase.Written?
            && after.txs[0].phase.lines == [NumberedLine(POA_REFERENCE, 1, 100, day, POA, GbVat20)]
            && after.txs[1].claim == 1 && after.txs[1].job == PaymentJob(BILL_AMOUNTS) && after.txs[1].phase.ClaimsRead?
  {
    hide Apply, Ready, Recoupable, PaymentLines;
    FiveSteps(w, OVERLAP[0], OVERLAP[1], OVERLAP[2], OVERLAP[3], OVERLAP[4]);
    LocksClaim(w, 0, POA_REFERENCE, POA_AMOUNTS, 0);
    var w1 := Apply(w, OVERLAP[0]);
    LocksClaim(w1, 1, BILL_REFERENCE, BILL_AMOUNTS, 1);
    var w2 := Apply(w1, OVERLAP[1]);
    ReadyClaim(w.db, 0, POA_REFERENCE, POA_AMOUNTS);
    ReadyClaim(w.db, 1, BILL_REFERENCE, BILL_AMOUNTS);
    ReadStep(w2, 0);
    var w3 := Apply(w2, OVERLAP[2]);
    PoaLine(w.db, w3.txs[0].phase.seen);
    WriteStep(w3, 0);
    var w4 := Apply(w3, OVERLAP[3]);
    ReadStep(w4, 1);
  }

  lemma ReadyClaim(db: Database, c: nat, reference: string, a: Amounts)
    requires Ready(db, c, reference, a)
    ensures c < |db.claims| && db.claims[c].reference == reference && db.claims[c].app == 0
  {
  }

  lemma ReadStep(w: World, tx: nat)
    requires tx in w.txs && w.txs[tx].job.PaymentJob? && w.txs[tx].phase.Held? && w.txs[tx].claim < |w.db.claims|
    ensures var t := w.txs[tx];
            var seen := Recoupable(w.db.claims, w.db.claims[t.claim].app, t.claim);
            Apply(w, ReadClaims(tx)) == w.(txs := w.txs[tx := t.(phase := ClaimsRead(seen))])
  {
    hide Recoupable;
  }

  lemma WriteStep(w: World, tx: nat)
    requires tx in w.txs && w.txs[tx].job.PaymentJob? && w.txs[tx].phase.ClaimsRead? && w.txs[tx].claim < |w.db.claims|
    requires PaymentLines(w.db, w.txs[tx].claim, w.txs[tx].job.amounts, w.txs[tx].phase.seen, w.txs[tx].at).Some?
    ensures var t := w.txs[tx];
            var lines := PaymentLines(w.db, t.claim, t.job.amounts, t.phase.seen, t.at).value;
            Apply(w, Write(tx)) == w.(txs := w.txs[tx := t.(phase := Written(t.phase.seen, lines))])
  {
    hide PaymentLines;
  }

  lemma PoaLine(db: Database, seen: seq<nat>)
    requires Ready(db, 0, POA_REFERENCE, POA_AMOUNTS) && db.claims[0].poaType == Some(ExpertCost)
             && db.claims[0].IsPoa()
    ensures PaymentLines(db, 0, POA_AMOUNTS, seen, EPOCH)
         == Some([NumberedLine(POA_REFERENCE, 1, 100, Day(db.claims[0].submittedAt), POA, GbVat20)])
  {
    hide Decided;
    var line := NumberedLine(POA_REFERENCE, 1, 100, Day(db.claims[0].submittedAt), POA, GbVat20);
    assert [line] + [] == [line];
  }

  /** The commit of a written payment on account leaves just its lines under its claim. */
  lemma CommitsLines(w: World, tx: nat, c: nat)
    requires Invariant(w) && tx in w.txs && w.txs[tx].job.PaymentJob? && w.txs[tx].phase.Written?
    requires w.txs[tx].claim == c && c < |w.db.claims| && LinesOf(w.db.ledger, c) == []
    ensures LinesOf(Apply(w, Commit(tx)).db.ledger, c) == w.txs[tx].phase.lines
  {
    hide Invariant, PaymentEvents, LinesOf;
    LinesOfAppend(w.db.ledger, c, w.txs[tx].phase.lines, w.txs[tx].at, c);
    assert [] + w.txs[tx].phase.lines == w.txs[tx].phase.lines;
  }

  /**
   A run, from an empty service, after which a payment on account of 100 pence and the bill of its application are both
   paid, the payment was not taken back, and the ledger exceeds the bill's own lines by its 100 pence.
   */
  lemma PaidInTheWindowIsReached()
    ensures var w := After([GRANTED], SUBMISSIONS + OVERLAP + COMMITS);
            && |w.db.claims| == 2 && w.db.claims[0].app == w.db.claims[1].app == 0
            && w.db.claims[0].IsPoa() && w.db.claims[0].IsPaid() && !w.db.claims[1].IsPoa() && w.db.claims[1].IsPaid()
            && |LinesOf(w.db.ledger, 0)| == 1 && LinesOf(w.db.ledger, 0)[0].amount == 100
            && RowsNumbered(w.db.ledger, RecoupmentNumber(LinesOf(w.db.ledger, 0)[0].number)) == []
            && AppTotal(w.db.claims, w.db.ledger, 0) == Sum(Own(w.db, 1)) + 100
  {
    hide Apply, Ready, Invariant, LinesOf, Own, Sum, RowsNumbered;
    BothSubmitted();
    var w2 := After([GRANTED], SUBMISSIONS);
    Overlapping(w2);
    var w7 := Run(w2, OVERLAP);
    RunsOn(Initial([GRANTED]), SUBMISSIONS, OVERLAP);
    RunsOn(Initial([GRANTED]), SUBMISSIONS + OVERLAP, COMMITS);
    EveryRunConsistent([GRANTED], SUBMISSIONS + OVERLAP);
    ReadyClaim(w2.db, 0, POA_REFERENCE, POA_AMOUNTS);
    ReadyClaim(w2.db, 1, BILL_REFERENCE, BILL_AMOUNTS);
    PaidInTheWindow(w7, 1, 0);
    AfterTheCommits(w7, Run(w7, COMMITS));
  }

  lemma AfterTheCommits(before: World, after: World)
    requires Invariant(before) && after == Run(before, COMMITS) && Invariant(after)
    requires before.db.ledger == [] && |before.db.claims| == 2 == |after.db.claims|
    requires 0 in before.txs && before.txs[0].claim == 0 && before.txs[0].job.PaymentJob?
             && before.txs[0].phase.Written?
    requires |before.txs[0].phase.lines| == 1 && before.txs[0].phase.lines[0].amount == 100
    requires after.db.claims[0].app == after.db.claims[1].app == 0
    requires after.db.claims[0].IsPoa() && after.db.claims[0].IsPaid() && !after.db.claims[1].IsPoa()
    requires 1 in after.recouped && 0 !in after.recouped[1]
    ensures LinesOf(after.db.ledger, 0) == before.txs[0].phase.lines
    ensures RowsNumbered(after.db.ledger, RecoupmentNumber(LinesOf(after.db.ledger, 0)[0].number)) == []
    ensures AppTotal(after.db.claims, after.db.ledger, 0) == Sum(Own(after.db, 1)) + 100
  {
    LinesKept(before, after);
    assert Consistent(after.db, after.recouped);
    hide Invariant, Apply, Consistent, LinesOf, Own, RowsNumbered;
    NotTakenBack(after.db, after.recouped, 1, 0, 0);
    ConservedWithBill(after.db, after.recouped, 1);
    SumSmall(LinesOf(after.db.ledger, 0));
    assert Unrecouped(after.db.claims, after.db.ledger, 0, after.recouped[1], 0) == 0;
    assert Unrecouped(after.db.claims, after.db.ledger, 0, after.recouped[1], 1) == Sum(LinesOf(after.db.ledger, 0));
  }

  lemma CommitFirst(w: World)
    ensures Run(w, COMMITS) == Run(Apply(w, Commit(0)), [Write(1), Commit(1)])
  {
    hide Apply;
    assert COMMITS == [Commit(0)] + [Write(1), Commit(1)] && [Commit(0)] == [] + [Commit(0)];
    RunsOn(w, [Commit(0)], [Write(1), Commit(1)]);
    OneMore(w, [], Commit(0));
  }

  lemma LinesKept(before: World, after: World)
    requires Invariant(before) && after == Run(before, COMMITS)
    requires before.db.ledger == [] && |before.db.claims| == 2
    requires 0 in before.txs && before.txs[0].claim == 0 && before.txs[0].job.PaymentJob?
             && before.txs[0].phase.Written?
    ensures LinesOf(after.db.ledger, 0) == before.txs[0].phase.lines
  {
    hide *;
    NoLinesYet([], 0);
    PaymentCommits(before, 0);
    CommitsLines(before, 0, 0);
    var paid := Apply(before, Commit(0));
    CommitFirst(before);
    DecidedForever(paid, [Write(1), Commit(1)], 0);
  }

  // --------------------------------------------------------- a fifth claim in the window

  const PROFIT_FORM: ClaimForm := ClaimForm(PaymentOnAccount, Some(ProfitCost), None, None, Some(100.0))

  /** A profit-cost claim, its stamp, and the clock its rules read. */
  datatype Entry = Entry(reference: string, stamp: int, clock: Clock)

  function Entered(e: Entry): Action {
    SubmitClaim(Submission(0, PROFIT_FORM, true, true, true),
                SubmitEnv(e.reference, e.stamp, e.clock, e.clock.at, true, true, true))
  }

  function EnteredAll(entries: seq<Entry>): seq<Action> {
    if entries == [] then [] else EnteredAll(entries[..|entries| - 1]) + [Entered(entries[|entries| - 1])]
  }

  function StampsIn(entries: seq<Entry>, from: int, to: int): nat {
    if entries == [] then 0
    else
      var stamp := entries[|entries| - 1].stamp;
      StampsIn(entries[..|entries| - 1], from, to) + if from <= stamp <= to then 1 else 0
  }

  function StampsSince(entries: seq<Entry>, cutoff: int): nat {
    if entries == [] then 0
    else StampsSince(entries[..|entries| - 1], cutoff) + if entries[|entries| - 1].stamp >= cutoff then 1 else 0
  }

  /** Each entry has a fresh reference, reads the clock within the lag, and finds fewer than four claims by the rule. */
  predicate Enterable(entries: seq<Entry>, lag: int) {
    entries != [] ==>
      var last := |entries| - 1;
      var e := entries[last];
      && Enterable(entries[..last], lag)
      && |e.reference| == REFERENCE_LENGTH && (forall k | 0 <= k < last :: entries[k].reference != e.reference)
      && e.stamp <= e.clock.at <= e.stamp + lag
      && StampsSince(entries[..last], e.clock.at - CAP) < MAX_PROFIT_COST_POA_CLAIM_COUNT
  }

  /** The claims are just those entered, all of them active. */
  predicate HoldsEntries(claims: seq<Claim>, entries: seq<Entry>) {
    && |claims| == |entries|
    && forall k | 0 <= k < |claims| ::
         && claims[k].app == 0 && claims[k].IsPoa() && Active(claims[k])
         && claims[k].reference == entries[k].reference && claims[k].submittedAt == entries[k].stamp
  }

  lemma {:induction false} EntriesCount(claims: seq<Claim>, entries: seq<Entry>, from: int, to: int)
    requires HoldsEntries(claims, entries)
    ensures CountActivePoas(ClaimsOf(claims, 0), from) == StampsSince(entries, from)
    ensures ActiveIn(claims, 0, from, to) == StampsIn(entries, from, to)
  {
    if claims != [] {
      var last := |claims| - 1;
      EntriesCount(claims[..last], entries[..last], from, to);
      var earlier := ClaimsOf(claims[..last], 0);
      assert (earlier + [claims[last]])[..|earlier|] == earlier;
    }
  }

  /** One more entry is accepted, is not rejected, and is prompt. */
  lemma EntersOne(w: World, entries: seq<Entry>, e: Entry, lag: int)
    requires w.db.applications == [GRANTED] && HoldsEntries(w.db.claims, entries)
    requires |e.reference| == REFERENCE_LENGTH && forall k | 0 <= k < |entries| :: entries[k].reference != e.reference
    requires e.stamp <= e.clock.at <= e.stamp + lag
    requires StampsSince(entries, e.clock.at - CAP) < MAX_PROFIT_COST_POA_CLAIM_COUNT
    ensures Prompt(w, Entered(e), lag)
    ensures Apply(w, Entered(e)).db.applications == [GRANTED]
    ensures HoldsEntries(Apply(w, Entered(e)).db.claims, entries + [e])
  {
    EntriesCount(w.db.claims, entries, e.clock.at - CAP, 0);
    FreshReference(w.db.claims, entries, e);
    hide CountActivePoas, ClaimsOf, UsableReference, Apply;
    EntryStored(w.db, Entered(e).env);
    Submits(w, Entered(e));
    hide Submitting, Creates, AutoVerdict, CheckSubmission;
  }

  lemma Submits(w: World, a: Action)
    requires a.SubmitClaim?
    ensures Apply(w, a) == w.(db := Submitting(w.db, a.submission, a.env))
  {
    hide Submitting;
  }

  lemma FreshReference(claims: seq<Claim>, entries: seq<Entry>, e: Entry)
    requires HoldsEntries(claims, entries) && |e.reference| == REFERENCE_LENGTH
    requires forall k | 0 <= k < |entries| :: entries[k].reference != e.reference
    ensures UsableReference(claims, e.reference)
  {
  }

  /** The claim stored for an entry that the rules do not reject: active, with the entry's reference and stamp. */
  lemma EntryStored(db: Database, env: SubmitEnv)
    requires db.applications == [GRANTED] && (forall k | 0 <= k < |db.claims| :: db.claims[k].IsPoa())
    requires env.created && UsableReference(db.claims, env.reference)
    requires CountActivePoas(ClaimsOf(db.claims, 0), env.clock.at - CAP) < MAX_PROFIT_COST_POA_CLAIM_COUNT
    ensures var s := Submission(0, PROFIT_FORM, true, true, true);
            var after := Submitting(db, s, env);
            && Creates(db, s, env) && !AutoVerdict(db, 0, CheckSubmission(db, s).value, env.clock).AutoReject?
            && after.applications == [GRANTED]
            && |after.claims| == |db.claims| + 1 && after.claims[..|db.claims|] == db.claims
            && var c := after.claims[|db.claims|];
               && c.app == 0 && c.IsPoa() && Active(c)
               && c.reference == env.reference && c.submittedAt == env.submittedAt
  {
    hide CheckSubmission, AutoVerdict, UsableReference, Submitting, NewClaim, StatusAfter, AddedLines;
    hide CountActivePoas, ClaimsOf;
    var s := Submission(0, PROFIT_FORM, true, true, true);
    EntryAccepted(db, s);
    NotRejected(db, env);
    SubmissionAdds(db, s, env);
    NewClaimFields(db, 0, PROFIT_FORM, env);
    StaysActive(db, s, env);
  }

  lemma StaysActive(db: Database, s: Submission, env: SubmitEnv)
    requires Creates(db, s, env) && s.app < |db.applications|
    requires !AutoVerdict(db, s.app, CheckSubmission(db, s).value, env.clock).AutoReject?
    ensures StatusAfter(db, s, env) in {PaidInFull, ClaimStatus.Submitted}
  {
    hide CheckSubmission, AutoVerdict, Creates, Approves;
  }

  lemma EntryAccepted(db: Database, s: Submission)
    requires db.applications == [GRANTED] && s == Submission(0, PROFIT_FORM, true, true, true)
    requires forall k | 0 <= k < |db.claims| :: db.claims[k].IsPoa()
    ensures CheckSubmission(db, s) == Ok(PROFIT_FORM)
  {
    SubmissionAccepted(db, s);
  }

  lemma NotRejected(db: Database, env: SubmitEnv)
    requires db.applications == [GRANTED]
    requires CountActivePoas(ClaimsOf(db.claims, 0), env.clock.at - CAP) < MAX_PROFIT_COST_POA_CLAIM_COUNT
    ensures !AutoVerdict(db, 0, PROFIT_FORM, env.clock).AutoReject?
  {
    VerdictExact(PROFIT_FORM, GRANTED, ClaimsOf(db.claims, 0), env.clock);
  }

  lemma {:induction false} EntersAll(entries: seq<Entry>, lag: int)
    requires Enterable(entries, lag)
    ensures PromptRun(Initial([GRANTED]), EnteredAll(entries), lag)
    ensures var db := After([GRANTED], EnteredAll(entries)).db;
            db.applications == [GRANTED] && HoldsEntries(db.claims, entries)
  {
    hide Apply, Entered, Prompt, PromptRun, HoldsEntries, Enterable, EnteredAll, Run;
    if entries == [] {
      NothingEntered(lag);
    } else {
      var earlier, e := entries[..|entries| - 1], entries[|entries| - 1];
      EnterableLast(entries, lag);
      EntersAll(earlier, lag);
      EntersOne(After([GRANTED], EnteredAll(earlier)), earlier, e, lag);
      assert entries == earlier + [e];
      EnteredLast(entries);
      PromptLast(Initial([GRANTED]), EnteredAll(earlier), Entered(e), lag);
      OneMore(Initial([GRANTED]), EnteredAll(earlier), Entered(e));
    }
  }

  lemma NothingEntered(lag: int)
    ensures EnteredAll([]) == [] && PromptRun(Initial([GRANTED]), [], lag)
    ensures After([GRANTED], []).db.applications == [GRANTED] && HoldsEntries(After([GRANTED], []).db.claims, [])
  {
  }

  lemma EnterableLast(entries: seq<Entry>, lag: int)
    requires Enterable(entries, lag) && entries != []
    ensures var earlier, e := entries[..|entries| - 1], entries[|entries| - 1];
            && Enterable(earlier, lag)
            && |e.reference| == REFERENCE_LENGTH
               && (forall k | 0 <= k < |earlier| :: earlier[k].reference != e.reference)
            && e.stamp <= e.clock.at <= e.stamp + lag
            && StampsSince(earlier, e.clock.at - CAP) < MAX_PROFIT_COST_POA_CLAIM_COUNT
  {
    hide StampsSince;
  }

  lemma EnteredLast(entries: seq<Entry>)
    requires entries != []
    ensures EnteredAll(entries) == EnteredAll(entries[..|entries| - 1]) + [Entered(entries[|entries| - 1])]
  {
  }

  lemma PromptLast(w: World, actions: seq<Action>, a: Action, lag: int)
    requires PromptRun(w, actions, lag) && Prompt(Run(w, actions), a, lag)
    ensures PromptRun(w, actions + [a], lag)
  {
    hide Prompt, Run;
    assert (actions + [a])[..|actions|] == actions;
  }

  /** The clock so many seconds into 1970, or on the first day of 1971. */
  function ClockAfter(seconds: nat): (c: Clock)
    requires seconds / DAY <= 365
    ensures c.Valid() && c.at == EPOCH + seconds
  {
    var days := seconds / DAY;
    Clock(EPOCH + seconds, if days < 365 then DateInYear(1970, days) else Date(1971, 1, 1))
  }

  const REFERENCES: seq<string> := ["INQC-ACEF-HJKL", "INQC-ACEF-HJKM", "INQC-ACEF-HJKN", "INQC-ACEF-HJKP",
                                    "INQC-ACEF-HJKQ"]

  lemma ReferencesDiffer()
    ensures |REFERENCES| == 5 && forall k | 0 <= k < 5 :: |REFERENCES[k]| == REFERENCE_LENGTH
    ensures forall i, k | 0 <= i < k < 5 :: REFERENCES[i] != REFERENCES[k]
  {
    var r := REFERENCES;
    assert r[0][13] == 'L' && r[1][13] == 'M' && r[2][13] == 'N' && r[3][13] == 'P' && r[4][13] == 'Q';
  }

  /** One claim, then four `gap` seconds later, the last judged a second after the first has left the window. */
  function FiveEntry(gap: nat, k: nat): (e: Entry)
    requires gap <= CAP + 1 && k < 5
    ensures e.reference == REFERENCES[k] && e.clock.Valid()
    ensures e.stamp == EPOCH + (if k == 0 then 0 else gap)
    ensures e.clock.at == if k == 4 then EPOCH + CAP + 1 else e.stamp
  {
    var after := if k == 0 then 0 else gap;
    Entry(REFERENCES[k], EPOCH + after, ClockAfter(if k == 4 then CAP + 1 else after))
  }

  function FiveEntries(gap: nat): (five: seq<Entry>)
    requires gap <= CAP + 1
    ensures |five| == 5 && forall k | 0 <= k < 5 :: five[k] == FiveEntry(gap, k)
  {
    [FiveEntry(gap, 0), FiveEntry(gap, 1), FiveEntry(gap, 2), FiveEntry(gap, 3), FiveEntry(gap, 4)]
  }

  /** Different references of the right length, and clocks within the lag. */
  predicate Entries(entries: seq<Entry>, lag: int) {
    && (forall k | 0 <= k < |entries| :: |entries[k].reference| == REFERENCE_LENGTH
                                         && entries[k].stamp <= entries[k].clock.at <= entries[k].stamp + lag)
    && forall i, k | 0 <= i < k < |entries| :: entries[i].reference != entries[k].reference
  }

  lemma {:induction false} FewStamps(entries: seq<Entry>, cutoff: int)
    ensures StampsSince(entries, cutoff) <= |entries|
    ensures entries != [] && entries[0].stamp < cutoff ==> StampsSince(entries, cutoff) < |entries|
  {
    if entries != [] {
      FewStamps(entries[..|entries| - 1], cutoff);
    }
  }

  lemma {:induction false} FourEnter(entries: seq<Entry>, lag: int)
    requires |entries| <= 4 && Entries(entries, lag)
    ensures Enterable(entries, lag)
  {
    if entries != [] {
      var last := |entries| - 1;
      FourEnter(entries[..last], lag);
      FewStamps(entries[..last], entries[last].clock.at - CAP);
    }
  }

  lemma FiveAreEntries(gap: nat, lag: nat)
    requires gap <= CAP + 1 <= gap + lag
    ensures Entries(FiveEntries(gap), lag)
  {
    hide FiveEntries, FiveEntry;
    ReferencesDiffer();
    hide REFERENCES;
  }

  lemma FiveEnter(gap: nat, lag: nat)
    requires gap <= CAP + 1 <= gap + lag
    ensures Enterable(FiveEntries(gap), lag)
    ensures |FiveEntries(gap)| == 5 == StampsIn(FiveEntries(gap), EPOCH, EPOCH + gap)
  {
    hide StampsIn, StampsSince, FiveEntries, FiveEntry, Enterable, Entries;
    var f := FiveEntries(gap);
    FiveAreEntries(gap, lag);
    FirstFour(f, lag);
    FourEnter(f[..4], lag);
    FewStamps(f[..4], EPOCH + 1);
    EnterableFifth(f, lag);
    AllIn(f, EPOCH, EPOCH + gap);
  }

  lemma FirstFour(entries: seq<Entry>, lag: int)
    requires |entries| == 5 && Entries(entries, lag)
    ensures Entries(entries[..4], lag)
  {
  }

  lemma EnterableFifth(entries: seq<Entry>, lag: int)
    requires |entries| == 5 && Entries(entries, lag) && Enterable(entries[..4], lag)
    requires StampsSince(entries[..4], entries[4].clock.at - CAP) < MAX_PROFIT_COST_POA_CLAIM_COUNT
    ensures Enterable(entries, lag)
  {
    hide StampsSince;
  }

  lemma {:induction false} AllIn(entries: seq<Entry>, from: int, to: int)
    requires forall k | 0 <= k < |entries| :: from <= entries[k].stamp <= to
    ensures StampsIn(entries, from, to) == |entries|
  {
    if entries != [] {
      AllIn(entries[..|entries| - 1], from, to);
    }
  }

  /** The least of a window's length and a second more than the cap. */
  function Gap(length: nat): nat { if length <= CAP then length else CAP + 1 }

  /** The run of five submissions that puts five claims into a window longer than the lag leaves room for. */
  function FiveClaims(length: nat): seq<Action> { EnteredAll(FiveEntries(Gap(length))) }

  /**
   For every lag and every window longer than 365 days less that lag there is a run, from an empty service and with
   valid clocks, whose rules read the clock within the lag, and after which the window holds five claims.
   */
  lemma LagLetsAFifthIn(lag: nat, length: nat)
    requires length > CAP - lag
    ensures PromptRun(Initial([GRANTED]), FiveClaims(length), lag)
    ensures ActiveIn(After([GRANTED], FiveClaims(length)).db.claims, 0, EPOCH, EPOCH + length) == 5
  {
    hide EnteredAll, FiveEntries, PromptRun, After, Initial, ActiveIn;
    FiveHeld(Gap(length), lag);
    var claims := After([GRANTED], FiveClaims(length)).db.claims;
    WiderHoldsMore(claims, 0, EPOCH, EPOCH + Gap(length), EPOCH + length);
    AtMostAll(claims, 0, EPOCH, EPOCH + length);
  }

  lemma FiveHeld(gap: nat, lag: nat)
    requires gap <= CAP + 1 <= gap + lag
    ensures PromptRun(Initial([GRANTED]), EnteredAll(FiveEntries(gap)), lag)
    ensures var claims := After([GRANTED], EnteredAll(FiveEntries(gap))).db.claims;
            |claims| == 5 == ActiveIn(claims, 0, EPOCH, EPOCH + gap)
  {
    hide *;
    var entries := FiveEntries(gap);
    FiveEnter(gap, lag);
    EntersAll(entries, lag);
    var claims := After([GRANTED], EnteredAll(entries)).db.claims;
    EntriesCount(claims, entries, EPOCH, EPOCH + gap);
    SameNumber(claims, entries);
  }

  lemma SameNumber(claims: seq<Claim>, entries: seq<Entry>)
    requires HoldsEntries(claims, entries)
    ensures |claims| == |entries|
  {
  }

  lemma {:induction false} WiderHoldsMore(claims: seq<Claim>, app: nat, from: int, to: int, wider: int)
    requires to <= wider
    ensures ActiveIn(claims, app, from, to) <= ActiveIn(claims, app, from, wider)
  {
    if claims != [] {
      WiderHoldsMore(claims[..|claims| - 1], app, from, to, wider);
    }
  }

  lemma {:induction false} AtMostAll(claims: seq<Claim>, app: nat, from: int, to: int)
    ensures ActiveIn(claims, app, from, to) <= |claims|
  {
    if claims != [] {
      AtMostAll(claims[..|claims| - 1], app, from, to);
    }
  }

  ghost predicate CappedAfter(applications: seq<Application>, actions: seq<Action>, lag: int, app: nat, from: int,
                              to: int) {
    PromptRun(Initial(applications), actions, lag) ==>
      ActiveIn(After(applications, actions).db.claims, app, from, to) <= MAX_PROFIT_COST_POA_CLAIM_COUNT
  }

  /** Every prompt run keeps at most four claims in every window of the length. */
  ghost predicate AlwaysCapped(lag: int, length: int) {
    forall applications: seq<Application>, actions: seq<Action>, app: nat, from: int, to: int ::
      to == from + length ==> CappedAfter(applications, actions, lag, app, from, to)
  }

  /** The cap holds for exactly the windows of at most 365 days less the lag. */
  lemma CapExact(lag: nat, length: nat)
    ensures AlwaysCapped(lag, length) <==> length <= CAP - lag
  {
    hide PromptRun, ActiveIn, FiveClaims, After, Initial;
    if length <= CAP - lag {
      forall applications: seq<Application>, actions: seq<Action>, app: nat, from: int, to: int | to == from + length
        ensures CappedAfter(applications, actions, lag, app, from, to)
      {
        if PromptRun(Initial(applications), actions, lag) {
          EveryRunCapped(applications, actions, lag, app, from, to);
        }
      }
    } else {
      LagLetsAFifthIn(lag, length);
      assert !CappedAfter([GRANTED], FiveClaims(length), lag, 0, EPOCH, EPOCH + length);
    }
  }

  // ------------------------------------------------------ a commit between two queries

  /** A zero-rated profit cost that is approved automatically. */
  const LATE: Action := Entered(Entry("INQC-ACEF-HJKL", EPOCH, EpochClock()))

  lemma ApprovedOutright()
    ensures var db := After([GRANTED], [LATE]).db;
            |db.ledger| == 1 && db.ledger[0].createdAt == EPOCH
  {
    var db := Initial([GRANTED]).db;
    var s, env := LATE.submission, LATE.env;
    assert [LATE] == [] + [LATE];
    OneMore(Initial([GRANTED]), [], LATE);
    EntryAccepted(db, s);
    ApprovedVerdict(db, env.clock);
    assert Approves(db, s, env);
    hide CheckSubmission, AutoVerdict, Submitting, NewClaim, StatusAfter, Creates, PoaLines;
    SubmissionAdds(db, s, env);
    ApprovalAdds(db, s, env);
    LateLines(db, env);
  }

  lemma ApprovedVerdict(db: Database, clock: Clock)
    requires db == Initial([GRANTED]).db
    ensures AutoVerdict(db, 0, PROFIT_FORM, clock).AutoApprove?
  {
    VerdictExact(PROFIT_FORM, GRANTED, ClaimsOf(db.claims, 0), clock);
  }

  lemma LateLines(db: Database, env: SubmitEnv)
    requires |db.applications| > 0
    ensures var claim := NewClaim(db, 0, PROFIT_FORM, env);
            PoaLines(claim, FromSubmitted(claim)).Some? && |PoaLines(claim, FromSubmitted(claim)).value| == 1
  {
  }

  /**
   The lookups are read before the payment commits and the lines after it, in one window: the stream starts and breaks
   off with nothing sent, whatever the provider service answers.
   */
  method LateCommitBreaksTheStream(format: seq<string> -> string, describe: ReportRow -> SourceLine, firms: seq<Firm>)
    returns (r: Generated)
    ensures r == Streamed([], Raised)
  {
    var earlier, later := After([GRANTED], []).db, After([GRANTED], [LATE]).db;
    LateQueries(describe);
    hide After, FirmCodes, LineTypes, SourceLines, FirmName, Classify, PreChecked, WrittenAtOnce;
    var lines := SourceLines(describe, later, EPOCH, EPOCH + 1);
    r := Execute(format, FirmCodes(describe, earlier, EPOCH, EPOCH + 1), firms, LineTypes(earlier, EPOCH, EPOCH + 1),
                 lines);
    assert lines[0].lineType !in LineTypes(earlier, EPOCH, EPOCH + 1);
  }

  /** The first two queries find nothing, the third one line. */
  lemma LateQueries(describe: ReportRow -> SourceLine)
    ensures var earlier, later := After([GRANTED], []).db, After([GRANTED], [LATE]).db;
            && FirmCodes(describe, earlier, EPOCH, EPOCH + 1) == [] && LineTypes(earlier, EPOCH, EPOCH + 1) == []
            && |SourceLines(describe, later, EPOCH, EPOCH + 1)| == 1
  {
    ApprovedOutright();
    OneRowInTheWindow(After([GRANTED], [LATE]).db.ledger);
    EveryRunReportedOnce([GRANTED], [LATE], EPOCH, EPOCH + 1);
    NothingEarlier();
    hide After, Report, InWindow;
  }

  lemma OneRowInTheWindow(ledger: seq<LedgerRow>)
    requires |ledger| == 1 && ledger[0].createdAt == EPOCH
    ensures |InWindow(ledger, EPOCH, EPOCH + 1)| == 1
  {
    assert InWindow(ledger[..0], EPOCH, EPOCH + 1) == [];
  }

  lemma NothingEarlier()
    ensures var db := After([GRANTED], []).db; Report(db, InWindow(db.ledger, EPOCH, EPOCH + 1)) == []
  {
  }

  /**
   The first report is read before the payment commits, the next one after it: the row, stamped in the first window, is
   in neither.
   */
  lemma LateRowIsInNeitherReport(before: int)
    requires before >= EPOCH + 1
    ensures var first, second := After([GRANTED], []).db, After([GRANTED], [LATE]).db;
            && |second.ledger| == 1
            && Listings(WindowReport(first, EPOCH, EPOCH + 1), second.ledger[0])
               + Listings(WindowReport(second, EPOCH + 1, before), second.ledger[0]) == 0
  {
    ApprovedOutright();
    hide After, WindowReport, Listings;
    var row := After([GRANTED], [LATE]).db.ledger[0];
    assert [LATE][..0] == [];
    assert After([GRANTED], []).db.ledger == [] by { NothingYet(); }
    ConsecutiveWindows([GRANTED], [LATE], 0, EPOCH, EPOCH + 1, before, row);
  }

  lemma NothingYet()
    ensures After([GRANTED], []).db.ledger == []
  {
  }

  /** The same claim, under a certificate that starts in December 9999: the rules raise, and it stays submitted. */
  lemma RulesRaiseAtTheEndOfTime()
    ensures var application := GRANTED.(certificateStart := Some(Date(9999, 12, 1)));
            var db := After([application], [LATE]).db;
            |db.claims| == 1 && db.claims[0].status == Submitted && db.decisions == [] && db.ledger == []
  {
    var application := GRANTED.(certificateStart := Some(Date(9999, 12, 1)));
    var w := Initial([application]);
    var s, env := LATE.submission, LATE.env;
    assert [LATE] == [] + [LATE];
    OneMore(w, [], LATE);
    SubmissionAccepted(w.db, s);
    assert CheckSubmission(w.db, s) == Ok(PROFIT_FORM);
    BeyondCalendarExactly(PROFIT_FORM, application);
    assert AutoVerdict(w.db, 0, PROFIT_FORM, env.clock).RulesRaise?;
    hide CheckSubmission, Submitting, AutoVerdict, NewClaim;
    SubmissionAtomic(w.db, s, env);
  }

  // --------------------------------------------------------------- a paid nil bill

  const NIL_FORM: ClaimForm := ClaimForm(NilBill, None, None, Some(0.0), None)

  const NIL_BILL: Action :=
    SubmitClaim(Submission(0, NIL_FORM, true, true, true), LeftToCaseworker(BILL_REFERENCE))

  const NIL_PAYMENT: Payment := Payment(0, BILL_REFERENCE, EMPTY)

  /** The nil bill is submitted, then locked for payment, and paid with no one else at work. */
  const NIL_PAID: seq<Action> :=
    [NIL_BILL] + [LockForPayment(0, NIL_PAYMENT, EPOCH), ReadClaims(0), Write(0), Commit(0)]

  lemma NilBillSubmitted(w: World)
    requires w == Initial([GRANTED])
    ensures var after := Apply(w, NIL_BILL);
            && after.txs == map[] && after.locks == map[] && after.db.applications == [GRANTED]
            && |after.db.claims| == 1 && IsNew(after.db.claims[0], NIL_BILL.submission, BILL_REFERENCE)
            && after.db.claims[0].Amount() == 0
  {
    var s, env := NIL_BILL.submission, NIL_BILL.env;
    SubmissionAccepted(w.db, s);
    AddsOneClaim(w, s, BILL_REFERENCE);
    assert CheckSubmission(w.db, s) == Ok(NIL_FORM);
    StoreRoundOfWhole(0.0);
    assert NewClaim(w.db, 0, NIL_FORM, env).Amount() == 0;
    hide CheckSubmission, Submitting, NewClaim, AutoVerdict;
    SubmissionAdds(w.db, s, env);
    assert Apply(w, NIL_BILL).db.claims[0] == Added(w.db, s, env);
  }

  lemma NilBillPaid(db: Database)
    requires db.applications == [GRANTED] && |db.claims| == 1
    requires IsNew(db.claims[0], NIL_BILL.submission, BILL_REFERENCE)
    ensures var after := Paying(db, NIL_PAYMENT, EPOCH, true);
            after.applications == db.applications && after.claims == [db.claims[0].(status := PaidInFull)]
  {
    assert FindByReference(db.claims, BILL_REFERENCE) == Some(0);
    CheckExact(NilBill, None, EMPTY);
    hide FindByReference, BillLines, RecoupmentLines, Sources, Recoupable, Check;
  }

  lemma NothingPaidFor(claim: Claim)
    requires claim.app == 0 && claim.Amount() == 0
    ensures PaidTotal(ClaimsOf([claim], 0)) == 0
  {
    assert [claim][..0] == [];
    assert ClaimsOf([claim], 0) == [claim];
  }

  /** A run, from an empty service, after which the nil bill is paid and the application is on every later forecast. */
  lemma PaidNilBillStaysListed(reportDate: Date)
    ensures var db := After([GRANTED], NIL_PAID).db;
            && |db.applications| == 1 == |db.claims|
            && db.claims[0].claimType == NilBill && db.claims[0].IsPaid()
            && Candidate(db, 0, true, None).Listed(reportDate)
  {
    hide Apply, Paying, ClaimsOf, PaidTotal, ForecastCandidate.RemainingCostLimit;
    var w0 := Initial([GRANTED]);
    NilBillSubmitted(w0);
    var w1 := Apply(w0, NIL_BILL);
    OneMore(w0, [], NIL_BILL);
    RunsOn(w0, [NIL_BILL], NIL_PAID[1..]);
    SerialPayment(w1, 0, NIL_PAYMENT, EPOCH);
    NilBillPaid(w1.db);
    var db := After([GRANTED], NIL_PAID).db;
    NothingPaidFor(db.claims[0]);
    EveryRunListedExactly([GRANTED], NIL_PAID, 0, true, None, reportDate);
  }
}
