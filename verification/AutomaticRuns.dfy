/** What automatic payments alone can put on the ledger. */
module AutomaticRuns {
  import opened Options
  import opened Money
  import opened Claims
  import opened PayInFullAmounts
  import opened PaymentExtract
  import opened Tables
  import opened Consistency
  import opened Ledger
  import opened Assessments
  import opened Runs
  import opened Funds
  import opened Submissions

  // ---------------------------------------------------------- only automatic payments

  /** No amount is negative and the gross covers the zero-rated amount. */
  predicate Covered(form: ClaimForm) {
    && form.net.GetOr(0.0) >= 0.0 && form.gross.GetOr(0.0) >= 0.0 && form.vatZero.GetOr(0.0) >= 0.0
    && (form.gross.Some? && form.vatZero.Some? ==> form.vatZero.value <= form.gross.value)
  }

  /** A step of a run in which an application is only paid automatically and its limit is not lowered. */
  predicate AutomaticStep(w: World, action: Action, app: nat) {
    match action
    case SubmitClaim(s, env) => s.app == app && CheckSubmission(w.db, s).Ok? ==> Covered(CheckSubmission(w.db, s).value)
    case LockForPayment(_, p, _) => p.app != app
    case UpdateApplication(id, application) => id == app && app < |w.db.applications| ==>
                                                 NotLowered(w.db.applications[app], application)
    case _ => true
  }

  /** No limit is the highest. */
  predicate NotLowered(before: Application, after: Application) {
    after.Limit().Some? ==> before.Limit().Some? && after.Limit().value >= before.Limit().value
  }

  predicate AutomaticRun(w: World, actions: seq<Action>, app: nat) {
    actions != [] ==>
      && AutomaticRun(w, actions[..|actions| - 1], app)
      && AutomaticStep(Run(w, actions[..|actions| - 1]), actions[|actions| - 1], app)
  }

  /** The lines of a paid claim come to no more than the claim; an unpaid one has none. */
  ghost predicate PaysAtMost(claim: Claim, lines: seq<Line>) {
    if claim.IsPaid() then Sum(lines) <= claim.Amount() else lines == []
  }

  ghost predicate AllPayAtMost(claims: seq<Claim>, ledger: seq<LedgerRow>, app: nat) {
    forall c: nat | c < |claims| && claims[c].app == app :: PaysAtMost(claims[c], LinesOf(ledger, c))
  }

  ghost predicate WithinLimit(claims: seq<Claim>, app: nat, limit: Option<int>) {
    limit.Some? ==> PaidTotal(ClaimsOf(claims, app)) <= limit.value || PaidTotal(ClaimsOf(claims, app)) == 0
  }

  /** Nothing is paid above its claim, and the claims paid stay within the limit. */
  ghost predicate Modest(db: Database, app: nat, limit: Option<int>) {
    && app < |db.applications| && db.applications[app].Limit() == limit
    && AllPayAtMost(db.claims, db.ledger, app)
    && WithinLimit(db.claims, app, limit)
  }

  /** The running assessments of the application's claims are rejections. */
  ghost predicate OnlyRejecting(w: World, app: nat) {
    forall tx | tx in w.txs && w.txs[tx].claim < |w.db.claims| && w.db.claims[w.txs[tx].claim].app == app ::
      w.txs[tx].job.RejectionJob?
  }

  lemma CoveredStores(form: ClaimForm)
    requires Acceptable(form) || form.poaType != Some(ProfitCost)
    requires Covered(form)
    ensures Stored(form.net).GetOr(0) >= 0 && Stored(form.gross).GetOr(0) >= 0 && Stored(form.vatZero).GetOr(0) >= 0
    ensures form.gross.Some? && form.vatZero.Some? ==> StoreRound(form.vatZero.value) <= StoreRound(form.gross.value)
    ensures form.claimType == PaymentOnAccount && form.poaType == Some(ProfitCost) && form.net.Some? && form.gross.Some?
            ==> StoreRound(form.net.value) <= StoreRound(form.gross.value)
  {
    StoreRoundMonotone(0.0, form.net.GetOr(0.0));
    StoreRoundMonotone(0.0, form.gross.GetOr(0.0));
    StoreRoundMonotone(0.0, form.vatZero.GetOr(0.0));
    StoreRoundOfWhole(0.0);
    if form.gross.Some? && form.vatZero.Some? {
      StoreRoundMonotone(form.vatZero.value, form.gross.value);
    }
    if form.poaType == Some(ProfitCost) && form.net.Some? && form.gross.Some? && form.net.value <= form.gross.value {
      StoreRoundMonotone(form.net.value, form.gross.value);
    }
  }

  /** A profit cost accepted is a standard-rated pair or a zero-rated amount alone, and stays as entered. */
  lemma AcceptedProfitCost(db: Database, s: Submission)
    requires CheckSubmission(db, s).Ok?
    ensures var form := CheckSubmission(db, s).value;
            && (form.poaType == Some(ProfitCost) ==> Acceptable(form))
            && (form.claimType == PaymentOnAccount && form.poaType != Some(ProfitCost) ==>
                  form.gross.Some? && form.vatZero.Some?)
            && (form.claimType == PaymentOnAccount <==> form.poaType.Some?)
  {
    ValidateFormExact(s.form);
  }

  /** An automatic payment of a covered claim pays at most what the claim comes to. */
  lemma ApprovalPaysAtMostClaimed(db: Database, s: Submission, env: SubmitEnv)
    requires Approves(db, s, env) && Covered(CheckSubmission(db, s).value)
    ensures var claim := NewClaim(db, s.app, CheckSubmission(db, s).value, env);
            && PoaLines(claim, FromSubmitted(claim)).Some?
            && Sum(PoaLines(claim, FromSubmitted(claim)).value) <= claim.Amount()
  {
    ApprovalAdds(db, s, env);
    AcceptedProfitCost(db, s);
    var form := CheckSubmission(db, s).value;
    CoveredStores(form);
    PoaPaysAtMostClaimed(NewClaim(db, s.app, form, env));
  }

  /** A covered claim whose gross vanished in storing has a zero-rated amount that vanished too. */
  lemma CoveredWithinLimit(db: Database, s: Submission, env: SubmitEnv)
    requires Approves(db, s, env) && Covered(CheckSubmission(db, s).value)
    requires db.applications[s.app].Limit().Some?
    ensures PaidTotal(ClaimsOf(Submitting(db, s, env).claims, s.app)) <= db.applications[s.app].Limit().value
  {
    ApprovalWithinLimit(db, s, env);
    ApprovalAdds(db, s, env);
    AcceptedProfitCost(db, s);
    var form := CheckSubmission(db, s).value;
    if !GrossSurvives(form) {
      CoveredStores(form);
      var paid := PaidTotal(ClaimsOf(db.claims, s.app));
      assert paid as real + form.Total().value <= db.applications[s.app].Limit().value as real;
    }
  }

  lemma PaidTotalAppended(claims: seq<Claim>, claim: Claim, app: nat)
    ensures PaidTotal(ClaimsOf(claims + [claim], app))
         == PaidTotal(ClaimsOf(claims, app)) + if claim.app == app && claim.IsPaid() then claim.Amount() else 0
  {
    assert (claims + [claim])[..|claims|] == claims;
    if claim.app == app {
      PaidTotalMore(ClaimsOf(claims, app), claim);
    } else {
      assert ClaimsOf(claims, app) + [] == ClaimsOf(claims, app);
    }
  }

  /** Appending a claim with its lines. */
  lemma AppendedPaysAtMost(claims: seq<Claim>, ledger: seq<LedgerRow>, claim: Claim, lines: seq<Line>, at: int,
                           app: nat)
    requires AllPayAtMost(claims, ledger, app) && forall r | r in ledger :: r.claim < |claims|
    requires claim.app == app ==> PaysAtMost(claim, lines)
    ensures AllPayAtMost(claims + [claim], ledger + Rows(|claims|, lines, at), app)
  {
    hide PaysAtMost, LinesOf;
    var n := |claims|;
    forall c: nat | c <= n && (claims + [claim])[c].app == app
      ensures PaysAtMost((claims + [claim])[c], LinesOf(ledger + Rows(n, lines, at), c))
    {
      LinesOfAppend(ledger, n, lines, at, c);
      if c == n {
        NoLinesYet(ledger, n);
        assert [] + lines == lines;
      } else {
        assert PaysAtMost(claims[c], LinesOf(ledger, c));
        assert LinesOf(ledger, c) + [] == LinesOf(ledger, c);
      }
    }
  }

  lemma SubmissionKeepsModest(db: Database, recouped: Recouped, s: Submission, env: SubmitEnv, app: nat,
                              limit: Option<int>)
    requires Consistent(db, recouped) && Modest(db, app, limit)
    requires s.app == app && CheckSubmission(db, s).Ok? ==> Covered(CheckSubmission(db, s).value)
    ensures Modest(Submitting(db, s, env), app, limit)
  {
    assert forall r | r in db.ledger :: r.claim < |db.claims|;
    hide *;
    SubmissionAdds(db, s, env);
    if Creates(db, s, env) {
      AddedKeepsModest(db, s, env, app, limit);
    }
  }

  lemma AddedKeepsModest(db: Database, s: Submission, env: SubmitEnv, app: nat, limit: Option<int>)
    requires Creates(db, s, env) && Modest(db, app, limit) && forall r | r in db.ledger :: r.claim < |db.claims|
    requires s.app == app ==> Covered(CheckSubmission(db, s).value)
    ensures Modest(Submitting(db, s, env), app, limit)
  {
    SubmissionAdds(db, s, env);
    hide Creates, Submitting, AllPayAtMost, Covered, Added, AddedLines;
    var claim, lines := Added(db, s, env), AddedLines(db, s, env);
    AddedPaysAtMost(db, s, env);
    AppendedPaysAtMost(db.claims, db.ledger, claim, lines, env.decidedAt, app);
    PaidTotalAppended(db.claims, claim, app);
    if s.app == app && claim.IsPaid() && limit.Some? {
      CoveredWithinLimit(db, s, env);
    }
  }

  lemma AddedPaysAtMost(db: Database, s: Submission, env: SubmitEnv)
    requires Creates(db, s, env)
    ensures Added(db, s, env).app == s.app
    ensures Added(db, s, env).IsPaid() ==> Approves(db, s, env)
    ensures Covered(CheckSubmission(db, s).value) ==> PaysAtMost(Added(db, s, env), AddedLines(db, s, env))
  {
    hide PoaLines, Rejects, CheckSubmission;
    if Approves(db, s, env) && Covered(CheckSubmission(db, s).value) {
      ApprovalPaysAtMostClaimed(db, s, env);
    }
  }

  lemma {:induction false} PaidTotalSame(claims: seq<Claim>, after: seq<Claim>, app: nat)
    requires |after| == |claims|
    requires forall k | 0 <= k < |claims| ::
               after[k].app == claims[k].app && after[k].IsPaid() == claims[k].IsPaid()
               && after[k].Amount() == claims[k].Amount()
    ensures PaidTotal(ClaimsOf(after, app)) == PaidTotal(ClaimsOf(claims, app))
  {
    hide ClaimsOf, PaidTotal;
    if claims == [] {
      assert after == claims;
    } else {
      var last := |claims| - 1;
      PaidTotalSame(claims[..last], after[..last], app);
      PaidTotalAppended(claims[..last], claims[last], app);
      PaidTotalAppended(after[..last], after[last], app);
      assert claims[..last] + [claims[last]] == claims && after[..last] + [after[last]] == after;
    }
  }

  lemma RejectionKeepsModest(db: Database, c: nat, at: int, app: nat, limit: Option<int>)
    requires c < |db.claims| && db.claims[c].status == Submitted && Modest(db, app, limit)
    ensures Modest(RejectedManually(db, c, at), app, limit)
  {
    hide LinesOf;
    var after := RejectedManually(db, c, at);
    assert after.ledger == db.ledger;
    PaidTotalSame(db.claims, after.claims, app);
  }

  /** A payment of another application's claim. */
  lemma PaymentElsewhere(db: Database, c: nat, a: Amounts, lines: seq<Line>, at: int, app: nat, limit: Option<int>)
    requires c < |db.claims| && db.claims[c].app != app && Modest(db, app, limit)
    ensures Modest(Paid(db, c, a, lines, at), app, limit)
  {
    var after := Paid(db, c, a, lines, at);
    hide LinesOf, PaymentEvents, PaysAtMost;
    forall d: nat | d < |after.claims| && after.claims[d].app == app
      ensures PaysAtMost(after.claims[d], LinesOf(after.ledger, d))
    {
      LinesOfAppend(db.ledger, c, lines, at, d);
      assert LinesOf(db.ledger, d) + [] == LinesOf(db.ledger, d);
    }
    PaidTotalElsewhere(db.claims, after.claims, app);
  }

  lemma {:induction false} PaidTotalElsewhere(claims: seq<Claim>, after: seq<Claim>, app: nat)
    requires |after| == |claims|
    requires forall k | 0 <= k < |claims| ::
               after[k].app == claims[k].app && (claims[k].app == app ==> after[k] == claims[k])
    ensures ClaimsOf(after, app) == ClaimsOf(claims, app)
  {
    if claims != [] {
      PaidTotalElsewhere(claims[..|claims| - 1], after[..|claims| - 1], app);
    }
  }

  lemma CommitKeepsModest(w: World, tx: nat, app: nat, limit: Option<int>)
    requires Invariant(w) && OnlyRejecting(w, app) && Modest(w.db, app, limit)
    ensures Modest(Apply(w, Commit(tx)).db, app, limit) && OnlyRejecting(Apply(w, Commit(tx)), app)
  {
    hide Invariant, Modest, RejectedManually, Paid, AfterPayment, TxFits;
    if tx in w.txs && ReadyToCommit(w.txs[tx]) {
      TxClaims(w, tx);
      var t := w.txs[tx];
      if t.job.RejectionJob? {
        RejectionKeepsModest(w.db, t.claim, t.at, app, limit);
        RejectionKeepsApps(w.db, t.claim, t.at);
      } else {
        PaymentElsewhere(w.db, t.claim, t.job.amounts, t.phase.lines, t.at, app, limit);
        PaymentKeepsApps(w.db, t.claim, t.job.amounts, t.phase.lines, t.at);
      }
    }
  }

  lemma RejectionKeepsApps(db: Database, c: nat, at: int)
    requires c < |db.claims|
    ensures var after := RejectedManually(db, c, at).claims;
            |after| == |db.claims| && forall k | 0 <= k < |after| :: after[k].app == db.claims[k].app
  {
  }

  lemma PaymentKeepsApps(db: Database, c: nat, a: Amounts, lines: seq<Line>, at: int)
    requires c < |db.claims|
    ensures var after := Paid(db, c, a, lines, at).claims;
            |after| == |db.claims| && forall k | 0 <= k < |after| :: after[k].app == db.claims[k].app
  {
  }

  /** A lock taken for a payment is on a claim of the application named. */
  lemma LocksOwnClaim(w: World, tx: nat, app: nat, reference: string, entered: Option<Amounts>)
    requires Lock(w, tx, app, reference, entered).Acquired?
    ensures var c := Lock(w, tx, app, reference, entered).claim; c < |w.db.claims| && w.db.claims[c].app == app
    ensures entered.None? ==> Lock(w, tx, app, reference, entered).job.RejectionJob?
  {
    hide Decided;
  }

  lemma LockKeepsRejecting(w: World, tx: nat, own: nat, reference: string, entered: Option<Amounts>, at: int, app: nat)
    requires OnlyRejecting(w, app) && (entered.Some? ==> own != app)
    ensures OnlyRejecting(Start(w, tx, Lock(w, tx, own, reference, entered), at), app)
  {
    hide Lock;
    if Lock(w, tx, own, reference, entered).Acquired? {
      LocksOwnClaim(w, tx, own, reference, entered);
    }
  }

  lemma StartKeepsDatabase(w: World, tx: nat, outcome: LockOutcome, at: int)
    ensures Start(w, tx, outcome, at).db == w.db
  {
  }

  ghost predicate ModestNow(db: Database, app: nat) {
    app < |db.applications| && Modest(db, app, db.applications[app].Limit())
  }

  lemma OtherStepKeepsModest(w: World, action: Action, app: nat)
    requires OnlyRejecting(w, app) && ModestNow(w.db, app) && AutomaticStep(w, action, app)
    requires !action.SubmitClaim? && !action.Commit?
    ensures ModestNow(Apply(w, action).db, app) && OnlyRejecting(Apply(w, action), app)
  {
    hide AllPayAtMost, PaidTotal, ClaimsOf, Lock, Start, PaymentLines, Recoupable;
    match action
    case LockForPayment(tx, p, at) =>
      LockKeepsRejecting(w, tx, p.app, p.reference, Some(p.entered), at, app);
      StartKeepsDatabase(w, tx, Lock(w, tx, p.app, p.reference, Some(p.entered)), at);
    case LockForRejection(tx, own, reference, at) =>
      LockKeepsRejecting(w, tx, own, reference, None, at, app);
      StartKeepsDatabase(w, tx, Lock(w, tx, own, reference, None), at);
    case _ =>
  }

  lemma StepKeepsModest(w: World, action: Action, app: nat)
    requires Invariant(w) && OnlyRejecting(w, app) && ModestNow(w.db, app) && AutomaticStep(w, action, app)
    ensures ModestNow(Apply(w, action).db, app) && OnlyRejecting(Apply(w, action), app)
  {
    hide *;
    match action
    case SubmitClaim(s, env) =>
      InvariantConsistent(w);
      SubmitIs(w, s, env, app);
      AutomaticSubmission(w, s, env, app);
      var limit := LimitNow(w.db, app);
      SubmissionKeepsModest(w.db, w.recouped, s, env, app, limit);
      LimitStays(Submitting(w.db, s, env), app, limit);
    case Commit(tx) =>
      var limit := LimitNow(w.db, app);
      CommitKeepsModest(w, tx, app, limit);
      LimitStays(Apply(w, action).db, app, limit);
    case _ => OtherStepKeepsModest(w, action, app);
  }

  lemma LimitNow(db: Database, app: nat) returns (limit: Option<int>)
    requires ModestNow(db, app)
    ensures Modest(db, app, limit)
  {
    limit := db.applications[app].Limit();
  }

  lemma LimitStays(db: Database, app: nat, limit: Option<int>)
    requires Modest(db, app, limit)
    ensures ModestNow(db, app)
  {
  }

  lemma SubmitIs(w: World, s: Submission, env: SubmitEnv, app: nat)
    requires Invariant(w) && OnlyRejecting(w, app)
    ensures OnlyRejecting(Apply(w, SubmitClaim(s, env)), app)
            && Apply(w, SubmitClaim(s, env)).db == Submitting(w.db, s, env)
  {
    assert forall tx | tx in w.txs :: w.txs[tx].claim < |w.db.claims|;
    hide Invariant, Submitting;
    SubmissionAdds(w.db, s, env);
    hide Creates, Added, AddedLines;
  }

  lemma AutomaticSubmission(w: World, s: Submission, env: SubmitEnv, app: nat)
    requires AutomaticStep(w, SubmitClaim(s, env), app)
    ensures s.app == app && CheckSubmission(w.db, s).Ok? ==> Covered(CheckSubmission(w.db, s).value)
  {
  }

  lemma {:induction false} RunKeepsModest(w: World, actions: seq<Action>, app: nat)
    requires Invariant(w) && OnlyRejecting(w, app) && ModestNow(w.db, app) && AutomaticRun(w, actions, app)
    ensures ModestNow(Run(w, actions).db, app) && OnlyRejecting(Run(w, actions), app)
  {
    hide Invariant, ModestNow, OnlyRejecting, AutomaticStep, Apply;
    if actions != [] {
      var before := actions[..|actions| - 1];
      RunKeepsModest(w, before, app);
      RunKeeps(w, before);
      StepKeepsModest(Run(w, before), actions[|actions| - 1], app);
    }
  }

  /** Claim by claim, an application's ledger is at most what its paid claims come to. */
  lemma {:induction false} LedgerBelowClaims(claims: seq<Claim>, ledger: seq<LedgerRow>, app: nat, n: nat)
    requires AllPayAtMost(claims, ledger, app) && n <= |claims|
    ensures ByClaim(claims, ledger, app, n) <= PaidTotal(ClaimsOf(claims[..n], app))
  {
    hide LinesOf, ClaimsOf, PaidTotal;
    if n > 0 {
      LedgerBelowClaims(claims, ledger, app, n - 1);
      PaidTotalAppended(claims[..n - 1], claims[n - 1], app);
      assert claims[..n - 1] + [claims[n - 1]] == claims[..n];
    } else {
      assert claims[..0] == [];
      NothingPaid(app);
    }
  }

  lemma NothingPaid(app: nat)
    ensures PaidTotal(ClaimsOf([], app)) == 0
  {
  }

  lemma InitialModest(applications: seq<Application>, app: nat)
    requires app < |applications|
    ensures ModestNow(Initial(applications).db, app) && OnlyRejecting(Initial(applications), app)
  {
  }

  /**
   In every run in which an application is only paid automatically, for covered claims, and its limit is not lowered,
   neither the claims paid nor the invoice lines written exceed the limit it ends with. What caseworkers do with the
   claims of other applications, and whom they reject, is left open.
   */
  lemma AutomaticNeverOverspends(applications: seq<Application>, actions: seq<Action>, app: nat)
    requires app < |applications| && AutomaticRun(Initial(applications), actions, app)
    ensures var db := After(applications, actions).db;
            && app < |db.applications|
            && (db.applications[app].Limit().Some? ==>
                  var limit := db.applications[app].Limit().value;
                  var ceiling := if limit >= 0 then limit else 0;
                  && PaidTotal(ClaimsOf(db.claims, app)) <= ceiling
                  && AppTotal(db.claims, db.ledger, app) <= ceiling)
  {
    InitialFits(applications);
    InitialModest(applications, app);
    hide Invariant, AutomaticRun, Initial;
    RunKeepsModest(Initial(applications), actions, app);
    hide Run, AllPayAtMost;
    var w := After(applications, actions);
    AppTotalByClaim(w.db.claims, w.db.ledger, app);
    LedgerBelowClaims(w.db.claims, w.db.ledger, app, |w.db.claims|);
    assert w.db.claims[..|w.db.claims|] == w.db.claims;
  }
}
