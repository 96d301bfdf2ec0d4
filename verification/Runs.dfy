/** What holds after every run: any submissions and any interleaving of any number of assessments. */
module Runs {
  import opened Options
  import opened Claims
  import opened PayInFullAmounts
  import opened Tables
  import opened Consistency
  import opened Ledger
  import opened Assessments

  function After(applications: seq<Application>, actions: seq<Action>): World {
    Run(Initial(applications), actions)
  }

  /** Every run stays consistent: committed tables, held locks and private writes. */
  lemma EveryRunConsistent(applications: seq<Application>, actions: seq<Action>)
    ensures Invariant(After(applications, actions))
  {
    InitialFits(applications);
    RunKeeps(Initial(applications), actions);
  }

  // ------------------------------------------------------------ one decision per claim

  function DecisionsOn(decisions: seq<Decision>, c: nat): seq<Decision> {
    if decisions == [] then []
    else
      var last := decisions[|decisions| - 1];
      DecisionsOn(decisions[..|decisions| - 1], c) + if last.claim == c then [last] else []
  }

  lemma {:induction false} OneDecision(decisions: seq<Decision>, c: nat)
    requires forall i, j | 0 <= i < j < |decisions| :: decisions[i].claim != decisions[j].claim
    ensures match LatestDecision(decisions, c)
            case None => DecisionsOn(decisions, c) == []
            case Some(d) => DecisionsOn(decisions, c) == [d]
  {
    if decisions != [] {
      var last := |decisions| - 1;
      OneDecision(decisions[..last], c);
      if decisions[last].claim == c && LatestDecision(decisions[..last], c).Some? {
        LatestIsOne(decisions[..last], c);
      }
    }
  }

  lemma {:induction false} LatestIsOne(decisions: seq<Decision>, c: nat)
    requires LatestDecision(decisions, c).Some?
    ensures LatestDecision(decisions, c).value in decisions && LatestDecision(decisions, c).value.claim == c
  {
    var last := |decisions| - 1;
    if decisions[last].claim != c {
      LatestIsOne(decisions[..last], c);
    }
  }

  /**
   After every run each claim has at most one decision, and its status says which:
   submitted means none, paid in full one payment, rejected one rejection.
   */
  lemma EveryRunOneDecision(applications: seq<Application>, actions: seq<Action>, c: nat)
    requires c < |After(applications, actions).db.claims|
    ensures var db := After(applications, actions).db;
            var decisions := DecisionsOn(db.decisions, c);
            match db.claims[c].status
            case Submitted => decisions == []
            case PaidInFull => |decisions| == 1 && decisions[0].status == PayInFull && decisions[0].amounts.Some?
            case Rejected => |decisions| == 1 && decisions[0].status == Reject
            case _ => false
  {
    EveryRunConsistent(applications, actions);
    var db := After(applications, actions).db;
    assert ClaimFits(db.claims[c], |db.applications|);
    assert StatusFits(db.claims[c], LatestDecision(db.decisions, c));
    OneDecision(db.decisions, c);
  }

  lemma ApplyEvolves(w: World, action: Action) returns (touched: nat)
    requires Invariant(w)
    ensures Evolves(w.db, Apply(w, action).db, touched)
  {
    hide Invariant, Submitting, PaymentLines, RejectedManually, Paid;
    touched := |w.db.claims|;
    match action
    case SubmitClaim(s, env) => SubmittingEvolves(w.db, s, env);
    case Commit(tx) =>
      if tx in w.txs && ReadyToCommit(w.txs[tx]) {
        TxClaims(w, tx);
        var t := w.txs[tx];
        touched := t.claim;
        if t.job.RejectionJob? {
          RejectedManuallyEvolves(w.db, t.claim, t.at);
        } else {
          PaidEvolves(w.db, t.claim, t.job.amounts, t.phase.lines, t.at);
        }
      }
    case _ =>
  }

  /** A decided claim is never changed again, nor are its invoice lines. */
  lemma {:induction false} DecidedForever(w: World, actions: seq<Action>, c: nat)
    requires Invariant(w) && c < |w.db.claims| && w.db.claims[c].status != Submitted
    ensures c < |Run(w, actions).db.claims| && Run(w, actions).db.claims[c] == w.db.claims[c]
    ensures LinesOf(Run(w, actions).db.ledger, c) == LinesOf(w.db.ledger, c)
    ensures |Run(w, actions).db.applications| == |w.db.applications|
  {
    hide Invariant;
    if actions != [] {
      var before := Run(w, actions[..|actions| - 1]);
      DecidedForever(w, actions[..|actions| - 1], c);
      RunKeeps(w, actions[..|actions| - 1]);
      var touched := ApplyEvolves(before, actions[|actions| - 1]);
    }
  }

  /** Once one assessment of a claim has committed, every later one conflicts, however the run continues. */
  lemma LaterAssessmentsConflict(w: World, actions: seq<Action>, c: nat, tx: nat, entered: Option<Amounts>)
    requires Invariant(w) && c < |w.db.claims| && w.db.claims[c].status != Submitted
    ensures var later := Run(w, actions);
            && c < |later.db.claims|
            && (tx !in later.txs ==>
                  Lock(later, tx, w.db.claims[c].app, w.db.claims[c].reference, entered) == Failed(Conflict))
  {
    DecidedForever(w, actions, c);
    RunKeeps(w, actions);
    var later := Run(w, actions);
    assert ClaimFits(w.db.claims[c], |w.db.applications|);
    if tx !in later.txs {
      FoundByReference(later.db, later.recouped, c);
      if c in later.locks {
        TxClaims(later, later.locks[c]);
      }
    }
  }

  lemma FoundByReference(db: Database, recouped: Recouped, c: nat)
    requires Consistent(db, recouped) && c < |db.claims|
    ensures FindByReference(db.claims, db.claims[c].reference) == Some(c)
  {
    ReferencesFit(db, recouped, FindByReference(db.claims, db.claims[c].reference).value, c);
  }

  // ------------------------------------------------------ what an assessment meets

  /** The claim of an application with the reference, if there is one. */
  predicate IsNamed(claims: seq<Claim>, app: nat, reference: string, c: nat) {
    c < |claims| && claims[c].app == app && claims[c].reference == reference
  }

  /** A claim may be assessed while it is submitted; otherwise there is a conflict, or no such claim. */
  lemma AssessableExactly(db: Database, recouped: Recouped, app: nat, reference: string)
    requires Consistent(db, recouped)
    ensures match Assessable(db, app, reference)
            case Ok(c) => IsNamed(db.claims, app, reference, c) && db.claims[c].status == Submitted
            case Err(Conflict) =>
              exists c: nat :: IsNamed(db.claims, app, reference, c) && db.claims[c].status != Submitted
            case Err(e) => e == NoSuchClaim && forall c: nat :: !IsNamed(db.claims, app, reference, c)
  {
    var found := FindByReference(db.claims, reference);
    forall c: nat | IsNamed(db.claims, app, reference, c)
      ensures found == Some(c) && app < |db.applications|
    {
      FoundByReference(db, recouped, c);
      assert ClaimFits(db.claims[c], |db.applications|);
    }
    hide Consistent, FindByReference;
    if found.Some? && db.claims[found.value].app == app {
      assert IsNamed(db.claims, app, reference, found.value);
    }
  }

  /**
   Asking for a claim: one transaction asks once; it waits while another holds the row with the reference, whatever its
   application; then it acquires the claim, or fails for the claim or for what was entered.
   */
  lemma LockExactly(w: World, tx: nat, app: nat, reference: string, entered: Option<Amounts>)
    requires Invariant(w)
    ensures var waits := app < |w.db.applications|
                         && exists c :: c in w.locks && c < |w.db.claims| && w.db.claims[c].reference == reference;
            match Lock(w, tx, app, reference, entered)
            case Running => tx in w.txs
            case Waits => tx !in w.txs && waits
            case Failed(e) =>
              && tx !in w.txs && !waits
              && if Assessable(w.db, app, reference).Err? then e == Assessable(w.db, app, reference).error
                 else entered.Some?
                      && Decided(w.db.claims[Assessable(w.db, app, reference).value], entered.value).Err?
                      && e == Refused(Decided(w.db.claims[Assessable(w.db, app, reference).value], entered.value).error)
            case Acquired(c, job) =>
              && tx !in w.txs && !waits && c !in w.locks
              && IsNamed(w.db.claims, app, reference, c) && w.db.claims[c].status == Submitted
              && if entered.None? then job == RejectionJob
                 else job.PaymentJob? && Decided(w.db.claims[c], entered.value) == Ok(job.amounts)
  {
    InvariantConsistent(w);
    AssessableExactly(w.db, w.recouped, app, reference);
    WaitsFor(w, reference);
    hide Invariant, Decided, FindByReference, Assessable;
    if Assessable(w.db, app, reference).Ok? {
      FoundAssessable(w.db, app, reference);
    }
  }

  lemma FoundAssessable(db: Database, app: nat, reference: string)
    requires Assessable(db, app, reference).Ok?
    ensures app < |db.applications|
    ensures FindByReference(db.claims, reference) == Some(Assessable(db, app, reference).value)
  {
  }

  /** A row with the reference is locked exactly when the one found is. */
  lemma WaitsFor(w: World, reference: string)
    requires Invariant(w)
    ensures var found := FindByReference(w.db.claims, reference);
            found.Some? && found.value in w.locks <==>
            exists c :: c in w.locks && c < |w.db.claims| && w.db.claims[c].reference == reference
  {
    InvariantConsistent(w);
    hide Invariant, Consistent;
    var found := FindByReference(w.db.claims, reference);
    forall c: nat | c < |w.db.claims| && w.db.claims[c].reference == reference
      ensures found == Some(c)
    {
      FoundByReference(w.db, w.recouped, c);
    }
    hide FindByReference;
  }

  /** However a transaction ends, the claim it held is free for others, and they go on as they were. */
  predicate Frees(w: World, tx: nat, after: World)
    requires tx in w.txs
  {
    && tx !in after.txs && w.txs[tx].claim !in after.locks
    && forall other | other in w.txs && other != tx :: other in after.txs && after.txs[other] == w.txs[other]
  }

  lemma ReleaseFrees(w: World, tx: nat)
    requires tx in w.txs
    ensures Frees(w, tx, Release(w, tx))
  {
  }

  lemma RollbackFrees(w: World, tx: nat)
    requires tx in w.txs
    ensures Frees(w, tx, Apply(w, Rollback(tx))) && Apply(w, Rollback(tx)).db == w.db
  {
    ReleaseFrees(w, tx);
    hide Frees;
  }

  lemma CommitFrees(w: World, tx: nat)
    requires Invariant(w) && tx in w.txs && ReadyToCommit(w.txs[tx])
    ensures Frees(w, tx, Apply(w, Commit(tx)))
  {
    hide *;
    TxClaims(w, tx);
    CommitReleases(w, tx);
    ReleaseFrees(w, tx);
    SameFrees(w, tx, Release(w, tx), Apply(w, Commit(tx)));
  }

  lemma CommitReleases(w: World, tx: nat)
    requires tx in w.txs && ReadyToCommit(w.txs[tx]) && w.txs[tx].claim < |w.db.claims|
    ensures Apply(w, Commit(tx)).txs == Release(w, tx).txs && Apply(w, Commit(tx)).locks == Release(w, tx).locks
  {
    hide Paid, RejectedManually, AfterPayment;
  }

  lemma SameFrees(w: World, tx: nat, some: World, other: World)
    requires tx in w.txs && Frees(w, tx, some) && other.txs == some.txs && other.locks == some.locks
    ensures Frees(w, tx, other)
  {
  }

  /** Another part of the service may change one application at any time, and nothing else by that. */
  lemma UpdateExactly(w: World, app: nat, application: Application)
    ensures var after := Apply(w, UpdateApplication(app, application));
            && after == w.(db := w.db.(applications := after.db.applications))
            && |after.db.applications| == |w.db.applications|
            && forall k | 0 <= k < |w.db.applications| ::
                 after.db.applications[k] == if k == app then application else w.db.applications[k]
  {
  }

  /** A payment's lines, if they are refused, end it; otherwise it holds them, still unseen. */
  lemma WriteExactly(w: World, tx: nat)
    requires tx in w.txs && w.txs[tx].job.PaymentJob? && w.txs[tx].phase.ClaimsRead?
    requires w.txs[tx].claim < |w.db.claims|
    ensures var t, after := w.txs[tx], Apply(w, Write(tx));
            && after.db == w.db
            && match PaymentLines(w.db, t.claim, t.job.amounts, t.phase.seen, t.at)
               case None => tx !in after.txs && t.claim !in after.locks
               case Some(lines) =>
                 after.locks == w.locks && tx in after.txs
                 && after.txs[tx] == t.(phase := Written(t.phase.seen, lines))
  {
    hide PaymentLines;
  }

  // -------------------------------------------------------------------- the ledger

  /** After every run all invoice numbers are distinct and each claim's sequence numbers are 1, 2, ..., n. */
  lemma EveryRunUnique(applications: seq<Application>, actions: seq<Action>)
    ensures var db := After(applications, actions).db;
            && (forall i, j | 0 <= i < j < |db.ledger| :: db.ledger[i].line.number != db.ledger[j].line.number)
            && (forall i, j | 0 <= i < j < |db.ledger| ::
                  db.ledger[i].claim == db.ledger[j].claim ==> db.ledger[i].line.sequence != db.ledger[j].line.sequence)
            && (forall c: nat, k: nat | c < |db.claims| && k < |LinesOf(db.ledger, c)| ::
                  LinesOf(db.ledger, c)[k].sequence == k + 1)
  {
    EveryRunConsistent(applications, actions);
    var w := After(applications, actions);
    hide Consistent;
    UniqueConstraints(w.db, w.recouped);
    forall c: nat | c < |w.db.claims|
      ensures forall k: nat | k < |LinesOf(w.db.ledger, c)| :: LinesOf(w.db.ledger, c)[k].sequence == k + 1
    {
      SequencesContiguous(w.db, w.recouped, c);
    }
  }

  // ------------------------------------------- what a bill sees of the payments on account

  /** The claims read of a bill sees exactly the payments on account committed by then. */
  lemma BillSeesCommitted(w: World, tx: nat, p: nat)
    requires tx in w.txs && w.txs[tx].job.PaymentJob? && w.txs[tx].phase.Held?
    requires w.txs[tx].claim < |w.db.claims| && p < |w.db.claims| && p != w.txs[tx].claim
    ensures var after := Apply(w, ReadClaims(tx));
            && after.txs[tx].phase.ClaimsRead?
            && (p in after.txs[tx].phase.seen <==> IsRecoupable(w.db.claims[p], w.db.claims[w.txs[tx].claim].app))
  {
  }

  /** What a bill's transaction has seen is what its commit recoups. */
  lemma BillRecoupsWhatItSaw(w: World, tx: nat)
    requires Invariant(w) && tx in w.txs && w.txs[tx].job.PaymentJob? && w.txs[tx].phase.Written?
    requires !w.db.claims[w.txs[tx].claim].IsPoa()
    ensures var after := Apply(w, Commit(tx));
            var b := w.txs[tx].claim;
            && b in after.recouped && after.recouped[b] == w.txs[tx].phase.seen
            && b < |after.db.claims| && after.db.claims[b].IsPaid()
            && Invariant(after)
  {
    hide Invariant;
    TxClaims(w, tx);
    ApplyKeeps(w, Commit(tx));
  }

  /** A payment on account that has not committed is in no bill's view. */
  lemma NotSeenBeforeCommit(w: World, bill: nat, poa: nat)
    requires Invariant(w) && bill in w.txs && poa in w.txs && w.txs[bill].phase.ClaimsRead?
    ensures w.txs[poa].claim !in w.txs[bill].phase.seen
  {
    hide Consistent;
    var seen := w.txs[bill].phase.seen;
    assert TxFits(w.db, w.txs[bill]) && TxFits(w.db, w.txs[poa]);
    assert forall p | p in seen :: IsRecoupable(w.db.claims[p], w.db.claims[w.txs[bill].claim].app);
  }

  /** A payment's commit pays its claim and leaves the other transactions as they are. */
  lemma PaymentCommits(w: World, tx: nat)
    requires Invariant(w) && tx in w.txs && w.txs[tx].job.PaymentJob? && w.txs[tx].phase.Written?
    ensures var after := Apply(w, Commit(tx));
            var c := w.txs[tx].claim;
            && Invariant(after) && after.txs == w.txs - {tx}
            && c < |w.db.claims| == |after.db.claims| && after.db.claims[c] == w.db.claims[c].(status := PaidInFull)
            && forall k: nat | k < |w.db.claims| && k != c :: after.db.claims[k] == w.db.claims[k]
  {
    hide Invariant, PaymentEvents;
    TxClaims(w, tx);
    ApplyKeeps(w, Commit(tx));
  }

  /** A bill's write always succeeds and keeps what it saw. */
  lemma BillWrites(w: World, tx: nat)
    requires Invariant(w) && tx in w.txs && w.txs[tx].job.PaymentJob? && w.txs[tx].phase.ClaimsRead?
    requires w.txs[tx].claim < |w.db.claims| && !w.db.claims[w.txs[tx].claim].IsPoa()
    ensures var after := Apply(w, Write(tx));
            && Invariant(after) && after.db == w.db && tx in after.txs
            && after.txs[tx].job == w.txs[tx].job && after.txs[tx].claim == w.txs[tx].claim
            && after.txs[tx].phase.Written? && after.txs[tx].phase.seen == w.txs[tx].phase.seen
  {
    hide Invariant;
    ApplyKeeps(w, Write(tx));
  }

  /**
   The window that remains: a payment on account committing between a bill's claims read
   and the bill's commit is paid, is not recouped, and stays in the application's total.
   */
  lemma PaidInTheWindow(w: World, bill: nat, poa: nat)
    requires Invariant(w) && bill in w.txs && poa in w.txs && bill != poa
    requires w.txs[bill].claim < |w.db.claims| && w.txs[poa].claim < |w.db.claims|
    requires w.txs[bill].job.PaymentJob? && w.txs[bill].phase.ClaimsRead? && !w.db.claims[w.txs[bill].claim].IsPoa()
    requires w.txs[poa].job.PaymentJob? && w.txs[poa].phase.Written? && w.db.claims[w.txs[poa].claim].IsPoa()
    ensures var b, p := w.txs[bill].claim, w.txs[poa].claim;
            var after := Run(w, [Commit(poa), Write(bill), Commit(bill)]);
            && Invariant(after)
            && b in after.recouped && p !in after.recouped[b]
            && after.db.claims
               == w.db.claims[p := w.db.claims[p].(status := PaidInFull)][b := w.db.claims[b].(status := PaidInFull)]
  {
    hide Invariant, Apply;
    NotSeenBeforeCommit(w, bill, poa);
    OthersElsewhere(w, bill);
    PaymentCommits(w, poa);
    var w1 := Apply(w, Commit(poa));
    BillWrites(w1, bill);
    var w2 := Apply(w1, Write(bill));
    BillRecoupsWhatItSaw(w2, bill);
    PaymentCommits(w2, bill);
    ThreeSteps(w, Commit(poa), Write(bill), Commit(bill));
  }

  lemma OneMore(w: World, actions: seq<Action>, a: Action)
    ensures Run(w, actions + [a]) == Apply(Run(w, actions), a)
  {
    assert (actions + [a])[..|actions|] == actions;
  }

  lemma ThreeSteps(w: World, a: Action, b: Action, c: Action)
    ensures Run(w, [a, b, c]) == Apply(Apply(Apply(w, a), b), c)
  {
    assert [a, b, c] == [a, b] + [c] && [a, b] == [a] + [b] && [a] == [] + [a];
    hide Apply;
    OneMore(w, [], a);
    OneMore(w, [a], b);
    OneMore(w, [a, b], c);
  }

  // ------------------------------------------------------------------ running alone

  lemma FourSteps(w: World, a: Action, b: Action, c: Action, d: Action)
    ensures Run(w, [a, b, c, d]) == Apply(Apply(Apply(Apply(w, a), b), c), d)
  {
    assert [a, b, c, d] == [a, b, c] + [d];
    hide Apply;
    OneMore(w, [a, b, c], d);
    ThreeSteps(w, a, b, c);
  }

  /** A payment that acquires its claim and is left alone commits what a serial payment does. */
  lemma AcquiredPayment(w: World, tx: nat, c: nat, a: Amounts, at: int)
    requires c < |w.db.claims| && tx !in w.txs
    ensures var held := Start(w, tx, Acquired(c, PaymentJob(a)), at);
            var lines := PaymentLines(w.db, c, a, Recoupable(w.db.claims, w.db.claims[c].app, c), at);
            Committing(Writing(Reading(held, tx), tx), tx).db
            == if lines.Some? then Paid(w.db, c, a, lines.value, at) else w.db
  {
    hide PaymentLines, Paid, Recoupable;
  }

  lemma NothingAcquired(w: World, tx: nat)
    requires tx !in w.txs
    ensures Committing(Writing(Reading(w, tx), tx), tx) == w
  {
  }

  /** With its claim unlocked, a payment's four steps run back to back are one serial payment. */
  lemma SerialPayment(w: World, tx: nat, p: Payment, at: int)
    requires tx !in w.txs
    requires !Lock(w, tx, p.app, p.reference, Some(p.entered)).Waits?
    ensures Run(w, [LockForPayment(tx, p, at), ReadClaims(tx), Write(tx), Commit(tx)]).db == Paying(w.db, p, at, true)
  {
    FourSteps(w, LockForPayment(tx, p, at), ReadClaims(tx), Write(tx), Commit(tx));
    match Lock(w, tx, p.app, p.reference, Some(p.entered))
    case Acquired(c, job) =>
      hide Reading, Writing, Committing, Start;
      AcquiredPayment(w, tx, c, job.amounts, at);
    case _ =>
      hide Reading, Writing, Committing;
      NothingAcquired(w, tx);
  }

  /** So are a rejection's two steps. */
  lemma SerialRejection(w: World, tx: nat, app: nat, reference: string, at: int)
    requires tx !in w.txs
    requires !Lock(w, tx, app, reference, None).Waits?
    ensures Run(w, [LockForRejection(tx, app, reference, at), Commit(tx)]).db
            == Rejecting(w.db, app, reference, at, true)
  {
    var lock, commit := LockForRejection(tx, app, reference, at), Commit(tx);
    assert [lock, commit] == [lock] + [commit] && [lock] == [] + [lock];
    OneMore(w, [], lock);
    OneMore(w, [lock], commit);
    LockedRejection(w, tx, app, reference, at);
    hide Lock, Rejecting, RejectedManually, Start, Committing;
    match Lock(w, tx, app, reference, None)
    case Acquired(c, job) => AcquiredRejection(w, tx, c, at);
    case _ => NothingHeld(w, tx, Lock(w, tx, app, reference, None), at);
  }

  lemma LockedRejection(w: World, tx: nat, app: nat, reference: string, at: int)
    requires tx !in w.txs && !Lock(w, tx, app, reference, None).Waits?
    ensures match Lock(w, tx, app, reference, None)
            case Acquired(c, job) =>
              && c < |w.db.claims| && job == RejectionJob
              && Rejecting(w.db, app, reference, at, true) == RejectedManually(w.db, c, at)
            case _ => Rejecting(w.db, app, reference, at, true) == w.db
  {
    hide RejectedManually;
  }

  lemma AcquiredRejection(w: World, tx: nat, c: nat, at: int)
    requires c < |w.db.claims| && tx !in w.txs
    ensures Committing(Start(w, tx, Acquired(c, RejectionJob), at), tx).db == RejectedManually(w.db, c, at)
  {
    hide RejectedManually;
  }

  lemma NothingHeld(w: World, tx: nat, outcome: LockOutcome, at: int)
    requires tx !in w.txs && !outcome.Acquired?
    ensures Committing(Start(w, tx, outcome, at), tx) == w
  {
  }
}
