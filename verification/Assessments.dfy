/**
 Any number of caseworker assessments running at once, interleaved with submissions.
 An assessment locks its claim row, reads it afresh, and either stops or holds the lock
 until it commits or rolls back. A payment also reads the other claims of the
 application, then writes its lines; nothing is visible to others before its commit.
 */
module Assessments {
  import opened Options
  import opened Claims
  import opened PayInFullAmounts
  import opened PaymentExtract
  import opened Tables
  import opened Consistency

  datatype Job = PaymentJob(amounts: Amounts) | RejectionJob

  datatype Phase = Held | ClaimsRead(seen: seq<nat>) | Written(seen: seq<nat>, lines: seq<Line>)

  /** `at` is the time the decision is stamped with. */
  datatype Tx = Tx(claim: nat, job: Job, at: int, phase: Phase)

  /** `db` is what is committed; `locks` maps a locked claim row to its transaction. */
  datatype World = World(db: Database, txs: map<nat, Tx>, locks: map<nat, nat>, recouped: Recouped)

  datatype Action =
    | SubmitClaim(submission: Submission, env: SubmitEnv)
    | LockForPayment(tx: nat, payment: Payment, at: int)
    | LockForRejection(tx: nat, app: nat, reference: string, at: int)
    | ReadClaims(tx: nat)
    | Write(tx: nat)
    | Commit(tx: nat)
    | Rollback(tx: nat)
    | UpdateApplication(app: nat, application: Application)
    | RecordEvents(events: seq<Event>)

  datatype LockOutcome = Running | Waits | Failed(error: AssessmentError) | Acquired(claim: nat, job: Job)

  /** What an assessment meets when it asks for its claim. `entered` is None for a rejection. */
  function Lock(w: World, tx: nat, app: nat, reference: string, entered: Option<Amounts>): LockOutcome {
    var found := FindByReference(w.db.claims, reference);
    if tx in w.txs then Running
    else if app < |w.db.applications| && found.Some? && found.value in w.locks then Waits
    else
      match Assessable(w.db, app, reference)
      case Err(e) => Failed(e)
      case Ok(c) =>
        match entered
        case None => Acquired(c, RejectionJob)
        case Some(amounts) =>
          match Decided(w.db.claims[c], amounts)
          case Err(e) => Failed(Refused(e))
          case Ok(a) => Acquired(c, PaymentJob(a))
  }

  function Start(w: World, tx: nat, outcome: LockOutcome, at: int): World {
    match outcome
    case Acquired(c, job) => w.(txs := w.txs[tx := Tx(c, job, at, Held)], locks := w.locks[c := tx])
    case _ => w
  }

  /** The end of a transaction, committed or not. */
  function Release(w: World, tx: nat): World
    requires tx in w.txs
  {
    w.(txs := w.txs - {tx}, locks := w.locks - {w.txs[tx].claim})
  }

  function Reading(w: World, tx: nat): World {
    if tx in w.txs && w.txs[tx].job.PaymentJob? && w.txs[tx].phase.Held? && w.txs[tx].claim < |w.db.claims| then
      var t := w.txs[tx];
      w.(txs := w.txs[tx := t.(phase := ClaimsRead(Recoupable(w.db.claims, w.db.claims[t.claim].app, t.claim)))])
    else w
  }

  function Writing(w: World, tx: nat): World {
    if tx in w.txs && w.txs[tx].job.PaymentJob? && w.txs[tx].phase.ClaimsRead? && w.txs[tx].claim < |w.db.claims| then
      var t := w.txs[tx];
      match PaymentLines(w.db, t.claim, t.job.amounts, t.phase.seen, t.at)
      case None => Release(w, tx)
      case Some(lines) => w.(txs := w.txs[tx := t.(phase := Written(t.phase.seen, lines))])
    else w
  }

  predicate ReadyToCommit(t: Tx) {
    if t.job.PaymentJob? then t.phase.Written? else t.phase.Held?
  }

  function Committing(w: World, tx: nat): World {
    if tx in w.txs && ReadyToCommit(w.txs[tx]) && w.txs[tx].claim < |w.db.claims| then
      var t := w.txs[tx];
      var done := Release(w, tx);
      match t.job
      case RejectionJob => done.(db := RejectedManually(w.db, t.claim, t.at))
      case PaymentJob(a) =>
        done.(db := Paid(w.db, t.claim, a, t.phase.lines, t.at),
              recouped := AfterPayment(w.db, w.recouped, t.claim, t.phase.seen))
    else w
  }

  function Apply(w: World, action: Action): World {
    match action
    case SubmitClaim(s, env) => w.(db := Submitting(w.db, s, env))
    case LockForPayment(tx, p, at) => Start(w, tx, Lock(w, tx, p.app, p.reference, Some(p.entered)), at)
    case LockForRejection(tx, app, reference, at) => Start(w, tx, Lock(w, tx, app, reference, None), at)
    case ReadClaims(tx) => Reading(w, tx)
    case Write(tx) => Writing(w, tx)
    case Commit(tx) => Committing(w, tx)
    case Rollback(tx) => if tx in w.txs then Release(w, tx) else w
    case UpdateApplication(app, application) =>
      if app < |w.db.applications| then w.(db := w.db.(applications := w.db.applications[app := application])) else w
    case RecordEvents(events) => w.(db := AddEvents(w.db, events))
  }

  function Run(w: World, actions: seq<Action>): World {
    if actions == [] then w else Apply(Run(w, actions[..|actions| - 1]), actions[|actions| - 1])
  }

  function Initial(applications: seq<Application>): World {
    World(Database(applications, [], [], [], []), map[], map[], map[])
  }

  // ------------------------------------------------------------------- invariant

  /** A transaction's private writes still fit the committed database. */
  ghost predicate TxFits(db: Database, t: Tx) {
    && t.claim < |db.claims| && db.claims[t.claim].status == Submitted
    && (t.job.PaymentJob? ==> Payable(db.claims[t.claim], t.job.amounts))
    && match t.phase
       case Held => true
       case ClaimsRead(seen) => t.job.PaymentJob? && RecoupFits(db.claims, t.claim, seen)
       case Written(seen, lines) =>
         && t.job.PaymentJob? && RecoupFits(db.claims, t.claim, seen)
         && PaymentLines(db, t.claim, t.job.amounts, seen, t.at) == Some(lines)
  }

  ghost predicate LocksFit(txs: map<nat, Tx>, locks: map<nat, nat>) {
    && (forall tx | tx in txs :: txs[tx].claim in locks && locks[txs[tx].claim] == tx)
    && (forall c | c in locks :: locks[c] in txs && txs[locks[c]].claim == c)
  }

  ghost predicate Invariant(w: World) {
    && Consistent(w.db, w.recouped)
    && LocksFit(w.txs, w.locks)
    && (forall tx | tx in w.txs :: TxFits(w.db, w.txs[tx]))
  }

  lemma InvariantConsistent(w: World)
    requires Invariant(w)
    ensures Consistent(w.db, w.recouped)
  {
  }

  // ---------------------------------------------------------- what a commit leaves alone

  /** Only the touched claim changes, and only while it awaited assessment. */
  ghost predicate Evolves(db: Database, db': Database, touched: nat) {
    && |db.applications| == |db'.applications|
    && |db.claims| <= |db'.claims|
    && (forall k: nat | k < |db.claims| && k != touched ::
          db'.claims[k] == db.claims[k] && LinesOf(db'.ledger, k) == LinesOf(db.ledger, k))
    && (touched < |db.claims| ==>
          && db.claims[touched].status == Submitted
          && db'.claims[touched] == db.claims[touched].(status := db'.claims[touched].status))
  }

  lemma DecideEvolves(db: Database, decision: Decision, status: ClaimStatus, lines: seq<Line>, at: int)
    requires decision.claim < |db.claims| && db.claims[decision.claim].status == Submitted
    ensures Evolves(db, Decide(db, decision, status, lines, at), decision.claim)
  {
    forall k: nat | k < |db.claims| && k != decision.claim
      ensures LinesOf(db.ledger + Rows(decision.claim, lines, at), k) == LinesOf(db.ledger, k)
    {
      LinesOfAppend(db.ledger, decision.claim, lines, at, k);
    }
  }

  lemma AutoDecidedEvolves(db: Database, verdict: Verdict, env: SubmitEnv)
    requires db.claims != [] && db.claims[|db.claims| - 1].status == Submitted
    ensures Evolves(db, AutoDecided(db, verdict, env), |db.claims| - 1)
    ensures |AutoDecided(db, verdict, env).claims| == |db.claims|
  {
    var c := |db.claims| - 1;
    if env.decided {
      match verdict
      case HoldForCaseworker =>
      case RulesRaise =>
      case AutoReject(reasons) =>
        DecideEvolves(db, Decision(c, Reject, None, reasons, env.decidedAt), Rejected, [], env.decidedAt);
      case AutoApprove =>
        var a := FromSubmitted(db.claims[c]);
        var lines := PoaLines(db.claims[c], a);
        if lines.Some? {
          DecideEvolves(db, Decision(c, PayInFull, Some(a), [], env.decidedAt), PaidInFull, lines.value, env.decidedAt);
        }
    }
  }

  lemma SubmittingEvolves(db: Database, s: Submission, env: SubmitEnv)
    ensures Evolves(db, Submitting(db, s, env), |db.claims|)
  {
    hide AutoDecided;
    if CheckSubmission(db, s).Ok? && env.created && UsableReference(db.claims, env.reference) {
      var form := CheckSubmission(db, s).value;
      var created := CreatedClaim(db, s.app, form, env);
      AutoDecidedEvolves(created, AutoVerdict(db, s.app, form, env.clock), env);
    }
  }

  lemma {:induction false} SourcesSame(before: seq<LedgerRow>, after: seq<LedgerRow>, ids: seq<nat>)
    requires forall p | p in ids :: LinesOf(after, p) == LinesOf(before, p)
    ensures Sources(after, ids) == Sources(before, ids)
  {
    if ids != [] {
      SourcesSame(before, after, ids[..|ids| - 1]);
    }
  }

  /** A running transaction is not disturbed by what others commit. */
  lemma TxSurvives(db: Database, db': Database, touched: nat, t: Tx)
    requires Evolves(db, db', touched) && TxFits(db, t) && t.claim != touched
    ensures TxFits(db', t)
  {
    if !t.phase.Held? {
      var seen := t.phase.seen;
      forall p | p in seen
        ensures p < |db'.claims| && db'.claims[p] == db.claims[p] && LinesOf(db'.ledger, p) == LinesOf(db.ledger, p)
      {
        assert IsRecoupable(db.claims[p], db.claims[t.claim].app);
      }
      assert RecoupFits(db'.claims, t.claim, seen);
      SourcesSame(db.ledger, db'.ledger, seen);
    }
  }

  lemma TxsSurvive(db: Database, db': Database, touched: nat, txs: map<nat, Tx>)
    requires Evolves(db, db', touched)
    requires forall tx | tx in txs :: TxFits(db, txs[tx]) && txs[tx].claim != touched
    ensures forall tx | tx in txs :: TxFits(db', txs[tx])
  {
    hide *;
    forall tx | tx in txs
      ensures TxFits(db', txs[tx])
    {
      TxSurvives(db, db', touched, txs[tx]);
    }
  }

  // --------------------------------------------------------------- every step keeps it

  lemma TxClaims(w: World, tx: nat)
    requires Invariant(w) && tx in w.txs
    ensures TxFits(w.db, w.txs[tx])
    ensures w.txs[tx].claim < |w.db.claims| && w.db.claims[w.txs[tx].claim].status == Submitted
  {
  }

  lemma SubmitKeeps(w: World, s: Submission, env: SubmitEnv)
    requires Invariant(w)
    ensures Invariant(Apply(w, SubmitClaim(s, env)))
  {
    hide Consistent, Submitting, TxFits, Evolves;
    SubmittingKeeps(w.db, w.recouped, s, env);
    SubmittingEvolves(w.db, s, env);
    forall tx | tx in w.txs
      ensures w.txs[tx].claim != |w.db.claims|
    {
      TxClaims(w, tx);
    }
    TxsSurvive(w.db, Submitting(w.db, s, env), |w.db.claims|, w.txs);
  }

  lemma StartKeeps(w: World, tx: nat, app: nat, reference: string, entered: Option<Amounts>, at: int)
    requires Invariant(w)
    ensures Invariant(Start(w, tx, Lock(w, tx, app, reference, entered), at))
  {
    hide Consistent, Lock, TxFits;
    match Lock(w, tx, app, reference, entered)
    case Acquired(c, job) => AcquiredFits(w, tx, app, reference, entered, at);
    case _ =>
  }

  /** What a lock acquires: an unlocked claim awaiting assessment, with a job that fits it. */
  lemma AcquiredFits(w: World, tx: nat, app: nat, reference: string, entered: Option<Amounts>, at: int)
    requires Invariant(w) && Lock(w, tx, app, reference, entered).Acquired?
    ensures var lock := Lock(w, tx, app, reference, entered);
            tx !in w.txs && lock.claim !in w.locks && TxFits(w.db, Tx(lock.claim, lock.job, at, Held))
  {
    hide Invariant;
  }

  lemma ReleaseKeeps(w: World, tx: nat)
    requires Invariant(w) && tx in w.txs
    ensures Invariant(Release(w, tx))
  {
    hide Consistent, TxFits;
  }

  /** A transaction may move on to any phase that fits. */
  lemma PhaseKeeps(w: World, tx: nat, t: Tx)
    requires Invariant(w) && tx in w.txs
    requires t.claim == w.txs[tx].claim && TxFits(w.db, t)
    ensures Invariant(w.(txs := w.txs[tx := t]))
  {
    hide Consistent, TxFits;
  }

  lemma ReadingKeeps(w: World, tx: nat)
    requires Invariant(w)
    ensures Invariant(Reading(w, tx))
  {
    hide Invariant;
    if tx in w.txs && w.txs[tx].job.PaymentJob? && w.txs[tx].phase.Held? {
      TxClaims(w, tx);
      var t := w.txs[tx];
      var seen := Recoupable(w.db.claims, w.db.claims[t.claim].app, t.claim);
      assert RecoupFits(w.db.claims, t.claim, seen);
      PhaseKeeps(w, tx, t.(phase := ClaimsRead(seen)));
    }
  }

  lemma WritingKeeps(w: World, tx: nat)
    requires Invariant(w)
    ensures Invariant(Writing(w, tx))
  {
    hide Invariant, PaymentLines;
    if tx in w.txs && w.txs[tx].job.PaymentJob? && w.txs[tx].phase.ClaimsRead? {
      TxClaims(w, tx);
      var t := w.txs[tx];
      match PaymentLines(w.db, t.claim, t.job.amounts, t.phase.seen, t.at)
      case None => ReleaseKeeps(w, tx);
      case Some(lines) => PhaseKeeps(w, tx, t.(phase := Written(t.phase.seen, lines)));
    }
  }

  lemma CommittingKeeps(w: World, tx: nat)
    requires Invariant(w)
    ensures Invariant(Committing(w, tx))
  {
    if tx in w.txs && ReadyToCommit(w.txs[tx]) {
      TxClaims(w, tx);
      ReleaseKeeps(w, tx);
      var t := w.txs[tx];
      if t.job.RejectionJob? {
        RejectionCommitKeeps(w, tx);
      } else {
        PaymentCommitKeeps(w, tx);
      }
    }
  }

  lemma RejectionCommitKeeps(w: World, tx: nat)
    requires Invariant(w) && tx in w.txs && w.txs[tx].job.RejectionJob? && w.txs[tx].phase.Held?
    ensures Invariant(Committing(w, tx))
  {
    hide Consistent, Evolves, Decide, TxFits;
    TxClaims(w, tx);
    var t := w.txs[tx];
    RejectedManuallyKeeps(w.db, w.recouped, t.claim, t.at);
    RejectedManuallyEvolves(w.db, t.claim, t.at);
    OthersElsewhere(w, tx);
    ReleaseKeeps(w, tx);
    TxsSurvive(w.db, RejectedManually(w.db, t.claim, t.at), t.claim, w.txs - {tx});
  }

  lemma PaymentCommitKeeps(w: World, tx: nat)
    requires Invariant(w) && tx in w.txs && w.txs[tx].job.PaymentJob? && w.txs[tx].phase.Written?
    ensures Invariant(Committing(w, tx))
  {
    hide Consistent, Evolves, Decide, PaymentLines;
    TxClaims(w, tx);
    var t := w.txs[tx];
    PaidKeeps(w.db, w.recouped, t.claim, t.job.amounts, t.phase.seen, t.phase.lines, t.at);
    PaidEvolves(w.db, t.claim, t.job.amounts, t.phase.lines, t.at);
    OthersElsewhere(w, tx);
    ReleaseKeeps(w, tx);
    hide TxFits;
    TxsSurvive(w.db, Paid(w.db, t.claim, t.job.amounts, t.phase.lines, t.at), t.claim, w.txs - {tx});
  }

  lemma RejectedManuallyEvolves(db: Database, c: nat, at: int)
    requires c < |db.claims| && db.claims[c].status == Submitted
    ensures Evolves(db, RejectedManually(db, c, at), c)
  {
    DecideEvolves(db, Decision(c, Reject, None, [ManualRejection], at), Rejected, [], at);
  }

  lemma PaidEvolves(db: Database, c: nat, a: Amounts, lines: seq<Line>, at: int)
    requires c < |db.claims| && db.claims[c].status == Submitted
    ensures Evolves(db, Paid(db, c, a, lines, at), c)
  {
    DecideEvolves(db, Decision(c, PayInFull, Some(a), [], at), PaidInFull, lines, at);
  }

  /** No two transactions hold the same claim. */
  lemma OthersElsewhere(w: World, tx: nat)
    requires Invariant(w) && tx in w.txs
    ensures forall other | other in w.txs && other != tx :: w.txs[other].claim != w.txs[tx].claim
  {
  }

  lemma ApplicationKeeps(w: World, app: nat, application: Application)
    requires Invariant(w)
    ensures Invariant(Apply(w, UpdateApplication(app, application)))
  {
    if app < |w.db.applications| {
      var db' := w.db.(applications := w.db.applications[app := application]);
      assert Consistent(db', w.recouped);
      hide Consistent;
      assert Evolves(w.db, db', |w.db.claims|);
      TxsSurvive(w.db, db', |w.db.claims|, w.txs);
    }
  }

  lemma EventsRecordedKeep(w: World, events: seq<Event>)
    requires Invariant(w)
    ensures Invariant(Apply(w, RecordEvents(events)))
  {
    EventsKeep(w.db, w.recouped, events);
    hide Consistent;
    var db' := AddEvents(w.db, events);
    assert Evolves(w.db, db', |w.db.claims|);
    TxsSurvive(w.db, db', |w.db.claims|, w.txs);
  }

  lemma ApplyKeeps(w: World, action: Action)
    requires Invariant(w)
    ensures Invariant(Apply(w, action))
  {
    hide Invariant;
    match action
    case SubmitClaim(s, env) => SubmitKeeps(w, s, env);
    case LockForPayment(tx, p, at) => StartKeeps(w, tx, p.app, p.reference, Some(p.entered), at);
    case LockForRejection(tx, app, reference, at) => StartKeeps(w, tx, app, reference, None, at);
    case ReadClaims(tx) => ReadingKeeps(w, tx);
    case Write(tx) => WritingKeeps(w, tx);
    case Commit(tx) => CommittingKeeps(w, tx);
    case Rollback(tx) => if tx in w.txs { ReleaseKeeps(w, tx); }
    case UpdateApplication(app, application) => ApplicationKeeps(w, app, application);
    case RecordEvents(events) => EventsRecordedKeep(w, events);
  }

  lemma {:induction false} RunKeeps(w: World, actions: seq<Action>)
    requires Invariant(w)
    ensures Invariant(Run(w, actions))
  {
    if actions != [] {
      RunKeeps(w, actions[..|actions| - 1]);
      ApplyKeeps(Run(w, actions[..|actions| - 1]), actions[|actions| - 1]);
    }
  }

  lemma InitialFits(applications: seq<Application>)
    ensures Invariant(Initial(applications))
  {
  }
}
