/** What the history says of each claim after every run: one submission, and one outcome just when it is decided. */
module HistoryEvents {
  import opened Options
  import opened Claims
  import opened PaymentExtract
  import opened Tables
  import opened Consistency
  import opened Ledger
  import opened Assessments
  import opened Runs
  import opened Funds
  import opened Submissions

  /** How often the history has an event of the kind for a claim. */
  function Times(history: seq<Event>, kind: EventKind, claim: Claim): nat {
    multiset(history)[Event(kind, claim.app, Some(claim.reference))]
  }

  /** The kinds that tell of one claim's submission or decision. */
  predicate TellsOfClaim(e: Event) {
    e.kind in {ClaimSubmitted, PoaAutoApproved, PoaAutoRejected, AssessmentCompleted} && e.claimReference.Some?
  }

  /**
   A claim was submitted once. While it waits nothing more is told of it; once paid, it was either approved
   automatically or assessed; once rejected, it was either rejected automatically or, for a caseworker's reason,
   assessed.
   */
  predicate Told(history: seq<Event>, claim: Claim, decision: Option<Decision>) {
    var approved, rejected := Times(history, PoaAutoApproved, claim), Times(history, PoaAutoRejected, claim);
    var assessed := Times(history, AssessmentCompleted, claim);
    && Times(history, ClaimSubmitted, claim) == 1
    && match claim.status
       case Submitted => approved == rejected == assessed == 0
       case PaidInFull => approved + assessed == 1 && rejected == 0
       case Rejected =>
         && rejected + assessed == 1 && approved == 0
         && decision.Some? && (assessed == 1 <==> decision.value.reasons == [ManualRejection])
       case _ => false
  }

  /** Nothing is told of a claim that is not there. */
  ghost predicate TellsOfClaims(db: Database) {
    forall e | e in db.history && TellsOfClaim(e) ::
      exists c: nat :: c < |db.claims| && e.app == db.claims[c].app && e.claimReference == Some(db.claims[c].reference)
  }

  ghost predicate Recorded(db: Database) {
    && TellsOfClaims(db)
    && forall c: nat | c < |db.claims| :: Told(db.history, db.claims[c], LatestDecision(db.decisions, c))
  }

  /** Other parts of the service record no event that tells of a claim. */
  predicate Silent(action: Action) {
    action.RecordEvents? ==> forall e | e in action.events :: !TellsOfClaim(e)
  }

  // --------------------------------------------------------------------- one more event

  lemma TimesAdd(history: seq<Event>, more: seq<Event>, kind: EventKind, claim: Claim)
    ensures Times(history + more, kind, claim) == Times(history, kind, claim) + Times(more, kind, claim)
  {
  }

  lemma NotTimes(events: seq<Event>, kind: EventKind, claim: Claim)
    requires forall e | e in events :: e != Event(kind, claim.app, Some(claim.reference))
    ensures Times(events, kind, claim) == 0
  {
    var told := Event(kind, claim.app, Some(claim.reference));
    assert told in multiset(events) <==> told in events;
  }

  /** Of a claim not there yet nothing is told. */
  lemma NothingTold(db: Database, claim: Claim, kind: EventKind)
    requires TellsOfClaims(db) && FindByReference(db.claims, claim.reference).None?
    requires kind in {ClaimSubmitted, PoaAutoApproved, PoaAutoRejected, AssessmentCompleted}
    ensures Times(db.history, kind, claim) == 0
  {
    NotTimes(db.history, kind, claim);
  }

  /** Events that tell of other claims only, or of none, leave a claim as it was told. */
  lemma StillTold(history: seq<Event>, more: seq<Event>, claim: Claim, decision: Option<Decision>)
    requires Told(history, claim, decision)
    requires forall e | e in more && TellsOfClaim(e) :: e.claimReference != Some(claim.reference)
    ensures Told(history + more, claim, decision)
  {
    forall kind | kind in {ClaimSubmitted, PoaAutoApproved, PoaAutoRejected, AssessmentCompleted}
      ensures Times(history + more, kind, claim) == Times(history, kind, claim)
    {
      TimesAdd(history, more, kind, claim);
      NotTimes(more, kind, claim);
    }
    hide Times;
  }

  // ------------------------------------------------------------------------ one step

  /** Only claim c, new or decided, is changed and told of. */
  ghost predicate TellsOf(db: Database, db': Database, c: nat, more: seq<Event>) {
    && db'.history == db.history + more
    && |db.claims| <= |db'.claims| && c < |db'.claims| && (c < |db.claims| ==> |db'.claims| == |db.claims|)
    && (c >= |db.claims| ==> c == |db.claims| && |db'.claims| == c + 1)
    && (c < |db.claims| ==> db'.claims[c].app == db.claims[c].app && db'.claims[c].reference == db.claims[c].reference)
    && (forall k: nat | k < |db.claims| && k != c ::
          db'.claims[k] == db.claims[k] && LatestDecision(db'.decisions, k) == LatestDecision(db.decisions, k))
    && forall e | e in more && TellsOfClaim(e) ::
         e.app == db'.claims[c].app && e.claimReference == Some(db'.claims[c].reference)
  }

  lemma RecordedStep(db: Database, db': Database, recouped: Recouped, c: nat, more: seq<Event>)
    requires Recorded(db) && TellsOf(db, db', c, more) && Consistent(db', recouped)
    requires Told(db'.history, db'.claims[c], LatestDecision(db'.decisions, c))
    ensures Recorded(db')
  {
    hide Consistent, Told, TellsOfClaim, LatestDecision;
    forall e | e in db'.history && TellsOfClaim(e)
      ensures exists k: nat ::
                k < |db'.claims| && e.app == db'.claims[k].app && e.claimReference == Some(db'.claims[k].reference)
    {
      if e in db.history {
        var k: nat :| k < |db.claims| && e.app == db.claims[k].app && e.claimReference == Some(db.claims[k].reference);
        assert e.app == db'.claims[k].app && e.claimReference == Some(db'.claims[k].reference);
      }
    }
    forall k: nat | k < |db'.claims| && k != c
      ensures Told(db'.history, db'.claims[k], LatestDecision(db'.decisions, k))
    {
      if db'.claims[k].reference == db'.claims[c].reference {
        ReferencesFit(db', recouped, k, c);
      }
      StillTold(db.history, more, db.claims[k], LatestDecision(db.decisions, k));
    }
  }

  /** The events of a submission that creates a claim. */
  function SubmissionTells(db: Database, s: Submission, env: SubmitEnv): seq<Event> {
    [Event(ClaimSubmitted, s.app, Some(env.reference))]
    + (if env.confirmed then [Event(SubmissionConfirmation, s.app, None)] else [])
    + if Approves(db, s, env) then [Event(PoaAutoApproved, s.app, Some(env.reference))]
      else if Rejects(db, s, env) then [Event(PoaAutoRejected, s.app, Some(env.reference))] else []
  }

  lemma SubmissionHistory(db: Database, s: Submission, env: SubmitEnv)
    requires Creates(db, s, env)
    ensures Submitting(db, s, env).history == db.history + SubmissionTells(db, s, env)
  {
    hide CheckSubmission, AutoVerdict, UsableReference, PoaLines;
    var form := CheckSubmission(db, s).value;
    AcceptedApplication(db, s);
    NewClaimNames(db, s.app, form, env);
    if Approves(db, s, env) {
      ApprovalAdds(db, s, env);
    }
    hide NewClaim;
    var created := CreatedClaim(db, s.app, form, env);
    assert created.claims[|created.claims| - 1] == NewClaim(db, s.app, form, env);
    var first := [Event(ClaimSubmitted, s.app, Some(env.reference))]
                 + if env.confirmed then [Event(SubmissionConfirmation, s.app, None)] else [];
    assert created.history == db.history + first;
    assert first + [] == first;
    forall e: Event
      ensures db.history + first + [e] == db.history + (first + [e])
    {
    }
  }

  lemma NewClaimNames(db: Database, app: nat, form: ClaimForm, env: SubmitEnv)
    requires app < |db.applications|
    ensures NewClaim(db, app, form, env).app == app && NewClaim(db, app, form, env).reference == env.reference
  {
  }

  /** How often a submission tells of its claim in each kind. */
  lemma TellsOnce(db: Database, s: Submission, env: SubmitEnv, claim: Claim)
    requires claim.app == s.app && claim.reference == env.reference
    ensures var more := SubmissionTells(db, s, env);
            && Times(more, ClaimSubmitted, claim) == 1 && Times(more, AssessmentCompleted, claim) == 0
            && Times(more, PoaAutoApproved, claim) == (if Approves(db, s, env) then 1 else 0)
            && Times(more, PoaAutoRejected, claim) == (if !Approves(db, s, env) && Rejects(db, s, env) then 1 else 0)
  {
    hide Approves, Rejects;
  }

  /** The outcome told of a new claim is that of its automatic decision. */
  lemma NewClaimTold(db: Database, s: Submission, env: SubmitEnv, claim: Claim, decision: Option<Decision>)
    requires TellsOfClaims(db) && FindByReference(db.claims, env.reference).None?
    requires claim.app == s.app && claim.reference == env.reference && claim.status == StatusAfter(db, s, env)
    requires claim.status == Rejected ==> decision.Some? && decision.value.reasons != [ManualRejection]
    ensures Told(db.history + SubmissionTells(db, s, env), claim, decision)
  {
    hide Approves, Rejects, SubmissionTells, Times, TellsOfClaims;
    var more := SubmissionTells(db, s, env);
    TellsOnce(db, s, env, claim);
    forall kind | kind in {ClaimSubmitted, PoaAutoApproved, PoaAutoRejected, AssessmentCompleted}
      ensures Times(db.history + more, kind, claim) == Times(more, kind, claim)
    {
      NothingTold(db, claim, kind);
      TimesAdd(db.history, more, kind, claim);
    }
  }

  lemma NoManualReason(form: ClaimForm, application: Application, existing: seq<Claim>, clock: Clock)
    ensures ManualRejection !in RejectionReasons(form, application, existing, clock)
  {
    hide ExceedsPoaCount, ExceedsCostLimit, TooEarly;
  }

  /** What a submission that creates a claim adds to the claims and the decisions. */
  lemma SubmissionDecides(db: Database, recouped: Recouped, s: Submission, env: SubmitEnv)
    requires Consistent(db, recouped) && Creates(db, s, env)
    ensures var after := Submitting(db, s, env);
            var c := |db.claims|;
            && |after.claims| == c + 1 && after.claims[..c] == db.claims
            && after.claims[c].app == s.app && after.claims[c].reference == env.reference
            && after.claims[c].status == StatusAfter(db, s, env)
            && (forall k: nat | k < c :: LatestDecision(after.decisions, k) == LatestDecision(db.decisions, k))
            && (after.claims[c].status == Rejected ==>
                  && LatestDecision(after.decisions, c).Some?
                  && LatestDecision(after.decisions, c).value.reasons != [ManualRejection])
  {
    SubmissionAtomic(db, s, env);
    AcceptedApplication(db, s);
    var form := CheckSubmission(db, s).value;
    NewClaimNames(db, s.app, form, env);
    NoManualReason(form, db.applications[s.app], ClaimsOf(db.claims, s.app), env.clock);
    hide Consistent, Submitting, CheckSubmission, NewClaim, StatusAfter, PoaLines, RejectionReasons, LatestDecision;
    var after := Submitting(db, s, env);
    if after.decisions != db.decisions {
      var decision := after.decisions[|db.decisions|];
      forall k: nat | k <= |db.claims|
        ensures LatestDecision(after.decisions, k)
             == if k == |db.claims| then Some(decision) else LatestDecision(db.decisions, k)
      {
        LatestAfter(db.decisions, decision, k);
      }
    }
  }

  lemma SubmissionRecorded(db: Database, recouped: Recouped, s: Submission, env: SubmitEnv)
    requires Recorded(db) && Consistent(db, recouped) && Creates(db, s, env)
    ensures Recorded(Submitting(db, s, env))
  {
    hide Consistent, Told, Submitting, CheckSubmission, LatestDecision, StatusAfter, Approves, Rejects, AutoVerdict;
    var after, more := Submitting(db, s, env), SubmissionTells(db, s, env);
    SubmittingKeeps(db, recouped, s, env);
    SubmissionHistory(db, s, env);
    SubmissionDecides(db, recouped, s, env);
    var c := |db.claims|;
    NewClaimTold(db, s, env, after.claims[c], LatestDecision(after.decisions, c));
    forall k: nat | k < c
      ensures after.claims[k] == db.claims[k]
    {
      assert after.claims[..c][k] == after.claims[k];
    }
    RecordedStep(db, after, recouped, c, more);
  }

  /** A caseworker's decision on a submitted claim is told by one assessment, and an email that names no claim. */
  lemma AssessmentRecorded(db: Database, db': Database, recouped: Recouped, decision: Decision, status: ClaimStatus,
                           email: EventKind)
    requires Recorded(db) && Consistent(db', recouped)
    requires decision.claim < |db.claims| && db.claims[decision.claim].status == Submitted
    requires status == PaidInFull || (status == Rejected && decision.reasons == [ManualRejection])
    requires var claim := db.claims[decision.claim];
             && db'.claims == db.claims[decision.claim := claim.(status := status)]
             && db'.decisions == db.decisions + [decision]
             && db'.history == db.history + [Event(AssessmentCompleted, claim.app, Some(claim.reference)),
                                             Event(email, claim.app, None)]
    ensures Recorded(db')
  {
    hide Consistent, LatestDecision;
    var c := decision.claim;
    var claim := db.claims[c];
    var more := [Event(AssessmentCompleted, claim.app, Some(claim.reference)), Event(email, claim.app, None)];
    forall k: nat | k < |db.claims|
      ensures LatestDecision(db'.decisions, k) == if k == c then Some(decision) else LatestDecision(db.decisions, k)
    {
      LatestAfter(db.decisions, decision, k);
    }
    forall kind | kind in {ClaimSubmitted, PoaAutoApproved, PoaAutoRejected, AssessmentCompleted}
      ensures Times(db'.history, kind, claim)
           == Times(db.history, kind, claim) + if kind == AssessmentCompleted then 1 else 0
    {
      TimesAdd(db.history, more, kind, claim);
    }
    hide Times;
    RecordedStep(db, db', recouped, c, more);
  }

  lemma CommitRecorded(w: World, tx: nat)
    requires Invariant(w) && Recorded(w.db)
    ensures Recorded(Apply(w, Commit(tx)).db)
  {
    hide Invariant, Recorded, TxFits, Consistent;
    if tx in w.txs && ReadyToCommit(w.txs[tx]) {
      TxClaims(w, tx);
      ApplyKeeps(w, Commit(tx));
      var after := Apply(w, Commit(tx));
      InvariantConsistent(after);
      var t := w.txs[tx];
      match t.job {
        case RejectionJob =>
          AssessmentRecorded(w.db, after.db, after.recouped, Decision(t.claim, Reject, None, [ManualRejection], t.at),
                             Rejected, ClaimRejectedEmail);
        case PaymentJob(a) =>
          AssessmentRecorded(w.db, after.db, after.recouped, Decision(t.claim, PayInFull, Some(a), [], t.at),
                             PaidInFull,
                             if w.db.claims[t.claim].IsPoa() then ClaimApprovedEmail else FinalBillPaidEmail);
      }
    }
  }

  lemma SilentRecorded(db: Database, db': Database, events: seq<Event>)
    requires Recorded(db) && db'.claims == db.claims && db'.decisions == db.decisions
    requires db'.history == db.history + events && forall e | e in events :: !TellsOfClaim(e)
    ensures Recorded(db')
  {
    hide Told, TellsOfClaim;
    forall c: nat | c < |db.claims|
      ensures Told(db'.history, db'.claims[c], LatestDecision(db'.decisions, c))
    {
      StillTold(db.history, events, db.claims[c], LatestDecision(db.decisions, c));
    }
  }

  lemma StepRecorded(w: World, action: Action)
    requires Invariant(w) && Recorded(w.db) && Silent(action)
    ensures Recorded(Apply(w, action).db)
  {
    match action {
      case SubmitClaim(s, env) =>
        hide Invariant, Recorded, Consistent;
        InvariantConsistent(w);
        if Creates(w.db, s, env) {
          SubmissionRecorded(w.db, w.recouped, s, env);
        } else {
          SubmissionAtomic(w.db, s, env);
        }
      case Commit(tx) => CommitRecorded(w, tx);
      case RecordEvents(events) => SilentRecorded(w.db, Apply(w, action).db, events);
      case _ => OtherStepTellsNothing(w, action);
    }
  }

  lemma OtherStepTellsNothing(w: World, action: Action)
    requires !action.SubmitClaim? && !action.Commit? && !action.RecordEvents? && Recorded(w.db)
    ensures Recorded(Apply(w, action).db)
  {
    hide Lock, PaymentLines, Recoupable, Told;
    var db := Apply(w, action).db;
    assert db.claims == w.db.claims && db.decisions == w.db.decisions && db.history == w.db.history;
  }

  /** After every run in which other parts of the service are silent the history tells of each claim just so. */
  lemma {:induction false} EveryRunRecorded(applications: seq<Application>, actions: seq<Action>)
    requires forall k | 0 <= k < |actions| :: Silent(actions[k])
    ensures Recorded(After(applications, actions).db)
  {
    if actions != [] {
      hide Apply, Recorded, Invariant;
      var last := |actions| - 1;
      EveryRunRecorded(applications, actions[..last]);
      EveryRunConsistent(applications, actions[..last]);
      StepRecorded(After(applications, actions[..last]), actions[last]);
    }
  }
}
