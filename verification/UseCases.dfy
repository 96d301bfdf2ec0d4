/**
 The use cases as they run: one database session with private writes, where any call may
 raise. Whatever raises, what ends up committed is one of the outcomes prescribed in Tables.
 */
module UseCases {
  import opened Options
  import opened Claims
  import opened PayInFullAmounts
  import opened PaymentExtract
  import opened Tables
  import opened Funds

  /** What a call does: it completes, or raises without its effect, or raises having had it. */
  datatype Fault = Fine | RaisesBefore | RaisesAfter

  /** The commit called last, if any was since `before`, took effect. */
  predicate Landed(before: seq<Fault>, after: seq<Fault>) {
    |after| > |before| && after[|after| - 1] != RaisesBefore
  }

  /** At most one commit was called since `before`, and the outcome is its own. */
  predicate OneCommit(before: seq<Fault>, after: seq<Fault>, outcome: Outcome) {
    || (after == before && outcome == Raised)
    || (|after| == |before| + 1 && after[..|before|] == before && (outcome == Pass <==> after[|before|] == Fine))
  }

  /**
   One database session. `working` is what the session sees, `committed` what others see.
   `faults` says what the coming calls do; calls beyond it complete. `commits` records the
   commits called: one that raises may still have taken effect.
   */
  class Session {
    var committed: Database
    var working: Database
    var faults: seq<Fault>
    ghost var commits: seq<Fault>

    constructor (database: Database, faults: seq<Fault>)
      ensures committed == working == database && this.faults == faults && commits == []
    {
      this.committed, this.working, this.faults, this.commits := database, database, faults, [];
    }

    /** A call to the database or to another service; what it wrote before raising is undone by the rollback. */
    method Attempt() returns (outcome: Outcome)
      modifies this`faults
      ensures old(faults) == [] ==> outcome.Pass? && faults == []
      ensures old(faults) != [] ==> (outcome == Raised <==> old(faults)[0] != Fine) && faults == old(faults)[1..]
    {
      if faults == [] { return Pass; }
      outcome := if faults[0] == Fine then Pass else Raised;
      faults := faults[1..];
    }

    method Commit() returns (outcome: Outcome)
      modifies this
      ensures working == old(working)
      ensures var fault := if old(faults) == [] then Fine else old(faults)[0];
              && commits == old(commits) + [fault]
              && (outcome == Pass <==> fault == Fine)
              && committed == (if fault == RaisesBefore then old(committed) else working)
      ensures old(faults) == [] ==> faults == []
    {
      var fault := Fine;
      if faults != [] {
        fault := faults[0];
        faults := faults[1..];
      }
      commits := commits + [fault];
      if fault != RaisesBefore { committed := working; }
      return if fault == Fine then Pass else Raised;
    }

    method Rollback()
      modifies this`working
      ensures working == committed
    {
      working := committed;
    }

    method CreateClaim(claim: Claim) returns (outcome: Outcome)
      modifies this`working, this`faults
      ensures old(faults) == [] ==> outcome.Pass? && faults == []
      ensures outcome.Pass? ==> working == AddClaim(old(working), claim)
    {
      outcome := Attempt();
      if outcome.Raised? { return; }
      working := AddClaim(working, claim);
      return Pass;
    }

    method CreateHistoryEvent(event: Event) returns (outcome: Outcome)
      modifies this`working, this`faults
      ensures old(faults) == [] ==> outcome.Pass? && faults == []
      ensures outcome.Pass? ==> working == AddEvents(old(working), [event])
    {
      outcome := Attempt();
      if outcome.Raised? { return; }
      working := AddEvents(working, [event]);
      return Pass;
    }

    method CreateDecision(claim: nat, status: DecisionStatus, at: int) returns (outcome: Outcome)
      modifies this`working, this`faults
      ensures old(faults) == [] ==> outcome.Pass? && faults == []
      ensures outcome.Pass? ==>
                working == old(working).(decisions := old(working).decisions + [Decision(claim, status, None, [], at)])
    {
      outcome := Attempt();
      if outcome.Raised? { return; }
      working := working.(decisions := working.decisions + [Decision(claim, status, None, [], at)]);
      return Pass;
    }

    /** The amounts of the decision created last. */
    method CreateDecisionAmount(a: Amounts) returns (outcome: Outcome)
      requires working.decisions != []
      modifies this`working, this`faults
      ensures old(faults) == [] ==> outcome.Pass? && faults == []
      ensures outcome.Pass? ==>
                var last := |old(working).decisions| - 1;
                var d := old(working).decisions[last];
                working
                == old(working).(decisions := old(working).decisions[last := d.(amounts := Some(a))])
    {
      outcome := Attempt();
      if outcome.Raised? { return; }
      var last := |working.decisions| - 1;
      working := working.(decisions := working.decisions[last := working.decisions[last].(amounts := Some(a))]);
      return Pass;
    }

    /** One more reason on the decision created last. */
    method CreateDecisionReason(reason: ReasonCode) returns (outcome: Outcome)
      requires working.decisions != []
      modifies this`working, this`faults
      ensures old(faults) == [] ==> outcome.Pass? && faults == []
      ensures outcome.Pass? ==>
                var last := |old(working).decisions| - 1;
                var d := old(working).decisions[last];
                working
                == old(working).(decisions := old(working).decisions[last := d.(reasons := d.reasons + [reason])])
    {
      outcome := Attempt();
      if outcome.Raised? { return; }
      var last := |working.decisions| - 1;
      var d := working.decisions[last];
      working := working.(decisions := working.decisions[last := d.(reasons := d.reasons + [reason])]);
      return Pass;
    }

    method UpdateClaimStatus(claim: nat, status: ClaimStatus) returns (outcome: Outcome)
      requires claim < |working.claims|
      modifies this`working, this`faults
      ensures old(faults) == [] ==> outcome.Pass? && faults == []
      ensures outcome.Pass? ==>
                working
                == old(working).(claims := old(working).claims[claim := old(working).claims[claim].(status := status)])
    {
      outcome := Attempt();
      if outcome.Raised? { return; }
      working := working.(claims := working.claims[claim := working.claims[claim].(status := status)]);
      return Pass;
    }

    /** Adds the lines one row at a time; a failure may leave some of them written. */
    method CreatePaymentExtract(claim: nat, lines: seq<Line>, at: int) returns (outcome: Outcome)
      modifies this`working, this`faults
      ensures old(faults) == [] ==> outcome.Pass? && faults == []
      ensures outcome.Pass? ==> working == old(working).(ledger := old(working).ledger + Rows(claim, lines, at))
    {
      for k := 0 to |lines|
        invariant old(faults) == [] ==> faults == []
        invariant working == old(working).(ledger := old(working).ledger + Rows(claim, lines[..k], at))
      {
        outcome := Attempt();
        if outcome.Raised? { return; }
        working := working.(ledger := working.ledger + [LedgerRow(claim, lines[k], at)]);
      }
      assert lines[..|lines|] == lines;
      return Pass;
    }
  }

  // ------------------------------------------------------------------ submission

  class CreateClaimUseCase {
    const session: Session

    constructor (session: Session)
      ensures this.session == session
    {
      this.session := session;
    }

    method TryCreate(claim: Claim) returns (outcome: Outcome)
      modifies session
      ensures OneCommit(old(session.commits), session.commits, outcome)
      ensures outcome.Pass? ==> session.working == session.committed
      ensures session.committed
           == if Landed(old(session.commits), session.commits)
              then AddEvents(AddClaim(old(session.working), claim),
                             [Event(ClaimSubmitted, claim.app, Some(claim.reference))])
              else old(session.committed)
      ensures old(session.faults) == [] ==> outcome.Pass? && session.faults == []
    {
      outcome := session.CreateClaim(claim);
      if outcome.Raised? { return; }
      :- session.CreateHistoryEvent(Event(ClaimSubmitted, claim.app, Some(claim.reference)));
      outcome := session.Commit();
    }

    method TryConfirm(app: nat) returns (outcome: Outcome)
      modifies session
      ensures OneCommit(old(session.commits), session.commits, outcome)
      ensures outcome.Pass? ==> session.working == session.committed
      ensures session.committed
           == if Landed(old(session.commits), session.commits)
              then AddEvents(old(session.working), [Event(SubmissionConfirmation, app, None)])
              else old(session.committed)
      ensures old(session.faults) == [] ==> outcome.Pass? && session.faults == []
    {
      outcome := session.CreateHistoryEvent(Event(SubmissionConfirmation, app, None));
      if outcome.Raised? { return; }
      :- session.Attempt();
      outcome := session.Commit();
    }

    method TryAutoReject(c: nat, reasons: seq<ReasonCode>, at: int) returns (outcome: Outcome)
      requires c < |session.working.claims|
      modifies session
      ensures OneCommit(old(session.commits), session.commits, outcome)
      ensures outcome.Pass? ==> session.working == session.committed
      ensures var claim := old(session.working).claims[c];
              session.committed
              == if Landed(old(session.commits), session.commits)
                 then AddEvents(Decide(old(session.working), Decision(c, Reject, None, reasons, at), Rejected, [], at),
                                [Event(PoaAutoRejected, claim.app, Some(claim.reference))])
                 else old(session.committed)
      ensures old(session.faults) == [] ==> outcome.Pass?
    {
      var claim := session.working.claims[c];
      ghost var before := session.working;
      :- session.CreateDecision(c, Reject, at);
      for k := 0 to |reasons|
        invariant session.committed == old(session.committed) && session.commits == old(session.commits)
        invariant old(session.faults) == [] ==> session.faults == []
        invariant session.working
                  == before.(decisions := before.decisions + [Decision(c, Reject, None, reasons[..k], at)])
      {
        outcome := session.CreateDecisionReason(reasons[k]);
        if outcome.Raised? { return; }
        assert reasons[..k] + [reasons[k]] == reasons[..k + 1];
      }
      assert reasons[..|reasons|] == reasons;
      :- session.UpdateClaimStatus(c, Rejected);
      :- session.CreateHistoryEvent(Event(PoaAutoRejected, claim.app, Some(claim.reference)));
      outcome := session.Commit();
    }

    method TryAutoApprove(c: nat, at: int) returns (outcome: Outcome)
      requires c < |session.working.claims|
      modifies session
      ensures OneCommit(old(session.commits), session.commits, outcome)
      ensures outcome.Pass? ==> session.working == session.committed
      ensures var claim := old(session.working).claims[c];
              var a := FromSubmitted(claim);
              if Landed(old(session.commits), session.commits) then
                && PoaLines(claim, a).Some?
                && session.committed
                   == AddEvents(Decide(old(session.working), Decision(c, PayInFull, Some(a), [], at),
                                       PaidInFull, PoaLines(claim, a).value, at),
                                [Event(PoaAutoApproved, claim.app, Some(claim.reference))])
              else session.committed == old(session.committed)
      ensures old(session.faults) == []
              && PoaLines(old(session.working).claims[c], FromSubmitted(old(session.working).claims[c])).Some?
              ==> outcome.Pass?
    {
      var claim := session.working.claims[c];
      :- session.CreateDecision(c, PayInFull, at);
      var a := FromSubmitted(claim);
      :- session.CreateDecisionAmount(a);
      var lines := PoaLines(claim, a);
      if lines.None? { return Raised; }
      :- session.CreatePaymentExtract(c, lines.value, at);
      :- session.UpdateClaimStatus(c, PaidInFull);
      :- session.CreateHistoryEvent(Event(PoaAutoApproved, claim.app, Some(claim.reference)));
      outcome := session.Commit();
    }

    /** The checks before anything is written, in order; the accepted claim carries its normalised totals. */
    method Check(s: Submission) returns (checked: Result<DomainClaim, SubmitError>)
      ensures match CheckSubmission(session.committed, s)
              case Err(e) => checked == Err(e)
              case Ok(form) => checked.Ok? && fresh(checked.value) && checked.value.Form() == form
    {
      var db := session.committed;
      if !s.evidenceFits { return Err(EvidenceMismatch); }
      if !(s.app < |db.applications|) { return Err(ApplicationNotFound); }
      if !s.accessGranted { return Err(AccessDenied); }
      if !db.applications[s.app].granted { return Err(NotGranted); }
      if CheckCombination(s.form).None? && !s.detailsFit { return Err(DetailsMismatch); }
      var domainClaim := new DomainClaim(s.form);
      var invalid := domainClaim.Validate();
      if invalid.Some? { return Err(Invalid(invalid.value)); }
      if HasActiveBill(ClaimsOf(db.claims, s.app)) { return Err(Invalid(ActiveFinalBillExists)); }
      return Ok(domainClaim);
    }

    /**
     The automatic assessment of the claim just created, from what the application held
     before it. `decided` is what the use case believes, `landed` what is stored.
     */
    method Assess(domainClaim: DomainClaim, application: Application, existing: seq<Claim>, env: SubmitEnv)
      returns (decided: bool, ghost landed: bool)
      requires session.working == session.committed && session.committed.claims != []
      modifies session
      ensures session.working == session.committed
      ensures session.committed
           == AutoDecided(old(session.committed), Judged(domainClaim.Form(), application, existing, env.clock),
                          env.(decided := landed))
      ensures var outcome := if decided then Pass else Raised;
              OneCommit(old(session.commits), session.commits, outcome)
              && landed == Landed(old(session.commits), session.commits)
      ensures old(session.faults) == [] && Judged(domainClaim.Form(), application, existing, env.clock).AutoReject? ==>
                decided
      ensures var claim := old(session.committed).claims[|old(session.committed).claims| - 1];
              (&& old(session.faults) == [] && PoaLines(claim, FromSubmitted(claim)).Some?
               && Judged(domainClaim.Form(), application, existing, env.clock).AutoApprove?)
              ==> decided
    {
      var c := |session.committed.claims| - 1;
      var outcome: Outcome := Raised;
      landed := false;
      var rules, reasons := domainClaim.ShouldAutoReject(application, existing, env.clock);
      if rules.Raised? { return false, landed; }
      var needsReview := RequiresManualReview(domainClaim.Form(), application, existing);
      if reasons != [] {
        outcome := TryAutoReject(c, reasons, env.decidedAt);
        if outcome.Raised? { session.Rollback(); }
      }
      if reasons == [] && !needsReview && EligibleForAutoApproval(domainClaim.Form(), application) {
        outcome := TryAutoApprove(c, env.decidedAt);
        if outcome.Raised? { session.Rollback(); }
      }
      decided := outcome.Pass?;
      landed := Landed(old(session.commits), session.commits);
    }

    /**
     Submits a claim. Whatever raises, the committed database is the prescribed outcome for the
     transactions that took effect (`landed`), which are those that were reported to (`created`,
     `confirmed`, `decided`) and those whose commit raised after its effect. A submission that
     fails before its first commit stores nothing.
     */
    method Execute(s: Submission, reference: string, submittedAt: int, clock: Clock, decidedAt: int)
      returns (error: Option<SubmitError>, created: bool, confirmed: bool, decided: bool, ghost landed: SubmitEnv)
      requires session.working == session.committed
      modifies session
      ensures session.working == session.committed == Submitting(old(session.committed), s, landed)
      ensures landed.(created := created, confirmed := confirmed, decided := decided)
           == SubmitEnv(reference, submittedAt, clock, decidedAt, created, confirmed, decided)
      ensures (created ==> landed.created) && (confirmed ==> landed.confirmed) && (decided ==> landed.decided)
      ensures RaisesAfter !in Since(old(session.commits), session.commits) ==>
                landed == SubmitEnv(reference, submittedAt, clock, decidedAt, created, confirmed, decided)
      ensures Since(old(session.commits), session.commits) == [] ==> session.committed == old(session.committed)
      ensures match CheckSubmission(old(session.committed), s)
              case Err(e) => error == Some(e)
              case Ok(form) =>
                && error == None
                && (old(session.faults) == [] && UsableReference(old(session.committed).claims, reference) ==>
                      && created && confirmed
                      && (AutoVerdict(old(session.committed), s.app, form, clock).Decides() ==> decided))
    {
      hide AutoDecided, CheckSubmission, Judged;
      var db := session.committed;
      ghost var before := session.commits;
      created, confirmed, decided := false, false, false;
      landed := SubmitEnv(reference, submittedAt, clock, decidedAt, false, false, false);
      var checked := Check(s);
      if checked.Err? {
        return Some(checked.error), created, confirmed, decided, landed;
      }
      error := None;
      AcceptedApplication(db, s);
      var form := checked.value.Form();
      var env := SubmitEnv(reference, submittedAt, clock, decidedAt, true, false, false);
      var outcome := Raised;
      if UsableReference(db.claims, reference) {
        outcome := TryCreate(NewClaim(db, s.app, form, env));
        landed := landed.(created := Landed(before, session.commits));
      }
      if outcome.Raised? {
        session.Rollback();
        CreatedAlone(db, s, landed);
        return;
      }
      created := true;

      ghost var first := session.commits;
      outcome := TryConfirm(s.app);
      confirmed := outcome.Pass?;
      landed := landed.(confirmed := Landed(first, session.commits));
      if outcome.Raised? { session.Rollback(); }
      assert session.committed == CreatedClaim(db, s.app, form, landed);
      AcceptedHasLines(db, s, landed);

      ghost var second := session.commits;
      ghost var stored: bool;
      decided, stored := Assess(checked.value, db.applications[s.app], ClaimsOf(db.claims, s.app), env);
      SameDecision(CreatedClaim(db, s.app, form, landed), AutoVerdict(db, s.app, form, clock),
                   env.(decided := stored), landed.(decided := stored));
      landed := landed.(decided := stored);
      assert CreatedClaim(db, s.app, form, landed) == CreatedClaim(db, s.app, form, landed.(decided := false));
    }
  }

  /** Of the surroundings the automatic decision depends on its time and on being stored only. */
  lemma SameDecision(db: Database, verdict: Verdict, some: SubmitEnv, other: SubmitEnv)
    requires db.claims != [] && some.decided == other.decided && some.decidedAt == other.decidedAt
    ensures AutoDecided(db, verdict, some) == AutoDecided(db, verdict, other)
  {
    hide PoaLines;
  }

  /** The commits called since then. */
  function Since(before: seq<Fault>, after: seq<Fault>): seq<Fault> {
    if |before| <= |after| then after[|before|..] else []
  }

  /** With nothing but its first transaction a submission leaves the claim and its event, or nothing. */
  lemma CreatedAlone(db: Database, s: Submission, env: SubmitEnv)
    requires CheckSubmission(db, s).Ok? && s.app < |db.applications| && !env.confirmed && !env.decided
    ensures !env.created || !UsableReference(db.claims, env.reference) ==> Submitting(db, s, env) == db
    ensures env.created && UsableReference(db.claims, env.reference) ==>
              var claim := NewClaim(db, s.app, CheckSubmission(db, s).value, env);
              Submitting(db, s, env)
              == AddEvents(AddClaim(db, claim), [Event(ClaimSubmitted, claim.app, Some(claim.reference))])
  {
    hide CheckSubmission, AutoVerdict, UsableReference;
    NewClaimApp(db, s.app, CheckSubmission(db, s).value, env);
  }

  lemma NewClaimApp(db: Database, app: nat, form: ClaimForm, env: SubmitEnv)
    requires app < |db.applications|
    ensures NewClaim(db, app, form, env).app == app
  {
  }

  /** The lines of an accepted payment on account can always be built. */
  lemma AcceptedHasLines(db: Database, s: Submission, env: SubmitEnv)
    requires CheckSubmission(db, s).Ok? && s.app < |db.applications|
    ensures var claim := NewClaim(db, s.app, CheckSubmission(db, s).value, env);
            PoaLines(claim, FromSubmitted(claim)).Some?
  {
    AcceptedBuilds(s.form);
  }

  // ------------------------------------------------------------------ assessment

  datatype AssessmentResult = Assessed | NotAssessed(error: AssessmentError) | Aborted

  class PayInFullClaimUseCase {
    const session: Session

    constructor (session: Session)
      ensures this.session == session
    {
      this.session := session;
    }

    /** The recoupment of every paid payment on account, the sequence running on from claim to claim. */
    method RecoupmentExtract(app: nat, current: nat, start: nat, decidedAt: int) returns (lines: seq<Line>)
      ensures lines == RecoupmentLines(start, Day(decidedAt),
                                       Sources(session.working.ledger,
                                               Recoupable(session.working.claims, app, current)))
    {
      lines := [];
      var sequence := start;
      var ids := Recoupable(session.working.claims, app, current);
      ghost var ledger := session.working.ledger;
      for k := 0 to |ids|
        invariant lines == RecoupmentLines(start, Day(decidedAt), Sources(ledger, ids[..k]))
        invariant sequence == start + |lines|
      {
        var sources := LinesOf(session.working.ledger, ids[k]);
        var more := BuildRecoupmentExtract(sequence, Day(decidedAt), sources);
        assert ids[..k + 1][..k] == ids[..k];
        RecoupmentAppend(start, Day(decidedAt), Sources(ledger, ids[..k]), sources);
        lines := lines + more;
        sequence := sequence + |more|;
      }
      assert ids[..|ids|] == ids;
    }

    /** None where a builder refuses. */
    method PaymentExtract(c: nat, a: Amounts, decidedAt: int) returns (lines: Option<seq<Line>>)
      requires c < |session.working.claims|
      ensures lines == PaymentLines(session.working, c, a,
                                    Recoupable(session.working.claims, session.working.claims[c].app, c), decidedAt)
    {
      var claim := session.working.claims[c];
      if claim.IsPoa() {
        lines := PoaLines(claim, a);
      } else {
        var own := BuildBillExtract(claim, a);
        var recouped := RecoupmentExtract(claim.app, c, |own| + 1, decidedAt);
        lines := Some(own + recouped);
      }
    }

    method TryPay(c: nat, a: Amounts, at: int) returns (outcome: Outcome)
      requires c < |session.working.claims| && AwaitingAssessment(session.working.claims[c].status)
      modifies session
      ensures OneCommit(old(session.commits), session.commits, outcome)
      ensures outcome.Pass? ==> session.working == session.committed
      ensures var db := old(session.working);
              var lines := PaymentLines(db, c, a, Recoupable(db.claims, db.claims[c].app, c), at);
              if Landed(old(session.commits), session.commits)
              then lines.Some? && session.committed == Paid(db, c, a, lines.value, at)
              else session.committed == old(session.committed)
      ensures var db := old(session.working);
              var lines := PaymentLines(db, c, a, Recoupable(db.claims, db.claims[c].app, c), at);
              old(session.faults) == [] && lines.Some? ==> outcome.Pass?
    {
      hide PaymentLines, Recoupable, PaymentEvents;
      ghost var db := session.working;
      var claim := session.working.claims[c];
      :- session.CreateDecision(c, PayInFull, at);
      :- session.CreateDecisionAmount(a);
      :- session.UpdateClaimStatus(c, PaidInFull);
      var lines := PaymentExtract(c, a, at);
      PaidStatusNeutral(db, session.working, c, a, at);
      if lines.None? { return Raised; }
      if lines.value != [] {
        outcome := session.CreatePaymentExtract(c, lines.value, at);
        if outcome.Raised? { return; }
      }
      :- TryRecord(claim);
      outcome := session.Commit();
    }

    /** The history of the payment, with the firm looked up and the email sent in between. */
    method TryRecord(claim: Claim) returns (outcome: Outcome)
      modifies session`working, session`faults
      ensures outcome.Pass? ==> session.working == AddEvents(old(session.working), PaymentEvents(claim))
      ensures old(session.faults) == [] ==> outcome.Pass? && session.faults == []
    {
      ghost var history := session.working.history;
      var email := if claim.IsPoa() then ClaimApprovedEmail else FinalBillPaidEmail;
      :- session.CreateHistoryEvent(Event(AssessmentCompleted, claim.app, Some(claim.reference)));
      :- session.Attempt();
      :- session.Attempt();
      :- session.CreateHistoryEvent(Event(email, claim.app, None));
      assert history + PaymentEvents(claim) == history + PaymentEvents(claim)[..1] + PaymentEvents(claim)[1..];
      return Pass;
    }

    /**
     Pays a claim in full, or leaves everything as it was. The payment is stored exactly when a
     commit was called and took effect, which an aborted payment's may have, when it raised.
     */
    method Execute(p: Payment, at: int) returns (result: AssessmentResult)
      requires session.working == session.committed
      modifies session
      ensures var landed := Landed(old(session.commits), session.commits);
              && session.working == session.committed == Paying(old(session.committed), p, at, landed)
              && OneCommit(old(session.commits), session.commits, if result.Assessed? then Pass else Raised)
              && (!landed ==> session.committed == old(session.committed))
              && (result.NotAssessed? ==> session.commits == old(session.commits))
      ensures Assessable(old(session.committed), p.app, p.reference).Err?
              ==> result == NotAssessed(Assessable(old(session.committed), p.app, p.reference).error)
      ensures result.Aborted? ==>
                old(session.faults) != [] || Paying(old(session.committed), p, at, true) == old(session.committed)
    {
      if !(p.app < |session.working.applications|) { return NotAssessed(NoSuchClaim); }
      var found := FindByReference(session.working.claims, p.reference);
      if found.None? || session.working.claims[found.value].app != p.app {
        session.Rollback();
        return NotAssessed(NoSuchClaim);
      }
      var c := found.value;
      if !AwaitingAssessment(session.working.claims[c].status) {
        session.Rollback();
        return NotAssessed(Conflict);
      }
      var amounts := Decided(session.working.claims[c], p.entered);
      if amounts.Err? {
        session.Rollback();
        return NotAssessed(Refused(amounts.error));
      }
      var outcome := TryPay(c, amounts.value, at);
      if outcome.Raised? {
        session.Rollback();
        return Aborted;
      }
      return Assessed;
    }
  }

  /** Marking the claim itself as paid changes neither its lines nor what it may recoup. */
  lemma PaidStatusNeutral(db: Database, marked: Database, c: nat, a: Amounts, at: int)
    requires c < |db.claims| && marked.ledger == db.ledger
    requires marked.claims == db.claims[c := db.claims[c].(status := PaidInFull)]
    ensures var app := db.claims[c].app;
            PaymentLines(marked, c, a, Recoupable(marked.claims, app, c), at)
            == PaymentLines(db, c, a, Recoupable(db.claims, app, c), at)
  {
    hide Recoupable;
    RecoupableNeutral(db.claims, marked.claims, db.claims[c].app, c);
    assert PoaLines(marked.claims[c], a) == PoaLines(db.claims[c], a);
    assert BillLines(marked.claims[c], a) == BillLines(db.claims[c], a);
  }

  lemma {:induction false} RecoupableNeutral(claims: seq<Claim>, marked: seq<Claim>, app: nat, c: nat)
    requires |marked| == |claims| && forall k: nat | k < |claims| && k != c :: marked[k] == claims[k]
    ensures Recoupable(marked, app, c) == Recoupable(claims, app, c)
  {
    hide IsRecoupable;
    if claims != [] {
      RecoupableNeutral(claims[..|claims| - 1], marked[..|claims| - 1], app, c);
    }
  }

  class RejectClaimUseCase {
    const session: Session

    constructor (session: Session)
      ensures this.session == session
    {
      this.session := session;
    }

    method TryReject(c: nat, at: int) returns (outcome: Outcome)
      requires c < |session.working.claims|
      modifies session
      ensures OneCommit(old(session.commits), session.commits, outcome)
      ensures outcome.Pass? ==> session.working == session.committed
      ensures session.committed
           == if Landed(old(session.commits), session.commits) then RejectedManually(old(session.working), c, at)
              else old(session.committed)
      ensures old(session.faults) == [] ==> outcome.Pass?
    {
      ghost var db := session.working;
      var claim := session.working.claims[c];
      :- session.CreateDecision(c, Reject, at);
      :- session.CreateDecisionReason(ManualRejection);
      :- session.UpdateClaimStatus(c, Rejected);
      :- session.CreateHistoryEvent(Event(AssessmentCompleted, claim.app, Some(claim.reference)));
      :- session.CreateHistoryEvent(Event(ClaimRejectedEmail, claim.app, None));
      outcome := session.Commit();
      assert db.history + RejectionEvents(claim)
             == db.history + RejectionEvents(claim)[..1] + RejectionEvents(claim)[1..];
      assert [] + [ManualRejection] == [ManualRejection];
    }

    /** Rejects a claim, or leaves everything as it was: stored exactly when a commit was called and took effect. */
    method Execute(app: nat, reference: string, at: int) returns (result: AssessmentResult)
      requires session.working == session.committed
      modifies session
      ensures var landed := Landed(old(session.commits), session.commits);
              && session.working == session.committed == Rejecting(old(session.committed), app, reference, at, landed)
              && OneCommit(old(session.commits), session.commits, if result.Assessed? then Pass else Raised)
              && (!landed ==> session.committed == old(session.committed))
              && (result.NotAssessed? ==> session.commits == old(session.commits))
      ensures Assessable(old(session.committed), app, reference).Err?
              ==> result == NotAssessed(Assessable(old(session.committed), app, reference).error)
      ensures result.Aborted? ==> old(session.faults) != []
    {
      if !(app < |session.working.applications|) { return NotAssessed(NoSuchClaim); }
      var found := FindByReference(session.working.claims, reference);
      if found.None? || session.working.claims[found.value].app != app {
        session.Rollback();
        return NotAssessed(NoSuchClaim);
      }
      var c := found.value;
      if !AwaitingAssessment(session.working.claims[c].status) {
        session.Rollback();
        return NotAssessed(Conflict);
      }
      var outcome := TryReject(c, at);
      if outcome.Raised? {
        session.Rollback();
        return Aborted;
      }
      return Assessed;
    }
  }
}
