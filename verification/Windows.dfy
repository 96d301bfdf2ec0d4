/** The cap on profit-cost payments on account: at most four active ones in a year. */
module Windows {
  import opened Options
  import opened Claims
  import opened Tables
  import opened Assessments
  import opened Runs
  import opened Submissions

  /** A profit-cost payment on account that is not rejected. */
  predicate Active(claim: Claim) {
    claim.poaType == Some(ProfitCost) && claim.status in {Submitted, Accepted, PaidInFull}
  }

  /** Active profit-cost payments on account of an application stamped from `from` to `to`, both included. */
  function ActiveIn(claims: seq<Claim>, app: nat, from: int, to: int): nat {
    if claims == [] then 0
    else
      var last := claims[|claims| - 1];
      ActiveIn(claims[..|claims| - 1], app, from, to)
      + if last.app == app && Active(last) && from <= last.submittedAt <= to then 1 else 0
  }

  const CAP: int := WINDOW_DAYS * DAY

  /** At most four in every window of the given length. */
  ghost predicate Capped(claims: seq<Claim>, app: nat, length: int) {
    forall from: int, to: int | to - from <= length ::
      ActiveIn(claims, app, from, to) <= MAX_PROFIT_COST_POA_CLAIM_COUNT
  }

  /** A window that starts after the cutoff holds no more than the rule counts. */
  lemma {:induction false} RuleCountsWindow(claims: seq<Claim>, app: nat, from: int, to: int, cutoff: int)
    requires cutoff <= from
    ensures ActiveIn(claims, app, from, to) <= CountActivePoas(ClaimsOf(claims, app), cutoff)
  {
    if claims != [] {
      var last := |claims| - 1;
      RuleCountsWindow(claims[..last], app, from, to, cutoff);
      var earlier := ClaimsOf(claims[..last], app);
      if claims[last].app == app {
        assert (earlier + [claims[last]])[..|earlier|] == earlier;
      } else {
        assert ClaimsOf(claims, app) == earlier;
      }
    }
  }

  lemma CountAdds(existing: seq<Claim>, claim: Claim, cutoff: int)
    ensures CountActivePoas(existing + [claim], cutoff)
         == CountActivePoas(existing, cutoff) + if Active(claim) && claim.submittedAt >= cutoff then 1 else 0
  {
    assert (existing + [claim])[..|existing|] == existing;
    match claim.status {
      case Submitted =>
      case Accepted =>
      case PaidInFull =>
      case Rejected =>
      case RejectedWithAmendment =>
    }
  }

  /** The rule counts just the active claims of the application that are stamped at the cutoff or later. */
  lemma {:induction false} RuleCountsExactly(claims: seq<Claim>, app: nat, cutoff: int, latest: int)
    requires forall k | 0 <= k < |claims| :: claims[k].submittedAt <= latest
    ensures CountActivePoas(ClaimsOf(claims, app), cutoff) == ActiveIn(claims, app, cutoff, latest)
  {
    hide CountActivePoas, Active;
    if claims == [] {
      assert CountActivePoas([], cutoff) == 0 by { NothingActive(cutoff); }
    } else {
      var last := |claims| - 1;
      RuleCountsExactly(claims[..last], app, cutoff, latest);
      var earlier := ClaimsOf(claims[..last], app);
      if claims[last].app == app {
        CountAdds(earlier, claims[last], cutoff);
      } else {
        assert ClaimsOf(claims, app) == earlier;
      }
    }
  }

  lemma NothingActive(cutoff: int)
    ensures CountActivePoas([], cutoff) == 0
  {
  }

  lemma ActiveInAdds(claims: seq<Claim>, claim: Claim, app: nat, from: int, to: int)
    ensures ActiveIn(claims + [claim], app, from, to)
         == ActiveIn(claims, app, from, to)
            + if claim.app == app && Active(claim) && from <= claim.submittedAt <= to then 1 else 0
  {
    assert (claims + [claim])[..|claims|] == claims;
  }

  /** Deciding claims never makes an inactive one active again. */
  lemma {:induction false} ActiveInFalls(claims: seq<Claim>, after: seq<Claim>, app: nat, from: int, to: int)
    requires |after| == |claims|
    requires forall k | 0 <= k < |claims| ::
               after[k] == claims[k]
               || (claims[k].status == Submitted && after[k] == claims[k].(status := after[k].status))
    ensures ActiveIn(after, app, from, to) <= ActiveIn(claims, app, from, to)
  {
    if claims != [] {
      ActiveInFalls(claims[..|claims| - 1], after[..|claims| - 1], app, from, to);
    }
  }

  /** The rules of an accepted submission did not raise, and the rejection they call for commits. */
  predicate RulesApplied(db: Database, s: Submission, env: SubmitEnv)
    requires Creates(db, s, env)
  {
    var verdict := AutoVerdict(db, s.app, CheckSubmission(db, s).value, env.clock);
    !verdict.RulesRaise? && (verdict.AutoReject? ==> env.decided)
  }

  /**
   One more submission keeps the cap, if its rules do not raise, a due rejection commits, and the rules read the clock
   within `lag` of the stamp.
   */
  lemma SubmissionKeepsCap(db: Database, s: Submission, env: SubmitEnv, app: nat, lag: int)
    requires Capped(db.claims, app, CAP - lag)
    requires env.submittedAt <= env.clock.at <= env.submittedAt + lag
    requires Creates(db, s, env) ==> RulesApplied(db, s, env)
    ensures Capped(Submitting(db, s, env).claims, app, CAP - lag)
  {
    SubmissionAtomic(db, s, env);
    hide StatusAfter, Submitting, AutoVerdict, NewClaim, CheckSubmission;
    if Creates(db, s, env) {
      CreatesForm(db, s, env);
      var form := CheckSubmission(db, s).value;
      var claim := NewClaim(db, s.app, form, env).(status := StatusAfter(db, s, env));
      NewClaimFields(db, s.app, form, env);
      forall from: int, to: int | to - from <= CAP - lag
        ensures ActiveIn(db.claims + [claim], app, from, to) <= MAX_PROFIT_COST_POA_CLAIM_COUNT
      {
        ActiveInAdds(db.claims, claim, app, from, to);
        assert ActiveIn(db.claims, app, from, to) <= MAX_PROFIT_COST_POA_CLAIM_COUNT;
        if claim.app == app && Active(claim) && from <= claim.submittedAt <= to {
          ActiveMeansNotRejected(db, s, env);
          RuleCountsWindow(db.claims, app, from, to, env.clock.at - CAP);
        }
      }
    }
  }

  lemma NewClaimFields(db: Database, app: nat, form: ClaimForm, env: SubmitEnv)
    requires app < |db.applications|
    ensures var claim := NewClaim(db, app, form, env);
            && claim.app == app && claim.poaType == form.poaType && claim.claimType == form.claimType
            && claim.submittedAt == env.submittedAt && claim.reference == env.reference
  {
  }

  /** A new claim over the cap does not stay active when its rejection commits. */
  lemma ActiveMeansNotRejected(db: Database, s: Submission, env: SubmitEnv)
    requires Creates(db, s, env) && StatusAfter(db, s, env) != Rejected
    requires RulesApplied(db, s, env)
    ensures CheckSubmission(db, s).Ok?
    ensures !ExceedsPoaCount(CheckSubmission(db, s).value, ClaimsOf(db.claims, s.app), env.clock.at)
  {
    hide CheckSubmission, ExceedsCostLimit, TooEarly;
    var form := CheckSubmission(db, s).value;
    CreatesForm(db, s, env);
    var reasons := RejectionReasons(form, db.applications[s.app], ClaimsOf(db.claims, s.app), env.clock);
    assert ExceedsPoaCount(form, ClaimsOf(db.claims, s.app), env.clock.at) ==> |reasons| >= 1;
  }

  lemma CreatesForm(db: Database, s: Submission, env: SubmitEnv)
    requires Creates(db, s, env)
    ensures CheckSubmission(db, s).Ok? && s.app < |db.applications|
  {
  }

  // ------------------------------------------------------------------------ runs

  /**
   The rules of each submission do not raise and read the clock within `lag` of its stamp, and its rejection, if due,
   commits.
   */
  ghost predicate Prompt(w: World, action: Action, lag: int) {
    match action
    case SubmitClaim(s, env) =>
      && env.submittedAt <= env.clock.at <= env.submittedAt + lag
      && (Creates(w.db, s, env) ==> RulesApplied(w.db, s, env))
    case _ => true
  }

  ghost predicate PromptRun(w: World, actions: seq<Action>, lag: int) {
    actions != [] ==>
      && PromptRun(w, actions[..|actions| - 1], lag)
      && Prompt(Run(w, actions[..|actions| - 1]), actions[|actions| - 1], lag)
  }

  lemma OnlySubmitAndCommit(w: World, action: Action)
    requires !action.SubmitClaim? && !action.Commit?
    ensures Apply(w, action).db.claims == w.db.claims && Apply(w, action).db.ledger == w.db.ledger
  {
    hide Lock, PaymentLines, Recoupable;
  }

  lemma StepKeepsCap(w: World, action: Action, app: nat, lag: int)
    requires Invariant(w) && Capped(w.db.claims, app, CAP - lag) && Prompt(w, action, lag)
    ensures Capped(Apply(w, action).db.claims, app, CAP - lag)
  {
    hide Invariant, Capped, Creates, AutoVerdict, Submitting, Committing;
    match action
    case SubmitClaim(s, env) => SubmissionKeepsCap(w.db, s, env, app, lag);
    case Commit(tx) => CommitKeepsCap(w, tx, app, CAP - lag);
    case _ => OnlySubmitAndCommit(w, action);
  }

  lemma CommitKeepsCap(w: World, tx: nat, app: nat, length: int)
    requires Invariant(w) && Capped(w.db.claims, app, length)
    ensures Capped(Apply(w, Commit(tx)).db.claims, app, length)
  {
    hide Invariant;
    var after := Apply(w, Commit(tx)).db;
    if tx in w.txs && ReadyToCommit(w.txs[tx]) {
      TxClaims(w, tx);
      var c := w.txs[tx].claim;
      assert |after.claims| == |w.db.claims|;
      assert forall k: nat | k < |w.db.claims| && k != c :: after.claims[k] == w.db.claims[k];
      forall from: int, to: int | to - from <= length
        ensures ActiveIn(after.claims, app, from, to) <= MAX_PROFIT_COST_POA_CLAIM_COUNT
      {
        ActiveInFalls(w.db.claims, after.claims, app, from, to);
      }
    }
  }

  lemma {:induction false} RunKeepsCap(w: World, actions: seq<Action>, app: nat, lag: int)
    requires Invariant(w) && Capped(w.db.claims, app, CAP - lag) && PromptRun(w, actions, lag)
    ensures Capped(Run(w, actions).db.claims, app, CAP - lag)
  {
    hide Invariant, Capped, Prompt, Apply;
    if actions != [] {
      var before := actions[..|actions| - 1];
      RunKeepsCap(w, before, app, lag);
      RunKeeps(w, before);
      StepKeepsCap(Run(w, before), actions[|actions| - 1], app, lag);
    }
  }

  /**
   After every run whose rules do not raise and whose automatic rejections commit, every window of 365 days, less the
   largest lag between a claim's stamp and the clock reading of its rules, holds at most
   four active profit-cost payments on account. With one reading per submission that is
   every closed window of 365 days.
   */
  lemma EveryRunCapped(applications: seq<Application>, actions: seq<Action>, lag: int, app: nat, from: int, to: int)
    requires PromptRun(Initial(applications), actions, lag)
    requires to - from <= CAP - lag
    ensures ActiveIn(After(applications, actions).db.claims, app, from, to) <= 4
  {
    InitialFits(applications);
    RunKeepsCap(Initial(applications), actions, app, lag);
  }
}
