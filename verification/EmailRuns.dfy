/**
 Runs of the whole service with the email job in between: at most one approval recorded, no email lost or repeated
 without a failure.
 */
module EmailRuns {
  import opened Options
  import opened Claims
  import opened PaymentExtract
  import opened Tables
  import opened Consistency
  import opened Assessments
  import opened Runs
  import opened ApprovalEmails

  /** `sent` and `failed` are kept over all runs of the job. */
  datatype Service = Service(world: World, sent: seq<Key>, failed: seq<Key>)

  datatype ServiceStep = Happens(action: Action) | RunsJob(now: int, faults: seq<Fault>)

  /** The job as one step: its session starts from the committed history and what it did not commit is lost. */
  function JobDone(s: Service, now: int, faults: seq<Fault>): JobState {
    var db := s.world.db;
    ProcessAll(JobState(db.history, db.history, false, faults, s.sent, s.failed),
               Keys(db.claims, Listed(db.claims, now)))
  }

  function ApplyStep(s: Service, step: ServiceStep): Service {
    match step
    case Happens(action) => s.(world := Apply(s.world, action))
    case RunsJob(now, faults) =>
      var done := JobDone(s, now, faults);
      Service(s.world.(db := s.world.db.(history := done.committed)), done.sent, done.failed)
  }

  function RunService(applications: seq<Application>, steps: seq<ServiceStep>): Service {
    if steps == [] then Service(Initial(applications), [], [])
    else ApplyStep(RunService(applications, steps[..|steps| - 1]), steps[|steps| - 1])
  }

  predicate NamesNoApproval(events: seq<Event>) {
    forall e | e in events :: e.kind == ClaimApprovedEmail ==> e.claimReference.None?
  }

  /** Other parts of the service record no approval email with a claim reference. */
  predicate Quiet(step: ServiceStep) {
    step.Happens? && step.action.RecordEvents? ==> NamesNoApproval(step.action.events)
  }

  // ------------------------------------------------------------------------ one job

  function Approvals(history: seq<Event>, key: Key): nat { multiset(history)[Approval(key)] }

  function Count(keys: seq<Key>, key: Key): nat { multiset(keys)[key] }

  ghost predicate OncePerKey(committed: seq<Event>, sent: seq<Key>, failed: seq<Key>, key: Key) {
    && Approvals(committed, key) <= 1
    && Count(sent, key) <= Approvals(committed, key) + Count(failed, key)
    && (Approval(key) in committed ==> key in sent)
    && (key in sent ==> Event(PoaAutoApproved, key.app, Some(key.reference)) in committed)
  }

  /** What the session sees is the committed history and approvals waiting to be committed. */
  ghost predicate JobFits(s: JobState, key: Key) {
    && OncePerKey(s.committed, s.sent, s.failed, key)
    && s.committed <= s.working
    && Approvals(s.working, key) <= 1
    && (Approval(key) in s.working ==> key in s.sent)
    && forall e | e in s.working[|s.committed|..] :: e.kind == ClaimApprovedEmail
  }

  lemma PrefixCounts(some: seq<Event>, all: seq<Event>, key: Key)
    requires some <= all
    ensures Approvals(some, key) <= Approvals(all, key)
    ensures forall e | e in some :: e in all
    ensures forall e | e in all :: e in some || e in all[|some|..]
  {
    assert all == some + all[|some|..];
  }

  lemma ApprovalCounted(history: seq<Event>, key: Key, other: Key)
    ensures Approvals(history + [Approval(other)], key) == Approvals(history, key) + if key == other then 1 else 0
    ensures Approvals(history, key) > 0 <==> Approval(key) in history
  {
    assert Approval(key) in multiset(history) <==> Approval(key) in history;
  }

  lemma KeyCounted(keys: seq<Key>, key: Key, other: Key)
    ensures Count(keys + [other], key) == Count(keys, key) + if key == other then 1 else 0
  {
  }

  /** A database call keeps what fits, whatever its fault, if both doing it and not doing it fit. */
  lemma CallFits(s: JobState, done: JobState, key: Key)
    requires JobFits(s, key) && JobFits(done, key)
    ensures JobFits(CallDatabase(s, done).state, key)
  {
    hide Approvals, Count;
  }

  lemma ServiceFits(s: JobState, done: JobState, key: Key)
    requires JobFits(s, key) && JobFits(done, key)
    ensures JobFits(CallService(s, done).state, key)
  {
    hide OncePerKey, Approvals;
  }

  /** Whether a failure is counted makes no difference to a call. */
  lemma CallIgnoresFailed(s: JobState, done: JobState, failed: seq<Key>)
    ensures CallDatabase(s.(failed := failed), done.(failed := failed)).state
            == CallDatabase(s, done).state.(failed := failed)
    ensures CallDatabase(s, done).outcome.Pass? ==> CallDatabase(s, done).state == done.Called()
    ensures done.sent == s.sent ==> CallDatabase(s, done).state.sent == s.sent
  {
  }

  /** The job state after the email of one claim: the failure, if one follows, will be counted. */
  lemma Emailed(s: JobState, key: Key, other: Key)
    requires JobFits(s, key)
    requires Event(PoaAutoApproved, other.app, Some(other.reference)) in s.committed
    ensures JobFits(s.(sent := s.sent + [other], failed := s.failed + [other]), key)
  {
    KeyCounted(s.sent, key, other);
    KeyCounted(s.failed, key, other);
  }

  lemma Recorded(s: JobState, key: Key, other: Key)
    requires JobFits(s, key) && Approval(other) !in s.working && other in s.sent
    ensures JobFits(s.(working := s.working + [Approval(other)]), key)
  {
    ApprovalCounted(s.working, key, other);
    assert (s.working + [Approval(other)])[|s.committed|..] == s.working[|s.committed|..] + [Approval(other)];
  }

  lemma Saved(s: JobState, key: Key)
    requires JobFits(s, key)
    ensures JobFits(s.(committed := s.working), key)
  {
    PrefixCounts(s.committed, s.working, key);
  }

  /** The email, its record and the commit all succeed: no failure need be counted. */
  lemma Settled(s: JobState, key: Key, other: Key, faults: seq<Fault>)
    requires JobFits(s, key) && Approval(other) !in s.working
    requires Event(PoaAutoApproved, other.app, Some(other.reference)) in s.committed
    ensures var working := s.working + [Approval(other)];
            JobFits(s.(committed := working, working := working, sent := s.sent + [other], faults := faults), key)
  {
    KeyCounted(s.sent, key, other);
    assert (s.sent + [other])[|s.sent|] == other;
    ApprovalCounted(s.working, key, other);
    PrefixCounts(s.committed, s.working, key);
  }

  lemma ProcessFits(s: JobState, key: Key, other: Key)
    requires JobFits(s, key)
    ensures JobFits(Process(s, other), key)
  {
    CallFits(s, s, key);
    var looked := CallDatabase(s, s);
    if looked.outcome.Pass? && Due(s.working, other) {
      PrefixCounts(s.committed, s.working, key);
      assert Event(PoaAutoApproved, other.app, Some(other.reference)) in s.committed;
      var named := CallService(looked.state, looked.state);
      ServiceFits(looked.state, looked.state, key);
      if named.outcome.Pass? {
        EmailingFits(named.state, key, other);
      }
    }
  }

  lemma EmailingFits(s: JobState, key: Key, other: Key)
    requires JobFits(s, key) && Approval(other) !in s.working
    requires Event(PoaAutoApproved, other.app, Some(other.reference)) in s.committed
    ensures var emailed := CallService(s, s.(sent := s.sent + [other]));
            var recorded := CallDatabase(emailed.state, emailed.state.(working := s.working + [Approval(other)]));
            var saved := CallDatabase(recorded.state, recorded.state.(committed := recorded.state.working));
            && JobFits(Late(emailed.state, s, other), key)
            && (emailed.outcome.Pass? ==> JobFits(Late(recorded.state, s, other), key))
            && (emailed.outcome.Pass? && recorded.outcome.Pass? ==>
                  JobFits(if saved.outcome.Raised? then Late(saved.state, s, other) else saved.state, key))
  {
    var emailed := CallService(s, s.(sent := s.sent + [other]));
    var counted := s.(sent := s.sent + [other], failed := s.failed + [other], faults := emailed.state.faults);
    assert counted.sent != s.sent;
    Emailed(s, key, other);
    FaultsDoNotMatter(s.(sent := counted.sent, failed := counted.failed), counted, key);
    FaultsDoNotMatter(s, emailed.state.(sent := s.sent), key);
    if emailed.outcome.Pass? {
      RecordingFits(s, counted, key, other);
    }
  }

  lemma FaultsDoNotMatter(s: JobState, t: JobState, key: Key)
    requires JobFits(s, key) && t == s.(faults := t.faults)
    ensures JobFits(t, key)
  {
  }

  /** `counted` is the state after the email with a failure counted already. */
  lemma RecordingFits(s: JobState, counted: JobState, key: Key, other: Key)
    requires JobFits(s, key) && JobFits(counted, key) && Approval(other) !in s.working
    requires Event(PoaAutoApproved, other.app, Some(other.reference)) in s.committed
    requires counted == s.(sent := s.sent + [other], failed := s.failed + [other], faults := counted.faults)
    ensures var emailed := counted.(failed := s.failed);
            var recorded := CallDatabase(emailed, emailed.(working := s.working + [Approval(other)]));
            var saved := CallDatabase(recorded.state, recorded.state.(committed := recorded.state.working));
            && JobFits(Late(recorded.state, s, other), key)
            && (recorded.outcome.Pass? ==>
                  JobFits(if saved.outcome.Raised? then Late(saved.state, s, other) else saved.state, key))
  {
    hide JobFits, CallDatabase, Approval;
    var emailed := counted.(failed := s.failed);
    var written := emailed.(working := s.working + [Approval(other)]);
    var recorded := CallDatabase(emailed, written);
    assert counted.sent[|s.sent|] == other;
    Recorded(counted, key, other);
    CallFits(counted, counted.(working := written.working), key);
    CallIgnoresFailed(emailed, written, counted.failed);
    if recorded.outcome.Pass? {
      var pending := recorded.state.(failed := counted.failed);
      var done := recorded.state.(committed := recorded.state.working);
      Saved(pending, key);
      CallFits(pending, pending.(committed := pending.working), key);
      CallIgnoresFailed(recorded.state, done, counted.failed);
      var saved := CallDatabase(recorded.state, done);
      if saved.outcome.Pass? {
        Settled(s, key, other, saved.state.faults);
      }
    }
  }

  lemma {:induction false} ProcessAllFits(s: JobState, keys: seq<Key>, key: Key)
    requires JobFits(s, key)
    ensures JobFits(ProcessAll(s, keys), key)
  {
    hide JobFits, Process;
    if keys != [] {
      ProcessAllFits(s, keys[..|keys| - 1], key);
      ProcessFits(ProcessAll(s, keys[..|keys| - 1]), key, keys[|keys| - 1]);
    }
  }

  // ----------------------------------------------------------------------- all runs

  ghost predicate AddsNoApproval(db: Database, db': Database) {
    db.history <= db'.history && NamesNoApproval(db'.history[|db.history|..])
  }

  lemma SubmittingAddsNoApproval(db: Database, s: Submission, env: SubmitEnv)
    ensures AddsNoApproval(db, Submitting(db, s, env))
  {
    hide NewClaim, AutoVerdict, UsableReference, Decide, PoaLines;
    var checked := CheckSubmission(db, s);
    if checked.Ok? && env.created && UsableReference(db.claims, env.reference) {
      var created := CreatedClaim(db, s.app, checked.value, env);
      assert AddsNoApproval(db, created);
      DecidedAddsNoApproval(created, AutoVerdict(db, s.app, checked.value, env.clock), env);
      hide CreatedClaim, AutoDecided;
      AddsTransitively(db, created, AutoDecided(created, AutoVerdict(db, s.app, checked.value, env.clock), env));
    }
  }

  lemma DecidedAddsNoApproval(db: Database, verdict: Verdict, env: SubmitEnv)
    requires db.claims != []
    ensures AddsNoApproval(db, AutoDecided(db, verdict, env))
  {
    hide PoaLines;
  }

  lemma AddsTransitively(a: Database, b: Database, c: Database)
    requires AddsNoApproval(a, b) && AddsNoApproval(b, c)
    ensures AddsNoApproval(a, c)
  {
    assert c.history[|a.history|..] == b.history[|a.history|..] + c.history[|b.history|..];
  }

  lemma CommittingAddsNoApproval(w: World, tx: nat)
    ensures AddsNoApproval(w.db, Committing(w, tx).db)
  {
    hide AfterPayment;
  }

  /** Every other step adds to the history, and never an approval of a claim. */
  lemma ApplyAddsHistory(w: World, action: Action) returns (added: seq<Event>)
    requires action.RecordEvents? ==> NamesNoApproval(action.events)
    ensures Apply(w, action).db.history == w.db.history + added && NamesNoApproval(added)
  {
    hide Submitting, Committing, Lock, PaymentLines;
    match action {
      case SubmitClaim(s, env) => SubmittingAddsNoApproval(w.db, s, env);
      case Commit(tx) => CommittingAddsNoApproval(w, tx);
      case _ =>
    }
    var after := Apply(w, action).db.history;
    added := after[|w.db.history|..];
  }

  /**
   In every run a claim has at most one approval recorded, and only after an email; it is emailed at most once
   more than the job failed after sending, and only if it was approved automatically.
   */
  lemma {:induction false} EveryRunEmailsOnce(applications: seq<Application>, steps: seq<ServiceStep>, key: Key)
    requires forall k | 0 <= k < |steps| :: Quiet(steps[k])
    ensures var s := RunService(applications, steps);
            && Approvals(s.world.db.history, key) <= 1
            && Count(s.sent, key) <= Approvals(s.world.db.history, key) + Count(s.failed, key)
            && (Approval(key) in s.world.db.history ==> key in s.sent)
            && (key in s.sent ==> Event(PoaAutoApproved, key.app, Some(key.reference)) in s.world.db.history)
  {
    if steps != [] {
      var last := |steps| - 1;
      EveryRunEmailsOnce(applications, steps[..last], key);
      var s := RunService(applications, steps[..last]);
      match steps[last]
      case Happens(action) =>
        assert Quiet(steps[last]);
        var added := ApplyAddsHistory(s.world, action);
        assert Approval(key) !in added;
        assert multiset(s.world.db.history + added) == multiset(s.world.db.history) + multiset(added);
      case RunsJob(now, faults) =>
        var db := s.world.db;
        ProcessAllFits(JobState(db.history, db.history, false, faults, s.sent, s.failed),
                       Keys(db.claims, Listed(db.claims, now)), key);
    }
  }

  // ----------------------------------------------------------------------- coverage

  predicate Grows(s: JobState, t: JobState) { s.committed <= t.committed <= t.working }

  lemma CallGrows(from: JobState, s: JobState, done: JobState)
    requires Grows(from, s) && Grows(from, done)
    ensures Grows(from, CallDatabase(s, done).state)
    ensures CallDatabase(s, done).outcome.Pass? ==> CallDatabase(s, done).state == done.Called()
  {
  }

  lemma ProcessGrows(s: JobState, key: Key)
    requires s.committed <= s.working
    ensures Grows(s, Process(s, key))
  {
    hide CallDatabase;
    CallGrows(s, s, s);
    var looked := CallDatabase(s, s).state;
    var emailed := CallService(CallService(looked, looked).state,
                               CallService(looked, looked).state.(sent := s.sent + [key])).state;
    if CallDatabase(s, s).outcome.Pass? {
      var written := emailed.(working := s.working + [Approval(key)]);
      CallGrows(s, emailed, written);
      var recorded := CallDatabase(emailed, written);
      if recorded.outcome.Pass? {
        CallGrows(s, recorded.state, recorded.state.(committed := recorded.state.working));
      }
    }
  }

  lemma {:induction false} ProcessAllGrows(s: JobState, keys: seq<Key>)
    requires s.committed <= s.working
    ensures Grows(s, ProcessAll(s, keys))
  {
    hide Process;
    if keys != [] {
      ProcessAllGrows(s, keys[..|keys| - 1]);
      ProcessGrows(ProcessAll(s, keys[..|keys| - 1]), keys[|keys| - 1]);
    }
  }

  /**
   With the job in between, the service still only makes runs of the other steps, so all that holds of them holds of
   it.
   */
  lemma {:induction false} JobsMakeRuns(applications: seq<Application>,
                                        steps: seq<ServiceStep>) returns (actions: seq<Action>)
    ensures RunService(applications, steps).world == After(applications, actions)
  {
    hide Apply, ProcessAll, Keys, Listed;
    if steps == [] {
      actions := [];
    } else {
      var last := |steps| - 1;
      actions := JobsMakeRuns(applications, steps[..last]);
      var action := AsAction(RunService(applications, steps[..last]), steps[last]);
      assert (actions + [action])[..|actions|] == actions;
      actions := actions + [action];
    }
  }

  lemma AsAction(s: Service, step: ServiceStep) returns (action: Action)
    ensures ApplyStep(s, step).world == Apply(s.world, action)
  {
    hide ProcessAll, Keys, Listed, Submitting, Lock, Start, Reading, Writing, Committing;
    match step
    case Happens(a) => action := a;
    case RunsJob(now, faults) =>
      var db := s.world.db;
      ProcessAllGrows(JobState(db.history, db.history, false, faults, s.sent, s.failed),
                      Keys(db.claims, Listed(db.claims, now)));
      var committed := JobDone(s, now, faults).committed;
      action := RecordEvents(committed[|db.history|..]);
      assert committed == db.history + committed[|db.history|..];
  }

  lemma EvolvesKeepsDecided(db: Database, db': Database, touched: nat, c: nat)
    requires Evolves(db, db', touched) && c < |db.claims| && db.claims[c].status != Submitted
    ensures c < |db'.claims| && db'.claims[c] == db.claims[c]
  {
  }

  lemma StepKeepsDecided(s: Service, step: ServiceStep, c: nat)
    requires Invariant(s.world) && c < |s.world.db.claims| && s.world.db.claims[c].status != Submitted
    ensures var later := ApplyStep(s, step).world.db; c < |later.claims| && later.claims[c] == s.world.db.claims[c]
  {
    hide Invariant, Apply, ApplyStep;
    var action := AsAction(s, step);
    var touched := ApplyEvolves(s.world, action);
    EvolvesKeepsDecided(s.world.db, Apply(s.world, action).db, touched, c);
  }

  /** A decided claim stays as it is through any steps of the service. */
  lemma {:induction false} DecidedStays(applications: seq<Application>, steps: seq<ServiceStep>, from: nat, c: nat)
    requires from <= |steps|
    requires var w := RunService(applications, steps[..from]).world;
             c < |w.db.claims| && w.db.claims[c].status != Submitted
    ensures var w, later := RunService(applications, steps[..from]).world, RunService(applications, steps).world;
            c < |later.db.claims| && later.db.claims[c] == w.db.claims[c]
  {
    hide Invariant, Initial, ApplyStep;
    if from == |steps| {
      assert steps[..from] == steps;
    } else {
      var last := |steps| - 1;
      assert steps[..last][..from] == steps[..from];
      DecidedStays(applications, steps[..last], from, c);
      var actions := JobsMakeRuns(applications, steps[..last]);
      EveryRunConsistent(applications, actions);
      StepKeepsDecided(RunService(applications, steps[..last]), steps[last], c);
    }
  }

  predicate IsJob(steps: seq<ServiceStep>, k: nat) { k < |steps| && steps[k].RunsJob? }

  function JobTime(steps: seq<ServiceStep>, k: nat): int { if IsJob(steps, k) then steps[k].now else 0 }

  /**
   The job runs at `first`, then at the given later steps, never more than 48 hours apart. A payment on account
   paid by step `from`, submitted within the first run's window or later, is listed by a run that comes after its
   submission.
   */
  lemma {:induction false} EveryApprovalExamined(applications: seq<Application>, steps: seq<ServiceStep>,
                                                 jobs: seq<nat>, from: nat, c: nat)
    returns (i: nat)
    requires from <= |steps| && jobs != [] && forall k | 0 <= k < |jobs| :: IsJob(steps, jobs[k])
    requires forall k, l | 0 <= k < |jobs| && l == k + 1 < |jobs| ::
               JobTime(steps, jobs[l]) <= JobTime(steps, jobs[k]) + 48 * 3600
    requires var w := RunService(applications, steps[..from]).world;
             && c < |w.db.claims| && w.db.claims[c].IsPoa() && w.db.claims[c].IsPaid()
             && var submitted := w.db.claims[c].submittedAt;
                && JobTime(steps, jobs[0]) - 48 * 3600 <= submitted < JobTime(steps, jobs[|jobs| - 1])
                && forall k | 0 <= k < |jobs| :: jobs[k] >= from <==> JobTime(steps, jobs[k]) > submitted
    ensures i < |jobs| && jobs[i] >= from && IsJob(steps, jobs[i])
    ensures c in Listed(RunService(applications, steps[..jobs[i]]).world.db.claims, JobTime(steps, jobs[i]))
  {
    var submitted := RunService(applications, steps[..from]).world.db.claims[c].submittedAt;
    var last := |jobs| - 1;
    if last > 0 && submitted < JobTime(steps, jobs[last - 1]) {
      i := EveryApprovalExamined(applications, steps, jobs[..last], from, c);
    } else {
      i := last;
      assert IsJob(steps, jobs[i]);
      assert steps[..jobs[i]][..from] == steps[..from];
      DecidedStays(applications, steps[..jobs[i]], from, c);
    }
  }

  lemma {:induction false} FaultlessRecords(s: JobState, keys: seq<Key>, key: Key)
    requires s.faults == [] && !s.broken && s.working == s.committed
    requires Event(PoaAutoApproved, key.app, Some(key.reference)) in s.committed
    ensures var t := ProcessAll(s, keys);
            && t.faults == [] && !t.broken && t.working == t.committed && s.committed <= t.committed
            && (key in keys ==> Approval(key) in t.committed)
  {
    if keys != [] {
      var last := |keys| - 1;
      FaultlessRecords(s, keys[..last], key);
      assert keys == keys[..last] + [keys[last]];
      var t := ProcessAll(s, keys[..last]);
      FaultlessRecordsOne(t, keys[last]);
      PrefixCounts(s.committed, t.committed, key);
      PrefixCounts(t.committed, ProcessAll(s, keys).committed, key);
    }
  }

  lemma FaultlessRecordsOne(s: JobState, key: Key)
    requires s.faults == [] && !s.broken && s.working == s.committed
    ensures var t := Process(s, key);
            && t.faults == [] && !t.broken && t.working == t.committed && s.committed <= t.committed
            && (Event(PoaAutoApproved, key.app, Some(key.reference)) in s.committed ==> Approval(key) in t.committed)
  {
    assert (s.working + [Approval(key)])[|s.working|] == Approval(key);
  }

  /** A run of the job without failures leaves every automatic approval it lists emailed, with exactly one record. */
  lemma FaultlessRunSettles(applications: seq<Application>, steps: seq<ServiceStep>, now: int, c: nat)
    requires forall k | 0 <= k < |steps| :: Quiet(steps[k])
    requires var db := RunService(applications, steps).world.db;
             && c in Listed(db.claims, now)
             && Event(PoaAutoApproved, db.claims[c].app, Some(db.claims[c].reference)) in db.history
    ensures var db := RunService(applications, steps).world.db;
            var key := Key(db.claims[c].app, db.claims[c].reference);
            var after := RunService(applications, steps + [RunsJob(now, [])]);
            Approvals(after.world.db.history, key) == 1 && key in after.sent
  {
    var s := RunService(applications, steps);
    var db := s.world.db;
    var key := Key(db.claims[c].app, db.claims[c].reference);
    var ids := Listed(db.claims, now);
    var keys := Keys(db.claims, ids);
    var k :| 0 <= k < |ids| && ids[k] == c;
    assert keys[k] == key;
    FaultlessRecords(JobState(db.history, db.history, false, [], s.sent, s.failed), keys, key);
    var longer := steps + [RunsJob(now, [])];
    assert longer[..|steps|] == steps;
    assert forall j | 0 <= j < |longer| :: Quiet(longer[j]);
    EveryRunEmailsOnce(applications, longer, key);
    ApprovalCounted(RunService(applications, longer).world.db.history, key, key);
  }

  // ------------------------------------------------------------ what one failure blocks

  /** The n-th of the faults still to come. */
  function FaultAt(faults: seq<Fault>, n: nat): Fault { if n < |faults| then faults[n] else Fine }

  /** The first n calls do not raise. */
  predicate FineUpTo(faults: seq<Fault>, n: nat) { forall m | 0 <= m < n :: FaultAt(faults, m).Fine? }

  /** The call that draws the n-th fault is reached, raises, and leaves the session unusable. */
  predicate BreaksAt(faults: seq<Fault>, n: nat) {
    FineUpTo(faults, n) && FaultAt(faults, n).Raises? && FaultAt(faults, n).breaks
  }

  /**
   Processing the claim makes a usable session unusable: by the lookup, or, for a due claim, by the record or the
   commit.
   */
  predicate Breaks(s: JobState, key: Key) {
    !s.broken && (BreaksAt(s.faults, 0) || (Due(s.working, key) && (BreaksAt(s.faults, 3) || BreaksAt(s.faults, 4))))
  }

  /** Of the five calls of a claim, just the failures of the three database calls can make the session unusable. */
  lemma BreaksExactly(s: JobState, key: Key)
    ensures Process(s, key).broken <==> s.broken || Breaks(s, key)
  {
    hide Due;
    CalledFaults(s);
    if !s.broken && CallDatabase(s, s).outcome.Pass? && Due(s.working, key) {
      SendingBreaksNothing(CallDatabase(s, s).state, key);
      var sent := Sending(CallDatabase(s, s).state, key);
      assert FineUpTo(s.faults, 3) <==> FineUpTo(s.faults, 1) && FineUpTo(s.Called().faults, 2) by {
        assert FaultAt(s.faults, 1) == FaultAt(s.Called().faults, 0)
               && FaultAt(s.faults, 2) == FaultAt(s.Called().faults, 1);
      }
      if sent.outcome.Pass? {
        assert forall n: nat :: FaultAt(sent.state.faults, n) == FaultAt(s.faults, n + 3);
        RecordingBreaks(s, sent.state, key);
      }
    }
  }

  /** The two calls to other services: the provider lookup and the email. */
  function Sending(s: JobState, key: Key): Call {
    var named := CallService(s, s);
    if named.outcome.Raised? then named
    else CallService(named.state, named.state.(sent := s.sent + [key]))
  }

  lemma SendingBreaksNothing(s: JobState, key: Key)
    ensures var sent := Sending(s, key);
            && sent.state.broken == s.broken
            && (sent.outcome.Pass? <==> FineUpTo(s.faults, 2))
            && (sent.outcome.Pass? ==> forall n: nat :: FaultAt(sent.state.faults, n) == FaultAt(s.faults, n + 2))
            && (sent.outcome.Pass? ==> sent.state == s.(sent := s.sent + [key], faults := sent.state.faults))
  {
    CalledFaults(s);
    CalledFaults(s.Called());
    assert FineUpTo(s.faults, 2) <==> FaultAt(s.faults, 0).Fine? && FaultAt(s.faults, 1).Fine?;
  }

  lemma RecordingBreaks(s: JobState, sent: JobState, key: Key)
    requires !sent.broken && FineUpTo(s.faults, 3)
    requires forall n: nat :: FaultAt(sent.faults, n) == FaultAt(s.faults, n + 3)
    ensures var recorded := CallDatabase(sent, sent.(working := s.working + [Approval(key)]));
            var saved := CallDatabase(recorded.state, recorded.state.(committed := recorded.state.working));
            && (recorded.outcome.Raised? ==>
                  (recorded.state.broken <==> BreaksAt(s.faults, 3) || BreaksAt(s.faults, 4)))
            && (recorded.outcome.Pass? ==> (saved.state.broken <==> BreaksAt(s.faults, 3) || BreaksAt(s.faults, 4)))
  {
    CalledFaults(sent);
    assert FaultAt(sent.faults, 0) == FaultAt(s.faults, 3) && FaultAt(sent.faults, 1) == FaultAt(s.faults, 4);
    assert FineUpTo(s.faults, 4) <==> FaultAt(s.faults, 3).Fine?;
  }

  lemma CalledFaults(s: JobState)
    ensures s.Fault() == FaultAt(s.faults, 0)
    ensures forall n: nat :: FaultAt(s.Called().faults, n) == FaultAt(s.faults, n + 1)
  {
  }

  /** The session is unusable after a part of the run exactly when it was before, or one of the claims made it so. */
  lemma {:induction false} BrokenExactly(s: JobState, keys: seq<Key>)
    ensures ProcessAll(s, keys).broken <==>
            s.broken || exists k: nat :: k < |keys| && Breaks(ProcessAll(s, keys[..k]), keys[k])
  {
    hide Process, Breaks;
    if keys != [] {
      var last := |keys| - 1;
      BrokenExactly(s, keys[..last]);
      BreaksExactly(ProcessAll(s, keys[..last]), keys[last]);
      assert forall k: nat | k < last :: keys[..last][..k] == keys[..k];
    }
  }

  /** An unusable session ends the run for every claim still to come. */
  lemma {:induction false} BrokenSessionStops(s: JobState, keys: seq<Key>)
    requires s.broken
    ensures ProcessAll(s, keys) == s
  {
    if keys != [] {
      BrokenSessionStops(s, keys[..|keys| - 1]);
    }
  }

  /** A claim not among those processed stays due. */
  lemma {:induction false} StaysDue(s: JobState, keys: seq<Key>, key: Key)
    requires s.committed == s.working && Due(s.working, key) && key !in keys
    ensures KeepsDue(ProcessAll(s, keys), key)
  {
    hide Due, Process;
    if keys != [] {
      var last := |keys| - 1;
      StaysDue(s, keys[..last], key);
      assert keys == keys[..last] + [keys[last]];
      OtherStaysDue(ProcessAll(s, keys[..last]), keys[last], key);
    }
  }

  predicate KeepsDue(s: JobState, key: Key) { Due(s.working, key) && Due(s.committed, key) && s.committed <= s.working }

  lemma CallKeepsDue(s: JobState, done: JobState, key: Key)
    requires KeepsDue(s, key) && KeepsDue(done, key)
    ensures KeepsDue(CallDatabase(s, done).state, key)
    ensures CallDatabase(s, done).outcome.Pass? ==> CallDatabase(s, done).state == done.Called()
  {
    hide Due;
  }

  lemma OtherStaysDue(s: JobState, other: Key, key: Key)
    requires other != key && KeepsDue(s, key)
    ensures KeepsDue(Process(s, other), key)
  {
    var working := s.working + [Approval(other)];
    assert Due(working, key) by {
      assert Event(PoaAutoApproved, key.app, Some(key.reference)) in working && Approval(key) !in working;
    }
    hide CallDatabase, Due;
    CallKeepsDue(s, s, key);
    if CallDatabase(s, s).outcome.Pass? && Due(s.working, other) {
      SendingBreaksNothing(s.Called(), other);
      var sent := Sending(s.Called(), other).state;
      var written := sent.(working := working);
      CallKeepsDue(sent, written, key);
      var recorded := CallDatabase(sent, written);
      if recorded.outcome.Pass? {
        CallKeepsDue(recorded.state, recorded.state.(committed := recorded.state.working), key);
      }
    }
  }

  /**
   A failure blocks the claims after it exactly when it left the session unusable: with the faults used up by the first
   k claims, a claim that was due is emailed and its approval committed if and only if none of them did.
   */
  lemma OneFailureBlocksExactly(s: JobState, keys: seq<Key>, k: nat)
    requires k < |keys| && keys[k] !in keys[..k]
    requires !s.broken && s.committed == s.working && Due(s.working, keys[k])
    requires ProcessAll(s, keys[..k]).faults == []
    ensures var before, after := ProcessAll(s, keys[..k]), ProcessAll(s, keys[..k + 1]);
            var blocked := exists m: nat :: m < k && Breaks(ProcessAll(s, keys[..m]), keys[m]);
            && (!blocked <==> after.sent == before.sent + [keys[k]])
            && (!blocked <==> Approval(keys[k]) in after.committed)
            && (blocked ==> after == before)
  {
    var before := ProcessAll(s, keys[..k]);
    StaysDue(s, keys[..k], keys[k]);
    BrokenExactly(s, keys[..k]);
    assert forall m: nat | m < k :: keys[..k][..m] == keys[..m];
    ProcessAllStep(s, keys, k);
    if before.broken {
      ProcessOne(before, keys[k]);
      BrokenSessionStops(before, [keys[k]]);
      assert |before.sent + [keys[k]]| > |before.sent|;
    } else {
      NothingRaises(before, keys[k]);
      assert (before.working + [Approval(keys[k])])[|before.working|] == Approval(keys[k]);
    }
    assert Due(before.committed, keys[k]);
    hide Process, ProcessAll, Breaks;
  }

  /** Two claims: a failing provider lookup costs only the first its email, a lookup that breaks the session both. */
  lemma TwoClaims(first: Key, second: Key)
    requires first != second
    ensures var history := [Event(PoaAutoApproved, first.app, Some(first.reference)),
                            Event(PoaAutoApproved, second.app, Some(second.reference))];
            var lookupFails := JobState(history, history, false, [Fine, Raises(false, false, false)], [], []);
            var sessionBreaks := lookupFails.(faults := [Raises(false, true, false)]);
            && ProcessAll(lookupFails, [first, second]).sent == [second]
            && ProcessAll(lookupFails, [first, second]).committed == history + [Approval(second)]
            && ProcessAll(sessionBreaks, [first, second]).sent == []
            && ProcessAll(sessionBreaks, [first, second]).committed == history
  {
    var history := [Event(PoaAutoApproved, first.app, Some(first.reference)),
                    Event(PoaAutoApproved, second.app, Some(second.reference))];
    var lookupFails := JobState(history, history, false, [Fine, Raises(false, false, false)], [], []);
    var sessionBreaks := lookupFails.(faults := [Raises(false, true, false)]);
    assert Due(history, first) && Due(history, second);
    TwoSteps(lookupFails, first, second);
    TwoSteps(sessionBreaks, first, second);
    LookupRaises(lookupFails, first);
    NothingRaises(lookupFails.(faults := []), second);
    SessionBreaks(sessionBreaks, first);
    ProcessOne(sessionBreaks.(faults := [], broken := true), second);
    BrokenSessionStops(sessionBreaks.(faults := [], broken := true), [second]);
    hide Process, ProcessAll, Due;
  }

  lemma TwoSteps(s: JobState, first: Key, second: Key)
    ensures ProcessAll(s, [first, second]) == Process(Process(s, first), second)
  {
    hide Process;
    assert [first, second][..1] == [first];
    ProcessOne(s, first);
  }

  lemma LookupRaises(s: JobState, key: Key)
    requires !s.broken && Due(s.working, key) && s.faults == [Fine, Raises(false, false, false)]
    ensures Process(s, key) == s.(faults := [])
  {
    hide Due;
  }

  lemma SessionBreaks(s: JobState, key: Key)
    requires !s.broken && s.faults == [Raises(false, true, false)]
    ensures Process(s, key) == s.(faults := [], broken := true)
  {
    hide Due;
  }

  lemma ProcessOne(s: JobState, key: Key)
    ensures ProcessAll(s, [key]) == Process(s, key)
  {
    hide Process;
    assert [key][..0] == [];
  }

  lemma RecordingRaises(s: JobState, key: Key)
    requires !s.broken && Due(s.working, key) && s.faults == [Fine, Fine, Fine, Raises(false, true, false)]
    ensures Process(s, key) == s.(broken := true, faults := [], sent := s.sent + [key], failed := s.failed + [key])
  {
    hide Due;
    assert s.sent + [key] != s.sent;
  }

  lemma NothingRaises(s: JobState, key: Key)
    requires !s.broken && Due(s.working, key) && s.faults == []
    ensures var working := s.working + [Approval(key)];
            Process(s, key) == s.(committed := working, working := working, sent := s.sent + [key])
  {
    hide Due;
  }

  /** The bound is met: when recording fails after sending, the next run sends a second email. */
  lemma LostRecordRepeatsTheEmail(key: Key)
    ensures var history := [Event(PoaAutoApproved, key.app, Some(key.reference))];
            var first := ProcessAll(JobState(history, history, false, [Fine, Fine, Fine, Raises(false, true, false)],
                                             [], []), [key]);
            var second := ProcessAll(JobState(first.committed, first.committed, false, [], first.sent, first.failed),
                                     [key]);
            && first.committed == history && second.sent == [key, key] && second.failed == [key]
            && Approvals(second.committed, key) == 1
  {
    var history := [Event(PoaAutoApproved, key.app, Some(key.reference))];
    var start := JobState(history, history, false, [Fine, Fine, Fine, Raises(false, true, false)], [], []);
    assert Due(history, key);
    RecordingRaises(start, key);
    ProcessOne(start, key);
    var again := JobState(history, history, false, [], [key], [key]);
    NothingRaises(again, key);
    ProcessOne(again, key);
    ApprovalCounted(history, key, key);
    hide Process, ProcessAll, Due;
  }
}
