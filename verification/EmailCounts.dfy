/** How often a claim is emailed: once for its record, and once for every run of the job that lost the record. */
module EmailCounts {
  import opened Claims
  import opened Tables
  import opened Consistency
  import opened Ledger
  import opened Assessments
  import opened Runs
  import opened ApprovalEmails
  import opened EmailRuns

  /** A run of the job that emails the claim and leaves no approval of it committed. */
  predicate LosesRecord(before: Service, step: ServiceStep, key: Key) {
    && step.RunsJob?
    && var after := ApplyStep(before, step);
       Count(after.sent, key) > Count(before.sent, key) && Approval(key) !in after.world.db.history
  }

  function LostRuns(applications: seq<Application>, steps: seq<ServiceStep>, key: Key): nat {
    if steps == [] then 0
    else
      var last := |steps| - 1;
      LostRuns(applications, steps[..last], key)
      + if LosesRecord(RunService(applications, steps[..last]), steps[last], key) then 1 else 0
  }

  // ---------------------------------------------------------------------- one claim

  predicate Within(s: JobState, events: seq<Event>) {
    (forall e | e in s.committed :: e in events) && (forall e | e in s.working :: e in events)
  }

  lemma CallWithin(s: JobState, done: JobState, events: seq<Event>)
    requires Within(s, events) && Within(done, events)
    ensures Within(CallDatabase(s, done).state, events)
    ensures CallDatabase(s, done).outcome.Pass? ==> CallDatabase(s, done).state == done.Called()
    ensures done.sent == s.sent ==> CallDatabase(s, done).state.sent == s.sent
  {
  }

  /** One claim is emailed at most once, only while its approval is not yet seen, and only then is one added. */
  lemma ProcessAdds(s: JobState, key: Key)
    requires s.committed <= s.working
    ensures var t := Process(s, key);
            || (t.sent == s.sent && Within(t, s.working))
            || (t.sent == s.sent + [key] && Approval(key) !in s.working && Within(t, s.working + [Approval(key)]))
  {
    PrefixCounts(s.committed, s.working, key);
    assert Within(s, s.working);
    var events := s.working + [Approval(key)];
    hide CallDatabase;
    CallWithin(s, s, s.working);
    if CallDatabase(s, s).outcome.Pass? && Due(s.working, key) {
      SendingBreaksNothing(s.Called(), key);
      var sent := Sending(s.Called(), key);
      if sent.outcome.Pass? {
        var written := sent.state.(working := events);
        CallWithin(sent.state, written, events);
        var recorded := CallDatabase(sent.state, written);
        if recorded.outcome.Pass? {
          CallWithin(recorded.state, recorded.state.(committed := recorded.state.working), events);
        }
      }
    }
  }

  /**
   Of the five calls for a due claim, the email is the third: it goes out and leaves no record at once exactly when the
   email call raises although it was sent, or it passes and the record raises, or the commit does without effect.
   */
  lemma UnrecordedExactly(s: JobState, key: Key)
    requires !s.broken && s.committed == s.working && Due(s.working, key)
    ensures var t := Process(s, key);
            var email, record, commit := FaultAt(s.faults, 2), FaultAt(s.faults, 3), FaultAt(s.faults, 4);
            key in t.sent[|s.sent|..] && Approval(key) !in t.committed <==>
            && FineUpTo(s.faults, 2)
            && if email.Raises? then email.effect else record.Raises? || (commit.Raises? && !commit.effect)
  {
    assert Approval(key) !in s.committed;
    assert Approval(key) in s.working + [Approval(key)];
    hide Due;
    CalledFaults(s);
    var looked := CallDatabase(s, s);
    if looked.outcome.Pass? {
      SendingExactly(s.Called(), key);
      assert FineUpTo(s.faults, 2) <==> FaultAt(s.faults, 0).Fine? && FaultAt(s.Called().faults, 0).Fine?;
      var sent := Sending(looked.state, key);
    }
  }

  /**
   Such a record is left waiting in the session, for a later claim's commit, exactly when the record or the commit
   raised and what was flushed before it, or by it, was not lost.
   */
  lemma WaitingExactly(s: JobState, key: Key)
    requires !s.broken && s.committed == s.working && Due(s.working, key)
    ensures var t := Process(s, key);
            var record, commit := FaultAt(s.faults, 3), FaultAt(s.faults, 4);
            Approval(key) in t.working && Approval(key) !in t.committed <==>
            && FineUpTo(s.faults, 3)
            && if record.Raises? then record.effect && !record.loses
               else commit.Raises? && !commit.effect && !commit.loses
  {
    assert Approval(key) !in s.committed;
    assert Approval(key) in s.working + [Approval(key)];
    hide Due;
    CalledFaults(s);
    var looked := CallDatabase(s, s);
    if looked.outcome.Pass? {
      SendingExactly(s.Called(), key);
      assert FineUpTo(s.faults, 3) <==> FaultAt(s.faults, 0).Fine? && FaultAt(s.Called().faults, 0).Fine?
                                        && FaultAt(s.Called().faults, 1).Fine?;
    }
  }

  lemma SendingExactly(s: JobState, key: Key)
    ensures var sent := Sending(s, key);
            var lookup, email := FaultAt(s.faults, 0), FaultAt(s.faults, 1);
            && (sent.outcome.Pass? <==> lookup.Fine? && email.Fine?)
            && sent.state == s.(sent := sent.state.sent, faults := sent.state.faults)
            && sent.state.sent == s.sent + (if lookup.Fine? && (email.Fine? || email.effect) then [key] else [])
            && (sent.outcome.Pass? ==>
                  && FaultAt(sent.state.faults, 0) == FaultAt(s.faults, 2)
                  && FaultAt(sent.state.faults, 1) == FaultAt(s.faults, 3))
  {
    CalledFaults(s);
    CalledFaults(s.Called());
    assert s.sent + [] == s.sent;
  }

  // ------------------------------------------------------------------------ one job

  /** From the start of a job to a point in it, by which the claim has been processed or not. */
  ghost predicate Tracks(start: JobState, s: JobState, key: Key, processed: bool) {
    && Grows(start, s)
    && (Count(s.sent, key) == Count(start.sent, key)
        || (processed && Approval(key) !in start.committed && Count(s.sent, key) == Count(start.sent, key) + 1))
    && (Approval(key) in s.working && Approval(key) !in start.committed ==>
          Count(s.sent, key) == Count(start.sent, key) + 1)
  }

  lemma ProcessTracks(start: JobState, s: JobState, key: Key, processed: bool, other: Key)
    requires Tracks(start, s, key, processed) && (other == key ==> !processed)
    ensures Tracks(start, Process(s, other), key, processed || other == key)
  {
    ProcessAdds(s, other);
    ProcessGrows(s, other);
    KeyCounted(s.sent, key, other);
    PrefixCounts(start.committed, s.committed, key);
    PrefixCounts(s.committed, s.working, key);
    hide Process, Count;
  }

  lemma {:induction false} ProcessAllTracks(start: JobState, keys: seq<Key>, key: Key)
    requires start.committed == start.working
    requires Distinct(keys)
    ensures Tracks(start, ProcessAll(start, keys), key, key in keys)
  {
    hide Process;
    if keys != [] {
      var last := |keys| - 1;
      ProcessAllTracks(start, keys[..last], key);
      assert keys == keys[..last] + [keys[last]];
      ProcessTracks(start, ProcessAll(start, keys[..last]), key, key in keys[..last], keys[last]);
    }
  }

  lemma {:induction false} ListedAscends(claims: seq<Claim>, now: int)
    ensures forall i, j | 0 <= i < j < |Listed(claims, now)| :: Listed(claims, now)[i] < Listed(claims, now)[j]
  {
    if claims != [] {
      var id := |claims| - 1;
      ListedAscends(claims[..id], now);
      var earlier := Listed(claims[..id], now);
      assert forall k | 0 <= k < |earlier| :: earlier[k] in earlier;
    }
  }

  predicate Distinct(keys: seq<Key>) { forall i, j | 0 <= i < j < |keys| :: keys[i] != keys[j] }

  /** The job meets each claim once. */
  lemma KeysDiffer(db: Database, recouped: Recouped, now: int)
    requires Consistent(db, recouped)
    ensures Distinct(Keys(db.claims, Listed(db.claims, now)))
  {
    hide Consistent;
    var ids := Listed(db.claims, now);
    var keys := Keys(db.claims, ids);
    ListedAscends(db.claims, now);
    forall i, j | 0 <= i < j < |keys|
      ensures keys[i] != keys[j]
    {
      assert ids[i] in ids && ids[j] in ids;
      ReferencesFit(db, recouped, ids[i], ids[j]);
    }
  }

  // ----------------------------------------------------------------------- all runs

  lemma JobTracks(applications: seq<Application>, steps: seq<ServiceStep>, now: int, faults: seq<Fault>, key: Key)
    ensures var s := RunService(applications, steps);
            var done := JobDone(s, now, faults);
            Tracks(JobState(s.world.db.history, s.world.db.history, false, faults, s.sent, s.failed), done, key,
                   key in Keys(s.world.db.claims, Listed(s.world.db.claims, now)))
  {
    hide Consistent, Invariant, Tracks, Distinct, RunService, Process, Listed, Keys;
    var w := RunService(applications, steps).world;
    ConsistentService(applications, steps);
    KeysDiffer(w.db, w.recouped, now);
    var s := RunService(applications, steps);
    ProcessAllTracks(JobState(w.db.history, w.db.history, false, faults, s.sent, s.failed),
                     Keys(w.db.claims, Listed(w.db.claims, now)), key);
  }

  lemma ConsistentService(applications: seq<Application>, steps: seq<ServiceStep>)
    ensures var w := RunService(applications, steps).world; Consistent(w.db, w.recouped)
  {
    hide Consistent, Invariant, RunService, After;
    var actions := JobsMakeRuns(applications, steps);
    EveryRunConsistent(applications, actions);
    InvariantConsistent(RunService(applications, steps).world);
  }

  /** A job adds as many emails as approvals, and one if it lost the record. */
  lemma JobCounts(applications: seq<Application>, steps: seq<ServiceStep>, step: ServiceStep, key: Key)
    requires step.RunsJob?
    requires Approvals(RunService(applications, steps).world.db.history, key) <= 1
    requires Approvals(ApplyStep(RunService(applications, steps), step).world.db.history, key) <= 1
    ensures var s := RunService(applications, steps);
            var t := ApplyStep(s, step);
            Count(t.sent, key) - Count(s.sent, key)
            == Approvals(t.world.db.history, key) - Approvals(s.world.db.history, key)
               + if LosesRecord(s, step, key) then 1 else 0
  {
    hide RunService, ProcessAll, Keys, Listed, Approvals, Count;
    var s := RunService(applications, steps);
    JobTracks(applications, steps, step.now, step.faults, key);
    var done := JobDone(s, step.now, step.faults);
    ApprovalCounted(s.world.db.history, key, key);
    ApprovalCounted(done.committed, key, key);
    PrefixCounts(s.world.db.history, done.committed, key);
    PrefixCounts(done.committed, done.working, key);
  }

  lemma StepCounts(applications: seq<Application>, steps: seq<ServiceStep>, step: ServiceStep, key: Key)
    requires step.Happens? && Quiet(step)
    ensures var s := RunService(applications, steps);
            var t := ApplyStep(s, step);
            t.sent == s.sent && Approvals(t.world.db.history, key) == Approvals(s.world.db.history, key)
  {
    hide RunService, Apply;
    var s := RunService(applications, steps);
    var added := ApplyAddsHistory(s.world, step.action);
    assert Approval(key) !in added;
    assert multiset(s.world.db.history + added) == multiset(s.world.db.history) + multiset(added);
  }

  /**
   In every run a claim has been emailed exactly once for its record, if it has one, and once more for every run of the
   job that emailed it and left no record; each of these saw a failure after the email.
   */
  lemma {:induction false} EveryEmailCounted(applications: seq<Application>, steps: seq<ServiceStep>, key: Key)
    requires forall k | 0 <= k < |steps| :: Quiet(steps[k])
    ensures var s := RunService(applications, steps);
            && Count(s.sent, key) == Approvals(s.world.db.history, key) + LostRuns(applications, steps, key)
            && LostRuns(applications, steps, key) <= Count(s.failed, key)
  {
    EveryRunEmailsOnce(applications, steps, key);
    hide *;
    if steps == [] {
      NothingCounted(applications, key);
    } else {
      var last := |steps| - 1;
      LastStep(applications, steps, key);
      EveryEmailCounted(applications, steps[..last], key);
      EveryRunEmailsOnce(applications, steps[..last], key);
      if steps[last].RunsJob? {
        JobCounts(applications, steps[..last], steps[last], key);
      } else {
        StepCounts(applications, steps[..last], steps[last], key);
        OnlyJobsLose(RunService(applications, steps[..last]), steps[last], key);
      }
    }
  }

  lemma NothingCounted(applications: seq<Application>, key: Key)
    ensures LostRuns(applications, [], key) == 0
    ensures var s := RunService(applications, []);
            Approvals(s.world.db.history, key) == 0 && Count(s.sent, key) == 0
  {
  }

  lemma LastStep(applications: seq<Application>, steps: seq<ServiceStep>, key: Key)
    requires steps != []
    ensures var before, step := steps[..|steps| - 1], steps[|steps| - 1];
            && RunService(applications, steps) == ApplyStep(RunService(applications, before), step)
            && LostRuns(applications, steps, key)
               == LostRuns(applications, before, key)
                  + if LosesRecord(RunService(applications, before), step, key) then 1 else 0
  {
    hide ApplyStep, LosesRecord;
  }

  lemma OnlyJobsLose(s: Service, step: ServiceStep, key: Key)
    requires step.Happens?
    ensures !LosesRecord(s, step, key)
  {
  }
}
