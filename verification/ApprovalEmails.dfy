/** The job that emails firms about automatically approved payments on account. */
module ApprovalEmails {
  import opened Options
  import opened Claims
  import opened Tables

  const WINDOW: int := 48 * 3600

  /** What an approval event and its email are for. */
  datatype Key = Key(app: nat, reference: string)

  function Approval(key: Key): Event { Event(ClaimApprovedEmail, key.app, Some(key.reference)) }

  /**
   What a call does. A call that raises may have had its effect; a call to the database may
   also leave the session unusable, or lose what was flushed but not committed.
   */
  datatype Fault = Fine | Raises(effect: bool, breaks: bool, loses: bool)

  /** `working` is what the session sees. `sent` and `failed` record the emails sent and the failures from there on. */
  datatype JobState = JobState(committed: seq<Event>, working: seq<Event>, broken: bool, faults: seq<Fault>,
                               sent: seq<Key>, failed: seq<Key>) {
    function Fault(): Fault { if faults == [] then Fine else faults[0] }

    function Called(): JobState { this.(faults := if faults == [] then [] else faults[1..]) }
  }

  datatype Call = Call(state: JobState, outcome: Outcome)

  /** A call to another service that would lead to `done`. */
  function CallService(s: JobState, done: JobState): Call {
    match s.Fault()
    case Fine => Call(done.Called(), Pass)
    case Raises(effect, _, _) => Call((if effect then done else s).Called(), Raised)
  }

  /** A call to the database that would lead to `done`; an unusable session always raises. */
  function CallDatabase(s: JobState, done: JobState): Call {
    if s.broken then Call(s, Raised)
    else
      match s.Fault()
      case Fine => Call(done.Called(), Pass)
      case Raises(effect, breaks, loses) =>
        var after := (if effect then done else s).Called();
        Call(after.(broken := breaks, working := if loses then after.committed else after.working), Raised)
  }

  function EventsOf(history: seq<Event>, app: nat): seq<Event> {
    if history == [] then []
    else
      var last := history[|history| - 1];
      EventsOf(history[..|history| - 1], app) + if last.app == app then [last] else []
  }

  predicate HasEvent(history: seq<Event>, kind: EventKind, reference: string) {
    exists e :: e in history && e.kind == kind && e.claimReference == Some(reference)
  }

  lemma {:induction false} EventsOfExact(history: seq<Event>, app: nat)
    ensures forall e :: e in EventsOf(history, app) <==> e in history && e.app == app
  {
    if history != [] {
      EventsOfExact(history[..|history| - 1], app);
      assert history == history[..|history| - 1] + [history[|history| - 1]];
    }
  }

  /** A claim is due when it was approved automatically and no approval email is recorded for it. */
  predicate Due(history: seq<Event>, key: Key) {
    Event(PoaAutoApproved, key.app, Some(key.reference)) in history && Approval(key) !in history
  }

  /** One claim: look, then send, record and commit. Where a call raises, the rest is skipped. */
  function Process(s: JobState, key: Key): JobState {
    var looked := CallDatabase(s, s);
    if looked.outcome.Raised? || !Due(s.working, key) then looked.state
    else
      var named := CallService(looked.state, looked.state);
      if named.outcome.Raised? then named.state
      else
        var emailed := CallService(named.state, named.state.(sent := s.sent + [key]));
        if emailed.outcome.Raised? then Late(emailed.state, s, key)
        else
          var recorded := CallDatabase(emailed.state, emailed.state.(working := s.working + [Approval(key)]));
          if recorded.outcome.Raised? then Late(recorded.state, s, key)
          else
            var saved := CallDatabase(recorded.state, recorded.state.(committed := recorded.state.working));
            if saved.outcome.Raised? then Late(saved.state, s, key) else saved.state
  }

  /** A failure counts as late if the email has gone out. */
  function Late(after: JobState, before: JobState, key: Key): JobState {
    if after.sent != before.sent then after.(failed := before.failed + [key]) else after
  }

  function ProcessAll(s: JobState, keys: seq<Key>): JobState {
    if keys == [] then s else Process(ProcessAll(s, keys[..|keys| - 1]), keys[|keys| - 1])
  }

  lemma ProcessAllStep(s: JobState, keys: seq<Key>, k: nat)
    requires k < |keys|
    ensures ProcessAll(s, keys[..k + 1]) == Process(ProcessAll(s, keys[..k]), keys[k])
  {
    hide Process;
    assert keys[..k + 1][..k] == keys[..k];
  }

  /** The paid payments on account submitted in the 48 hours before `now`. */
  function Listed(claims: seq<Claim>, now: int): (ids: seq<nat>)
    ensures forall c: nat :: c in ids <==>
              && c < |claims| && claims[c].claimType == PaymentOnAccount && claims[c].status == PaidInFull
              && now - 48 * 3600 <= claims[c].submittedAt < now
  {
    if claims == [] then []
    else
      var id := |claims| - 1;
      var last := claims[id];
      Listed(claims[..id], now)
      + if last.IsPoa() && last.IsPaid() && now - WINDOW <= last.submittedAt < now then [id] else []
  }

  function Keys(claims: seq<Claim>, ids: seq<nat>): seq<Key>
    requires forall c | c in ids :: c < |claims|
  {
    seq(|ids|, k requires 0 <= k < |ids| => assert ids[k] in ids; Key(claims[ids[k]].app, claims[ids[k]].reference))
  }

  // ------------------------------------------------------------------------ the job

  class EmailJob {
    const claims: seq<Claim>
    var committed: seq<Event>
    var working: seq<Event>
    var broken: bool
    var faults: seq<Fault>
    var sent: seq<Key>
    ghost var failed: seq<Key>

    constructor (claims: seq<Claim>, history: seq<Event>, faults: seq<Fault>)
      ensures this.claims == claims
      ensures State() == JobState(history, history, false, faults, [], [])
    {
      this.claims := claims;
      this.committed, this.working, this.broken, this.faults, this.sent := history, history, false, faults, [];
      this.failed := [];
    }

    ghost function State(): JobState
      reads this
    {
      JobState(committed, working, broken, faults, sent, failed)
    }

    method NextFault() returns (fault: Fault)
      modifies this`faults
      ensures fault == old(State()).Fault() && State() == old(State()).Called()
    {
      if faults == [] { return Fine; }
      fault := faults[0];
      faults := faults[1..];
    }

    /** What raising leaves behind in a database session. */
    method Disturb(fault: Fault)
      requires fault.Raises?
      modifies this`broken, this`working
      ensures broken == fault.breaks && working == if fault.loses then committed else old(working)
    {
      broken := fault.breaks;
      if fault.loses { working := committed; }
    }

    method GetApplicationHistory(app: nat) returns (outcome: Outcome, history: seq<Event>)
      modifies this`faults, this`broken, this`working
      ensures Call(State(), outcome) == CallDatabase(old(State()), old(State()))
      ensures outcome.Pass? ==> history == EventsOf(old(working), app)
    {
      if broken { return Raised, []; }
      history := EventsOf(working, app);
      var fault := NextFault();
      if fault.Raises? {
        Disturb(fault);
        return Raised, [];
      }
      return Pass, history;
    }

    method GetFirmName() returns (outcome: Outcome)
      modifies this`faults
      ensures Call(State(), outcome) == CallService(old(State()), old(State()))
    {
      var fault := NextFault();
      return if fault.Fine? then Pass else Raised;
    }

    method SendGrantedDecisionEmail(key: Key) returns (outcome: Outcome)
      modifies this`faults, this`sent
      ensures Call(State(), outcome) == CallService(old(State()), old(State()).(sent := old(sent) + [key]))
    {
      var fault := NextFault();
      if fault.Fine? || fault.effect { sent := sent + [key]; }
      return if fault.Fine? then Pass else Raised;
    }

    method CreateHistoryEvent(event: Event) returns (outcome: Outcome)
      modifies this`faults, this`broken, this`working
      ensures Call(State(), outcome) == CallDatabase(old(State()), old(State()).(working := old(working) + [event]))
    {
      if broken { return Raised; }
      var fault := NextFault();
      if fault.Fine? || fault.effect { working := working + [event]; }
      if fault.Raises? {
        Disturb(fault);
        return Raised;
      }
      return Pass;
    }

    method Commit() returns (outcome: Outcome)
      modifies this`faults, this`broken, this`working, this`committed
      ensures Call(State(), outcome) == CallDatabase(old(State()), old(State()).(committed := old(working)))
    {
      if broken { return Raised; }
      var fault := NextFault();
      if fault.Fine? || fault.effect { committed := working; }
      if fault.Raises? {
        Disturb(fault);
        return Raised;
      }
      return Pass;
    }

    method TryProcess(key: Key) returns (outcome: Outcome)
      modifies this`faults, this`broken, this`working, this`committed, this`sent
      ensures Late(State(), old(State()), key) == Process(old(State()), key) || outcome.Pass?
      ensures outcome.Pass? ==> State() == Process(old(State()), key)
    {
      EventsOfExact(working, key.app);
      assert HasEvent(EventsOf(working, key.app), PoaAutoApproved, key.reference)
        <==> Event(PoaAutoApproved, key.app, Some(key.reference)) in working;
      assert HasEvent(EventsOf(working, key.app), ClaimApprovedEmail, key.reference) <==> Approval(key) in working;
      var looked, history := GetApplicationHistory(key.app);
      if looked.Raised? { return Raised; }
      if !HasEvent(history, PoaAutoApproved, key.reference) { return Pass; }
      if HasEvent(history, ClaimApprovedEmail, key.reference) { return Pass; }
      :- GetFirmName();
      :- SendGrantedDecisionEmail(key);
      :- CreateHistoryEvent(Approval(key));
      :- Commit();
      return Pass;
    }

    /** A failure is only logged; the next claim is processed all the same. */
    method ProcessClaim(key: Key)
      modifies this
      ensures State() == Process(old(State()), key)
    {
      ghost var before := State();
      var outcome := TryProcess(key);
      if outcome.Raised? && sent != before.sent {
        failed := failed + [key];
      }
    }

    method Execute(now: int)
      modifies this
      ensures State() == ProcessAll(old(State()), Keys(claims, Listed(claims, now)))
    {
      var ids := Listed(claims, now);
      ghost var keys := Keys(claims, ids);
      ghost var before := State();
      assert ProcessAll(before, keys[..0]) == before;
      hide Process, ProcessAll;
      for k := 0 to |ids|
        invariant State() == ProcessAll(before, keys[..k])
      {
        assert ids[k] in ids;
        ProcessAllStep(before, keys, k);
        ProcessClaim(Key(claims[ids[k]].app, claims[ids[k]].reference));
      }
      assert keys[..|ids|] == keys;
    }
  }
}
