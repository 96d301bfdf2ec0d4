/** The backfill of claim references into the history: each event gets its one nearest claim, or nothing. */
module HistoryBackfill {
  import opened Options

  datatype ClaimRow = ClaimRow(id: nat, app: nat, claimType: string, reference: string, submittedAt: int)

  datatype DecisionRow = DecisionRow(claimId: nat, decision: string, createdAt: Option<int>)

  datatype EventKind = ClaimSubmitted | AssessmentCompleted | OtherEvent

  /** The stored data object; a value may be null. */
  type EventData = map<string, Option<string>>

  datatype Event = Event(kind: EventKind, app: nat, at: int, data: Option<EventData>)

  /** A reference and the time it belongs to. */
  datatype Candidate = Candidate(reference: string, at: int)

  function Get(data: EventData, key: string): Option<string> { if key in data then data[key] else None }

  /** The history stores the claim's status, the decision table its own value for a rejection. */
  function NormalDecision(value: string): string { if value == "REJECTED" then "REJECT" else value }

  // ---------------------------------------------------------------------- nearest

  function Distance(c: Candidate, at: int): nat { if c.at >= at then c.at - at else at - c.at }

  function MinDistance(candidates: seq<Candidate>, at: int): (d: nat)
    requires candidates != []
    ensures exists c :: c in candidates && Distance(c, at) == d
    ensures forall c | c in candidates :: d <= Distance(c, at)
  {
    var last := candidates[|candidates| - 1];
    if |candidates| == 1 then Distance(last, at)
    else
      var earlier := MinDistance(candidates[..|candidates| - 1], at);
      if Distance(last, at) < earlier then Distance(last, at) else earlier
  }

  predicate Nearest(candidates: seq<Candidate>, at: int, c: Candidate) {
    c in candidates && forall o | o in candidates :: Distance(c, at) <= Distance(o, at)
  }

  /** Some candidate with this reference is nearest, and every equally near one has it too. */
  ghost predicate UniquelyNearest(candidates: seq<Candidate>, at: int, reference: string) {
    && (exists c :: Nearest(candidates, at, c) && c.reference == reference)
    && forall c | Nearest(candidates, at, c) :: c.reference == reference
  }

  function References(candidates: seq<Candidate>, at: int, distance: nat): (refs: seq<string>)
    ensures forall r :: r in refs <==> exists c :: c in candidates && Distance(c, at) == distance && c.reference == r
  {
    if candidates == [] then []
    else
      var last := candidates[|candidates| - 1];
      var earlier := References(candidates[..|candidates| - 1], at, distance);
      assert candidates == candidates[..|candidates| - 1] + [last];
      earlier + if Distance(last, at) == distance then [last.reference] else []
  }

  function NearestReferences(candidates: seq<Candidate>, at: int): (refs: seq<string>)
    requires candidates != []
    ensures refs != [] && forall r :: r in refs <==> exists c :: Nearest(candidates, at, c) && c.reference == r
  {
    var d := MinDistance(candidates, at);
    assert forall c :: Nearest(candidates, at, c) <==> c in candidates && Distance(c, at) == d;
    var refs := References(candidates, at, d);
    assert exists c :: c in candidates && Distance(c, at) == d && c.reference in refs;
    refs
  }

  function PickNearest(candidates: seq<Candidate>, at: int): (r: Option<string>)
    ensures r.Some? ==> UniquelyNearest(candidates, at, r.value)
    ensures r.None? ==> forall reference :: !UniquelyNearest(candidates, at, reference)
  {
    if candidates == [] then None
    else
      var refs := NearestReferences(candidates, at);
      assert refs[0] in refs;
      assert forall c | Nearest(candidates, at, c) :: c.reference in refs;
      if forall r | r in refs :: r == refs[0] then Some(refs[0]) else None
  }

  /** Only which candidates there are matters, not how often or in which order they come. */
  lemma PickIgnoresOrder(some: seq<Candidate>, others: seq<Candidate>, at: int)
    requires forall c :: c in some <==> c in others
    ensures PickNearest(some, at) == PickNearest(others, at)
  {
    assert forall c :: Nearest(some, at, c) <==> Nearest(others, at, c);
    forall r
      ensures UniquelyNearest(some, at, r) <==> UniquelyNearest(others, at, r)
    {
    }
    NearestIsOne(some, at);
  }

  lemma NearestIsOne(candidates: seq<Candidate>, at: int)
    ensures forall a, b | UniquelyNearest(candidates, at, a) && UniquelyNearest(candidates, at, b) :: a == b
  {
  }

  lemma PickExact(candidates: seq<Candidate>, at: int, reference: string)
    ensures PickNearest(candidates, at) == Some(reference) <==> UniquelyNearest(candidates, at, reference)
  {
    NearestIsOne(candidates, at);
  }

  /**
   An event written within `slack` of its own claim gets that claim's reference back, if no
   claim with another reference comes within twice the slack of it.
   */
  lemma PickRestoresTheTruth(candidates: seq<Candidate>, at: int, own: Candidate, slack: nat)
    requires own in candidates && Distance(own, at) <= slack
    requires forall c | c in candidates && c.reference != own.reference :: Distance(c, own.at) > 2 * slack
    ensures PickNearest(candidates, at) == Some(own.reference)
  {
    var d := MinDistance(candidates, at);
    var c :| c in candidates && Distance(c, at) == d;
    assert Nearest(candidates, at, c);
    assert forall o | Nearest(candidates, at, o) :: o.reference == own.reference;
    assert UniquelyNearest(candidates, at, own.reference);
  }

  // ---------------------------------------------------------------------- indexes

  datatype SubmittedKey = SubmittedKey(app: nat, claimType: string)

  datatype AssessmentKey = AssessmentKey(app: nat, claimType: string, decision: string)

  function Lookup<K>(index: map<K, seq<Candidate>>, key: K): seq<Candidate> { if key in index then index[key] else [] }

  /** What the submitted index should give: all claims of the application and type. */
  function Submitted(claims: seq<ClaimRow>, key: SubmittedKey): seq<Candidate> {
    if claims == [] then []
    else
      var last := claims[|claims| - 1];
      Submitted(claims[..|claims| - 1], key)
      + if SubmittedKey(last.app, last.claimType) == key then [Candidate(last.reference, last.submittedAt)] else []
  }

  function ClaimById(claims: seq<ClaimRow>, id: nat): Option<ClaimRow> {
    if claims == [] then None
    else if claims[|claims| - 1].id == id then Some(claims[|claims| - 1])
    else ClaimById(claims[..|claims| - 1], id)
  }

  /** The key and candidate of a decision, unless its claim or its time is missing. */
  function Keyed(claims: seq<ClaimRow>, d: DecisionRow): Option<(AssessmentKey, Candidate)> {
    match (ClaimById(claims, d.claimId), d.createdAt)
    case (Some(claim), Some(at)) =>
      Some((AssessmentKey(claim.app, claim.claimType, NormalDecision(d.decision)), Candidate(claim.reference, at)))
    case _ => None
  }

  /** What the assessment index should give: all such decisions on claims of the application and type. */
  function Assessed(claims: seq<ClaimRow>, decisions: seq<DecisionRow>, key: AssessmentKey): seq<Candidate> {
    if decisions == [] then []
    else
      var last := Keyed(claims, decisions[|decisions| - 1]);
      Assessed(claims, decisions[..|decisions| - 1], key)
      + if last.Some? && last.value.0 == key then [last.value.1] else []
  }

  /** An index agrees with going through all the decisions. */
  ghost predicate Indexes(index: map<AssessmentKey, seq<Candidate>>, claims: seq<ClaimRow>,
                          decisions: seq<DecisionRow>) {
    forall key :: Lookup(index, key) == Assessed(claims, decisions, key)
  }

  method BuildSubmittedIndex(claims: seq<ClaimRow>) returns (index: map<SubmittedKey, seq<Candidate>>)
    ensures forall key :: Lookup(index, key) == Submitted(claims, key)
  {
    index := map[];
    for i := 0 to |claims|
      invariant forall key :: Lookup(index, key) == Submitted(claims[..i], key)
    {
      var claim := claims[i];
      var key := SubmittedKey(claim.app, claim.claimType);
      index := index[key := Lookup(index, key) + [Candidate(claim.reference, claim.submittedAt)]];
      assert claims[..i + 1][..i] == claims[..i];
    }
    assert claims[..|claims|] == claims;
  }

  method BuildClaimsById(claims: seq<ClaimRow>) returns (byId: map<nat, ClaimRow>)
    ensures forall id: nat :: ClaimById(claims, id) == if id in byId then Some(byId[id]) else None
  {
    byId := map[];
    for i := 0 to |claims|
      invariant forall id: nat :: ClaimById(claims[..i], id) == if id in byId then Some(byId[id]) else None
    {
      byId := byId[claims[i].id := claims[i]];
      assert claims[..i + 1][..i] == claims[..i];
    }
    assert claims[..|claims|] == claims;
  }

  method BuildAssessmentIndex(claims: seq<ClaimRow>, decisions: seq<DecisionRow>) returns (index: map<AssessmentKey,
                                                                                           seq<Candidate>>)
    ensures Indexes(index, claims, decisions)
  {
    hide ClaimById, Assessed, Lookup, Indexes;
    var byId := BuildClaimsById(claims);
    index := map[];
    IndexBegins(claims, decisions);
    for k := 0 to |decisions|
      invariant Indexes(index, claims, decisions[..k])
    {
      var d := decisions[k];
      if d.claimId in byId && d.createdAt.Some? {
        var claim := byId[d.claimId];
        var key := AssessmentKey(claim.app, claim.claimType, NormalDecision(d.decision));
        var candidate := Candidate(claim.reference, d.createdAt.value);
        assert Keyed(claims, d) == Some((key, candidate));
        IndexStep(index, claims, decisions, k);
        index := index[key := Lookup(index, key) + [candidate]];
      } else {
        assert Keyed(claims, d).None?;
        IndexStep(index, claims, decisions, k);
      }
    }
    assert decisions[..|decisions|] == decisions;
  }

  lemma IndexBegins(claims: seq<ClaimRow>, decisions: seq<DecisionRow>)
    ensures Indexes(map[], claims, decisions[..0])
  {
  }

  lemma IndexStep(index: map<AssessmentKey, seq<Candidate>>, claims: seq<ClaimRow>, decisions: seq<DecisionRow>, k: nat)
    requires k < |decisions| && Indexes(index, claims, decisions[..k])
    ensures match Keyed(claims, decisions[k])
            case None => Indexes(index, claims, decisions[..k + 1])
            case Some((key, c)) => Indexes(index[key := Lookup(index, key) + [c]], claims, decisions[..k + 1])
  {
    hide Keyed;
    var earlier, keyed := decisions[..k], Keyed(claims, decisions[k]);
    assert decisions[..k + 1][..k] == earlier;
    forall key
      ensures Assessed(claims, decisions[..k + 1], key) ==
              Assessed(claims, earlier, key) + if keyed.Some? && keyed.value.0 == key then [keyed.value.1] else []
    {
    }
    if keyed.Some? {
      var updated := index[keyed.value.0 := Lookup(index, keyed.value.0) + [keyed.value.1]];
      forall key
        ensures Lookup(updated, key) == Assessed(claims, decisions[..k + 1], key)
      {
        assert Lookup(index, key) == Assessed(claims, earlier, key);
      }
    }
  }

  // --------------------------------------------------------------------- backfill

  /** The data of an event that still needs a reference: none yet, and the claim type known. */
  predicate Incomplete(e: Event) {
    && e.kind != OtherEvent && e.data.Some? && e.data.value != map[]
    && Get(e.data.value, "claim_reference").GetOr("") == ""
    && Get(e.data.value, "claim_type").Some?
    && (e.kind == AssessmentCompleted ==> Get(e.data.value, "claim_decision").Some?)
  }

  /** The candidates of an event, straight from the tables. */
  function CandidatesOf(claims: seq<ClaimRow>, decisions: seq<DecisionRow>, e: Event): seq<Candidate>
    requires Incomplete(e)
  {
    var claimType := Get(e.data.value, "claim_type").value;
    if e.kind == ClaimSubmitted then Submitted(claims, SubmittedKey(e.app, claimType))
    else Assessed(claims, decisions,
                  AssessmentKey(e.app, claimType, NormalDecision(Get(e.data.value, "claim_decision").value)))
  }

  function Found(claims: seq<ClaimRow>, decisions: seq<DecisionRow>, e: Event): Option<string> {
    if Incomplete(e) then PickNearest(CandidatesOf(claims, decisions, e), e.at) else None
  }

  function Backfilled(claims: seq<ClaimRow>, decisions: seq<DecisionRow>, e: Event): Event {
    match Found(claims, decisions, e)
    case None => e
    case Some(reference) => e.(data := Some(e.data.value["claim_reference" := Some(reference)]))
  }

  function CountFound(claims: seq<ClaimRow>, decisions: seq<DecisionRow>, events: seq<Event>): nat {
    if events == [] then 0
    else
      CountFound(claims, decisions, events[..|events| - 1])
      + if Found(claims, decisions, events[|events| - 1]).Some? then 1 else 0
  }

  /** The count is the number of events found. */
  lemma {:induction false} CountFoundExact(claims: seq<ClaimRow>, decisions: seq<DecisionRow>, events: seq<Event>)
    ensures CountFound(claims, decisions, events)
         == |set k | 0 <= k < |events| && Found(claims, decisions, events[k]).Some?|
  {
    hide Found;
    if events != [] {
      var last := |events| - 1;
      CountFoundExact(claims, decisions, events[..last]);
      var earlier := set k | 0 <= k < last && Found(claims, decisions, events[..last][k]).Some?;
      var all := set k | 0 <= k < |events| && Found(claims, decisions, events[k]).Some?;
      if Found(claims, decisions, events[last]).Some? {
        assert all == earlier + {last};
      } else {
        assert all == earlier;
      }
    }
  }

  lemma CountSteps(claims: seq<ClaimRow>, decisions: seq<DecisionRow>, events: seq<Event>)
    ensures CountFound(claims, decisions, []) == 0
    ensures forall i | 0 <= i < |events| ::
              CountFound(claims, decisions, events[..i + 1]) ==
              CountFound(claims, decisions, events[..i]) + if Found(claims, decisions, events[i]).Some? then 1 else 0
  {
    forall i | 0 <= i < |events|
      ensures CountFound(claims, decisions, events[..i + 1]) ==
              CountFound(claims, decisions, events[..i]) + if Found(claims, decisions, events[i]).Some? then 1 else 0
    {
      assert events[..i + 1][..i] == events[..i];
    }
  }

  class History {
    var events: seq<Event>

    constructor (events: seq<Event>)
      ensures this.events == events
    {
      this.events := events;
    }

    method BackfillClaimReferences(claims: seq<ClaimRow>, decisions: seq<DecisionRow>) returns (updated: nat)
      modifies this
      ensures |events| == |old(events)|
      ensures forall i | 0 <= i < |events| :: events[i] == Backfilled(claims, decisions, old(events)[i])
      ensures updated == CountFound(claims, decisions, old(events))
    {
      hide Submitted, Assessed, Lookup, PickNearest, CountFound;
      var submittedIndex := BuildSubmittedIndex(claims);
      var assessmentIndex := BuildAssessmentIndex(claims, decisions);
      ghost var before := events;
      updated := 0;
      assert before[..0] == [];
      CountSteps(claims, decisions, before);
      for i := 0 to |events|
        invariant |events| == |before|
        invariant forall k | 0 <= k < i :: events[k] == Backfilled(claims, decisions, before[k])
        invariant forall k | i <= k < |events| :: events[k] == before[k]
        invariant updated == CountFound(claims, decisions, before[..i])
      {
        var event := events[i];
        if event.kind == OtherEvent {
          continue;
        }
        if event.data.None? || event.data.value == map[] || Get(event.data.value, "claim_reference").GetOr("") != "" {
          continue;
        }
        var data := event.data.value;
        var claimType := Get(data, "claim_type");
        if claimType.None? {
          continue;
        }
        var candidates: seq<Candidate>;
        if event.kind == ClaimSubmitted {
          candidates := Lookup(submittedIndex, SubmittedKey(event.app, claimType.value));
        } else {
          var decision := Get(data, "claim_decision");
          if decision.None? {
            continue;
          }
          candidates :=
            Lookup(assessmentIndex, AssessmentKey(event.app, claimType.value, NormalDecision(decision.value)));
        }
        var reference := PickNearest(candidates, event.at);
        if reference.None? {
          continue;
        }
        events := events[i := event.(data := Some(data["claim_reference" := Some(reference.value)]))];
        updated := updated + 1;
      }
      assert before[..|before|] == before;
    }
  }

  // ------------------------------------------------------------------ main results

  /** A claim of the event's application and type, as submitted or as decided, at the given time. */
  ghost predicate Supports(claims: seq<ClaimRow>, decisions: seq<DecisionRow>, e: Event, c: Candidate)
    requires Incomplete(e)
  {
    exists claim :: claim in claims && claim.app == e.app && claim.reference == c.reference
                    && Get(e.data.value, "claim_type") == Some(claim.claimType)
                    && if e.kind == ClaimSubmitted then claim.submittedAt == c.at
                       else DecidedAt(decisions, e, claim, c.at)
  }

  /** The claim has a decision of that time which the event records: a REJECT may be recorded as REJECTED. */
  ghost predicate DecidedAt(decisions: seq<DecisionRow>, e: Event, claim: ClaimRow, at: int)
    requires Incomplete(e) && e.kind == AssessmentCompleted
  {
    exists d :: d in decisions && d.claimId == claim.id && d.createdAt == Some(at)
                && SameDecision(d.decision, Get(e.data.value, "claim_decision").value)
  }

  predicate SameDecision(a: string, b: string) {
    a == b || (a == "REJECTED" && b == "REJECT") || (a == "REJECT" && b == "REJECTED")
  }

  lemma NormalDecisionExact(a: string, b: string)
    ensures NormalDecision(a) == NormalDecision(b) <==> SameDecision(a, b)
  {
    assert "REJECTED" != "REJECT" by {
      assert |"REJECTED"| != |"REJECT"|;
    }
  }

  predicate UniqueIds(claims: seq<ClaimRow>) { forall c, d | c in claims && d in claims && c.id == d.id :: c == d }

  lemma {:induction false} SubmittedExact(claims: seq<ClaimRow>, key: SubmittedKey, c: Candidate)
    ensures c in Submitted(claims, key) <==>
            exists claim :: claim in claims && SubmittedKey(claim.app, claim.claimType) == key
                            && Candidate(claim.reference, claim.submittedAt) == c
  {
    if claims != [] {
      SubmittedExact(claims[..|claims| - 1], key, c);
      assert claims == claims[..|claims| - 1] + [claims[|claims| - 1]];
    }
  }

  lemma {:induction false} ClaimByIdExact(claims: seq<ClaimRow>, id: nat)
    requires UniqueIds(claims)
    ensures forall claim :: ClaimById(claims, id) == Some(claim) <==> claim in claims && claim.id == id
  {
    if claims != [] {
      ClaimByIdExact(claims[..|claims| - 1], id);
      assert claims == claims[..|claims| - 1] + [claims[|claims| - 1]];
    }
  }

  lemma {:induction false} AssessedExact(claims: seq<ClaimRow>, decisions: seq<DecisionRow>, key: AssessmentKey,
                                         c: Candidate)
    ensures c in Assessed(claims, decisions, key) <==> exists d :: d in decisions && Keyed(claims, d) == Some((key, c))
  {
    hide Keyed;
    if decisions != [] {
      AssessedExact(claims, decisions[..|decisions| - 1], key, c);
      assert decisions == decisions[..|decisions| - 1] + [decisions[|decisions| - 1]];
    }
  }

  /** The candidates an event is matched with are exactly the claims that support it. */
  lemma CandidatesExact(claims: seq<ClaimRow>, decisions: seq<DecisionRow>, e: Event, c: Candidate)
    requires UniqueIds(claims) && Incomplete(e)
    ensures c in CandidatesOf(claims, decisions, e) <==> Supports(claims, decisions, e, c)
  {
    var claimType := Get(e.data.value, "claim_type").value;
    if e.kind == ClaimSubmitted {
      SubmittedExact(claims, SubmittedKey(e.app, claimType), c);
    } else {
      var key := AssessmentKey(e.app, claimType, NormalDecision(Get(e.data.value, "claim_decision").value));
      AssessedExact(claims, decisions, key, c);
      forall d | d in decisions
        ensures Keyed(claims, d) == Some((key, c)) <==>
                exists claim ::
                  claim in claims && claim.id == d.claimId && d.createdAt == Some(c.at) && claim.app == e.app
                                && claim.claimType == claimType && claim.reference == c.reference
                                && SameDecision(d.decision, Get(e.data.value, "claim_decision").value)
      {
        ClaimByIdExact(claims, d.claimId);
        NormalDecisionExact(d.decision, Get(e.data.value, "claim_decision").value);
      }
    }
  }

  /** As near to the time as the other, before or after. */
  predicate NoFurther(some: int, other: int, at: int) {
    || (at - some <= at - other && some - at <= at - other)
    || (at - some <= other - at && some - at <= other - at)
  }

  /** No claim of the event's application, type and decision is nearer than this one. */
  ghost predicate NearestSupport(claims: seq<ClaimRow>, decisions: seq<DecisionRow>, e: Event, c: Candidate)
    requires Incomplete(e)
  {
    && Supports(claims, decisions, e, c)
    && forall o | Supports(claims, decisions, e, o) :: NoFurther(c.at, o.at, e.at)
  }

  /**
   An event gains a reference exactly when it has none yet and that is the one of all the nearest claims of its
   application, type and decision.
   */
  lemma BackfillSound(claims: seq<ClaimRow>, decisions: seq<DecisionRow>, e: Event, reference: string)
    requires UniqueIds(claims)
    ensures Found(claims, decisions, e) == Some(reference) <==>
            && Incomplete(e)
            && (exists c: Candidate :: NearestSupport(claims, decisions, e, c) && c.reference == reference)
            && (forall c: Candidate | NearestSupport(claims, decisions, e, c) :: c.reference == reference)
  {
    if Incomplete(e) {
      var candidates := CandidatesOf(claims, decisions, e);
      forall c
        ensures c in candidates <==> Supports(claims, decisions, e, c)
      {
        CandidatesExact(claims, decisions, e, c);
      }
      PickExact(candidates, e.at, reference);
      hide CandidatesOf, Supports, PickNearest;
      assert forall c, o: Candidate :: Distance(c, e.at) <= Distance(o, e.at) <==> NoFurther(c.at, o.at, e.at);
      assert forall c :: Nearest(candidates, e.at, c) <==> NearestSupport(claims, decisions, e, c);
      hide Nearest, NearestSupport;
    }
  }

  /** Which events are looked at: of the two kinds, with the data to match them and no reference yet. */
  lemma IncompleteExactly(e: Event)
    ensures Incomplete(e) <==>
            && e.data.Some?
            && var data := e.data.value;
               && ("claim_reference" !in data || data["claim_reference"] in {None, Some("")})
               && "claim_type" in data && data["claim_type"].Some?
               && (e.kind == ClaimSubmitted
                   || (e.kind == AssessmentCompleted && "claim_decision" in data && data["claim_decision"].Some?))
  {
  }

  /** An event of a rejection gets the reference of the one claim of its application and type with a rejection. */
  lemma RejectionFindsItsClaim(claims: seq<ClaimRow>, decisions: seq<DecisionRow>, e: Event, claim: ClaimRow,
                               d: DecisionRow)
    requires UniqueIds(claims) && Incomplete(e) && e.kind == AssessmentCompleted
    requires e.data.value["claim_decision"] == Some("REJECTED")
    requires claim in claims && claim.app == e.app && e.data.value["claim_type"] == Some(claim.claimType)
    requires forall other | other in claims && other.app == e.app && other.claimType == claim.claimType ::
               other == claim
    requires d in decisions && d.claimId == claim.id && d.decision == "REJECT" && d.createdAt.Some?
    ensures Found(claims, decisions, e) == Some(claim.reference)
  {
    var own := Candidate(claim.reference, d.createdAt.value);
    CandidatesExact(claims, decisions, e, own);
    assert DecidedAt(decisions, e, claim, own.at);
    assert Supports(claims, decisions, e, own);
    var candidates := CandidatesOf(claims, decisions, e);
    forall c | c in candidates
      ensures c.reference == claim.reference
    {
      CandidatesExact(claims, decisions, e, c);
    }
    hide CandidatesOf, Supports, DecidedAt;
    var nearest := MinDistance(candidates, e.at);
    PickExact(candidates, e.at, claim.reference);
  }

  /** Nothing but the reference changes, and a reference already there never does. */
  lemma BackfillTouchesOnlyTheReference(claims: seq<ClaimRow>, decisions: seq<DecisionRow>, e: Event, key: string)
    ensures var f := Backfilled(claims, decisions, e);
            && f.kind == e.kind && f.app == e.app && f.at == e.at && f.data.Some? == e.data.Some?
            && (e.data.Some? && (key != "claim_reference" || Get(e.data.value, key).GetOr("") != "") ==>
                  Get(f.data.value, key) == Get(e.data.value, key))
  {
  }

  /** The order of the claims and of the decisions makes no difference. */
  lemma BackfillIgnoresOrder(claims: seq<ClaimRow>, decisions: seq<DecisionRow>,
                             claims2: seq<ClaimRow>, decisions2: seq<DecisionRow>, e: Event)
    requires UniqueIds(claims) && (forall c :: c in claims <==> c in claims2)
             && (forall d :: d in decisions <==> d in decisions2)
    ensures Backfilled(claims, decisions, e) == Backfilled(claims2, decisions2, e)
  {
    if Incomplete(e) {
      forall c
        ensures c in CandidatesOf(claims, decisions, e) <==> c in CandidatesOf(claims2, decisions2, e)
      {
        CandidatesExact(claims, decisions, e, c);
        CandidatesExact(claims2, decisions2, e, c);
      }
      PickIgnoresOrder(CandidatesOf(claims, decisions, e), CandidatesOf(claims2, decisions2, e), e.at);
    }
  }

  /** A backfilled event is found again exactly when what it was given is the empty reference. */
  lemma FoundAgain(claims: seq<ClaimRow>, decisions: seq<DecisionRow>, e: Event)
    ensures Found(claims, decisions, Backfilled(claims, decisions, e)).Some? <==>
            Found(claims, decisions, e) == Some("")
  {
    hide PickNearest;
    if Found(claims, decisions, e).Some? {
      var f := Backfilled(claims, decisions, e);
      assert forall key | key != "claim_reference" :: Get(f.data.value, key) == Get(e.data.value, key);
      assert Get(f.data.value, "claim_reference") == Found(claims, decisions, e);
      assert "claim_reference" in f.data.value;
      hide Get, Backfilled;
    }
  }

  /** A second run updates nothing exactly when the first gave no event an empty reference. */
  lemma {:induction false} SecondRunUpdatesNothing(claims: seq<ClaimRow>, decisions: seq<DecisionRow>,
                                                   events: seq<Event>, after: seq<Event>)
    requires |after| == |events| && forall i | 0 <= i < |events| :: after[i] == Backfilled(claims, decisions, events[i])
    ensures CountFound(claims, decisions, after) == 0 <==>
            forall e | e in events :: Found(claims, decisions, e) != Some("")
  {
    hide Found, Backfilled;
    if events != [] {
      var last := |events| - 1;
      SecondRunUpdatesNothing(claims, decisions, events[..last], after[..last]);
      FoundAgain(claims, decisions, events[last]);
      assert events == events[..last] + [events[last]];
    }
  }

  /** No claim has an empty reference, so no event is given one. */
  lemma FoundNotEmpty(claims: seq<ClaimRow>, decisions: seq<DecisionRow>, e: Event)
    requires UniqueIds(claims) && forall c | c in claims :: c.reference != ""
    ensures Found(claims, decisions, e) != Some("")
  {
    BackfillSound(claims, decisions, e, "");
  }
}
