/** The index of potential duplicates: one-directional records, the queries over them, and the backfill. */
module DuplicateIndex {
  import opened Options
  import opened DuplicateMatching

  datatype MeritsDecision = Pending | Refused | Granted

  datatype Application = Application(deceased: Deceased, decision: MeritsDecision, reference: string)

  /** An application and one it duplicates. */
  datatype Record = Record(app: nat, duplicate: nat)

  predicate Eligible(d: MeritsDecision) { d == Granted || d == Refused || d == Pending }

  // ---------------------------------------------------------------- specification

  predicate MatchesId(low: Lowering, apps: seq<Application>, a: nat, b: nat)
    requires a < |apps| && b < |apps|
  {
    Matches(low, apps[a].deceased, apps[b].deceased)
  }

  predicate Ascending(ids: seq<nat>) { forall i, j | 0 <= i < j < |ids| :: ids[i] < ids[j] }

  function AppendIf(earlier: seq<nat>, d: nat, found: bool): (ids: seq<nat>)
    requires Ascending(earlier) && forall e | e in earlier :: e < d
    ensures Ascending(ids) && forall e :: e in ids <==> e in earlier || (found && e == d)
  {
    assert forall k | 0 <= k < |earlier| :: earlier[k] in earlier;
    earlier + if found then [d] else []
  }

  /** The ids below n that application a is found to duplicate. */
  function Identified(low: Lowering, apps: seq<Application>, a: nat, n: nat): (ids: seq<nat>)
    requires a < |apps| && n <= |apps|
    ensures forall d: nat :: d in ids <==> d < n && d != a && MatchesId(low, apps, a, d)
    ensures Ascending(ids)
  {
    if n == 0 then []
    else
      AppendIf(Identified(low, apps, a, n - 1), n - 1,
               n - 1 != a && Eligible(apps[n - 1].decision) && MatchesId(low, apps, a, n - 1))
  }

  function RecordsFor(a: nat, ids: seq<nat>): seq<Record> {
    seq(|ids|, k requires 0 <= k < |ids| => Record(a, ids[k]))
  }

  /** How many records link two applications, in either direction. */
  function Links(records: seq<Record>, a: nat, b: nat): nat {
    if records == [] then 0
    else
      var last := records[|records| - 1];
      Links(records[..|records| - 1], a, b) + if last == Record(a, b) || last == Record(b, a) then 1 else 0
  }

  predicate Awaits(apps: seq<Application>, a: nat) { a < |apps| && apps[a].decision == Pending }

  predicate Known(apps: seq<Application>, a: nat) { a < |apps| && Eligible(apps[a].decision) }

  /** The applications a record links to a pending one, in either direction. */
  function Potential(apps: seq<Application>, records: seq<Record>, a: nat): set<nat> {
    if Awaits(apps, a) then
      (set r | r in records && r.app == a && Known(apps, r.duplicate) :: r.duplicate)
      + (set r | r in records && r.duplicate == a && Known(apps, r.app) :: r.app)
    else {}
  }

  /** The pairs of different pending applications that a record links, in both directions. */
  function PendingPairs(apps: seq<Application>, records: seq<Record>): set<Record> {
    var linked := set r | r in records && Awaits(apps, r.app) && Awaits(apps, r.duplicate) && r.app != r.duplicate :: r;
    linked + set r | r in linked :: Record(r.duplicate, r.app)
  }

  /** The references that the given pairs put beside an application. */
  function References(apps: seq<Application>, pairs: set<Record>, a: nat): set<string> {
    set r | r in pairs && r.app == a && r.duplicate < |apps| :: apps[r.duplicate].reference
  }

  /** The backlog has every pending application, with the references the pairs put beside it. */
  ghost predicate Lists(apps: seq<Application>, pairs: set<Record>, backlog: map<nat, set<string>>) {
    && (forall a: nat :: a in backlog <==> Awaits(apps, a))
    && forall a: nat | a in backlog :: backlog[a] == References(apps, pairs, a)
  }

  // -------------------------------------------------------------------- repository

  datatype IndexError = NoSuchApplication

  class Repository {
    const low: Lowering
    var applications: seq<Application>
    var records: seq<Record>

    constructor (low: Lowering, applications: seq<Application>, records: seq<Record>)
      ensures this.low == low && this.applications == applications && this.records == records
    {
      this.low, this.applications, this.records := low, applications, records;
    }

    method IdentifyDuplicates(a: nat) returns (r: Result<seq<nat>, IndexError>)
      ensures r == if a < |applications| then Ok(Identified(low, applications, a, |applications|))
                else Err(NoSuchApplication)
    {
      if a >= |applications| {
        return Err(NoSuchApplication);
      }
      return Ok(Identified(low, applications, a, |applications|));
    }

    method CreateDuplicateRecords(a: nat, ids: seq<nat>)
      modifies this`records
      ensures records == old(records) + RecordsFor(a, ids)
    {
      if ids == [] {
        return;
      }
      records := records + RecordsFor(a, ids);
    }

    method GetPotentialDuplicateApplicationIds(a: nat) returns (ids: set<nat>)
      ensures ids == Potential(applications, records, a)
    {
      var duplicatesOf := set r | r in records && r.app == a && Awaits(applications, r.app)
                          && Known(applications, r.duplicate) :: r.duplicate;
      var duplicatedBy := set r | r in records && r.duplicate == a && Awaits(applications, r.duplicate)
                          && Known(applications, r.app) :: r.app;
      ids := duplicatesOf + duplicatedBy;
    }

    /** The backlog: for every pending application, the references of the pending ones linked to it. */
    method GetApplicationBacklogRecords() returns (backlog: map<nat, set<string>>)
      ensures Lists(applications, PendingPairs(applications, records), backlog)
    {
      hide PendingPairs, References, Lists;
      backlog := map a: nat | a < |applications| && Awaits(applications, a) :: {};
      ListsNothing(applications, backlog);
      var pairs := PendingPairs(applications, records);
      ghost var listed := {};
      while pairs != {}
        invariant listed + pairs == PendingPairs(applications, records)
        invariant Lists(applications, listed, backlog)
        decreases |pairs|
      {
        var r :| r in pairs;
        ListsGrow(applications, records, listed, backlog, r);
        backlog := backlog[r.app := backlog[r.app] + {applications[r.duplicate].reference}];
        pairs := pairs - {r};
        listed := listed + {r};
      }
      assert listed == PendingPairs(applications, records);
    }

    /** Creating an application records what it duplicates in the same transaction; a failure leaves nothing. */
    method CreateApplication(deceased: Deceased, reference: string, fails: bool)
      modifies this
      ensures Index(applications, records)
              == Created(low, Index(old(applications), old(records)), deceased, reference, fails)
    {
      hide Identified;
      var before, recorded := applications, records;
      applications := applications + [Application(deceased, Pending, reference)];
      var a := |applications| - 1;
      var found := IdentifyDuplicates(a);
      if found.value != [] {
        CreateDuplicateRecords(a, found.value);
      } else {
        assert records + RecordsFor(a, []) == records;
      }
      if fails {
        applications, records := before, recorded;
      }
    }

    /** A grant or refusal of an application. */
    method Decide(a: nat, decision: MeritsDecision)
      modifies this`applications
      ensures Index(applications, records) == Decided(Index(old(applications), records), a, decision)
      ensures |applications| == |old(applications)|
      ensures forall k | 0 <= k < |applications| ::
                applications[k] == if k == a then old(applications)[k].(decision := decision) else old(applications)[k]
    {
      if a < |applications| {
        applications := applications[a := applications[a].(decision := decision)];
      }
    }

    /** The repair of a table that was filled before records were kept; `order` is every application, by age. */
    method BackfillDuplicateApplications(order: seq<nat>)
      requires forall a: nat :: a in order <==> a < |applications|
      modifies this`records
      ensures Completes(low, applications, old(records), records)
    {
      hide AsSet, BackfilledSoFar, Completes, Unrecorded, Identified, RecordsFor, Matches, Links;
      var existing := AsSet(records);
      var i := 0;
      BackfillBegins(low, applications, records);
      while i < |order|
        invariant i <= |order|
        invariant existing == AsSet(records)
        invariant BackfilledSoFar(low, applications, old(records), records, order[..i])
      {
        var a := order[i];
        assert a in order;
        var found := IdentifyDuplicates(a);
        var missing := Unrecorded(existing, a, found.value);
        BackfillStep(low, applications, old(records), records, order[..i], a, missing);
        assert order[..i + 1] == order[..i] + [a];
        CreateDuplicateRecords(a, missing);
        existing := existing + set d | d in missing :: Record(a, d);
        i := i + 1;
      }
      assert order[..i] == order;
      BackfillDone(low, applications, old(records), records, order);
    }
  }

  function AsSet(records: seq<Record>): set<Record> { set r | r in records }

  /** The ids found for an application that no record links to it yet. */
  function Unrecorded(existing: set<Record>, a: nat, ids: seq<nat>): (missing: seq<nat>)
    ensures forall d: nat :: d in missing <==> d in ids && Record(a, d) !in existing && Record(d, a) !in existing
    ensures (forall i, j | 0 <= i < j < |ids| :: ids[i] != ids[j]) ==>
              forall i, j | 0 <= i < j < |missing| :: missing[i] != missing[j]
  {
    if ids == [] then []
    else
      var last := ids[|ids| - 1];
      var earlier := Unrecorded(existing, a, ids[..|ids| - 1]);
      assert forall k | 0 <= k < |earlier| :: earlier[k] in earlier;
      earlier + if Record(a, last) !in existing && Record(last, a) !in existing then [last] else []
  }

  // ----------------------------------------------------------------- records, links

  lemma {:induction false} LinksExact(records: seq<Record>, a: nat, b: nat)
    ensures Links(records, a, b) > 0 <==> Record(a, b) in records || Record(b, a) in records
  {
    if records != [] {
      LinksExact(records[..|records| - 1], a, b);
      assert records == records[..|records| - 1] + [records[|records| - 1]];
    }
  }

  lemma {:induction false} LinksAppend(records: seq<Record>, x: nat, ids: seq<nat>, a: nat, b: nat)
    requires x !in ids && forall i, j | 0 <= i < j < |ids| :: ids[i] != ids[j]
    requires a != b
    ensures Links(records + RecordsFor(x, ids), a, b) ==
            Links(records, a, b) + if (a == x && b in ids) || (b == x && a in ids) then 1 else 0
  {
    var all := records + RecordsFor(x, ids);
    if ids == [] {
      assert all == records;
    } else {
      var last := |ids| - 1;
      assert all[..|all| - 1] == records + RecordsFor(x, ids[..last]);
      LinksAppend(records, x, ids[..last], a, b);
    }
  }

  lemma NewMembers(records: seq<Record>, a: nat, ids: seq<nat>)
    ensures forall r :: r in records + RecordsFor(a, ids) <==> r in records || (r.app == a && r.duplicate in ids)
  {
    var added := RecordsFor(a, ids);
    forall k | 0 <= k < |ids|
      ensures Record(a, ids[k]) in added
    {
      assert added[k] == Record(a, ids[k]);
    }
  }

  lemma ListsNothing(apps: seq<Application>, backlog: map<nat, set<string>>)
    requires (forall a: nat :: a in backlog <==> Awaits(apps, a)) && forall a: nat | a in backlog :: backlog[a] == {}
    ensures Lists(apps, {}, backlog)
  {
  }

  lemma ListsGrow(apps: seq<Application>, records: seq<Record>, pairs: set<Record>, backlog: map<nat, set<string>>,
                  r: Record)
    requires Lists(apps, pairs, backlog) && r in PendingPairs(apps, records)
    ensures r.app in backlog && r.duplicate < |apps|
    ensures Lists(apps, pairs + {r}, backlog[r.app := backlog[r.app] + {apps[r.duplicate].reference}])
  {
    forall a: nat | a in backlog
      ensures References(apps, pairs + {r}, a)
              == References(apps, pairs, a) + if r.app == a then {apps[r.duplicate].reference} else {}
    {
      if r.app == a {
        assert r in pairs + {r};
      }
    }
  }

  // ------------------------------------------------------------------------- runs

  datatype Index = Index(apps: seq<Application>, records: seq<Record>)

  datatype Step = Create(deceased: Deceased, reference: string, fails: bool)
                    | Assess(app: nat, decision: MeritsDecision)

  function Created(low: Lowering, x: Index, deceased: Deceased, reference: string, fails: bool): Index {
    var apps := x.apps + [Application(deceased, Pending, reference)];
    if fails then x else Index(apps, x.records + RecordsFor(|x.apps|, Identified(low, apps, |x.apps|, |apps|)))
  }

  function Decided(x: Index, a: nat, decision: MeritsDecision): Index {
    if a < |x.apps| then x.(apps := x.apps[a := x.apps[a].(decision := decision)]) else x
  }

  function Apply(low: Lowering, x: Index, step: Step): Index {
    match step
    case Create(deceased, reference, fails) => Created(low, x, deceased, reference, fails)
    case Assess(a, decision) => Decided(x, a, decision)
  }

  function Run(low: Lowering, steps: seq<Step>): Index {
    if steps == [] then Index([], []) else Apply(low, Run(low, steps[..|steps| - 1]), steps[|steps| - 1])
  }

  /** Records link exactly the pairs whose later application matches the earlier, once each. */
  ghost predicate Exact(low: Lowering, x: Index) {
    && (forall r | r in x.records :: r.app < |x.apps| && r.duplicate < r.app)
    && forall a: nat, b: nat | a < b < |x.apps| ::
         Links(x.records, a, b) == if MatchesId(low, x.apps, b, a) then 1 else 0
  }

  lemma CreatedKeeps(low: Lowering, x: Index, deceased: Deceased, reference: string)
    requires Exact(low, x)
    ensures Exact(low, Created(low, x, deceased, reference, false))
  {
    hide Matches, Links, Identified;
    var n := |x.apps|;
    var y := Created(low, x, deceased, reference, false);
    var ids := Identified(low, y.apps, n, n + 1);
    forall a: nat, b: nat | a < b < n + 1
      ensures Links(y.records, a, b) == if MatchesId(low, y.apps, b, a) then 1 else 0
    {
      LinksAppend(x.records, n, ids, a, b);
      if b == n {
        LinksExact(x.records, a, b);
      }
    }
    assert forall k | 0 <= k < |ids| :: ids[k] in ids;
  }

  lemma {:induction false} EveryRunExact(low: Lowering, steps: seq<Step>)
    ensures Exact(low, Run(low, steps))
  {
    if steps != [] {
      var before := Run(low, steps[..|steps| - 1]);
      EveryRunExact(low, steps[..|steps| - 1]);
      match steps[|steps| - 1]
      case Create(deceased, reference, fails) =>
        if !fails {
          CreatedKeeps(low, before, deceased, reference);
        }
      case Assess(a, decision) =>
    }
  }

  /** One of two applications of which the later matches the earlier. */
  predicate Duplicates(low: Lowering, apps: seq<Application>, a: nat, b: nat)
    requires a < |apps| && b < |apps|
  {
    if a < b then MatchesId(low, apps, b, a) else b < a && MatchesId(low, apps, a, b)
  }

  /**
   After any run: a pending application's potential duplicates are all others matched in the order they came;
   otherwise none.
   */
  lemma EveryRunFindsAll(low: Lowering, steps: seq<Step>, a: nat)
    requires a < |Run(low, steps).apps|
    ensures var x := Run(low, steps);
            Potential(x.apps, x.records, a) ==
            if x.apps[a].decision == Pending then set b: nat | b < |x.apps| && Duplicates(low, x.apps, a, b) else {}
  {
    var x := Run(low, steps);
    EveryRunExact(low, steps);
    if x.apps[a].decision == Pending {
      LinkedIds(x.apps, x.records, a);
      hide Run, Links, Matches, Potential;
      forall b: nat | b < |x.apps|
        ensures Duplicates(low, x.apps, a, b) <==> b in Potential(x.apps, x.records, a)
      {
        LinkedExactly(low, x, a, b);
      }
    }
  }

  /**
   A new application is pending, comes after all others, which stay as they were, and at once has as potential
   duplicates all of them that it matches; a creation that fails leaves nothing.
   */
  lemma CreationFinds(low: Lowering, steps: seq<Step>, deceased: Deceased, reference: string, fails: bool)
    ensures var x, y := Run(low, steps), Run(low, steps + [Create(deceased, reference, fails)]);
            var n := |x.apps|;
            if fails then y == x
            else
              && y.apps == x.apps + [Application(deceased, Pending, reference)]
              && Potential(y.apps, y.records, n) == set b: nat | b < n && Matches(low, deceased, x.apps[b].deceased)
              && forall r :: r in y.records && r.app < n <==> r in x.records && r.app < n
  {
    var longer := steps + [Create(deceased, reference, fails)];
    assert longer[..|steps|] == steps;
    if !fails {
      var x, n := Run(low, steps), |Run(low, steps).apps|;
      var y := Run(low, longer);
      EveryRunFindsAll(low, longer, n);
      NewMembers(x.records, n, Identified(low, y.apps, n, n + 1));
      hide Matches, Identified, Potential;
      assert forall b: nat | b < n :: y.apps[b] == x.apps[b];
    }
  }

  lemma LinkedExactly(low: Lowering, x: Index, a: nat, b: nat)
    requires Exact(low, x) && a < |x.apps| && b < |x.apps|
    ensures Duplicates(low, x.apps, a, b) <==> Record(a, b) in x.records || Record(b, a) in x.records
  {
    hide Links, Matches;
    if a < b {
      LinksExact(x.records, a, b);
    } else if b < a {
      LinksExact(x.records, b, a);
    }
  }

  lemma LinkedIds(apps: seq<Application>, records: seq<Record>, a: nat)
    requires a < |apps| && apps[a].decision == Pending
    ensures forall b: nat :: b in Potential(apps, records, a) <==>
                             b < |apps| && (Record(a, b) in records || Record(b, a) in records)
  {
    forall b: nat | b < |apps| && (Record(a, b) in records || Record(b, a) in records)
      ensures b in Potential(apps, records, a)
    {
    }
  }

  /**
   Against comparing every pair by one rule: only the pairs the code misses are lost, and only those it confuses extra.
   */
  lemma EveryRunAgainstAlike(low: Lowering, steps: seq<Step>, a: nat, b: nat)
    requires a < |Run(low, steps).apps| && b < |Run(low, steps).apps| && a != b
    requires Run(low, steps).apps[a].decision == Pending && low.Sound()
    ensures var x := Run(low, steps);
            var newer, older := x.apps[if a < b then b else a].deceased, x.apps[if a < b then a else b].deceased;
            b in Potential(x.apps, x.records, a) <==>
            || (Alike(low, x.apps[a].deceased, x.apps[b].deceased) && !Missed(low, newer, older))
            || Confused(low, newer, older)
  {
    var x := Run(low, steps);
    EveryRunFindsAll(low, steps, a);
    AlikeIsSymmetric(low, x.apps[a].deceased, x.apps[b].deceased);
    MatchesExact(low, x.apps[if a < b then b else a].deceased, x.apps[if a < b then a else b].deceased);
  }

  /** Being a potential duplicate is symmetric among pending applications. */
  lemma EveryRunSymmetric(low: Lowering, steps: seq<Step>, a: nat, b: nat)
    requires var x := Run(low, steps);
             a < |x.apps| && b < |x.apps| && x.apps[a].decision == Pending && x.apps[b].decision == Pending
    ensures var x := Run(low, steps);
            b in Potential(x.apps, x.records, a) <==> a in Potential(x.apps, x.records, b)
  {
    EveryRunFindsAll(low, steps, a);
    EveryRunFindsAll(low, steps, b);
  }

  /** Of any records, whichever way round: those between two different pending applications, both ways round. */
  lemma PendingPairsExact(apps: seq<Application>, records: seq<Record>, a: nat, b: nat)
    ensures Record(a, b) in PendingPairs(apps, records) <==>
            && a != b && a < |apps| && b < |apps| && apps[a].decision == Pending && apps[b].decision == Pending
            && (Record(a, b) in records || Record(b, a) in records)
  {
    assert Record(b, a).app == b && Record(b, a).duplicate == a;
  }

  /** The backlog puts beside an application the references of just its pending potential duplicates. */
  lemma EveryRunBacklog(low: Lowering, steps: seq<Step>, a: nat, reference: string)
    requires Awaits(Run(low, steps).apps, a)
    ensures var x := Run(low, steps);
            reference in References(x.apps, PendingPairs(x.apps, x.records), a) <==>
            exists b: nat ::
              b in Potential(x.apps, x.records, a) && Awaits(x.apps, b) && x.apps[b].reference == reference
  {
    var x := Run(low, steps);
    var pairs := PendingPairs(x.apps, x.records);
    EveryRunExact(low, steps);
    assert Record(a, a) !in x.records;
    LinkedIds(x.apps, x.records, a);
    hide Run, Potential;
    forall b: nat | b in Potential(x.apps, x.records, a) && Awaits(x.apps, b)
      ensures x.apps[b].reference in References(x.apps, pairs, a)
    {
      assert Record(a, b) in pairs;
    }
  }

  // --------------------------------------------------------------------- backfill

  /** The backfill checks both applications of a pair against each other. */
  predicate Related(low: Lowering, apps: seq<Application>, a: nat, b: nat)
    requires a < |apps| && b < |apps|
  {
    MatchesId(low, apps, a, b) || MatchesId(low, apps, b, a)
  }

  predicate RelatedSoFar(low: Lowering, apps: seq<Application>, done: seq<nat>, a: nat, b: nat)
    requires a < |apps| && b < |apps|
  {
    (a in done && MatchesId(low, apps, a, b)) || (b in done && MatchesId(low, apps, b, a))
  }

  /** What the backfill does to a table: every record stays, and a related pair without a record gets exactly one. */
  ghost predicate Completes(low: Lowering, apps: seq<Application>, start: seq<Record>, records: seq<Record>) {
    && start <= records
    && (forall a: nat, b: nat | a < b < |apps| ::
          Links(records, a, b) == if Links(start, a, b) == 0 && Related(low, apps, a, b) then 1 else Links(start, a, b))
    && forall k | |start| <= k < |records| :: LinksTwo(apps, records[k])
  }

  /** How often a pair is recorded once the given applications are done: once if related and not recorded before. */
  function Backfilled(low: Lowering, apps: seq<Application>, start: seq<Record>, done: seq<nat>, a: nat, b: nat): nat
    requires a < |apps| && b < |apps|
  {
    if Links(start, a, b) == 0 && RelatedSoFar(low, apps, done, a, b) then 1 else Links(start, a, b)
  }

  predicate LinksTwo(apps: seq<Application>,
                     r: Record) { r.app < |apps| && r.duplicate < |apps| && r.app != r.duplicate }

  ghost predicate BackfilledSoFar(low: Lowering, apps: seq<Application>, start: seq<Record>, records: seq<Record>,
                                  done: seq<nat>) {
    && start <= records
    && (forall a: nat, b: nat | a < b < |apps| :: Links(records, a, b) == Backfilled(low, apps, start, done, a, b))
    && forall k | |start| <= k < |records| :: LinksTwo(apps, records[k])
  }

  lemma BackfillBegins(low: Lowering, apps: seq<Application>, start: seq<Record>)
    ensures BackfilledSoFar(low, apps, start, start, [])
  {
  }

  lemma BackfillPair(low: Lowering, apps: seq<Application>, start: seq<Record>, records: seq<Record>, done: seq<nat>,
                     x: nat,
                     missing: seq<nat>, a: nat, b: nat)
    requires x < |apps| && a < b < |apps|
    requires Links(records, a, b) == Backfilled(low, apps, start, done, a, b)
    requires missing == Unrecorded(AsSet(records), x, Identified(low, apps, x, |apps|))
    ensures Links(records + RecordsFor(x, missing), a, b) == Backfilled(low, apps, start, done + [x], a, b)
  {
    hide Matches, Links, Identified, Unrecorded;
    LinksExact(records, a, b);
    LinksAppend(records, x, missing, a, b);
  }

  /** Backfilling one application settles every pair it belongs to and leaves the others. */
  lemma BackfillStep(low: Lowering, apps: seq<Application>, start: seq<Record>, records: seq<Record>, done: seq<nat>,
                     x: nat, missing: seq<nat>)
    requires x < |apps| && BackfilledSoFar(low, apps, start, records, done)
    requires missing == Unrecorded(AsSet(records), x, Identified(low, apps, x, |apps|))
    ensures BackfilledSoFar(low, apps, start, records + RecordsFor(x, missing), done + [x])
    ensures AsSet(records + RecordsFor(x, missing)) == AsSet(records) + set d | d in missing :: Record(x, d)
  {
    hide Matches, Links, Backfilled, Identified, Unrecorded;
    forall a: nat, b: nat | a < b < |apps|
      ensures Links(records + RecordsFor(x, missing), a, b) == Backfilled(low, apps, start, done + [x], a, b)
    {
      BackfillPair(low, apps, start, records, done, x, missing, a, b);
    }
    NewMembers(records, x, missing);
    assert forall k | 0 <= k < |missing| :: missing[k] in missing;
  }

  lemma BackfillDone(low: Lowering, apps: seq<Application>, start: seq<Record>, records: seq<Record>, order: seq<nat>)
    requires BackfilledSoFar(low, apps, start, records, order) && forall a: nat :: a in order <==> a < |apps|
    ensures Completes(low, apps, start, records)
  {
    hide Links, Matches;
  }

  /** After the backfill a pending application finds every other one that matches it in either direction. */
  lemma BackfillFindsAll(low: Lowering, apps: seq<Application>, start: seq<Record>, records: seq<Record>, a: nat,
                         b: nat)
    requires Completes(low, apps, start, records) && Awaits(apps, a) && b < |apps| && a != b
    requires Record(a, b) in start || Record(b, a) in start ==> Related(low, apps, a, b)
    ensures b in Potential(apps, records, a) <==> Related(low, apps, a, b)
    ensures low.Sound() ==>
              (Related(low, apps, a, b) <==> EitherFinds(low, apps[a].deceased, apps[b].deceased))
  {
    LinkedIds(apps, records, a);
    hide Matches, Links, EitherFinds, Potential;
    var first, second := if a < b then a else b, if a < b then b else a;
    LinksExact(start, first, second);
    LinksExact(records, first, second);
    if low.Sound() {
      EitherWay(low, apps[a].deceased, apps[b].deceased);
    }
  }

  /** Alike, and not missed both ways round; or confused one way round. */
  predicate EitherFinds(low: Lowering, a: Deceased, b: Deceased) {
    || (Alike(low, a, b) && !(Missed(low, a, b) && Missed(low, b, a)))
    || Confused(low, a, b) || Confused(low, b, a)
  }

  lemma EitherWay(low: Lowering, a: Deceased, b: Deceased)
    requires low.Sound()
    ensures Matches(low, a, b) || Matches(low, b, a) <==> EitherFinds(low, a, b)
  {
    hide Matches, Alike, Missed, Confused, Lowering.Sound;
    MatchesExact(low, a, b);
    MatchesExact(low, b, a);
    AlikeIsSymmetric(low, a, b);
  }

  lemma {:induction false} LinksConcat(first: seq<Record>, second: seq<Record>, a: nat, b: nat)
    ensures Links(first + second, a, b) == Links(first, a, b) + Links(second, a, b)
  {
    if second == [] {
      assert first + second == first;
    } else {
      assert (first + second)[..|first + second| - 1] == first + second[..|second| - 1];
      LinksConcat(first, second[..|second| - 1], a, b);
    }
  }

  /** A table with a record added links some pair more often. */
  lemma MoreLinks(apps: seq<Application>, records: seq<Record>, again: seq<Record>) returns (low: nat, high: nat)
    requires records < again && LinksTwo(apps, again[|records|])
    ensures low < high < |apps| && Links(again, low, high) > Links(records, low, high)
  {
    var added := again[|records|..];
    var r := added[0];
    low, high := if r.app < r.duplicate then r.app else r.duplicate, if r.app < r.duplicate then r.duplicate else r.app;
    LinksConcat(records, added, low, high);
    assert again == records + added;
    LinksExact(added, low, high);
  }

  /** A second backfill over the same applications adds nothing. */
  lemma SecondBackfillAddsNothing(low: Lowering, apps: seq<Application>, start: seq<Record>, records: seq<Record>,
                                  again: seq<Record>)
    requires Completes(low, apps, start, records) && Completes(low, apps, records, again)
    ensures again == records
  {
    hide Links, Matches;
    if |again| > |records| {
      var _, _ := MoreLinks(apps, records, again);
    }
  }
}
